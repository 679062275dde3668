/** The two interpolating minimum-interval scenarios of the repository's
    synchronizer tests in which stream 1 trails stream 0. The minimum
    interval is 10, and both streams use LinearInterpolate policies of
    history window 100 and prediction window 0. Stamps of stream 0 that
    stream 1 has already passed expire, and stream 0 is interpolated at
    stream 1's stamps. */
module CatchUp {
  import opened Types
  import opened MapStorage
  import opened Interpolation
  import opened Policies
  import opened Synchronizer
  import opened JoinSteps
  import I = Interpolated
  import LI = LinearInterpolate

  /** Stream 0 holding `front`, stream 1 holding `back`, at pivot `p`. */
  function Lagging(front: seq<(Time, real)>, back: seq<(Time, real)>, p: int): Sync<real> {
    Sync([I.Lerp(front), I.Lerp(back)], MinInterval(10), Additive(), p)
  }

  /** Every stamp of an increasing sequence lies between its first and
      last. */
  lemma {:induction false} StampsBetween(es: seq<(Time, real)>)
    requires Increasing(es) && |es| > 0
    ensures forall x | x in Stamps(Storage(es, 100)) :: es[0].0 <= x <= es[|es| - 1].0
  {
    IncreasingOrdered(es);
    forall x | x in Stamps(Storage(es, 100))
      ensures es[0].0 <= x <= es[|es| - 1].0
    {
      var i :| 0 <= i < |es| && es[i].0 == x;
    }
  }

  // ------------------------------------------------------ stream 0 alone

  /** With stream 1 empty the first candidate, stream 0's first stamp, is
      NotReady. */
  lemma {:induction false} FrontSteps(front: seq<(Time, real)>)
    requires Increasing(front) && |front| > 0 && front[0].0 == 0
    ensures PartsWellFormed(Lagging(front, [], -1).parts)
    ensures var ps := Lagging(front, [], -1).parts;
            Candidate(ps, -1, Normal) == 0 && TryEmit(ps, 0, Additive()).0 == EmitNotReady
  {
    var ps := Lagging(front, [], -1).parts;
    VisiblePair(ps[0].policy, ps[1].policy, Normal);
    StampsBetween(front);
    assert front[0].0 in Stamps(ps[0].policy.storage);
    CandidateIs(ps, -1, Normal, 0);
    TryEmitTwo(ps[0].policy, ps[1].policy, 0, Additive());
    assert Peek(ps[1].policy, 0, Additive()).1 == PeekNotReady;
  }

  lemma {:induction false} FrontJoin(front: seq<(Time, real)>)
    requires Increasing(front) && |front| > 0 && front[0].0 == 0
    ensures Synchronizer.Valid(Lagging(front, [], -1))
    ensures Join(Lagging(front, [], -1)) == JoinResult(-1, [])
  {
    FrontSteps(front);
    JoinStops(Lagging(front, [], -1));
  }

  /** A stream-0 message newer than the rest, within the window of the
      first stamp, is appended to stream 0. */
  lemma {:induction false} FrontInstall(front: seq<(Time, real)>, t: Time, m: real)
    requires Increasing(front) && (|front| == 0 || front[|front| - 1].0 < t)
    requires (front + [(t, m)])[0].0 >= t - 100
    ensures var s := Lagging(front, [], -1);
            && Synchronizer.Valid(s) && Increasing(front + [(t, m)])
            && PartPush(s.parts[0], t, Plain(m)) == Ok((true, I.Lerp(front + [(t, m)])))
            && s.(parts := s.parts[0 := I.Lerp(front + [(t, m)])]) == Lagging(front + [(t, m)], [], -1)
  {
    var s := Lagging(front, [], -1);
    AppendIncreasing(front, t, m);
    I.LerpAppend(front, t, m, front + [(t, m)]);
    assert s.parts[0 := I.Lerp(front + [(t, m)])] == Lagging(front + [(t, m)], [], -1).parts;
  }

  /** While stream 1 is empty, a stream-0 message newer than the rest and
      within the window of its first stamp 0 is Accepted; the pivot stays
      at -1. */
  lemma {:induction false} FrontAccepted(front: seq<(Time, real)>, t: Time, m: real)
    requires Increasing(front) && (|front| == 0 || front[|front| - 1].0 < t)
    requires (front + [(t, m)])[0].0 == 0 && t <= 100
    ensures Synchronizer.Valid(Lagging(front, [], -1))
    ensures Pushed(Lagging(front, [], -1), 0, t, Plain(m)) == Reply(Lagging(front + [(t, m)], [], -1), Ok(Accepted), [])
  {
    FrontInstall(front, t, m);
    FrontJoin(front + [(t, m)]);
    PushJoined(Lagging(front, [], -1), 0, t, Plain(m), I.Lerp(front + [(t, m)]), Lagging(front + [(t, m)], [], -1), JoinResult(-1, []));
  }

  // ------------------------------------------- stream 1 far behind: ramp

  /** Stream 0's samples at 0, 2, ..., 10 are each Accepted. */
  lemma {:induction false} RampAccepted(a: seq<real>, n: nat)
    requires n < |a| == 6
    ensures Synchronizer.Valid(Lagging(I.Evens(a, n), [], -1))
    ensures Pushed(Lagging(I.Evens(a, n), [], -1), 0, 2 * n, Plain(a[n]))
            == Reply(Lagging(I.Evens(a, n + 1), [], -1), Ok(Accepted), [])
  {
    I.EvensGrow(a, n);
    FrontAccepted(I.Evens(a, n), 2 * n, a[n]);
  }

  /** The streams after stream 1's message at 9. */
  function RampParts(a: seq<real>, c: real): seq<Participant<real>>
    requires |a| == 6
  {
    [I.Lerp(I.Evens(a, 6)), I.Lerp([(9, c)])]
  }

  /** The pivot before the `k`-th round of the catch-up join. */
  function Before(k: nat): int {
    if k == 0 then -1 else 2 * k - 2
  }

  /** Every stamp of the ramp is even and below 12. */
  lemma {:induction false} RampStamps(a: seq<real>)
    requires |a| == 6
    ensures Increasing(I.Evens(a, 6))
    ensures forall x | x in Stamps(Storage(I.Evens(a, 6), 100)) :: exists i | 0 <= i < 6 :: x == 2 * i
  {
    var es := I.Evens(a, 6);
    forall x | x in Stamps(Storage(es, 100))
      ensures exists i | 0 <= i < 6 :: x == 2 * i
    {
      var i :| 0 <= i < 6 && es[i].0 == x;
    }
  }

  /** Both streams are well formed, and the visible stamps are stream 0's
      even stamps below 12 together with 9. */
  lemma {:induction false} RampVisible(a: seq<real>, c: real)
    requires |a| == 6
    ensures var ps := RampParts(a, c);
            && PartsWellFormed(ps)
            && (forall x | x in VisibleAll(ps, Normal) :: x == 9 || exists i | 0 <= i < 6 :: x == 2 * i)
            && 9 in VisibleAll(ps, Normal)
            && forall i | 0 <= i < 6 :: 2 * i in VisibleAll(ps, Normal)
  {
    var ps := RampParts(a, c);
    RampStamps(a);
    VisiblePair(ps[0].policy, ps[1].policy, Normal);
    StampsOne(ps[1].policy.storage, 9);
    forall i | 0 <= i < 6
      ensures 2 * i in VisibleAll(ps, Normal)
    {
      assert ps[0].policy.storage.entries[i].0 == 2 * i;
    }
  }

  /** Stream 1's lone sample at 9 has passed every earlier stamp and holds
      its own. */
  lemma {:induction false} BackPeeks(c: real, t: Time)
    requires t <= 9
    ensures var q := I.Lerp([(9, c)]).policy;
            && WellFormed(q)
            && Peek(q, t, Additive()) == if t < 9 then (None, PeekExpired) else (Some(c), PeekSuccess)
  {
    var q := I.Lerp([(9, c)]).policy;
    assert q.storage.entries[0] == (9, c);
    if t == 9 {
      assert FindPre(q.storage, 9) == Some(0);
    } else {
      assert FindPre(q.storage, t) == None;
    }
  }

  /** Stream 0 is interpolated at 9 halfway between its samples at 8 and
      10. */
  lemma {:induction false} FrontAtNine(a: seq<real>)
    requires |a| == 6
    ensures var p := I.Lerp(I.Evens(a, 6)).policy;
            && WellFormed(p)
            && Peek(p, 9, Additive()) == (Some((a[4] + a[5]) / 2.0), PeekSuccess)
  {
    var p := I.Lerp(I.Evens(a, 6)).policy;
    assert p.storage.entries[4] == (8, a[4]) && p.storage.entries[5] == (10, a[5]);
    LI.Interpolates(p.storage, 9, 0, Additive(), 4);
    LI.AdditiveEstimate(a[4], a[5], 8, 10, 9);
  }

  /** From pivot `Before(k)` the candidate is stream 0's stamp `2k`, which
      stream 1 has passed: it expires. */
  lemma {:induction false} RampExpires(a: seq<real>, c: real, k: nat)
    requires |a| == 6 && k <= 4
    ensures var ps := RampParts(a, c);
            && PartsWellFormed(ps)
            && Candidate(ps, Before(k), Normal) == 2 * k
            && TryEmit(ps, 2 * k, Additive()).0 == EmitExpired
  {
    var ps := RampParts(a, c);
    RampVisible(a, c);
    CandidateIs(ps, Before(k), Normal, 2 * k);
    BackPeeks(c, 2 * k);
    TryEmitTwo(ps[0].policy, ps[1].policy, 2 * k, Additive());
  }

  /** From pivot 8 the candidate is 9, where both streams succeed;
      afterwards nothing lies beyond the new pivot 18. */
  lemma {:induction false} RampMeets(a: seq<real>, c: real)
    requires |a| == 6
    ensures var ps := RampParts(a, c);
            && PartsWellFormed(ps)
            && Candidate(ps, 8, Normal) == 9 && Candidate(ps, 18, Normal) == TimeMax
            && TryEmit(ps, 9, Additive()) == (EmitSuccess, [One(Some((a[4] + a[5]) / 2.0)), One(Some(c))])
  {
    var ps := RampParts(a, c);
    RampVisible(a, c);
    CandidateIs(ps, 8, Normal, 9);
    CandidateNone(ps, 18, Normal);
    BackPeeks(c, 9);
    FrontAtNine(a);
    TryEmitTwo(ps[0].policy, ps[1].policy, 9, Additive());
  }

  /** Any join loop whose candidates from -1 are 0, 2, 4, 6 and 8, each
      expiring, then 9, which succeeds, and then none past 18, emits once
      at 9 and stops at pivot 18, whichever of those rounds it starts at. */
  lemma {:induction false} RampLoop<M>(v: View<M>, outs: seq<Output<M>>, k: nat)
    requires Advancing(v) && k <= 5
    requires forall j | 0 <= j <= 4 :: v.next(Before(j)) == 2 * j && v.attempt(2 * j).0 == EmitExpired
    requires v.next(8) == 9 && v.attempt(9) == (EmitSuccess, outs) && v.next(18) == TimeMax
    ensures Loop(v, MinInterval(10), Before(k)) == JoinResult(18, [Emission(9, outs)])
    decreases 5 - k
  {
    if k == 5 {
      EmitThenStop(v, MinInterval(10), 8, 9, outs, 18);
    } else {
      ExpiredRound(v, MinInterval(10), Before(k), 2 * k);
      assert Before(k + 1) == 2 * k;
      RampLoop(v, outs, k + 1);
    }
  }

  /** The join after stream 1's message at 9: stream 0's stamps 0 to 8
      expire one by one, then the pair at 9 is emitted and the pivot
      becomes 18. */
  lemma {:induction false} RampJoin(a: seq<real>, c: real)
    requires |a| == 6
    ensures Synchronizer.Valid(Lagging(I.Evens(a, 6), [(9, c)], -1))
    ensures Join(Lagging(I.Evens(a, 6), [(9, c)], -1))
            == JoinResult(18, [Emission(9, [One(Some((a[4] + a[5]) / 2.0)), One(Some(c))])])
  {
    var s := Lagging(I.Evens(a, 6), [(9, c)], -1);
    var ps := RampParts(a, c);
    RampMeets(a, c);
    assert s.parts == ps;
    ViewAdvances(ps, s.mode, s.ip);
    var v := ViewOf(ps, s.mode, s.ip);
    forall j | 0 <= j <= 4
      ensures v.next(Before(j)) == 2 * j && v.attempt(2 * j).0 == EmitExpired
    {
      RampExpires(a, c, j);
    }
    RampLoop(v, [One(Some((a[4] + a[5]) / 2.0)), One(Some(c))], 0);
  }

  /** Stream 1's message at 9 is stored alone and installed beside the
      ramp. */
  lemma {:induction false} RampInstall(a: seq<real>, c: real)
    requires |a| == 6
    ensures var s := Lagging(I.Evens(a, 6), [], -1);
            && Synchronizer.Valid(s)
            && PartPush(s.parts[1], 9, Plain(c)) == Ok((true, I.Lerp([(9, c)])))
            && s.(parts := s.parts[1 := I.Lerp([(9, c)])]) == Lagging(I.Evens(a, 6), [(9, c)], -1)
  {
    var s := Lagging(I.Evens(a, 6), [], -1);
    I.LerpAppend([], 9, c, [(9, c)]);
    assert s.parts[1 := I.Lerp([(9, c)])] == Lagging(I.Evens(a, 6), [(9, c)], -1).parts;
  }

  /** Stream 1's message at 9 expires stream 0's stamps 0 to 8 and is
      Emitted once, at 9, with the pivot moved to 18. */
  lemma {:induction false} RampCaughtUp(a: seq<real>, c: real)
    requires |a| == 6
    ensures Synchronizer.Valid(Lagging(I.Evens(a, 6), [], -1))
    ensures Pushed(Lagging(I.Evens(a, 6), [], -1), 1, 9, Plain(c))
            == Reply(Lagging(I.Evens(a, 6), [(9, c)], 18), Ok(Emitted), [Emission(9, [One(Some((a[4] + a[5]) / 2.0)), One(Some(c))])])
  {
    var d := Lagging(I.Evens(a, 6), [(9, c)], -1);
    RampInstall(a, c);
    RampJoin(a, c);
    PushJoined(Lagging(I.Evens(a, 6), [], -1), 1, 9, Plain(c), I.Lerp([(9, c)]), d,
               JoinResult(18, [Emission(9, [One(Some((a[4] + a[5]) / 2.0)), One(Some(c))])]));
  }

  // ------------------------------------- stream 1 trailing three samples

  /** Stream 0's samples at 0, 10 and 20. */
  function Three(a0: real, a1: real, a2: real): seq<(Time, real)> {
    [(0, a0), (10, a1), (20, a2)]
  }

  lemma {:induction false} ThreeIncreasing(a0: real, a1: real, a2: real)
    ensures Increasing(Three(a0, a1, a2))
    ensures Stamps(Storage(Three(a0, a1, a2), 100)) == {0, 10, 20}
  {
    TwoIncreasing(0, a0, 10, a1);
    AppendIncreasing([(0, a0), (10, a1)], 20, a2);
    assert [(0, a0), (10, a1)] + [(20, a2)] == Three(a0, a1, a2);
    StampsThree(Storage(Three(a0, a1, a2), 100), 0, 10, 20);
  }

  /** Stream 0's three samples are each Accepted while stream 1 is
      empty. */
  lemma {:induction false} ThreeAccepted(a0: real, a1: real, a2: real)
    ensures Pushed(Lagging([], [], -1), 0, 0, Plain(a0)) == Reply(Lagging([(0, a0)], [], -1), Ok(Accepted), [])
    ensures Pushed(Lagging([(0, a0)], [], -1), 0, 10, Plain(a1)) == Reply(Lagging([(0, a0), (10, a1)], [], -1), Ok(Accepted), [])
    ensures Pushed(Lagging([(0, a0), (10, a1)], [], -1), 0, 20, Plain(a2)) == Reply(Lagging(Three(a0, a1, a2), [], -1), Ok(Accepted), [])
  {
    assert [] + [(0, a0)] == [(0, a0)];
    FrontAccepted([], 0, a0);
    assert [(0, a0)] + [(10, a1)] == [(0, a0), (10, a1)];
    FrontAccepted([(0, a0)], 10, a1);
    ThirdAccepted(a0, a1, a2);
  }

  /** The third of those pushes, at 20. */
  lemma {:induction false} ThirdAccepted(a0: real, a1: real, a2: real)
    ensures Synchronizer.Valid(Lagging([(0, a0), (10, a1)], [], -1))
    ensures Pushed(Lagging([(0, a0), (10, a1)], [], -1), 0, 20, Plain(a2)) == Reply(Lagging(Three(a0, a1, a2), [], -1), Ok(Accepted), [])
  {
    TwoIncreasing(0, a0, 10, a1);
    assert [(0, a0), (10, a1)] + [(20, a2)] == Three(a0, a1, a2);
    FrontAccepted([(0, a0), (10, a1)], 20, a2);
  }

  /** A stream-1 message newer than the rest, within the window of the
      first stamp, is appended to stream 1. */
  lemma {:induction false} BackInstall(front: seq<(Time, real)>, back: seq<(Time, real)>, p: int, t: Time, m: real)
    requires Increasing(front) && Increasing(back) && (|back| == 0 || back[|back| - 1].0 < t)
    requires (back + [(t, m)])[0].0 >= t - 100
    ensures var s := Lagging(front, back, p);
            && Synchronizer.Valid(s) && Increasing(back + [(t, m)])
            && PartPush(s.parts[1], t, Plain(m)) == Ok((true, I.Lerp(back + [(t, m)])))
            && s.(parts := s.parts[1 := I.Lerp(back + [(t, m)])]) == Lagging(front, back + [(t, m)], p)
  {
    var s := Lagging(front, back, p);
    AppendIncreasing(back, t, m);
    I.LerpAppend(back, t, m, back + [(t, m)]);
    assert s.parts[1 := I.Lerp(back + [(t, m)])] == Lagging(front, back + [(t, m)], p).parts;
  }

  /** A tenth of the way along the line between samples ten apart. */
  lemma {:induction false} TenthOfWay(x: real, y: real, t0: Time)
    requires t0 + 10 <= TimeMax
    ensures LI.Estimate(Additive(), (t0, x), (t0 + 10, y), t0 + 1) == x + (y - x) / 10.0
  {
    LI.AdditiveEstimate(x, y, t0, t0 + 10, t0 + 1);
  }

  /** Stream 0's samples interpolated at 1 and at 11, a tenth of the way
      from 0 to 10 and from 10 to 20. */
  lemma {:induction false} ThreePeeks(a0: real, a1: real, a2: real)
    ensures var p := I.Lerp(Three(a0, a1, a2)).policy;
            && WellFormed(p)
            && Peek(p, 1, Additive()) == (Some(a0 + (a1 - a0) / 10.0), PeekSuccess)
            && Peek(p, 11, Additive()) == (Some(a1 + (a2 - a1) / 10.0), PeekSuccess)
  {
    var p := I.Lerp(Three(a0, a1, a2)).policy;
    ThreeIncreasing(a0, a1, a2);
    LI.Interpolates(p.storage, 1, 0, Additive(), 0);
    TenthOfWay(a0, a1, 0);
    LI.Interpolates(p.storage, 11, 0, Additive(), 1);
    TenthOfWay(a1, a2, 10);
  }

  /** Stream 1's lone sample at 1: stamp 0 has expired, 1 is held, and 20
      is not ready. */
  lemma {:induction false} LonePeeks(b0: real)
    ensures var q := I.Lerp([(1, b0)]).policy;
            && WellFormed(q)
            && Peek(q, 0, Additive()) == (None, PeekExpired)
            && Peek(q, 1, Additive()) == (Some(b0), PeekSuccess)
            && Peek(q, 20, Additive()).1 == PeekNotReady
  {
    var q := I.Lerp([(1, b0)]).policy;
    assert q.storage.entries[0] == (1, b0);
  }

  /** With stream 1 holding only its sample at 1 the candidates after
      -1, 0 and 10 are 0, 1 and 20. */
  lemma {:induction false} FirstLateCandidates(a0: real, a1: real, a2: real, b0: real)
    ensures var ps := Lagging(Three(a0, a1, a2), [(1, b0)], -1).parts;
            && PartsWellFormed(ps)
            && Candidate(ps, -1, Normal) == 0 && Candidate(ps, 0, Normal) == 1 && Candidate(ps, 10, Normal) == 20
  {
    var ps := Lagging(Three(a0, a1, a2), [(1, b0)], -1).parts;
    ThreeIncreasing(a0, a1, a2);
    VisiblePair(ps[0].policy, ps[1].policy, Normal);
    StampsOne(ps[1].policy.storage, 1);
    CandidateIs(ps, -1, Normal, 0);
    CandidateIs(ps, 0, Normal, 1);
    CandidateIs(ps, 10, Normal, 20);
  }

  /** Stream 1's first message, at 1: stream 0's stamp 0 has expired; at 1
      stream 0 is interpolated between 0 and 10; at the next candidate 20
      stream 1's lone sample cannot be extended. */
  lemma {:induction false} FirstLateSteps(a0: real, a1: real, a2: real, b0: real)
    ensures var ps := Lagging(Three(a0, a1, a2), [(1, b0)], -1).parts;
            && PartsWellFormed(ps)
            && TryEmit(ps, 0, Additive()).0 == EmitExpired
            && TryEmit(ps, 1, Additive()) == (EmitSuccess, [One(Some(a0 + (a1 - a0) / 10.0)), One(Some(b0))])
            && TryEmit(ps, 20, Additive()).0 == EmitNotReady
  {
    var ps := Lagging(Three(a0, a1, a2), [(1, b0)], -1).parts;
    ThreePeeks(a0, a1, a2);
    LonePeeks(b0);
    TryEmitTwo(ps[0].policy, ps[1].policy, 0, Additive());
    TryEmitTwo(ps[0].policy, ps[1].policy, 1, Additive());
    TryEmitTwo(ps[0].policy, ps[1].policy, 20, Additive());
  }

  /** Stream 1's first message, at 1, is Emitted once, at 1, and the pivot
      moves to 10. */
  lemma {:induction false} FirstLate(a0: real, a1: real, a2: real, b0: real)
    ensures Synchronizer.Valid(Lagging(Three(a0, a1, a2), [], -1))
    ensures Pushed(Lagging(Three(a0, a1, a2), [], -1), 1, 1, Plain(b0))
            == Reply(Lagging(Three(a0, a1, a2), [(1, b0)], 10), Ok(Emitted),
                     [Emission(1, [One(Some(a0 + (a1 - a0) / 10.0)), One(Some(b0))])])
  {
    var d := Lagging(Three(a0, a1, a2), [(1, b0)], -1);
    var outs := [One(Some(a0 + (a1 - a0) / 10.0)), One(Some(b0))];
    ThreeIncreasing(a0, a1, a2);
    assert [] + [(1, b0)] == [(1, b0)];
    BackInstall(Three(a0, a1, a2), [], -1, 1, b0);
    FirstLateCandidates(a0, a1, a2, b0);
    FirstLateSteps(a0, a1, a2, b0);
    ViewAdvances(d.parts, d.mode, d.ip);
    var v := ViewOf(d.parts, d.mode, d.ip);
    ExpiredRound(v, d.mode, -1, 0);
    EmitThenStop(v, d.mode, 0, 1, outs, 10);
    PushJoined(Lagging(Three(a0, a1, a2), [], -1), 1, 1, Plain(b0), I.Lerp([(1, b0)]), d, JoinResult(10, [Emission(1, outs)]));
  }

  /** With stream 1 holding two or more samples, none after 10, the
      candidate after pivot 10 is stream 0's 20, and the prediction window
      of 0 keeps stream 1 from reaching it: NotReady. */
  lemma {:induction false} WaitSteps(a0: real, a1: real, a2: real, back: seq<(Time, real)>)
    requires Increasing(back) && |back| >= 2 && back[|back| - 1].0 <= 10
    ensures var ps := Lagging(Three(a0, a1, a2), back, 10).parts;
            && PartsWellFormed(ps)
            && Candidate(ps, 10, Normal) == 20 && TryEmit(ps, 20, Additive()).0 == EmitNotReady
  {
    var ps := Lagging(Three(a0, a1, a2), back, 10).parts;
    var p, q := ps[0].policy, ps[1].policy;
    ThreeIncreasing(a0, a1, a2);
    StampsBetween(back);
    VisiblePair(p, q, Normal);
    CandidateIs(ps, 10, Normal, 20);
    TryEmitTwo(p, q, 20, Additive());
    LI.Extrapolates(q.storage, 20, 0, Additive());
    assert Peek(q, 20, Additive()).1 == PeekNotReady;
  }

  /** Stream 1's messages at 3, 6 and 8: each is Accepted and the pivot
      stays at 10. */
  lemma {:induction false} LateWaits(a0: real, a1: real, a2: real, back: seq<(Time, real)>, t: Time, m: real)
    requires Increasing(back) && |back| > 0 && back[|back| - 1].0 < t <= 10 && back[0].0 >= t - 100
    ensures Synchronizer.Valid(Lagging(Three(a0, a1, a2), back, 10))
    ensures Pushed(Lagging(Three(a0, a1, a2), back, 10), 1, t, Plain(m))
            == Reply(Lagging(Three(a0, a1, a2), back + [(t, m)], 10), Ok(Accepted), [])
  {
    var d := Lagging(Three(a0, a1, a2), back + [(t, m)], 10);
    ThreeIncreasing(a0, a1, a2);
    BackInstall(Three(a0, a1, a2), back, 10, t, m);
    WaitSteps(a0, a1, a2, back + [(t, m)]);
    JoinStops(d);
    PushJoined(Lagging(Three(a0, a1, a2), back, 10), 1, t, Plain(m), I.Lerp(back + [(t, m)]), d, JoinResult(10, []));
  }

  /** Stream 1 at 11, after samples none later than 10: the candidate
      after 10 is 11, and nothing lies after 20. */
  lemma {:induction false} CatchCandidates(a0: real, a1: real, a2: real, back: seq<(Time, real)>, m: real)
    requires Increasing(back) && |back| > 0 && back[|back| - 1].0 <= 10
    ensures var ps := Lagging(Three(a0, a1, a2), back + [(11, m)], 10).parts;
            && PartsWellFormed(ps)
            && Candidate(ps, 10, Normal) == 11 && Candidate(ps, 20, Normal) == TimeMax
  {
    var back' := back + [(11, m)];
    var ps := Lagging(Three(a0, a1, a2), back', 10).parts;
    ThreeIncreasing(a0, a1, a2);
    AppendIncreasing(back, 11, m);
    VisiblePair(ps[0].policy, ps[1].policy, Normal);
    assert back'[|back'| - 1].0 == 11;
    assert 11 in Stamps(ps[1].policy.storage);
    StampsBefore(back, m);
    CandidateIs(ps, 10, Normal, 11);
    CandidateNone(ps, 20, Normal);
  }

  /** Appending a sample at 11 to samples none later than 10 adds no stamp
      between 10 and 11. */
  lemma {:induction false} StampsBefore(back: seq<(Time, real)>, m: real)
    requires Increasing(back) && |back| > 0 && back[|back| - 1].0 <= 10
    ensures forall x | x in Stamps(Storage(back + [(11, m)], 100)) :: x <= 10 || x == 11
  {
    StampsBetween(back);
    var back' := back + [(11, m)];
    forall x | x in Stamps(Storage(back', 100))
      ensures x <= 10 || x == 11
    {
      var i :| 0 <= i < |back'| && back'[i].0 == x;
      if i < |back| {
        assert back[i].0 in Stamps(Storage(back, 100));
      }
    }
  }

  /** At 11 stream 1 has an exact hit and stream 0 is interpolated between
      10 and 20. */
  lemma {:induction false} CatchSteps(a0: real, a1: real, a2: real, back: seq<(Time, real)>, m: real)
    requires Increasing(back + [(11, m)])
    ensures var ps := Lagging(Three(a0, a1, a2), back + [(11, m)], 10).parts;
            && PartsWellFormed(ps)
            && TryEmit(ps, 11, Additive()) == (EmitSuccess, [One(Some(a1 + (a2 - a1) / 10.0)), One(Some(m))])
  {
    var back' := back + [(11, m)];
    var ps := Lagging(Three(a0, a1, a2), back', 10).parts;
    var q := ps[1].policy;
    ThreePeeks(a0, a1, a2);
    assert q.storage.entries[|back'| - 1] == (11, m);
    assert Peek(q, 11, Additive()) == (Some(m), PeekSuccess);
    TryEmitTwo(ps[0].policy, q, 11, Additive());
  }

  /** Stream 1's message at 11 is Emitted once, at 11, with stream 0
      interpolated between 10 and 20, and the pivot moves to 20. */
  lemma {:induction false} LateCatches(a0: real, a1: real, a2: real, back: seq<(Time, real)>, m: real)
    requires Increasing(back) && |back| > 0 && back[|back| - 1].0 <= 10 && back[0].0 >= -89
    ensures Synchronizer.Valid(Lagging(Three(a0, a1, a2), back, 10))
    ensures Pushed(Lagging(Three(a0, a1, a2), back, 10), 1, 11, Plain(m))
            == Reply(Lagging(Three(a0, a1, a2), back + [(11, m)], 20), Ok(Emitted),
                     [Emission(11, [One(Some(a1 + (a2 - a1) / 10.0)), One(Some(m))])])
  {
    var d := Lagging(Three(a0, a1, a2), back + [(11, m)], 10);
    var outs := [One(Some(a1 + (a2 - a1) / 10.0)), One(Some(m))];
    ThreeIncreasing(a0, a1, a2);
    BackInstall(Three(a0, a1, a2), back, 10, 11, m);
    CatchCandidates(a0, a1, a2, back, m);
    CatchSteps(a0, a1, a2, back, m);
    JoinEmitsOnce(d, 11, outs, 20);
    PushJoined(Lagging(Three(a0, a1, a2), back, 10), 1, 11, Plain(m), I.Lerp(back + [(11, m)]), d, JoinResult(20, [Emission(11, outs)]));
  }
}
