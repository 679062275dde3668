/** The ExactTime scenarios of the repository's synchronizer tests,
    replayed through the push semantics with concrete stamps: two streams
    of ExactTime policies with history window 100 under a minimum interval
    of 10. Payloads are arbitrary reals. */
module Scenarios {
  import opened Types
  import opened MapStorage
  import opened Interpolation
  import opened Policies
  import opened Synchronizer
  import opened JoinSteps

  /** A Normal ExactTime policy holding `es`, with history window 100. */
  function Exact(es: seq<(Time, real)>): Participant<real> {
    Single(Policy(Storage(es, 100), Normal, ExactTime))
  }

  /** Stream 0 holding `a`, stream 1 holding `b`, at pivot `p`; the fresh
      synchronizer `Init([Exact([]), Exact([])], MinInterval(10), Additive())`
      is `Pair([], [], -1)`. */
  function Pair(a: seq<(Time, real)>, b: seq<(Time, real)>, p: int): Sync<real> {
    Sync([Exact(a), Exact(b)], MinInterval(10), Additive(), p)
  }

  /** A message newer than everything stored, inside the window of 100,
      is appended without eviction. */
  lemma {:induction false} ExactAppend(es: seq<(Time, real)>, t: Time, m: real, es': seq<(Time, real)>)
    requires Increasing(es) && (|es| == 0 || es[|es| - 1].0 < t)
    requires (es + [(t, m)])[0].0 >= t - 100 && es' == es + [(t, m)]
    ensures PartPush(Exact(es), t, Plain(m)) == Ok((true, Exact(es')))
  {
  }

  /** A push on stream 0 of a message newer than everything there, inside
      the window: the reply is the join `j` of the appended state. */
  lemma {:induction false} PushFirst(e0: seq<(Time, real)>, e1: seq<(Time, real)>, p: int, t: Time, m: real,
                                     n0: seq<(Time, real)>, j: JoinResult<real>)
    requires Increasing(e0) && Increasing(e1) && (|e0| == 0 || e0[|e0| - 1].0 < t)
    requires (e0 + [(t, m)])[0].0 >= t - 100 && n0 == e0 + [(t, m)]
    requires Synchronizer.Valid(Pair(n0, e1, p)) && Join(Pair(n0, e1, p)) == j
    ensures Synchronizer.Valid(Pair(e0, e1, p))
    ensures Pushed(Pair(e0, e1, p), 0, t, Plain(m)) == Reply(Pair(n0, e1, j.pivot), Ok(if |j.trace| > 0 then Emitted else Accepted), j.trace)
  {
    FirstInstall(e0, e1, p, t, m, n0);
    PushJoined(Pair(e0, e1, p), 0, t, Plain(m), Exact(n0), Pair(n0, e1, p), j);
  }

  /** A message newer than everything on stream 0, inside the window, is
      appended there and nothing else changes. */
  lemma {:induction false} FirstInstall(e0: seq<(Time, real)>, e1: seq<(Time, real)>, p: int, t: Time, m: real,
                                        n0: seq<(Time, real)>)
    requires Increasing(e0) && Increasing(e1) && (|e0| == 0 || e0[|e0| - 1].0 < t)
    requires (e0 + [(t, m)])[0].0 >= t - 100 && n0 == e0 + [(t, m)]
    ensures var s := Pair(e0, e1, p);
            && Synchronizer.Valid(s)
            && PartPush(s.parts[0], t, Plain(m)) == Ok((true, Exact(n0)))
            && s.(parts := s.parts[0 := Exact(n0)]) == Pair(n0, e1, p)
  {
    var s := Pair(e0, e1, p);
    ExactAppend(e0, t, m, n0);
    assert s.parts[0 := Exact(n0)] == Pair(n0, e1, p).parts;
  }

  /** The same on stream 1. */
  lemma {:induction false} PushSecond(e0: seq<(Time, real)>, e1: seq<(Time, real)>, p: int, t: Time, m: real,
                                      n1: seq<(Time, real)>, j: JoinResult<real>)
    requires Increasing(e0) && Increasing(e1) && (|e1| == 0 || e1[|e1| - 1].0 < t)
    requires (e1 + [(t, m)])[0].0 >= t - 100 && n1 == e1 + [(t, m)]
    requires Synchronizer.Valid(Pair(e0, n1, p)) && Join(Pair(e0, n1, p)) == j
    ensures Synchronizer.Valid(Pair(e0, e1, p))
    ensures Pushed(Pair(e0, e1, p), 1, t, Plain(m)) == Reply(Pair(e0, n1, j.pivot), Ok(if |j.trace| > 0 then Emitted else Accepted), j.trace)
  {
    SecondInstall(e0, e1, p, t, m, n1);
    PushJoined(Pair(e0, e1, p), 1, t, Plain(m), Exact(n1), Pair(e0, n1, p), j);
  }

  /** A message newer than everything on stream 1, inside the window, is
      appended there and nothing else changes. */
  lemma {:induction false} SecondInstall(e0: seq<(Time, real)>, e1: seq<(Time, real)>, p: int, t: Time, m: real,
                                         n1: seq<(Time, real)>)
    requires Increasing(e0) && Increasing(e1) && (|e1| == 0 || e1[|e1| - 1].0 < t)
    requires (e1 + [(t, m)])[0].0 >= t - 100 && n1 == e1 + [(t, m)]
    ensures var s := Pair(e0, e1, p);
            && Synchronizer.Valid(s)
            && PartPush(s.parts[1], t, Plain(m)) == Ok((true, Exact(n1)))
            && s.(parts := s.parts[1 := Exact(n1)]) == Pair(e0, n1, p)
  {
    var s := Pair(e0, e1, p);
    ExactAppend(e1, t, m, n1);
    assert s.parts[1 := Exact(n1)] == Pair(e0, n1, p).parts;
  }

  // ----------------------------------------------------------- first pair

  /** A lone first message is Accepted and nothing is emitted. */
  lemma {:induction false} FirstPushAccepted(x: real)
    ensures Pushed(Pair([], [], -1), 0, 0, Plain(x)) == Reply(Pair([(0, x)], [], -1), Ok(Accepted), [])
  {
    LoneJoin([(0, x)], -1, 0);
    PushFirst([], [], -1, 0, x, [(0, x)], JoinResult(-1, []));
  }

  /** With stream 1 empty, the first stamp of stream 0 after the pivot is
      the candidate and the attempt there is NotReady. */
  lemma {:induction false} LoneAttempt(es: seq<(Time, real)>, p: int, t: Time)
    requires Increasing(es) && |es| > 0 && es[0].0 == t && p < t
    ensures PartsWellFormed(Pair(es, [], p).parts)
    ensures Candidate(Pair(es, [], p).parts, p, Normal) == t
    ensures TryEmit(Pair(es, [], p).parts, t, Additive()).0 == EmitNotReady
  {
    var ps := Pair(es, [], p).parts;
    VisiblePair(ps[0].policy, ps[1].policy, Normal);
    assert es[0].0 in Stamps(ps[0].policy.storage);
    forall x | x in Stamps(ps[0].policy.storage) && p < x
      ensures t <= x
    {
      var i :| 0 <= i < |es| && es[i].0 == x;
      IncreasingOrdered(es);
    }
    CandidateIs(ps, p, Normal, t);
    TryEmitTwo(ps[0].policy, ps[1].policy, t, Additive());
    assert Peek(ps[1].policy, t, Additive()).1 == PeekNotReady;
  }

  /** Hence the join of such a state does nothing. */
  lemma {:induction false} LoneJoin(es: seq<(Time, real)>, p: int, t: Time)
    requires Increasing(es) && |es| > 0 && es[0].0 == t && p < t
    ensures Synchronizer.Valid(Pair(es, [], p))
    ensures Join(Pair(es, [], p)) == JoinResult(p, [])
  {
    LoneAttempt(es, p, t);
    JoinStops(Pair(es, [], p));
  }

  /** The partner at the same stamp completes the tuple, which is emitted
      and moves the pivot a minimum interval minus one past it. */
  lemma {:induction false} PartnerEmits(x: real, y: real)
    ensures Pushed(Pair([(0, x)], [], -1), 1, 0, Plain(y))
            == Reply(Pair([(0, x)], [(0, y)], 9), Ok(Emitted), [Emission(0, [One(Some(x)), One(Some(y))])])
  {
    ZeroJoin(x, y);
    PushSecond([(0, x)], [], -1, 0, y, [(0, y)], JoinResult(9, [Emission(0, [One(Some(x)), One(Some(y))])]));
  }

  lemma {:induction false} MatchedAtZero(x: real, y: real)
    ensures PartsWellFormed(Pair([(0, x)], [(0, y)], -1).parts)
    ensures var ps := Pair([(0, x)], [(0, y)], -1).parts;
            && Candidate(ps, -1, Normal) == 0 && Candidate(ps, 9, Normal) == TimeMax
            && TryEmit(ps, 0, Additive()) == (EmitSuccess, [One(Some(x)), One(Some(y))])
  {
    var ps := Pair([(0, x)], [(0, y)], -1).parts;
    VisiblePair(ps[0].policy, ps[1].policy, Normal);
    StampsOne(ps[0].policy.storage, 0);
    StampsOne(ps[1].policy.storage, 0);
    CandidateIs(ps, -1, Normal, 0);
    CandidateNone(ps, 9, Normal);
    TryEmitTwo(ps[0].policy, ps[1].policy, 0, Additive());
    assert Peek(ps[0].policy, 0, Additive()) == (Some(x), PeekSuccess);
    assert Peek(ps[1].policy, 0, Additive()) == (Some(y), PeekSuccess);
  }

  lemma {:induction false} ZeroJoin(x: real, y: real)
    ensures Synchronizer.Valid(Pair([(0, x)], [(0, y)], -1))
    ensures Join(Pair([(0, x)], [(0, y)], -1)) == JoinResult(9, [Emission(0, [One(Some(x)), One(Some(y))])])
  {
    MatchedAtZero(x, y);
    JoinEmitsOnce(Pair([(0, x)], [(0, y)], -1), 0, [One(Some(x)), One(Some(y))], 9);
  }

  /** A second message at a stamp its stream already holds is Dropped and
      changes nothing. */
  lemma {:induction false} DuplicateDropped(x: real, y: real)
    ensures Pushed(Pair([(0, x)], [], -1), 0, 0, Plain(y)) == Reply(Pair([(0, x)], [], -1), Ok(Dropped), [])
  {
  }

  // ------------------------------------------------------- expired stamps

  /** A second message on stream 0 is Accepted: stream 1 is still empty. */
  lemma {:induction false} SecondAccepted(a: real, b: real)
    ensures Synchronizer.Valid(Pair([(0, a)], [], -1))
    ensures Pushed(Pair([(0, a)], [], -1), 0, 5, Plain(b)) == Reply(Pair([(0, a), (5, b)], [], -1), Ok(Accepted), [])
  {
    TwoIncreasing(0, a, 5, b);
    LoneJoin([(0, a), (5, b)], -1, 0);
    PushFirst([(0, a)], [], -1, 5, b, [(0, a), (5, b)], JoinResult(-1, []));
  }

  /** A stream-1 message at 4 expires the stamp 0 (stream 1 holds
      nothing there, and has moved past it) and then the stamp 4 (stream 0
      holds 0 and 5 but not 4); at 5 stream 1 is not ready. The push is
      Accepted with the pivot at 4. */
  lemma {:induction false} ExpiredSkipped(a: real, b: real, c: real)
    ensures Synchronizer.Valid(Pair([(0, a), (5, b)], [], -1))
    ensures Pushed(Pair([(0, a), (5, b)], [], -1), 1, 4, Plain(c)) == Reply(Pair([(0, a), (5, b)], [(4, c)], 4), Ok(Accepted), [])
  {
    TwoIncreasing(0, a, 5, b);
    SkipJoin(a, b, c);
    PushSecond([(0, a), (5, b)], [], -1, 4, c, [(4, c)], JoinResult(4, []));
  }

  lemma {:induction false} SkipCandidates(a: real, b: real, c: real)
    ensures PartsWellFormed(Pair([(0, a), (5, b)], [(4, c)], -1).parts)
    ensures var ps := Pair([(0, a), (5, b)], [(4, c)], -1).parts;
            Candidate(ps, -1, Normal) == 0 && Candidate(ps, 0, Normal) == 4 && Candidate(ps, 4, Normal) == 5
  {
    var ps := Pair([(0, a), (5, b)], [(4, c)], -1).parts;
    TwoIncreasing(0, a, 5, b);
    VisiblePair(ps[0].policy, ps[1].policy, Normal);
    StampsTwo(ps[0].policy.storage, 0, 5);
    StampsOne(ps[1].policy.storage, 4);
    CandidateIs(ps, -1, Normal, 0);
    CandidateIs(ps, 0, Normal, 4);
    CandidateIs(ps, 4, Normal, 5);
  }

  lemma {:induction false} SkipAttempts(a: real, b: real, c: real)
    ensures PartsWellFormed(Pair([(0, a), (5, b)], [(4, c)], -1).parts)
    ensures var ps := Pair([(0, a), (5, b)], [(4, c)], -1).parts;
            && TryEmit(ps, 0, Additive()).0 == EmitExpired
            && TryEmit(ps, 4, Additive()).0 == EmitExpired
            && TryEmit(ps, 5, Additive()).0 == EmitNotReady
  {
    var ps := Pair([(0, a), (5, b)], [(4, c)], -1).parts;
    TwoIncreasing(0, a, 5, b);
    TryEmitTwo(ps[0].policy, ps[1].policy, 0, Additive());
    TryEmitTwo(ps[0].policy, ps[1].policy, 4, Additive());
    TryEmitTwo(ps[0].policy, ps[1].policy, 5, Additive());
    assert Peek(ps[1].policy, 0, Additive()).1 == PeekExpired;
    assert Peek(ps[1].policy, 4, Additive()) == (Some(c), PeekSuccess);
    assert Peek(ps[0].policy, 4, Additive()).1 == PeekExpired;
    assert Peek(ps[1].policy, 5, Additive()).1 == PeekNotReady;
  }

  /** The join after stream 1's message at 4: the stamps 0 and 4 expire
      and the attempt at 5 is not ready. */
  lemma {:induction false} SkipJoin(a: real, b: real, c: real)
    ensures Synchronizer.Valid(Pair([(0, a), (5, b)], [(4, c)], -1))
    ensures Join(Pair([(0, a), (5, b)], [(4, c)], -1)) == JoinResult(4, [])
  {
    SkipCandidates(a, b, c);
    SkipAttempts(a, b, c);
    var d := Pair([(0, a), (5, b)], [(4, c)], -1);
    JoinExpires(d, 0);
    JoinExpires(d.(pivot := 0), 4);
    JoinStops(d.(pivot := 4));
  }

  /** Stream 1's message at 5 completes the tuple at 5 and moves the
      pivot to 14. */
  lemma {:induction false} LaterEmits(a: real, b: real, c: real, d: real)
    ensures Synchronizer.Valid(Pair([(0, a), (5, b)], [(4, c)], 4))
    ensures Pushed(Pair([(0, a), (5, b)], [(4, c)], 4), 1, 5, Plain(d))
            == Reply(Pair([(0, a), (5, b)], [(4, c), (5, d)], 14), Ok(Emitted), [Emission(5, [One(Some(b)), One(Some(d))])])
  {
    TwoIncreasing(0, a, 5, b);
    assert [(4, c)] + [(5, d)] == [(4, c), (5, d)];
    SecondInstall([(0, a), (5, b)], [(4, c)], 4, 5, d, [(4, c), (5, d)]);
    FiveJoin(a, b, c, d);
    PushJoined(Pair([(0, a), (5, b)], [(4, c)], 4), 1, 5, Plain(d), Exact([(4, c), (5, d)]),
               Pair([(0, a), (5, b)], [(4, c), (5, d)], 4), JoinResult(14, [Emission(5, [One(Some(b)), One(Some(d))])]));
  }

  lemma {:induction false} FiveJoin(a: real, b: real, c: real, d: real)
    ensures Synchronizer.Valid(Pair([(0, a), (5, b)], [(4, c), (5, d)], 4))
    ensures Join(Pair([(0, a), (5, b)], [(4, c), (5, d)], 4)) == JoinResult(14, [Emission(5, [One(Some(b)), One(Some(d))])])
  {
    MatchedAtFive(a, b, c, d);
    JoinEmitsOnce(Pair([(0, a), (5, b)], [(4, c), (5, d)], 4), 5, [One(Some(b)), One(Some(d))], 14);
  }

  lemma {:induction false} MatchedAtFive(a: real, b: real, c: real, d: real)
    ensures PartsWellFormed(Pair([(0, a), (5, b)], [(4, c), (5, d)], 4).parts)
    ensures var ps := Pair([(0, a), (5, b)], [(4, c), (5, d)], 4).parts;
            && Candidate(ps, 4, Normal) == 5 && Candidate(ps, 14, Normal) == TimeMax
            && TryEmit(ps, 5, Additive()) == (EmitSuccess, [One(Some(b)), One(Some(d))])
  {
    var ps := Pair([(0, a), (5, b)], [(4, c), (5, d)], 4).parts;
    TwoIncreasing(0, a, 5, b);
    TwoIncreasing(4, c, 5, d);
    VisiblePair(ps[0].policy, ps[1].policy, Normal);
    StampsTwo(ps[0].policy.storage, 0, 5);
    StampsTwo(ps[1].policy.storage, 4, 5);
    CandidateIs(ps, 4, Normal, 5);
    CandidateNone(ps, 14, Normal);
    TryEmitTwo(ps[0].policy, ps[1].policy, 5, Additive());
    assert Peek(ps[0].policy, 5, Additive()) == (Some(b), PeekSuccess);
    assert Peek(ps[1].policy, 5, Additive()) == (Some(d), PeekSuccess);
  }

  // ------------------------------------------------------------- pivot 19

  /** The entries at 0, 5 and 10 are in stamp order. */
  lemma {:induction false} ThreeIncreasing(x: real, y: real, z: real)
    ensures Increasing([(0, x), (5, y), (10, z)])
  {
    TwoIncreasing(0, x, 5, y);
    AppendIncreasing([(0, x), (5, y)], 10, z);
    assert [(0, x), (5, y)] + [(10, z)] == [(0, x), (5, y), (10, z)];
  }

  /** Both streams hold nothing after the pivot: the join does nothing. */
  lemma {:induction false} QuietJoin(e0: seq<(Time, real)>, e1: seq<(Time, real)>, p: int)
    requires Increasing(e0) && Increasing(e1)
    requires forall i | 0 <= i < |e0| :: e0[i].0 <= p
    requires forall i | 0 <= i < |e1| :: e1[i].0 <= p
    ensures Synchronizer.Valid(Pair(e0, e1, p))
    ensures Join(Pair(e0, e1, p)) == JoinResult(p, [])
  {
    var ps := Pair(e0, e1, p).parts;
    VisiblePair(ps[0].policy, ps[1].policy, Normal);
    CandidateNone(ps, p, Normal);
    JoinStops(Pair(e0, e1, p));
  }

  /** After the pair at 0 went out (pivot 9), stream 0's message at 5 is
      Accepted: no stamp after the pivot is left to try. */
  lemma {:induction false} FifthAccepted(a: real, b: real, c: real)
    ensures Pushed(Pair([(0, a)], [(0, b)], 9), 0, 5, Plain(c)) == Reply(Pair([(0, a), (5, c)], [(0, b)], 9), Ok(Accepted), [])
  {
    TwoIncreasing(0, a, 5, c);
    QuietJoin([(0, a), (5, c)], [(0, b)], 9);
    PushFirst([(0, a)], [(0, b)], 9, 5, c, [(0, a), (5, c)], JoinResult(9, []));
  }

  /** Stream 1's message at 5 is Accepted for the same reason: the stamp 5
      lies within the minimum interval of the emission at 0. */
  lemma {:induction false} PartnerFifthAccepted(a: real, b: real, c: real, d: real)
    ensures Synchronizer.Valid(Pair([(0, a), (5, c)], [(0, b)], 9))
    ensures Pushed(Pair([(0, a), (5, c)], [(0, b)], 9), 1, 5, Plain(d)) == Reply(Pair([(0, a), (5, c)], [(0, b), (5, d)], 9), Ok(Accepted), [])
  {
    TwoIncreasing(0, a, 5, c);
    TwoIncreasing(0, b, 5, d);
    QuietJoin([(0, a), (5, c)], [(0, b), (5, d)], 9);
    PushSecond([(0, a), (5, c)], [(0, b)], 9, 5, d, [(0, b), (5, d)], JoinResult(9, []));
  }

  /** Stream 0's message at 10 makes 10 the candidate, where stream 1 is
      not ready: Accepted, pivot kept at 9. */
  lemma {:induction false} TenthAccepted(a: real, b: real, c: real, d: real, e: real)
    ensures Synchronizer.Valid(Pair([(0, a), (5, c)], [(0, b), (5, d)], 9))
    ensures Pushed(Pair([(0, a), (5, c)], [(0, b), (5, d)], 9), 0, 10, Plain(e))
            == Reply(Pair([(0, a), (5, c), (10, e)], [(0, b), (5, d)], 9), Ok(Accepted), [])
  {
    TwoIncreasing(0, a, 5, c);
    TwoIncreasing(0, b, 5, d);
    ThreeIncreasing(a, c, e);
    WaitJoin(a, b, c, d, e);
    PushFirst([(0, a), (5, c)], [(0, b), (5, d)], 9, 10, e, [(0, a), (5, c), (10, e)], JoinResult(9, []));
  }

  lemma {:induction false} WaitsAtTenth(a: real, b: real, c: real, d: real, e: real)
    ensures PartsWellFormed(Pair([(0, a), (5, c), (10, e)], [(0, b), (5, d)], 9).parts)
    ensures var ps := Pair([(0, a), (5, c), (10, e)], [(0, b), (5, d)], 9).parts;
            Candidate(ps, 9, Normal) == 10 && TryEmit(ps, 10, Additive()).0 == EmitNotReady
  {
    var ps := Pair([(0, a), (5, c), (10, e)], [(0, b), (5, d)], 9).parts;
    ThreeIncreasing(a, c, e);
    TwoIncreasing(0, b, 5, d);
    VisiblePair(ps[0].policy, ps[1].policy, Normal);
    StampsThree(ps[0].policy.storage, 0, 5, 10);
    StampsTwo(ps[1].policy.storage, 0, 5);
    CandidateIs(ps, 9, Normal, 10);
    TryEmitTwo(ps[0].policy, ps[1].policy, 10, Additive());
    assert Peek(ps[1].policy, 10, Additive()).1 == PeekNotReady;
  }

  lemma {:induction false} WaitJoin(a: real, b: real, c: real, d: real, e: real)
    ensures Synchronizer.Valid(Pair([(0, a), (5, c), (10, e)], [(0, b), (5, d)], 9))
    ensures Join(Pair([(0, a), (5, c), (10, e)], [(0, b), (5, d)], 9)) == JoinResult(9, [])
  {
    WaitsAtTenth(a, b, c, d, e);
    JoinStops(Pair([(0, a), (5, c), (10, e)], [(0, b), (5, d)], 9));
  }

  /** Stream 1's message at 10 completes the tuple at 10, which is Emitted
      and moves the pivot to 19. */
  lemma {:induction false} TenthEmits(a: real, b: real, c: real, d: real, e: real, f: real)
    ensures Synchronizer.Valid(Pair([(0, a), (5, c), (10, e)], [(0, b), (5, d)], 9))
    ensures Pushed(Pair([(0, a), (5, c), (10, e)], [(0, b), (5, d)], 9), 1, 10, Plain(f))
            == Reply(Pair([(0, a), (5, c), (10, e)], [(0, b), (5, d), (10, f)], 19), Ok(Emitted),
                     [Emission(10, [One(Some(e)), One(Some(f))])])
  {
    ThreeIncreasing(a, c, e);
    TwoIncreasing(0, b, 5, d);
    TenthJoin(a, b, c, d, e, f);
    PushSecond([(0, a), (5, c), (10, e)], [(0, b), (5, d)], 9, 10, f, [(0, b), (5, d), (10, f)],
               JoinResult(19, [Emission(10, [One(Some(e)), One(Some(f))])]));
  }

  lemma {:induction false} TenthJoin(a: real, b: real, c: real, d: real, e: real, f: real)
    ensures Synchronizer.Valid(Pair([(0, a), (5, c), (10, e)], [(0, b), (5, d), (10, f)], 9))
    ensures Join(Pair([(0, a), (5, c), (10, e)], [(0, b), (5, d), (10, f)], 9)) == JoinResult(19, [Emission(10, [One(Some(e)), One(Some(f))])])
  {
    MatchedAtTenth(a, b, c, d, e, f);
    JoinEmitsOnce(Pair([(0, a), (5, c), (10, e)], [(0, b), (5, d), (10, f)], 9), 10, [One(Some(e)), One(Some(f))], 19);
  }

  lemma {:induction false} MatchedAtTenth(a: real, b: real, c: real, d: real, e: real, f: real)
    ensures PartsWellFormed(Pair([(0, a), (5, c), (10, e)], [(0, b), (5, d), (10, f)], 9).parts)
    ensures var ps := Pair([(0, a), (5, c), (10, e)], [(0, b), (5, d), (10, f)], 9).parts;
            && Candidate(ps, 9, Normal) == 10 && Candidate(ps, 19, Normal) == TimeMax
            && TryEmit(ps, 10, Additive()) == (EmitSuccess, [One(Some(e)), One(Some(f))])
  {
    var ps := Pair([(0, a), (5, c), (10, e)], [(0, b), (5, d), (10, f)], 9).parts;
    ThreeIncreasing(a, c, e);
    ThreeIncreasing(b, d, f);
    VisiblePair(ps[0].policy, ps[1].policy, Normal);
    StampsThree(ps[0].policy.storage, 0, 5, 10);
    StampsThree(ps[1].policy.storage, 0, 5, 10);
    CandidateIs(ps, 9, Normal, 10);
    CandidateNone(ps, 19, Normal);
    TryEmitTwo(ps[0].policy, ps[1].policy, 10, Additive());
    assert Peek(ps[0].policy, 10, Additive()) == (Some(e), PeekSuccess);
    assert Peek(ps[1].policy, 10, Additive()) == (Some(f), PeekSuccess);
  }

  // ---------------------------------------------------------- queue sizes

  /** The queue sizes observed after pushing `m` at each stamp of `ts` in
      turn. */
  function Sizes<M>(p: Policy<M>, ts: seq<Time>, m: M): (r: seq<nat>)
    requires WellFormed(p)
    ensures |r| == |ts|
    decreases |ts|
  {
    if |ts| == 0 then []
    else
      var q := Policies.Push(p, ts[0], m).1;
      [Policies.QueueSize(q)] + Sizes(q, ts[1..], m)
  }

  /** The entries at stamps `2 lo`, ..., `2 (hi - 1)`, payload `m`. */
  function Run(lo: nat, hi: nat, m: int): (r: seq<(Time, int)>)
    requires lo <= hi <= 8
    ensures |r| == hi - lo && forall i | 0 <= i < hi - lo :: r[i] == (2 * (lo + i), m)
    ensures Increasing(r)
  {
    var r := seq(hi - lo, i requires 0 <= i < hi - lo => (2 * (lo + i), m));
    IncreasingOrdered(r);
    r
  }

  /** The ExactTime policy of window 10 holding `Run(lo, hi, m)`. */
  function Queue(lo: nat, hi: nat, m: int): Policy<int>
    requires lo <= hi <= 8
  {
    Policy(Storage(Run(lo, hi, m), 10), Normal, ExactTime)
  }

  /** The oldest entry kept once `hi` stamps have been pushed. */
  function Oldest(hi: nat): nat {
    if hi > 6 then hi - 6 else 0
  }

  /** Pushing the next stamp `2 hi` appends it, and evicts the oldest
      entry once it lies more than 10 before the new one. */
  lemma {:induction false} QueuePush(hi: nat, m: int)
    requires hi < 8
    ensures WellFormed(Queue(Oldest(hi), hi, m))
    ensures Policies.Push(Queue(Oldest(hi), hi, m), 2 * hi, m) == (true, Queue(Oldest(hi + 1), hi + 1, m))
  {
    var lo := Oldest(hi);
    var full := Run(lo, hi, m) + [(2 * hi, m)];
    assert full == Run(lo, hi + 1, m);
    if hi >= 6 {
      assert full[0].0 < 2 * hi - 10;
      assert full[1..] == Run(lo + 1, hi + 1, m);
    } else {
      assert full[0].0 >= 2 * hi - 10;
    }
  }

  /** The stamps still to push after the first `hi`. */
  function Rest(hi: nat): (r: seq<Time>)
    requires hi <= 8
    ensures |r| == 8 - hi
  {
    seq(8 - hi, i requires 0 <= i < 8 - hi => 2 * (hi + i))
  }

  /** The sizes the remaining pushes leave: `min(k + 1, 6)` after push `k`. */
  function Expected(hi: nat): (r: seq<nat>)
    requires hi <= 8
    ensures |r| == 8 - hi && forall i | 0 <= i < 8 - hi :: r[i] == Min(hi + i + 1, 6)
  {
    seq(8 - hi, i requires 0 <= i < 8 - hi => (if hi + i + 1 < 6 then hi + i + 1 else 6))
  }

  lemma {:induction false} ExpectedStep(hi: nat)
    requires hi < 8
    ensures Expected(hi) == [Min(hi + 1, 6)] + Expected(hi + 1)
  {
    var e := [Min(hi + 1, 6)] + Expected(hi + 1);
    forall i | 0 <= i < 8 - hi
      ensures e[i] == Expected(hi)[i]
    {
      if i > 0 {
        assert e[i] == Expected(hi + 1)[i - 1];
      }
    }
  }

  lemma {:induction false} RestStep(hi: nat)
    requires hi < 8
    ensures Rest(hi)[0] == 2 * hi && Rest(hi)[1..] == Rest(hi + 1)
  {
  }

  /** From `hi` pushes on, each further push leaves `min(k + 1, 6)`
      entries, `k` being its index. */
  lemma {:induction false} QueueFills(hi: nat, m: int)
    requires hi <= 8
    ensures Sizes(Queue(Oldest(hi), hi, m), Rest(hi), m) == Expected(hi)
    decreases 8 - hi
  {
    if hi < 8 {
      QueuePush(hi, m);
      RestStep(hi);
      QueueFills(hi + 1, m);
      ExpectedStep(hi);
    }
  }

  /** With a history window of 10, pushes every 2 time units fill the
      queue to six entries, after which each push evicts the oldest. */
  lemma {:induction false} QueueSizes(m: int)
    ensures Sizes(Policy(Storage([], 10), Normal, ExactTime), [0, 2, 4, 6, 8, 10, 12, 14], m) == [1, 2, 3, 4, 5, 6, 6, 6]
  {
    QueueFills(0, m);
    assert Queue(0, 0, m) == Policy(Storage([], 10), Normal, ExactTime);
    RestZero();
    ExpectedZero();
  }

  lemma {:induction false} RestZero()
    ensures Rest(0) == [0, 2, 4, 6, 8, 10, 12, 14]
  {
  }

  lemma {:induction false} ExpectedZero()
    ensures Expected(0) == [1, 2, 3, 4, 5, 6, 6, 6]
  {
  }

  // ------------------------------------------- a minimum interval of zero

  /** The constructor takes any minimum interval. With 0, a success moves
      the pivot to just below the stamp it emitted, so the next round
      offers the same candidate with the same outcome and the join loop
      never ends. Here both streams hold a message at 0: the round at 0
      succeeds and puts the pivot back at -1, where it started. */
  lemma {:induction false} ZeroIntervalRepeats(x: real, y: real)
    ensures var ps := Pair([(0, x)], [(0, y)], -1).parts;
            && PartsWellFormed(ps)
            && Candidate(ps, -1, Normal) == 0
            && TryEmit(ps, 0, Additive()) == (EmitSuccess, [One(Some(x)), One(Some(y))])
            && UpdatePivot(MinInterval(0), -1, 0, EmitSuccess) == -1
            && !Synchronizer.Valid(Sync(ps, MinInterval(0), Additive(), -1))
  {
    var ps := Pair([(0, x)], [(0, y)], -1).parts;
    VisiblePair(ps[0].policy, ps[1].policy, Normal);
    StampsOne(ps[0].policy.storage, 0);
    StampsOne(ps[1].policy.storage, 0);
    CandidateIs(ps, -1, Normal, 0);
    TryEmitTwo(ps[0].policy, ps[1].policy, 0, Additive());
    assert Peek(ps[0].policy, 0, Additive()) == (Some(x), PeekSuccess);
    assert Peek(ps[1].policy, 0, Additive()) == (Some(y), PeekSuccess);
  }
}
