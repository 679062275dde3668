/** The interpolating minimum-interval scenario of the repository's
    synchronizer tests: stream 0 holds samples at 0 and 10, stream 1
    receives messages at 0, 2, ..., 10 and then 11, under a minimum
    interval of 2, with LinearInterpolate policies of history window 100
    and prediction window 0. */
module Interpolated {
  import opened Types
  import opened MapStorage
  import opened Interpolation
  import opened Policies
  import opened Synchronizer
  import opened JoinSteps
  import LI = LinearInterpolate

  /** A Normal LinearInterpolate policy holding `es`, window 100, no
      prediction. */
  function Lerp(es: seq<(Time, real)>): Participant<real> {
    Single(Policy(Storage(es, 100), Normal, LinearInterpolate(0)))
  }

  /** Stream 0 holding `front`, stream 1 holding `bs`, at pivot `p`. */
  function Tracks(front: seq<(Time, real)>, bs: seq<(Time, real)>, p: int): Sync<real> {
    Sync([Lerp(front), Lerp(bs)], MinInterval(2), Additive(), p)
  }

  /** The first `n` stream-1 messages: payload `b[i]` at stamp `2 i`. */
  function Evens(b: seq<real>, n: nat): (r: seq<(Time, real)>)
    requires n <= |b| <= 6
    ensures |r| == n && forall i | 0 <= i < n :: r[i] == (2 * i, b[i])
    ensures Increasing(r)
  {
    var r := seq(n, i requires 0 <= i < n => (2 * i, b[i]));
    IncreasingOrdered(r);
    r
  }

  lemma {:induction false} EvensGrow(b: seq<real>, n: nat)
    requires n < |b| <= 6
    ensures Increasing(Evens(b, n)) && Increasing(Evens(b, n + 1))
    ensures Evens(b, n) + [(2 * n, b[n])] == Evens(b, n + 1)
  {
  }

  /** Stamps of stream 1 after `n + 1` messages, and of stream 0. */
  lemma {:induction false} StampsAfter(b: seq<real>, n: nat, a0: real, a1: real)
    requires n < |b| <= 6
    ensures Increasing(Evens(b, n + 1))
    ensures 2 * n in Stamps(Storage(Evens(b, n + 1), 100))
    ensures Stamps(Storage([(0, a0), (10, a1)], 100)) == {0, 10}
  {
    var s := Storage(Evens(b, n + 1), 100);
    assert s.entries[n].0 == 2 * n;
    StampsTwo(Storage([(0, a0), (10, a1)], 100), 0, 10);
  }

  /** The linear estimate at `t` between the samples at 0 and 10. */
  function Line(a0: real, a1: real, t: Time): real {
    a0 + t as real / 10.0 * (a1 - a0)
  }

  /** After stream 1's message at `2 n` the next candidate is that stamp,
      and after it the sample at 10. */
  lemma {:induction false} CandidateAt(a0: real, a1: real, b: seq<real>, n: nat)
    requires n < |b| <= 6 && n <= 4
    ensures PartsWellFormed(Tracks([(0, a0), (10, a1)], Evens(b, n + 1), 2 * n - 1).parts)
    ensures Candidate(Tracks([(0, a0), (10, a1)], Evens(b, n + 1), 2 * n - 1).parts, 2 * n - 1, Normal) == 2 * n
  {
    var ps := Tracks([(0, a0), (10, a1)], Evens(b, n + 1), 2 * n - 1).parts;
    TwoIncreasing(0, a0, 10, a1);
    EvensGrow(b, n);
    StampsAfter(b, n, a0, a1);
    VisiblePair(ps[0].policy, ps[1].policy, Normal);
    CandidateIs(ps, 2 * n - 1, Normal, 2 * n);
  }

  lemma {:induction false} CandidateTen(a0: real, a1: real, b: seq<real>, n: nat)
    requires n < |b| <= 6 && n <= 4
    ensures PartsWellFormed(Tracks([(0, a0), (10, a1)], Evens(b, n + 1), 2 * n - 1).parts)
    ensures Candidate(Tracks([(0, a0), (10, a1)], Evens(b, n + 1), 2 * n - 1).parts, 2 * n + 1, Normal) == 10
  {
    var ps := Tracks([(0, a0), (10, a1)], Evens(b, n + 1), 2 * n - 1).parts;
    TwoIncreasing(0, a0, 10, a1);
    EvensGrow(b, n);
    StampsAfter(b, n, a0, a1);
    VisiblePair(ps[0].policy, ps[1].policy, Normal);
    CandidateIs(ps, 2 * n + 1, Normal, 10);
  }

  /** Stream 1's newest message hits its stamp exactly and stream 0 is
      interpolated there. */
  lemma {:induction false} EmitsAt(a0: real, a1: real, b: seq<real>, n: nat)
    requires n < |b| <= 6 && n <= 4
    ensures PartsWellFormed(Tracks([(0, a0), (10, a1)], Evens(b, n + 1), 2 * n - 1).parts)
    ensures var ps := Tracks([(0, a0), (10, a1)], Evens(b, n + 1), 2 * n - 1).parts;
            TryEmit(ps, 2 * n, Additive()) == (EmitSuccess, [One(Some(Line(a0, a1, 2 * n))), One(Some(b[n]))])
  {
    var ps := Tracks([(0, a0), (10, a1)], Evens(b, n + 1), 2 * n - 1).parts;
    TwoIncreasing(0, a0, 10, a1);
    EvensGrow(b, n);
    var p, q := ps[0].policy, ps[1].policy;
    TryEmitTwo(p, q, 2 * n, Additive());
    assert q.storage.entries[n] == (2 * n, b[n]);
    assert Peek(q, 2 * n, Additive()) == (Some(b[n]), PeekSuccess);
    assert Peek(p, 2 * n, Additive()) == (Some(Line(a0, a1, 2 * n)), PeekSuccess) by {
      LineAt(a0, a1, n);
    }
  }

  /** Stream 0 at `2 n`: the sample at 0 itself, or the estimate between
      the samples at 0 and 10. */
  lemma {:induction false} LineAt(a0: real, a1: real, n: nat)
    requires n <= 4
    ensures LI.DoPeek(Storage([(0, a0), (10, a1)], 100), 2 * n, 0, Additive()) == Some(Line(a0, a1, 2 * n))
  {
    var s := Storage([(0, a0), (10, a1)], 100);
    if n == 0 {
      assert s.entries[0].0 == 0;
    } else {
      Between(a0, a1, n);
      LineIsEstimate(a0, a1, n);
    }
  }

  lemma {:induction false} Between(a0: real, a1: real, n: nat)
    requires 1 <= n <= 4
    ensures LI.DoPeek(Storage([(0, a0), (10, a1)], 100), 2 * n, 0, Additive())
            == Some(LI.Estimate(Additive(), (0, a0), (10, a1), 2 * n))
  {
    var s := Storage([(0, a0), (10, a1)], 100);
    assert s.entries[0] == (0, a0) && s.entries[1] == (10, a1);
    LI.Interpolates(s, 2 * n, 0, Additive(), 0);
  }

  lemma {:induction false} LineIsEstimate(a0: real, a1: real, n: nat)
    requires 1 <= n <= 4
    ensures LI.Estimate(Additive(), (0, a0), (10, a1), 2 * n) == Line(a0, a1, 2 * n)
  {
    var r := LI.Ratio(0, 10, 2 * n);
    assert r == (2 * n) as real / 10.0;
    AdditiveBlend(a0, a1, r);
  }

  /** At 10, stream 1's newest message lies behind and the prediction
      window of 0 forbids extrapolating: NotReady. */
  lemma {:induction false} WaitsAtTen(a0: real, a1: real, b: seq<real>, n: nat)
    requires n < |b| <= 6 && n <= 4
    ensures PartsWellFormed(Tracks([(0, a0), (10, a1)], Evens(b, n + 1), 2 * n - 1).parts)
    ensures TryEmit(Tracks([(0, a0), (10, a1)], Evens(b, n + 1), 2 * n - 1).parts, 10, Additive()).0 == EmitNotReady
  {
    var ps := Tracks([(0, a0), (10, a1)], Evens(b, n + 1), 2 * n - 1).parts;
    TwoIncreasing(0, a0, 10, a1);
    EvensGrow(b, n);
    var p, q := ps[0].policy, ps[1].policy;
    TryEmitTwo(p, q, 10, Additive());
    assert q.storage.entries[n].0 == 2 * n;
    if n > 0 {
      LI.Extrapolates(q.storage, 10, 0, Additive());
    }
    assert Peek(q, 10, Additive()).1 == PeekNotReady;
  }

  /** The join after stream 1's message at `2 n`: one emission there,
      then the pivot waits at `2 n + 1` for stream 1 to reach 10. */
  lemma {:induction false} JoinAt(a0: real, a1: real, b: seq<real>, n: nat)
    requires n < |b| <= 6 && n <= 4
    ensures Synchronizer.Valid(Tracks([(0, a0), (10, a1)], Evens(b, n + 1), 2 * n - 1))
    ensures Join(Tracks([(0, a0), (10, a1)], Evens(b, n + 1), 2 * n - 1))
            == JoinResult(2 * n + 1, [Emission(2 * n, [One(Some(Line(a0, a1, 2 * n))), One(Some(b[n]))])])
  {
    CandidateAt(a0, a1, b, n);
    CandidateTen(a0, a1, b, n);
    EmitsAt(a0, a1, b, n);
    WaitsAtTen(a0, a1, b, n);
    JoinEmitsOnce(Tracks([(0, a0), (10, a1)], Evens(b, n + 1), 2 * n - 1), 2 * n,
                  [One(Some(Line(a0, a1, 2 * n))), One(Some(b[n]))], 2 * n + 1);
  }

  /** A message newer than everything stored, inside the window of 100,
      is appended without eviction. */
  lemma {:induction false} LerpAppend(es: seq<(Time, real)>, t: Time, m: real, es': seq<(Time, real)>)
    requires Increasing(es) && (|es| == 0 || es[|es| - 1].0 < t)
    requires (es + [(t, m)])[0].0 >= t - 100 && es' == es + [(t, m)]
    ensures PartPush(Lerp(es), t, Plain(m)) == Ok((true, Lerp(es')))
  {
  }

  /** Each of stream 1's messages at 0, 2, 4, 6 and 8 is Emitted, with
      stream 0 interpolated at its stamp, and moves the pivot one past it. */
  lemma {:induction false} PushAt(a0: real, a1: real, b: seq<real>, n: nat)
    requires n < |b| <= 6 && n <= 4
    ensures Synchronizer.Valid(Tracks([(0, a0), (10, a1)], Evens(b, n), 2 * n - 1))
    ensures Pushed(Tracks([(0, a0), (10, a1)], Evens(b, n), 2 * n - 1), 1, 2 * n, Plain(b[n]))
            == Reply(Tracks([(0, a0), (10, a1)], Evens(b, n + 1), 2 * n + 1), Ok(Emitted),
                     [Emission(2 * n, [One(Some(Line(a0, a1, 2 * n))), One(Some(b[n]))])])
  {
    var s := Tracks([(0, a0), (10, a1)], Evens(b, n), 2 * n - 1);
    TwoIncreasing(0, a0, 10, a1);
    EvensGrow(b, n);
    LerpAppend(Evens(b, n), 2 * n, b[n], Evens(b, n + 1));
    assert s.parts[1 := Lerp(Evens(b, n + 1))] == Tracks([(0, a0), (10, a1)], Evens(b, n + 1), 2 * n - 1).parts;
    Accepts(s, 1, 2 * n, Plain(b[n]), Lerp(Evens(b, n + 1)));
    JoinAt(a0, a1, b, n);
  }

  /** Stream 0's samples at 0 and 10 are both Accepted: with stream 1
      empty every attempt is NotReady and the pivot stays put. */
  lemma {:induction false} FirstSample(a0: real)
    ensures Pushed(Tracks([], [], -1), 0, 0, Plain(a0)) == Reply(Tracks([(0, a0)], [], -1), Ok(Accepted), [])
  {
    var s := Tracks([], [], -1);
    LerpAppend([], 0, a0, [(0, a0)]);
    assert s.parts[0 := Lerp([(0, a0)])] == Tracks([(0, a0)], [], -1).parts;
    Accepts(s, 0, 0, Plain(a0), Lerp([(0, a0)]));
    Unmatched([(0, a0)]);
  }

  lemma {:induction false} SecondSample(a0: real, a1: real)
    ensures Pushed(Tracks([(0, a0)], [], -1), 0, 10, Plain(a1)) == Reply(Tracks([(0, a0), (10, a1)], [], -1), Ok(Accepted), [])
  {
    var s := Tracks([(0, a0)], [], -1);
    TwoIncreasing(0, a0, 10, a1);
    LerpAppend([(0, a0)], 10, a1, [(0, a0), (10, a1)]);
    assert s.parts[0 := Lerp([(0, a0), (10, a1)])] == Tracks([(0, a0), (10, a1)], [], -1).parts;
    Accepts(s, 0, 10, Plain(a1), Lerp([(0, a0), (10, a1)]));
    Unmatched([(0, a0), (10, a1)]);
  }

  /** Stream 0 holding samples from 0 on and stream 1 empty: the first
      candidate 0 is NotReady and the join does nothing. */
  lemma {:induction false} Unmatched(front: seq<(Time, real)>)
    requires Increasing(front) && |front| > 0 && front[0].0 == 0
    ensures Synchronizer.Valid(Tracks(front, [], -1))
    ensures Join(Tracks(front, [], -1)) == JoinResult(-1, [])
  {
    UnmatchedSteps(front);
    JoinStops(Tracks(front, [], -1));
  }

  lemma {:induction false} UnmatchedSteps(front: seq<(Time, real)>)
    requires Increasing(front) && |front| > 0 && front[0].0 == 0
    ensures PartsWellFormed(Tracks(front, [], -1).parts)
    ensures var ps := Tracks(front, [], -1).parts;
            Candidate(ps, -1, Normal) == 0 && TryEmit(ps, 0, Additive()).0 == EmitNotReady
  {
    var ps := Tracks(front, [], -1).parts;
    VisiblePair(ps[0].policy, ps[1].policy, Normal);
    assert front[0].0 in Stamps(ps[0].policy.storage);
    assert forall x | x in Stamps(ps[0].policy.storage) :: 0 <= x by {
      forall x | x in Stamps(ps[0].policy.storage) ensures 0 <= x {
        var i :| 0 <= i < |front| && front[i].0 == x;
        IncreasingOrdered(front);
      }
    }
    CandidateIs(ps, -1, Normal, 0);
    TryEmitTwo(ps[0].policy, ps[1].policy, 0, Additive());
    assert Peek(ps[1].policy, 0, Additive()).1 == PeekNotReady;
  }

  /** Stream 1's message at 10 meets stream 0's sample there: Emitted, the
      pivot moves to 11 and nothing is left to try. */
  lemma {:induction false} PushTen(a0: real, a1: real, b: seq<real>)
    requires |b| == 6
    ensures Synchronizer.Valid(Tracks([(0, a0), (10, a1)], Evens(b, 5), 9))
    ensures Pushed(Tracks([(0, a0), (10, a1)], Evens(b, 5), 9), 1, 10, Plain(b[5]))
            == Reply(Tracks([(0, a0), (10, a1)], Evens(b, 6), 11), Ok(Emitted), [Emission(10, [One(Some(a1)), One(Some(b[5]))])])
  {
    var s := Tracks([(0, a0), (10, a1)], Evens(b, 5), 9);
    TwoIncreasing(0, a0, 10, a1);
    EvensGrow(b, 5);
    LerpAppend(Evens(b, 5), 10, b[5], Evens(b, 6));
    assert s.parts[1 := Lerp(Evens(b, 6))] == Tracks([(0, a0), (10, a1)], Evens(b, 6), 9).parts;
    Accepts(s, 1, 10, Plain(b[5]), Lerp(Evens(b, 6)));
    JoinTen(a0, a1, b);
  }

  lemma {:induction false} JoinTen(a0: real, a1: real, b: seq<real>)
    requires |b| == 6
    ensures Synchronizer.Valid(Tracks([(0, a0), (10, a1)], Evens(b, 6), 9))
    ensures Join(Tracks([(0, a0), (10, a1)], Evens(b, 6), 9)) == JoinResult(11, [Emission(10, [One(Some(a1)), One(Some(b[5]))])])
  {
    TenSteps(a0, a1, b);
    JoinEmitsOnce(Tracks([(0, a0), (10, a1)], Evens(b, 6), 9), 10, [One(Some(a1)), One(Some(b[5]))], 11);
  }

  lemma {:induction false} TenSteps(a0: real, a1: real, b: seq<real>)
    requires |b| == 6
    ensures PartsWellFormed(Tracks([(0, a0), (10, a1)], Evens(b, 6), 9).parts)
    ensures var ps := Tracks([(0, a0), (10, a1)], Evens(b, 6), 9).parts;
            && Candidate(ps, 9, Normal) == 10 && Candidate(ps, 11, Normal) == TimeMax
            && TryEmit(ps, 10, Additive()) == (EmitSuccess, [One(Some(a1)), One(Some(b[5]))])
  {
    var ps := Tracks([(0, a0), (10, a1)], Evens(b, 6), 9).parts;
    TwoIncreasing(0, a0, 10, a1);
    EvensGrow(b, 5);
    StampsAfter(b, 5, a0, a1);
    VisiblePair(ps[0].policy, ps[1].policy, Normal);
    CandidateIs(ps, 9, Normal, 10);
    CandidateNone(ps, 11, Normal);
    TryEmitTwo(ps[0].policy, ps[1].policy, 10, Additive());
    assert ps[0].policy.storage.entries[1] == (10, a1);
    assert ps[1].policy.storage.entries[5] == (10, b[5]);
  }

  /** Stream 1's message at 11 lies within the minimum interval of the
      last emission at 10, so no candidate is left after the pivot 11:
      Accepted, pivot kept. */
  lemma {:induction false} PushEleven(a0: real, a1: real, b: seq<real>, c: real)
    requires |b| == 6
    ensures Synchronizer.Valid(Tracks([(0, a0), (10, a1)], Evens(b, 6), 11))
    ensures Pushed(Tracks([(0, a0), (10, a1)], Evens(b, 6), 11), 1, 11, Plain(c))
            == Reply(Tracks([(0, a0), (10, a1)], Evens(b, 6) + [(11, c)], 11), Ok(Accepted), [])
  {
    var s := Tracks([(0, a0), (10, a1)], Evens(b, 6), 11);
    TwoIncreasing(0, a0, 10, a1);
    EvensGrow(b, 5);
    LerpAppend(Evens(b, 6), 11, c, Evens(b, 6) + [(11, c)]);
    assert s.parts[1 := Lerp(Evens(b, 6) + [(11, c)])] == Tracks([(0, a0), (10, a1)], Evens(b, 6) + [(11, c)], 11).parts;
    Accepts(s, 1, 11, Plain(c), Lerp(Evens(b, 6) + [(11, c)]));
    JoinEleven(a0, a1, b, c);
  }

  lemma {:induction false} JoinEleven(a0: real, a1: real, b: seq<real>, c: real)
    requires |b| == 6
    ensures Synchronizer.Valid(Tracks([(0, a0), (10, a1)], Evens(b, 6) + [(11, c)], 11))
    ensures Join(Tracks([(0, a0), (10, a1)], Evens(b, 6) + [(11, c)], 11)) == JoinResult(11, [])
  {
    ElevenSteps(a0, a1, b, c);
    JoinStops(Tracks([(0, a0), (10, a1)], Evens(b, 6) + [(11, c)], 11));
  }

  lemma {:induction false} ElevenSteps(a0: real, a1: real, b: seq<real>, c: real)
    requires |b| == 6
    ensures PartsWellFormed(Tracks([(0, a0), (10, a1)], Evens(b, 6) + [(11, c)], 11).parts)
    ensures Candidate(Tracks([(0, a0), (10, a1)], Evens(b, 6) + [(11, c)], 11).parts, 11, Normal) == TimeMax
  {
    var ps := Tracks([(0, a0), (10, a1)], Evens(b, 6) + [(11, c)], 11).parts;
    TwoIncreasing(0, a0, 10, a1);
    EvensGrow(b, 5);
    var q := ps[1].policy;
    assert q.storage.entries[6] == (11, c);
    AppendIncreasing(Evens(b, 6), 11, c);
    VisiblePair(ps[0].policy, q, Normal);
    StampsTwo(ps[0].policy.storage, 0, 10);
    CandidateNone(ps, 11, Normal);
  }
}
