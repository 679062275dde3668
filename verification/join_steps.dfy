/** Single steps of the join loop and of a push, for evaluating the
    synchronizer on concrete states: the candidate and attempt facts of a
    state decide its join round by round. */
module JoinSteps {
  import opened Types
  import opened MapStorage
  import opened Interpolation
  import opened Policies
  import opened Synchronizer

  /** `c` is the least visible stamp after `t`. */
  lemma {:induction false} CandidateIs<M>(parts: seq<Participant<M>>, t: int, a: Attribute, c: Time)
    requires PartsWellFormed(parts)
    requires c in VisibleAll(parts, a) && t < c
    requires forall x | x in VisibleAll(parts, a) && t < x :: c <= x
    ensures Candidate(parts, t, a) == c
  {
  }

  /** Nothing visible lies after `t`. */
  lemma {:induction false} CandidateNone<M>(parts: seq<Participant<M>>, t: int, a: Attribute)
    requires PartsWellFormed(parts)
    requires forall x | x in VisibleAll(parts, a) :: x <= t
    ensures Candidate(parts, t, a) == TimeMax
  {
  }

  /** The visible stamps of two single Normal policies. */
  lemma {:induction false} VisiblePair<M>(p: Policy<M>, q: Policy<M>, a: Attribute)
    requires WellFormed(p) && WellFormed(q) && p.attr == Normal && q.attr == Normal && a == Normal
    ensures PartsWellFormed([Single(p), Single(q)])
    ensures VisibleAll([Single(p), Single(q)], a) == Stamps(p.storage) + Stamps(q.storage)
  {
    var ps := [Single(p), Single(q)];
    assert ps[..1] == [ps[0]] && ps[..1][..0] == [];
    assert [p][..0] == [] && [q][..0] == [];
    assert VisibleIn([p], a) == VisibleStamps(p, a) == Stamps(p.storage);
    assert VisibleIn([q], a) == VisibleStamps(q, a) == Stamps(q.storage);
    assert PartVisible(ps[0], a) == Stamps(p.storage);
    assert PartVisible(ps[1], a) == Stamps(q.storage);
    assert VisibleAll(ps[..1], a) == Stamps(p.storage);
  }

  /** The stamps of a storage holding one entry at `t0`. */
  lemma {:induction false} StampsOne<M>(s: Storage<M>, t0: Time)
    requires |s.entries| == 1 && s.entries[0].0 == t0
    ensures Stamps(s) == {t0}
  {
    assert s.entries[0].0 in Stamps(s);
  }

  /** The stamps of a storage holding entries at `t0` and `t1`. */
  lemma {:induction false} StampsTwo<M>(s: Storage<M>, t0: Time, t1: Time)
    requires |s.entries| == 2 && s.entries[0].0 == t0 && s.entries[1].0 == t1
    ensures Stamps(s) == {t0, t1}
  {
    assert forall x | x in {t0, t1} :: x in Stamps(s) by {
      assert s.entries[0].0 in Stamps(s) && s.entries[1].0 in Stamps(s);
    }
  }

  /** The stamps of a storage holding entries at `t0`, `t1` and `t2`. */
  lemma {:induction false} StampsThree<M>(s: Storage<M>, t0: Time, t1: Time, t2: Time)
    requires |s.entries| == 3 && s.entries[0].0 == t0 && s.entries[1].0 == t1 && s.entries[2].0 == t2
    ensures Stamps(s) == {t0, t1, t2}
  {
    assert forall x | x in {t0, t1, t2} :: x in Stamps(s) by {
      assert s.entries[0].0 in Stamps(s) && s.entries[1].0 in Stamps(s) && s.entries[2].0 in Stamps(s);
    }
  }

  /** An attempt over two single policies: the second is peeked first and
      decides unless it succeeds. */
  lemma {:induction false} TryEmitTwo<M>(p: Policy<M>, q: Policy<M>, t: Time, ip: Interp<M>)
    requires WellFormed(p) && WellFormed(q)
    ensures PartsWellFormed([Single(p), Single(q)])
    ensures TryEmit([Single(p), Single(q)], t, ip) ==
            if Peek(q, t, ip).1 == PeekExpired then (EmitExpired, [])
            else if Peek(q, t, ip).1 == PeekNotReady then (EmitNotReady, [])
            else if Peek(p, t, ip).1 == PeekExpired then (EmitExpired, [])
            else if Peek(p, t, ip).1 == PeekNotReady then (EmitNotReady, [])
            else (EmitSuccess, [One(Peek(p, t, ip).0), One(Peek(q, t, ip).0)])
  {
    var ps := [Single(p), Single(q)];
    var rs := PeekAll(ps, t, ip);
    assert rs[0] == (One(Peek(p, t, ip).0), Peek(p, t, ip).1);
    assert rs[1] == (One(Peek(q, t, ip).0), Peek(q, t, ip).1);
    assert TryEmit(ps, t, ip) == EmitFrom(rs, 2, []);
    if rs[1].1 == PeekSuccess {
      assert [rs[1].0] + [] == [rs[1].0];
      assert EmitFrom(rs, 2, []) == EmitFrom(rs, 1, [rs[1].0]);
      if rs[0].1 == PeekSuccess {
        assert EmitFrom(rs, 1, [rs[1].0]) == EmitFrom(rs, 0, [rs[0].0] + [rs[1].0]);
        assert [rs[0].0] + [rs[1].0] == [rs[0].0, rs[1].0];
      }
    }
  }

  /** Rounds of the join loop by outcome. */
  lemma {:induction false} ExpiredRound<M>(v: View<M>, mode: Mode, pivot: int, t: Time)
    requires Advancing(v) && 1 <= Gap(mode)
    requires v.next(pivot) == t != TimeMax && v.attempt(t).0 == EmitExpired
    ensures Loop(v, mode, pivot) == Loop(v, mode, t)
  {
    LoopRound(v, mode, pivot);
  }

  lemma {:induction false} StopRound<M>(v: View<M>, mode: Mode, pivot: int)
    requires Advancing(v) && 1 <= Gap(mode)
    requires v.next(pivot) == TimeMax || v.attempt(v.next(pivot)).0 == EmitNotReady
    ensures Loop(v, mode, pivot) == JoinResult(pivot, [])
  {
    LoopRound(v, mode, pivot);
  }

  lemma {:induction false} EmitRound<M>(v: View<M>, mode: Mode, pivot: int, t: Time, outs: seq<Output<M>>)
    requires Advancing(v) && 1 <= Gap(mode)
    requires v.next(pivot) == t != TimeMax && v.attempt(t) == (EmitSuccess, outs)
    ensures var rest := Loop(v, mode, t + Gap(mode) - 1);
            Loop(v, mode, pivot) == JoinResult(rest.pivot, [Emission(t, outs)] + rest.trace)
  {
    LoopRound(v, mode, pivot);
  }

  /** A successful round followed by a stopping one. */
  lemma {:induction false} EmitThenStop<M>(v: View<M>, mode: Mode, pivot: int, t: Time, outs: seq<Output<M>>, next: int)
    requires Advancing(v) && 1 <= Gap(mode)
    requires v.next(pivot) == t != TimeMax && v.attempt(t) == (EmitSuccess, outs) && next == t + Gap(mode) - 1
    requires v.next(next) == TimeMax || v.attempt(v.next(next)).0 == EmitNotReady
    ensures Loop(v, mode, pivot) == JoinResult(next, [Emission(t, outs)])
  {
    EmitRound(v, mode, pivot, t, outs);
    StopRound(v, mode, next);
    assert [Emission(t, outs)] + [] == [Emission(t, outs)];
  }

  /** The join of a state whose first candidate is NotReady, or missing. */
  lemma {:induction false} JoinStops<M>(s: Sync<M>)
    requires Synchronizer.Valid(s)
    requires var t := Candidate(s.parts, s.pivot, Interest(s.mode));
             t == TimeMax || TryEmit(s.parts, t, s.ip).0 == EmitNotReady
    ensures Join(s) == JoinResult(s.pivot, [])
  {
    ViewAdvances(s.parts, s.mode, s.ip);
    StopRound(ViewOf(s.parts, s.mode, s.ip), s.mode, s.pivot);
  }

  /** The join of a state whose first candidate `t` expires: the same as
      the join from `t`. */
  lemma {:induction false} JoinExpires<M>(s: Sync<M>, t: Time)
    requires Synchronizer.Valid(s)
    requires Candidate(s.parts, s.pivot, Interest(s.mode)) == t != TimeMax && TryEmit(s.parts, t, s.ip).0 == EmitExpired
    ensures Join(s) == Join(s.(pivot := t))
  {
    ViewAdvances(s.parts, s.mode, s.ip);
    ExpiredRound(ViewOf(s.parts, s.mode, s.ip), s.mode, s.pivot, t);
  }

  /** The join of a state that emits once at its first candidate `t` and
      then stops. */
  lemma {:induction false} JoinEmitsOnce<M>(s: Sync<M>, t: Time, outs: seq<Output<M>>, next: int)
    requires Synchronizer.Valid(s)
    requires Candidate(s.parts, s.pivot, Interest(s.mode)) == t != TimeMax && TryEmit(s.parts, t, s.ip) == (EmitSuccess, outs)
    requires next == t + Gap(s.mode) - 1
    requires var u := Candidate(s.parts, next, Interest(s.mode));
             u == TimeMax || TryEmit(s.parts, u, s.ip).0 == EmitNotReady
    ensures Join(s) == JoinResult(next, [Emission(t, outs)])
  {
    ViewAdvances(s.parts, s.mode, s.ip);
    EmitThenStop(ViewOf(s.parts, s.mode, s.ip), s.mode, s.pivot, t, outs, next);
  }

  /** An accepted push yields the join of the state with the updated
      participant installed. */
  lemma {:induction false} Accepts<M>(s: Sync<M>, idx: nat, t: Time, input: Input<M>, part: Participant<M>)
    requires Synchronizer.Valid(s) && idx < |s.parts| && Fits(s.parts[idx], input)
    requires PartPush(s.parts[idx], t, input) == Ok((true, part))
    ensures Synchronizer.Valid(s.(parts := s.parts[idx := part]))
    ensures var d := s.(parts := s.parts[idx := part]);
            var j := Join(d);
            Pushed(s, idx, t, input) == Reply(d.(pivot := j.pivot), Ok(if |j.trace| > 0 then Emitted else Accepted), j.trace)
  {
  }

  /** An accepted push whose updated state `d` joins to `j`: the reply
      carries `d` with the pivot of `j` and the emissions of `j`. */
  lemma {:induction false} PushJoined<M>(s: Sync<M>, idx: nat, t: Time, input: Input<M>, part: Participant<M>, d: Sync<M>, j: JoinResult<M>)
    requires Synchronizer.Valid(s) && idx < |s.parts| && Fits(s.parts[idx], input)
    requires PartPush(s.parts[idx], t, input) == Ok((true, part))
    requires d == s.(parts := s.parts[idx := part])
    requires Synchronizer.Valid(d) && Join(d) == j
    ensures Pushed(s, idx, t, input) == Reply(d.(pivot := j.pivot), Ok(if |j.trace| > 0 then Emitted else Accepted), j.trace)
  {
    Accepts(s, idx, t, input, part);
  }

  /** An accepted push installs the updated participant, whatever the
      join then makes of the pivot. */
  lemma {:induction false} PushedInstalls<M>(s: Sync<M>, idx: nat, t: Time, input: Input<M>, part: Participant<M>)
    requires Synchronizer.Valid(s) && idx < |s.parts| && Fits(s.parts[idx], input)
    requires PartPush(s.parts[idx], t, input) == Ok((true, part))
    ensures Pushed(s, idx, t, input).sync.parts == s.parts[idx := part]
  {
  }

  /** A push to an array id outside the array is a fault and changes
      nothing. */
  lemma {:induction false} PushedFaults<M>(s: Sync<M>, idx: nat, t: Time, input: Input<M>)
    requires Synchronizer.Valid(s) && idx < |s.parts| && Fits(s.parts[idx], input)
    requires s.parts[idx].Array? && !(0 <= input.id < |s.parts[idx].members|)
    ensures Pushed(s, idx, t, input) == Reply(s, Err(OutOfRange), [])
  {
  }
}
