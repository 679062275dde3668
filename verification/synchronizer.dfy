/** The synchronizer: a fixed sequence of participants, one pivot time and a
    pivot-advance mode. Each accepted push runs the join loop, which looks
    for the next candidate time after the pivot, tries to emit a tuple
    there, and moves the pivot on. */
module Synchronizer {
  import opened Types
  import opened MapStorage
  import opened Interpolation
  import opened Policies

  /** The two pivot-advance strategies. */
  datatype Mode = MinInterval(minInterval: Time) | MasterSlave

  /** The attribute a policy needs for its stamps to become candidates. */
  function Interest(mode: Mode): (r: Attribute)
    ensures r != Optional
    ensures r == Master <==> mode.MasterSlave?
  {
    match mode
    case MinInterval(_) => Normal
    case MasterSlave => Master
  }

  /** The least distance the mode keeps between two emissions. */
  function Gap(mode: Mode): int {
    match mode
    case MinInterval(m) => m
    case MasterSlave => 1
  }

  datatype Sync<!M> = Sync(parts: seq<Participant<M>>, mode: Mode, ip: Interp<M>, pivot: int)

  ghost predicate PartsWellFormed<M>(parts: seq<Participant<M>>) {
    forall i | 0 <= i < |parts| :: PartWellFormed(parts[i])
  }

  /** A minimum interval below one would make the loop revisit a time forever. */
  ghost predicate Valid<M>(s: Sync<M>) {
    PartsWellFormed(s.parts) && (s.mode.MinInterval? ==> 1 <= s.mode.minInterval)
  }

  /** A fresh synchronizer: the pivot starts just before time zero. */
  function Init<M>(parts: seq<Participant<M>>, mode: Mode, ip: Interp<M>): Sync<M> {
    Sync(parts, mode, ip, -1)
  }

  ghost function VisibleAll<M>(parts: seq<Participant<M>>, a: Attribute): set<Time> {
    if |parts| == 0 then {} else VisibleAll(parts[..|parts| - 1], a) + PartVisible(parts[|parts| - 1], a)
  }

  /** The next candidate: the least visible stamp after `t` over all
      participants, or the sentinel. */
  function Candidate<M>(parts: seq<Participant<M>>, t: int, a: Attribute): (r: Time)
    requires PartsWellFormed(parts)
    ensures r == TimeMax || (r in VisibleAll(parts, a) && t < r)
    ensures forall x | x in VisibleAll(parts, a) && t < x :: r <= x
  {
    if |parts| == 0 then TimeMax
    else Min(PartSucTime(parts[|parts| - 1], t, a), Candidate(parts[..|parts| - 1], t, a))
  }

  /** A stamp is visible at interest `a` exactly when some member policy
      ranked at least `a` stores it. */
  lemma {:induction false} VisibleInIff<M>(ps: seq<Policy<M>>, a: Attribute, x: Time)
    ensures x in VisibleIn(ps, a) <==> exists j | 0 <= j < |ps| :: !Below(ps[j].attr, a) && x in Stamps(ps[j].storage)
  {
    if |ps| > 0 {
      var init := ps[..|ps| - 1];
      VisibleInIff(init, a, x);
      assert forall j | 0 <= j < |init| :: init[j] == ps[j];
    }
  }

  lemma {:induction false} VisibleAllIff<M>(parts: seq<Participant<M>>, a: Attribute, x: Time)
    ensures x in VisibleAll(parts, a) <==>
            exists i, j | 0 <= i < |parts| && 0 <= j < |Members(parts[i])| ::
              !Below(Members(parts[i])[j].attr, a) && x in Stamps(Members(parts[i])[j].storage)
  {
    if |parts| > 0 {
      var init := parts[..|parts| - 1];
      var n := |parts| - 1;
      VisibleAllIff(init, a, x);
      VisibleInIff(Members(parts[n]), a, x);
      assert forall i | 0 <= i < |init| :: init[i] == parts[i];
    }
  }

  /** Under MasterSlave every candidate is a stamp stored by a Master
      policy, and no Master stamp after `t` lies below it. */
  lemma MasterCandidates<M>(parts: seq<Participant<M>>, t: int)
    requires PartsWellFormed(parts)
    ensures var c := Candidate(parts, t, Interest(MasterSlave));
            c == TimeMax ||
            exists i, j | 0 <= i < |parts| && 0 <= j < |Members(parts[i])| ::
              Members(parts[i])[j].attr == Master && c in Stamps(Members(parts[i])[j].storage)
    ensures forall i, j, x | 0 <= i < |parts| && 0 <= j < |Members(parts[i])| &&
                             Members(parts[i])[j].attr == Master && x in Stamps(Members(parts[i])[j].storage) && t < x ::
              Candidate(parts, t, Interest(MasterSlave)) <= x
  {
    var c := Candidate(parts, t, Master);
    VisibleAllIff(parts, Master, c);
    forall i, j, x | 0 <= i < |parts| && 0 <= j < |Members(parts[i])| &&
                     Members(parts[i])[j].attr == Master && x in Stamps(Members(parts[i])[j].storage) && t < x
      ensures c <= x
    {
      VisibleAllIff(parts, Master, x);
    }
  }

  /** The peek result of every participant at `t`, in declaration order. */
  function PeekAll<M>(parts: seq<Participant<M>>, t: Time, ip: Interp<M>): (rs: seq<(Output<M>, PeekStatus)>)
    requires PartsWellFormed(parts)
    ensures |rs| == |parts|
  {
    seq(|parts|, i requires 0 <= i < |parts| => PartPeek(parts[i], t, ip))
  }

  /** Result `i` is the last one below `k` that is not a success. */
  ghost predicate Decides<M>(rs: seq<(Output<M>, PeekStatus)>, k: nat, i: int) {
    && 0 <= i < k <= |rs|
    && rs[i].1 != PeekSuccess
    && forall j | i < j < k :: rs[j].1 == PeekSuccess
  }

  /** Looks at participants `k-1` down to `0`, prepending each output to
      `acc`, and stops at the first one whose peek did not succeed. */
  function EmitFrom<M>(rs: seq<(Output<M>, PeekStatus)>, k: nat, acc: seq<Output<M>>): (EmitStatus, seq<Output<M>>)
    requires k <= |rs|
    decreases k
  {
    if k == 0 then (EmitSuccess, acc)
    else
      var (out, status) := rs[k - 1];
      if status == PeekSuccess then EmitFrom(rs, k - 1, [out] + acc)
      else if status == PeekExpired then (EmitExpired, [])
      else (EmitNotReady, [])
  }

  /** What the descending recursion computes, stated over all indices. */
  lemma {:induction false} EmitFromSpec<M>(rs: seq<(Output<M>, PeekStatus)>, k: nat, acc: seq<Output<M>>)
    requires k <= |rs|
    ensures var r := EmitFrom(rs, k, acc);
            r.0 == EmitSuccess <==> forall i | 0 <= i < k :: rs[i].1 == PeekSuccess
    ensures var r := EmitFrom(rs, k, acc);
            r.0 == EmitSuccess ==>
              && |r.1| == k + |acc| && r.1[k..] == acc
              && forall i | 0 <= i < k :: r.1[i] == rs[i].0
    ensures var r := EmitFrom(rs, k, acc);
            r.0 != EmitSuccess ==>
              exists i :: Decides(rs, k, i) && (r.0 == EmitExpired <==> rs[i].1 == PeekExpired)
    decreases k
  {
    if k > 0 {
      var r := EmitFrom(rs, k, acc);
      var (out, status) := rs[k - 1];
      if status == PeekSuccess {
        var acc' := [out] + acc;
        EmitFromSpec(rs, k - 1, acc');
        assert r == EmitFrom(rs, k - 1, acc');
        if r.0 == EmitSuccess {
          assert r.1[k - 1..] == acc';
          assert r.1[k..] == r.1[k - 1..][1..];
        } else {
          var i :| Decides(rs, k - 1, i) && (r.0 == EmitExpired <==> rs[i].1 == PeekExpired);
          assert Decides(rs, k, i);
        }
      } else {
        assert Decides(rs, k, k - 1);
      }
    }
  }

  /** One emission attempt at `t`: peeks every participant and walks the
      results from the last one down. */
  function TryEmit<M>(parts: seq<Participant<M>>, t: Time, ip: Interp<M>): (EmitStatus, seq<Output<M>>)
    requires PartsWellFormed(parts)
  {
    var rs := PeekAll(parts, t, ip);
    EmitFrom(rs, |rs|, [])
  }

  /** An attempt succeeds exactly when every participant's peek succeeds,
      and then delivers every output in declaration order; otherwise the
      last participant that did not succeed decides Expired or NotReady.
      Attributes play no part here. */
  lemma TryEmitSpec<M>(parts: seq<Participant<M>>, t: Time, ip: Interp<M>)
    requires PartsWellFormed(parts)
    ensures var r := TryEmit(parts, t, ip);
            r.0 == EmitSuccess <==> forall i | 0 <= i < |parts| :: PartPeek(parts[i], t, ip).1 == PeekSuccess
    ensures var r := TryEmit(parts, t, ip);
            r.0 == EmitSuccess ==> |r.1| == |parts| && forall i | 0 <= i < |parts| :: r.1[i] == PartPeek(parts[i], t, ip).0
    ensures var r := TryEmit(parts, t, ip);
            var rs := PeekAll(parts, t, ip);
            r.0 != EmitSuccess ==> exists i :: Decides(rs, |rs|, i) && (r.0 == EmitExpired <==> rs[i].1 == PeekExpired)
  {
    var rs := PeekAll(parts, t, ip);
    EmitFromSpec(rs, |rs|, []);
    assert forall i | 0 <= i < |parts| :: rs[i] == PartPeek(parts[i], t, ip);
  }

  /** The pivot after an attempt at `t`: NotReady leaves it; Expired moves
      it to `t`; Success moves it `Gap - 1` past `t`. */
  function UpdatePivot(mode: Mode, pivot: int, t: Time, status: EmitStatus): (r: int)
    ensures !status.Continues() ==> r == pivot
    ensures status == EmitExpired ==> r == t
    ensures status == EmitSuccess ==> r == t + Gap(mode) - 1
  {
    match mode
    case MinInterval(m) =>
      if status == EmitSuccess then t + m - 1
      else if status == EmitExpired then t
      else pivot
    case MasterSlave =>
      if status.Continues() then t else pivot
  }

  datatype Emission<M> = Emission(time: Time, outs: seq<Output<M>>)

  /** Consecutive emissions lie at least `gap` apart. */
  ghost predicate Spaced<M>(trace: seq<Emission<M>>, gap: int) {
    forall i | 0 <= i < |trace| - 1 :: trace[i].time + gap <= trace[i + 1].time
  }

  /** Every emission lies after `lo` and at or before `hi`. */
  ghost predicate Within<M>(trace: seq<Emission<M>>, lo: int, hi: int) {
    forall i | 0 <= i < |trace| :: lo < trace[i].time <= hi
  }

  /** The last emission keeps the gap to the pivot `p`: with the pivot
      moved to `p`, no later emission can come closer than `gap`. */
  ghost predicate EndsBy<M>(trace: seq<Emission<M>>, gap: int, p: int) {
    |trace| > 0 ==> trace[|trace| - 1].time + gap - 1 <= p
  }

  datatype JoinResult<M> = JoinResult(pivot: int, trace: seq<Emission<M>>)

  // ------------------------------------------------------------ join loop

  /** What the join loop sees of the participants, which it never changes:
      the next candidate after a pivot, and the attempt at a time. */
  datatype View<!M> = View(next: int -> Time, attempt: Time -> (EmitStatus, seq<Output<M>>))

  function ViewOf<M>(parts: seq<Participant<M>>, mode: Mode, ip: Interp<M>): View<M>
    requires PartsWellFormed(parts)
  {
    View(x => Candidate(parts, x, Interest(mode)), t => TryEmit(parts, t, ip))
  }

  /** The candidates of real participants advance and are visible stamps. */
  lemma ViewAdvances<M>(parts: seq<Participant<M>>, mode: Mode, ip: Interp<M>)
    requires PartsWellFormed(parts)
    ensures Advancing(ViewOf(parts, mode, ip))
    ensures var v := ViewOf(parts, mode, ip);
            forall x | v.next(x) != TimeMax :: v.next(x) in VisibleAll(parts, Interest(mode))
  {
  }

  /** A candidate, when there is one, lies after the pivot it was asked for. */
  ghost predicate Advancing<M>(v: View<M>) {
    forall x: int :: v.next(x) == TimeMax || x < v.next(x)
  }

  /** The join loop: candidate, attempt, pivot update, repeated while the
      outcome is Success or Expired. Every continuing round moves the
      pivot to at least the candidate, past the old pivot, and no
      candidate exceeds the sentinel. */
  function Loop<M>(v: View<M>, mode: Mode, pivot: int): JoinResult<M>
    requires Advancing(v) && 1 <= Gap(mode)
    decreases TimeMax - pivot
  {
    var t := v.next(pivot);
    if t == TimeMax then JoinResult(pivot, [])
    else
      var (status, outs) := v.attempt(t);
      var pivot' := UpdatePivot(mode, pivot, t, status);
      var emitted := if status == EmitSuccess then [Emission(t, outs)] else [];
      if status.Continues() then
        var rest := Loop(v, mode, pivot');
        JoinResult(rest.pivot, emitted + rest.trace)
      else
        JoinResult(pivot', emitted)
  }

  /** With a gap of at least 1, a round that goes on leaves the pivot at
      or past the stamp it tried, so that stamp is never offered again. */
  lemma {:induction false} RoundPassesCandidate<M>(v: View<M>, mode: Mode, pivot: int)
    requires Advancing(v) && 1 <= Gap(mode)
    requires v.next(pivot) != TimeMax && v.attempt(v.next(pivot)).0.Continues()
    ensures var t := v.next(pivot);
            var p := UpdatePivot(mode, pivot, t, v.attempt(t).0);
            pivot < t <= p && (v.next(p) == TimeMax || t < v.next(p))
  {
    var t := v.next(pivot);
    var p := UpdatePivot(mode, pivot, t, v.attempt(t).0);
    assert v.next(pivot) == TimeMax || pivot < v.next(pivot);
    assert v.next(p) == TimeMax || p < v.next(p);
  }

  /** One round of the loop, unfolded. */
  lemma LoopRound<M>(v: View<M>, mode: Mode, pivot: int)
    requires Advancing(v) && 1 <= Gap(mode)
    ensures var t := v.next(pivot);
            t == TimeMax || !v.attempt(t).0.Continues() ==>
              Loop(v, mode, pivot) == JoinResult(pivot, if t != TimeMax && v.attempt(t).0 == EmitSuccess then [Emission(t, v.attempt(t).1)] else [])
    ensures var t := v.next(pivot);
            t != TimeMax && v.attempt(t).0.Continues() ==>
              var (status, outs) := v.attempt(t);
              var rest := Loop(v, mode, UpdatePivot(mode, pivot, t, status));
              var emitted := if status == EmitSuccess then [Emission(t, outs)] else [];
              Loop(v, mode, pivot) == JoinResult(rest.pivot, emitted + rest.trace)
  {
  }

  /** The pivot never falls and every emission lies after the starting
      pivot and at or before the final one. */
  lemma {:induction false} LoopAdvances<M>(v: View<M>, mode: Mode, pivot: int)
    requires Advancing(v) && 1 <= Gap(mode)
    ensures var r := Loop(v, mode, pivot);
            pivot <= r.pivot && Within(r.trace, pivot, r.pivot)
    decreases TimeMax - pivot
  {
    var t := v.next(pivot);
    LoopRound(v, mode, pivot);
    if t != TimeMax && v.attempt(t).0.Continues() {
      var (status, outs) := v.attempt(t);
      var pivot' := UpdatePivot(mode, pivot, t, status);
      assert pivot < t <= pivot';
      LoopAdvances(v, mode, pivot');
      var rest := Loop(v, mode, pivot');
      var emitted := if status == EmitSuccess then [Emission(t, outs)] else [];
      assert Loop(v, mode, pivot) == JoinResult(rest.pivot, emitted + rest.trace);
      forall i | 0 <= i < |emitted + rest.trace|
        ensures pivot < (emitted + rest.trace)[i].time <= rest.pivot
      {
        if i >= |emitted| {
          assert (emitted + rest.trace)[i] == rest.trace[i - |emitted|];
        }
      }
    }
  }

  /** Emissions keep the mode's gap between each other and to the final
      pivot. */
  lemma {:induction false} LoopSpaced<M>(v: View<M>, mode: Mode, pivot: int)
    requires Advancing(v) && 1 <= Gap(mode)
    ensures var r := Loop(v, mode, pivot);
            Spaced(r.trace, Gap(mode)) && EndsBy(r.trace, Gap(mode), r.pivot)
    decreases TimeMax - pivot
  {
    var t := v.next(pivot);
    LoopRound(v, mode, pivot);
    if t != TimeMax && v.attempt(t).0.Continues() {
      var (status, outs) := v.attempt(t);
      var pivot' := UpdatePivot(mode, pivot, t, status);
      LoopSpaced(v, mode, pivot');
      LoopAdvances(v, mode, pivot');
      var rest := Loop(v, mode, pivot');
      var emitted := if status == EmitSuccess then [Emission(t, outs)] else [];
      assert Loop(v, mode, pivot) == JoinResult(rest.pivot, emitted + rest.trace);
      SpacedAppend(emitted, rest.trace, Gap(mode), pivot', rest.pivot);
    }
  }

  /** Every emission is at a candidate time (so inside any set holding all
      candidates) where the attempt succeeded with exactly those outputs. */
  lemma {:induction false} LoopEmitsSuccesses<M>(v: View<M>, mode: Mode, pivot: int, stamps: set<Time>)
    requires Advancing(v) && 1 <= Gap(mode)
    requires forall x | v.next(x) != TimeMax :: v.next(x) in stamps
    ensures forall e | e in Loop(v, mode, pivot).trace :: e.time in stamps && v.attempt(e.time) == (EmitSuccess, e.outs)
    decreases TimeMax - pivot
  {
    var t := v.next(pivot);
    if t != TimeMax {
      var (status, outs) := v.attempt(t);
      if status.Continues() {
        LoopEmitsSuccesses(v, mode, UpdatePivot(mode, pivot, t, status), stamps);
      }
    }
  }

  /** The loop stops only once nothing more can be resolved: at its final
      pivot there is no candidate, or the attempt there is NotReady. */
  lemma {:induction false} LoopQuiescent<M>(v: View<M>, mode: Mode, pivot: int)
    requires Advancing(v) && 1 <= Gap(mode)
    ensures var p := Loop(v, mode, pivot).pivot;
            v.next(p) == TimeMax || v.attempt(v.next(p)).0 == EmitNotReady
    decreases TimeMax - pivot
  {
    var t := v.next(pivot);
    if t != TimeMax {
      var (status, outs) := v.attempt(t);
      if status.Continues() {
        LoopQuiescent(v, mode, UpdatePivot(mode, pivot, t, status));
      }
    }
  }

  /** The join loop of a synchronizer, from its current pivot: the pivot
      never falls, every emission lies above the old pivot and at or below
      the new one, and emissions keep the mode's gap. */
  function Join<M>(s: Sync<M>): (r: JoinResult<M>)
    requires Valid(s)
    ensures s.pivot <= r.pivot && Within(r.trace, s.pivot, r.pivot)
    ensures Spaced(r.trace, Gap(s.mode))
  {
    ViewAdvances(s.parts, s.mode, s.ip);
    var v := ViewOf(s.parts, s.mode, s.ip);
    LoopAdvances(v, s.mode, s.pivot);
    LoopSpaced(v, s.mode, s.pivot);
    Loop(v, s.mode, s.pivot)
  }

  /** Every emission of the join loop is at a visible stamp where an
      attempt succeeds with exactly the emitted outputs. */
  lemma JoinEmitsSuccesses<M>(s: Sync<M>)
    requires Valid(s)
    ensures forall e | e in Join(s).trace ::
              e.time in VisibleAll(s.parts, Interest(s.mode)) && TryEmit(s.parts, e.time, s.ip) == (EmitSuccess, e.outs)
  {
    var v := ViewOf(s.parts, s.mode, s.ip);
    ViewAdvances(s.parts, s.mode, s.ip);
    LoopEmitsSuccesses(v, s.mode, s.pivot, VisibleAll(s.parts, Interest(s.mode)));
  }

  /** The loop has nothing it can resolve now: no candidate, or the
      candidate is not ready. */
  ghost predicate Quiescent<M>(s: Sync<M>)
    requires PartsWellFormed(s.parts)
  {
    var c := Candidate(s.parts, s.pivot, Interest(s.mode));
    c == TimeMax || TryEmit(s.parts, c, s.ip).0 == EmitNotReady
  }

  /** The join loop stops only once nothing more can be resolved. */
  lemma JoinQuiescent<M>(s: Sync<M>)
    requires Valid(s)
    ensures Quiescent(s.(pivot := Join(s).pivot))
  {
    ViewAdvances(s.parts, s.mode, s.ip);
    LoopQuiescent(ViewOf(s.parts, s.mode, s.ip), s.mode, s.pivot);
  }


  /** Stamps still ahead of the pivot. */
  ghost function Pending<M>(s: Sync<M>): set<Time>
    requires PartsWellFormed(s.parts)
  {
    set x | x in VisibleAll(s.parts, Interest(s.mode)) && s.pivot < x
  }

  /** Every continuing round consumes its candidate from the stamps still
      ahead of the pivot, so the loop runs at most that many rounds. */
  lemma RoundConsumesPending<M>(s: Sync<M>)
    requires Valid(s)
    ensures var t := Candidate(s.parts, s.pivot, Interest(s.mode));
            t != TimeMax && TryEmit(s.parts, t, s.ip).0.Continues() ==>
              |Pending(s.(pivot := UpdatePivot(s.mode, s.pivot, t, TryEmit(s.parts, t, s.ip).0)))| < |Pending(s)|
  {
    var t := Candidate(s.parts, s.pivot, Interest(s.mode));
    if t != TimeMax && TryEmit(s.parts, t, s.ip).0.Continues() {
      var p := UpdatePivot(s.mode, s.pivot, t, TryEmit(s.parts, t, s.ip).0);
      assert s.pivot < t <= p by {
        ViewAdvances(s.parts, s.mode, s.ip);
        assert ViewOf(s.parts, s.mode, s.ip).next(s.pivot) == t;
      }
      var after := Pending(s.(pivot := p));
      assert after <= Pending(s) - {t} by {
        forall x | x in after
          ensures x in Pending(s) - {t}
        {
        }
      }
      SubsetCard(after, Pending(s) - {t});
    }
  }

  lemma SubsetCard<T>(a: set<T>, b: set<T>)
    requires a <= b
    ensures |a| <= |b|
    decreases b
  {
    if a != {} {
      var x :| x in a;
      SubsetCard(a - {x}, b - {x});
    }
  }

  /** The join loop as the source writes it: a do-while over candidate,
      attempt and pivot update, recording every successful attempt. It is
      written against a view, so it computes exactly what `Loop` describes;
      the emissions keep the mode's gap, also to the final pivot. */
  method CheckQueue<M>(v: View<M>, mode: Mode, pivot0: int) returns (pivot: int, status: PushStatus, trace: seq<Emission<M>>)
    requires Advancing(v) && 1 <= Gap(mode)
    ensures pivot == Loop(v, mode, pivot0).pivot && trace == Loop(v, mode, pivot0).trace
    ensures status == Accepted || status == Emitted
    ensures status == Emitted <==> |trace| > 0
  {
    pivot := pivot0;
    trace := [];
    var anyEmitted := false;
    while true
      invariant Loop(v, mode, pivot0) == JoinResult(Loop(v, mode, pivot).pivot, trace + Loop(v, mode, pivot).trace)
      invariant anyEmitted <==> |trace| > 0
      decreases TimeMax - pivot
    {
      LoopRound(v, mode, pivot);
      var t := v.next(pivot);
      if t == TimeMax {
        assert trace + [] == trace;
        break;
      }
      var (emitStatus, outs) := v.attempt(t);
      var emitted := if emitStatus == EmitSuccess then [Emission(t, outs)] else [];
      pivot := UpdatePivot(mode, pivot, t, emitStatus);
      if emitStatus == EmitSuccess {
        anyEmitted := true;
      }
      if !emitStatus.Continues() {
        assert trace + [] == trace;
        break;
      }
      AppendAssoc(trace, emitted, Loop(v, mode, pivot).trace);
      trace := trace + emitted;
    }
    status := if anyEmitted then Emitted else Accepted;
  }

  lemma AppendAssoc<T>(a: seq<T>, b: seq<T>, c: seq<T>)
    ensures a + (b + c) == (a + b) + c
  {
  }

  // ------------------------------------------------------------- pushing

  /** The policy an input addresses inside its participant. */
  function Target<M>(part: Participant<M>, input: Input<M>): Policy<M>
    requires Fits(part, input) && (part.Array? ==> 0 <= input.id < |part.members|)
  {
    match part
    case Single(p) => p
    case Array(ps) => ps[input.id]
  }

  /** Outcome of one push: the new state, the status (or the fault) and
      the emissions the callback would have received, in order. */
  datatype Reply<!M> = Reply(sync: Sync<M>, status: Result<PushStatus>, trace: seq<Emission<M>>)

  /** Runs the synchronizer's join loop from its pivot: the result is
      exactly the join, the push is Emitted exactly when the loop emitted
      something, and only the pivot of the state changes. */
  method Settle<M>(d: Sync<M>) returns (r: Reply<M>)
    requires Valid(d)
    ensures r.sync == d.(pivot := Join(d).pivot) && r.trace == Join(d).trace
    ensures Valid(r.sync) && r.sync.parts == d.parts && r.sync.mode == d.mode && r.sync.ip == d.ip
    ensures r.status == Ok(Accepted) || r.status == Ok(Emitted)
    ensures r.status == Ok(Emitted) <==> |r.trace| > 0
    ensures d.pivot <= r.sync.pivot
    ensures Within(r.trace, d.pivot, r.sync.pivot)
    ensures Spaced(r.trace, Gap(d.mode)) && EndsBy(r.trace, Gap(d.mode), r.sync.pivot)
  {
    ViewAdvances(d.parts, d.mode, d.ip);
    var v := ViewOf(d.parts, d.mode, d.ip);
    var pivot, status, trace := CheckQueue(v, d.mode, d.pivot);
    LoopAdvances(v, d.mode, d.pivot);
    LoopSpaced(v, d.mode, d.pivot);
    r := Reply(d.(pivot := pivot), Ok(status), trace);
  }

  /** The addressed policy takes the message exactly when its queue is
      empty or the stamp is newer than its newest entry. */
  lemma PartPushAccepts<M>(part: Participant<M>, t: Time, input: Input<M>)
    requires PartWellFormed(part) && Fits(part, input) && PartPush(part, t, input).Ok?
    ensures PartPush(part, t, input).value.0 <==>
              Empty(Target(part, input).storage) || Back(Target(part, input).storage).0 < t
  {
  }

  /** The state with participant `idx` replaced by an updated one of the
      same kind: still valid, and nothing else differs. */
  lemma Installed<M>(s: Sync<M>, idx: nat, part: Participant<M>)
    requires Valid(s) && idx < |s.parts| && PartWellFormed(part) && part.Single? == s.parts[idx].Single?
    ensures var d := s.(parts := s.parts[idx := part]);
            Valid(d) && |d.parts| == |s.parts| && d.parts[idx] == part &&
            (forall j | 0 <= j < |s.parts| :: d.parts[j].Single? == s.parts[j].Single?) &&
            (forall j | 0 <= j < |s.parts| && j != idx :: d.parts[j] == s.parts[j])
  {
  }

  /** The reply a push yields, stated through the join: a fault or a
      dropped message leaves the state alone; an accepted one installs the
      updated participant, and the join from the old pivot decides the new
      pivot, the emissions and whether the push counts as Emitted. */
  function Pushed<M>(s: Sync<M>, idx: nat, t: Time, input: Input<M>): (r: Reply<M>)
    requires Valid(s) && idx < |s.parts| && Fits(s.parts[idx], input)
    ensures Valid(r.sync) && r.sync.mode == s.mode && r.sync.ip == s.ip && |r.sync.parts| == |s.parts|
    ensures forall j | 0 <= j < |s.parts| :: r.sync.parts[j].Single? == s.parts[j].Single?
  {
    match PartPush(s.parts[idx], t, input)
    case Err(f) => Reply(s, Err(f), [])
    case Ok((accepted, part)) =>
      if !accepted then Reply(s, Ok(Dropped), [])
      else
        Installed(s, idx, part);
        var d := s.(parts := s.parts[idx := part]);
        var j := Join(d);
        Reply(d.(pivot := j.pivot), Ok(if |j.trace| > 0 then Emitted else Accepted), j.trace)
  }

  /** After an accepted push the addressed policy is exactly what its own
      push produced, so with a non-negative window the message is its
      newest entry; in an array every other member is left as it was. */
  lemma {:induction false} PushStoresMessage<M>(s: Sync<M>, idx: nat, t: Time, input: Input<M>)
    requires Valid(s) && idx < |s.parts| && Fits(s.parts[idx], input)
    ensures var r := Pushed(s, idx, t, input);
            r.status == Ok(Accepted) || r.status == Ok(Emitted) ==>
              && Fits(r.sync.parts[idx], input)
              && (r.sync.parts[idx].Array? ==> |r.sync.parts[idx].members| == |s.parts[idx].members|)
              && Target(r.sync.parts[idx], input) == Policies.Push(Target(s.parts[idx], input), t, input.msg).1
              && (0 <= Target(s.parts[idx], input).storage.historyWin ==>
                    !Empty(Target(r.sync.parts[idx], input).storage)
                    && Back(Target(r.sync.parts[idx], input).storage) == (t, input.msg))
              && (r.sync.parts[idx].Array? ==>
                    forall k | 0 <= k < |s.parts[idx].members| && k != input.id ::
                      r.sync.parts[idx].members[k] == s.parts[idx].members[k])
  {
    var r := Pushed(s, idx, t, input);
    var res := PartPush(s.parts[idx], t, input);
    if res.Ok? && res.value.0 {
      assert r.sync.parts == s.parts[idx := res.value.1];
    }
  }

  /** The push entry point: the message goes to participant `idx`; an
      array id outside the array is a fault; a message the addressed
      policy rejects is Dropped and runs no loop; an accepted one installs
      the updated participant and runs the join loop. */
  method Push<M>(s: Sync<M>, idx: nat, t: Time, input: Input<M>) returns (r: Reply<M>)
    requires Valid(s) && idx < |s.parts| && Fits(s.parts[idx], input)
    ensures r == Pushed(s, idx, t, input)
    ensures Valid(r.sync) && r.sync.mode == s.mode && r.sync.ip == s.ip && |r.sync.parts| == |s.parts|
    ensures forall j | 0 <= j < |s.parts| :: r.sync.parts[j].Single? == s.parts[j].Single?
    ensures forall j | 0 <= j < |s.parts| && j != idx :: r.sync.parts[j] == s.parts[j]
    ensures r.status.Err? <==> s.parts[idx].Array? && !(0 <= input.id < |s.parts[idx].members|)
    ensures r.status.Ok? ==>
              var p := Target(s.parts[idx], input);
              r.status.value == Dropped <==> !Empty(p.storage) && t <= Back(p.storage).0
    ensures r.status.Err? || r.status == Ok(Dropped) ==> r.sync == s && r.trace == []
    ensures r.status == Ok(Accepted) || r.status == Ok(Emitted) ==>
              var d := s.(parts := s.parts[idx := PartPush(s.parts[idx], t, input).value.1]);
              r.sync == d.(pivot := Join(d).pivot) && r.trace == Join(d).trace
    ensures r.status == Ok(Emitted) <==> |r.trace| > 0
    ensures s.pivot <= r.sync.pivot
    ensures Within(r.trace, s.pivot, r.sync.pivot)
    ensures Spaced(r.trace, Gap(s.mode)) && EndsBy(r.trace, Gap(s.mode), r.sync.pivot)
  {
    var res := PartPush(s.parts[idx], t, input);
    if res.Err? {
      r := Reply(s, Err(res.fault), []);
    } else {
      PartPushAccepts(s.parts[idx], t, input);
      if !res.value.0 {
        r := Reply(s, Ok(Dropped), []);
      } else {
        Installed(s, idx, res.value.1);
        var d := s.(parts := s.parts[idx := res.value.1]);
        assert Gap(d.mode) == Gap(s.mode);
        r := Settle(d);
      }
    }
  }

  /** After an accepted push the synchronizer is quiescent again, and every
      emission is a successful attempt at a visible stamp carrying the
      outputs an attempt at that time delivers. */
  lemma AcceptedPush<M>(s: Sync<M>, idx: nat, t: Time, input: Input<M>)
    requires Valid(s) && idx < |s.parts| && Fits(s.parts[idx], input)
    requires PartPush(s.parts[idx], t, input).Ok? && PartPush(s.parts[idx], t, input).value.0
    ensures var d := s.(parts := s.parts[idx := PartPush(s.parts[idx], t, input).value.1]);
            var after := d.(pivot := Join(d).pivot);
            && Quiescent(after)
            && forall e | e in Join(d).trace ::
                 e.time in VisibleAll(after.parts, Interest(s.mode)) && TryEmit(after.parts, e.time, s.ip) == (EmitSuccess, e.outs)
  {
    var d := s.(parts := s.parts[idx := PartPush(s.parts[idx], t, input).value.1]);
    JoinQuiescent(d);
    JoinEmitsSuccesses(d);
  }

  /** Reads the queue size of participant `idx`; an array participant is
      addressed with a member id, and an id outside it is a fault. */
  function QueueSize<M>(s: Sync<M>, idx: nat, id: Option<int>): (r: Result<nat>)
    requires idx < |s.parts| && (s.parts[idx].Single? <==> id.None?)
    ensures r.Err? <==> id.Some? && !(0 <= id.value < |s.parts[idx].members|)
    ensures r.Ok? && id.None? ==> r.value == |s.parts[idx].policy.storage.entries|
    ensures r.Ok? && id.Some? ==> r.value == |s.parts[idx].members[id.value].storage.entries|
  {
    match s.parts[idx]
    case Single(p) => Ok(Policies.QueueSize(p))
    case Array(ps) => ArrayQueueSize(ps, id.value)
  }

  // ---------------------------------------------------------------- runs

  /** One call of the push entry point. */
  datatype Request<M> = Request(idx: nat, t: Time, input: Input<M>)

  /** Every request names an existing participant with an input of its kind. */
  ghost predicate Admissible<M>(parts: seq<Participant<M>>, reqs: seq<Request<M>>) {
    forall k | 0 <= k < |reqs| :: reqs[k].idx < |parts| && Fits(parts[reqs[k].idx], reqs[k].input)
  }

  datatype Outcome<!M> = Outcome(sync: Sync<M>, statuses: seq<Result<PushStatus>>, trace: seq<Emission<M>>)

  /** Pushes the requests in order, collecting statuses and emissions.
      Across any sequence of pushes the emissions keep the mode's gap: at
      least the minimum interval apart, or strictly increasing for
      master/slave; the last one also keeps it to the final pivot. */
  method Run<M>(s: Sync<M>, reqs: seq<Request<M>>) returns (o: Outcome<M>)
    requires Valid(s) && Admissible(s.parts, reqs)
    ensures Valid(o.sync) && o.sync.mode == s.mode && |o.sync.parts| == |s.parts|
    ensures |o.statuses| == |reqs|
    ensures s.pivot <= o.sync.pivot && Within(o.trace, s.pivot, o.sync.pivot)
    ensures Spaced(o.trace, Gap(s.mode)) && EndsBy(o.trace, Gap(s.mode), o.sync.pivot)
  {
    var cur := s;
    var statuses: seq<Result<PushStatus>> := [];
    var trace: seq<Emission<M>> := [];
    for k := 0 to |reqs|
      invariant Valid(cur) && cur.mode == s.mode && |cur.parts| == |s.parts|
      invariant forall j | 0 <= j < |s.parts| :: cur.parts[j].Single? == s.parts[j].Single?
      invariant |statuses| == k
      invariant s.pivot <= cur.pivot && Within(trace, s.pivot, cur.pivot)
      invariant Spaced(trace, Gap(s.mode)) && EndsBy(trace, Gap(s.mode), cur.pivot)
    {
      var q := reqs[k];
      assert Fits(s.parts[q.idx], q.input);
      var r := Push(cur, q.idx, q.t, q.input);
      SpacedAppend(trace, r.trace, Gap(s.mode), cur.pivot, r.sync.pivot);
      WithinAppend(trace, r.trace, s.pivot, cur.pivot, r.sync.pivot);
      statuses := statuses + [r.status];
      trace := trace + r.trace;
      cur := r.sync;
    }
    o := Outcome(cur, statuses, trace);
  }

  /** Two spaced traces, the first ending at least a gap before every
      entry of the second, join into one spaced trace. */
  lemma SpacedAppend<M>(a: seq<Emission<M>>, b: seq<Emission<M>>, gap: int, p: int, q: int)
    requires Spaced(a, gap) && EndsBy(a, gap, p)
    requires Spaced(b, gap) && EndsBy(b, gap, q)
    requires Within(b, p, q) && p <= q
    ensures Spaced(a + b, gap) && EndsBy(a + b, gap, q)
  {
    var c := a + b;
    forall i | 0 <= i < |c| - 1
      ensures c[i].time + gap <= c[i + 1].time
    {
      if i + 1 < |a| {
        assert c[i] == a[i] && c[i + 1] == a[i + 1];
      } else if i + 1 == |a| {
        assert c[i] == a[|a| - 1] && c[i + 1] == b[0];
      } else {
        assert c[i] == b[i - |a|] && c[i + 1] == b[i - |a| + 1];
      }
    }
    if |b| > 0 {
      assert c[|c| - 1] == b[|b| - 1];
    } else {
      assert c == a;
    }
  }

  /** Emissions inside (lo, p] followed by emissions inside (p, q] all lie
      inside (lo, q]. */
  lemma WithinAppend<M>(a: seq<Emission<M>>, b: seq<Emission<M>>, lo: int, p: int, q: int)
    requires Within(a, lo, p) && Within(b, p, q) && lo <= p <= q
    ensures Within(a + b, lo, q)
  {
    forall i | 0 <= i < |a + b|
      ensures lo < (a + b)[i].time <= q
    {
      if i >= |a| {
        assert (a + b)[i] == b[i - |a|];
      } else {
        assert (a + b)[i] == a[i];
      }
    }
  }
}
