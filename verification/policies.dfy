/** A policy owns one storage, a strictness attribute and a retrieval
    strategy; a policy array fans out over same-typed policies addressed by
    a sub-stream id. `Participant` is either of the two, as they appear in
    the synchronizer's policy tuple. */
module Policies {
  import opened Types
  import opened MapStorage
  import opened Interpolation
  import ET = ExactTime
  import NR = Nearest
  import LI = LinearInterpolate
  import NW = Newest

  /** The four retrieval strategies with their parameters. */
  datatype Strategy = ExactTime | Nearest(validWin: Time) | LinearInterpolate(predictWin: Time) | Newest

  datatype Policy<M> = Policy(storage: Storage<M>, attr: Attribute, strategy: Strategy)

  ghost predicate WellFormed<M>(p: Policy<M>) {
    Valid(p.storage)
  }

  /** Stamps a successor query at interest `a` may return. */
  ghost function VisibleStamps<M>(p: Policy<M>, a: Attribute): set<Time> {
    if Below(p.attr, a) then {} else Stamps(p.storage)
  }

  /** The strategy-specific lookup: an exact hit gives the stored message
      (ExactTime, LinearInterpolate), Newest gives the back's message, and
      Nearest gives the message of the chosen neighbour. */
  function DoPeek<M>(p: Policy<M>, t: Time, ip: Interp<M>): (r: Option<M>)
    requires WellFormed(p)
    ensures Empty(p.storage) ==> r.None?
    ensures p.strategy == ExactTime ==> (r.Some? <==> t in Stamps(p.storage))
    ensures p.strategy == ExactTime ==>
              forall i | 0 <= i < |p.storage.entries| && p.storage.entries[i].0 == t :: r == Some(p.storage.entries[i].1)
    ensures p.strategy == Newest ==> (r.Some? <==> !Empty(p.storage))
    ensures p.strategy == Newest && r.Some? ==> r.value == Back(p.storage).1
    ensures p.strategy.Nearest? && r.Some? ==>
              exists k | 0 <= k < |p.storage.entries| ::
                NR.Chosen(p.storage.entries, t, p.strategy.validWin, k) && r.value == p.storage.entries[k].1
    ensures p.strategy.LinearInterpolate? ==>
              forall i | 0 <= i < |p.storage.entries| && p.storage.entries[i].0 == t :: r == Some(p.storage.entries[i].1)
  {
    match p.strategy
    case ExactTime => ET.DoPeek(p.storage, t)
    case Nearest(w) => NR.DoPeek(p.storage, t, w)
    case LinearInterpolate(w) => LI.DoPeek(p.storage, t, w, ip)
    case Newest => NW.DoPeek(p.storage, t)
  }

  /** Forwards to the storage: accepted exactly when the storage is empty
      or the stamp exceeds its newest one. */
  function Push<M>(p: Policy<M>, t: Time, m: M): (r: (bool, Policy<M>))
    requires WellFormed(p)
    ensures WellFormed(r.1) && r.1.attr == p.attr && r.1.strategy == p.strategy
    ensures r.0 <==> Empty(p.storage) || Back(p.storage).0 < t
    ensures !r.0 ==> r.1 == p
    ensures r.0 ==> Size(r.1.storage) == Size(p.storage) || Size(r.1.storage) == Size(p.storage) + 1
    ensures r.0 && 0 <= p.storage.historyWin ==> !Empty(r.1.storage) && Back(r.1.storage) == (t, m)
    ensures r.1.storage == MapStorage.Push(p.storage, t, m).1
  {
    var (ok, s) := MapStorage.Push(p.storage, t, m);
    (ok, p.(storage := s))
  }

  /** The smallest stamp after `t`, or the sentinel when the policy ranks
      below the interest or has nothing after `t`. */
  function SucTime<M>(p: Policy<M>, t: int, a: Attribute): (r: Time)
    requires WellFormed(p)
    ensures r == TimeMax || (r in VisibleStamps(p, a) && t < r)
    ensures forall x | x in VisibleStamps(p, a) && t < x :: r <= x
  {
    IncreasingOrdered(p.storage.entries);
    var suc := FindSuc(p.storage, t);
    if Below(p.attr, a) || suc.None? then TimeMax else p.storage.entries[suc.value].0
  }

  /** Classifies the lookup: Success when found, Expired when the storage
      has already moved past `t`, NotReady otherwise. */
  function Peek<M>(p: Policy<M>, t: Time, ip: Interp<M>): (r: (Option<M>, PeekStatus))
    requires WellFormed(p)
    ensures r.0 == DoPeek(p, t, ip)
    ensures r.1 == PeekSuccess <==> r.0.Some?
    ensures r.1 == PeekExpired <==> r.0.None? && !Empty(p.storage) && t < Back(p.storage).0
    ensures r.1 == PeekNotReady <==> r.0.None? && (Empty(p.storage) || Back(p.storage).0 <= t)
  {
    var out := DoPeek(p, t, ip);
    if out.Some? then (out, PeekSuccess)
    else if !Empty(p.storage) && t < Back(p.storage).0 then (out, PeekExpired)
    else (out, PeekNotReady)
  }

  /** Under ExactTime a stored stamp succeeds; one that is not stored has
      expired below the newest stamp and is not ready at or above it. */
  lemma ExactTimeClassified<M>(p: Policy<M>, t: Time, ip: Interp<M>)
    requires WellFormed(p) && p.strategy == ExactTime
    ensures Peek(p, t, ip).1 == PeekSuccess <==> t in Stamps(p.storage)
    ensures Peek(p, t, ip).1 == PeekExpired <==> t !in Stamps(p.storage) && !Empty(p.storage) && t < Back(p.storage).0
    ensures Peek(p, t, ip).1 == PeekNotReady <==> t !in Stamps(p.storage) && (Empty(p.storage) || Back(p.storage).0 <= t)
  {
    var found := ET.DoPeek(p.storage, t).Some?;
    if t in Stamps(p.storage) {
      var i :| 0 <= i < |p.storage.entries| && p.storage.entries[i].0 == t;
      assert found;
    }
  }

  /** Under Newest a peek is never Expired: Success exactly when something
      is stored, NotReady otherwise. */
  lemma NewestNeverExpired<M>(p: Policy<M>, t: Time, ip: Interp<M>)
    requires WellFormed(p) && p.strategy == Newest
    ensures Peek(p, t, ip).1 != PeekExpired
    ensures Peek(p, t, ip).1 == (if Empty(p.storage) then PeekNotReady else PeekSuccess)
  {
  }

  function QueueSize<M>(p: Policy<M>): nat {
    Size(p.storage)
  }

  /** The queue size counts the distinct stamps the policy holds. */
  lemma {:induction false} QueueSizeCounts<M>(p: Policy<M>)
    requires WellFormed(p)
    ensures QueueSize(p) == |Stamps(p.storage)|
  {
    SizeCountsStamps(p.storage);
  }

  // ---------------------------------------------------------------- arrays

  ghost predicate AllWellFormed<M>(ps: seq<Policy<M>>) {
    forall i | 0 <= i < |ps| :: WellFormed(ps[i])
  }

  ghost function VisibleIn<M>(ps: seq<Policy<M>>, a: Attribute): set<Time> {
    if |ps| == 0 then {} else VisibleIn(ps[..|ps| - 1], a) + VisibleStamps(ps[|ps| - 1], a)
  }

  /** Routes to member `id`; an id outside the array is a fault. */
  function ArrayPush<M>(ps: seq<Policy<M>>, t: Time, m: M, id: int): (r: Result<(bool, seq<Policy<M>>)>)
    requires AllWellFormed(ps)
    ensures r.Err? <==> !(0 <= id < |ps|)
    ensures r.Ok? ==> AllWellFormed(r.value.1) && |r.value.1| == |ps|
    ensures r.Ok? ==> r.value.0 == Push(ps[id], t, m).0 && r.value.1[id] == Push(ps[id], t, m).1
    ensures r.Ok? ==> forall i | 0 <= i < |ps| && i != id :: r.value.1[i] == ps[i]
  {
    if 0 <= id < |ps| then
      var (ok, p) := Push(ps[id], t, m);
      Ok((ok, ps[id := p]))
    else
      Err(OutOfRange)
  }

  /** The minimum of the members' successor times, the sentinel if none. */
  function ArraySucTime<M>(ps: seq<Policy<M>>, t: int, a: Attribute): (r: Time)
    requires AllWellFormed(ps)
    ensures r == TimeMax || (r in VisibleIn(ps, a) && t < r)
    ensures forall x | x in VisibleIn(ps, a) && t < x :: r <= x
  {
    if |ps| == 0 then TimeMax
    else Min(ArraySucTime(ps[..|ps| - 1], t, a), SucTime(ps[|ps| - 1], t, a))
  }

  /** Peeks every member in index order, collecting the outputs and the
      two flags over the non-Optional members. */
  function ArrayScan<M>(ps: seq<Policy<M>>, t: Time, ip: Interp<M>): (r: (seq<Option<M>>, bool, bool))
    requires AllWellFormed(ps)
    ensures |r.0| == |ps|
    ensures forall i | 0 <= i < |ps| :: r.0[i] == Peek(ps[i], t, ip).0
    ensures r.1 <==> forall i | 0 <= i < |ps| && ps[i].attr != Optional :: Peek(ps[i], t, ip).1 == PeekSuccess
    ensures r.2 <==> exists i | 0 <= i < |ps| && ps[i].attr != Optional :: Peek(ps[i], t, ip).1 == PeekExpired
  {
    if |ps| == 0 then ([], true, false)
    else
      var init := ps[..|ps| - 1];
      var (outs, allSuccess, anyExpire) := ArrayScan(init, t, ip);
      var last := ps[|ps| - 1];
      var (out, status) := Peek(last, t, ip);
      ScanStep(ps, t, ip);
      if last.attr != Optional then
        (outs + [out], allSuccess && status == PeekSuccess, anyExpire || status == PeekExpired)
      else
        (outs + [out], allSuccess, anyExpire)
  }

  /** Extending the scanned prefix by one member. */
  lemma ScanStep<M>(ps: seq<Policy<M>>, t: Time, ip: Interp<M>)
    requires AllWellFormed(ps) && |ps| > 0
    ensures forall i | 0 <= i < |ps| - 1 :: ps[..|ps| - 1][i] == ps[i]
    ensures var n := |ps| - 1;
            (forall i | 0 <= i < |ps| && ps[i].attr != Optional :: Peek(ps[i], t, ip).1 == PeekSuccess) <==>
            (&& (forall i | 0 <= i < n && ps[i].attr != Optional :: Peek(ps[i], t, ip).1 == PeekSuccess)
             && (ps[n].attr != Optional ==> Peek(ps[n], t, ip).1 == PeekSuccess))
    ensures var n := |ps| - 1;
            (exists i | 0 <= i < |ps| && ps[i].attr != Optional :: Peek(ps[i], t, ip).1 == PeekExpired) <==>
            (|| (exists i | 0 <= i < n && ps[i].attr != Optional :: Peek(ps[i], t, ip).1 == PeekExpired)
             || (ps[n].attr != Optional && Peek(ps[n], t, ip).1 == PeekExpired))
  {
  }

  /** One output per member, in index order, and the aggregate status:
      Success when every non-Optional member succeeds, else Expired when
      one of them expired, else NotReady. */
  function ArrayPeek<M>(ps: seq<Policy<M>>, t: Time, ip: Interp<M>): (r: (seq<Option<M>>, PeekStatus))
    requires AllWellFormed(ps)
    ensures |r.0| == |ps| && forall i | 0 <= i < |ps| :: r.0[i] == Peek(ps[i], t, ip).0
    ensures r.1 == PeekSuccess <==>
              forall i | 0 <= i < |ps| && ps[i].attr != Optional :: Peek(ps[i], t, ip).1 == PeekSuccess
    ensures r.1 == PeekExpired <==>
              && (exists i | 0 <= i < |ps| && ps[i].attr != Optional :: Peek(ps[i], t, ip).1 != PeekSuccess)
              && (exists i | 0 <= i < |ps| && ps[i].attr != Optional :: Peek(ps[i], t, ip).1 == PeekExpired)
  {
    var (outs, allSuccess, anyExpire) := ArrayScan(ps, t, ip);
    if allSuccess then (outs, PeekSuccess)
    else if anyExpire then (outs, PeekExpired)
    else (outs, PeekNotReady)
  }

  /** Size of member `id`; an id outside the array is a fault. */
  function ArrayQueueSize<M>(ps: seq<Policy<M>>, id: int): (r: Result<nat>)
    ensures r.Err? <==> !(0 <= id < |ps|)
    ensures r.Ok? ==> r.value == |ps[id].storage.entries|
  {
    if 0 <= id < |ps| then Ok(QueueSize(ps[id])) else Err(OutOfRange)
  }

  // ---------------------------------------------------------- participants

  /** One element of the synchronizer's policy tuple. */
  datatype Participant<M> = Single(policy: Policy<M>) | Array(members: seq<Policy<M>>)

  /** What is pushed: a bare message, or a message with its sub-stream id. */
  datatype Input<M> = Plain(msg: M) | Routed(msg: M, id: int)

  /** What a peek delivers to the callback. */
  datatype Output<M> = One(value: Option<M>) | Many(values: seq<Option<M>>)

  /** The input type matches the participant (a compile-time check in the source). */
  predicate Fits<M>(part: Participant<M>, input: Input<M>) {
    part.Single? <==> input.Plain?
  }

  function Members<M>(part: Participant<M>): seq<Policy<M>> {
    match part
    case Single(p) => [p]
    case Array(ps) => ps
  }

  ghost predicate PartWellFormed<M>(part: Participant<M>) {
    match part
    case Single(p) => WellFormed(p)
    case Array(ps) => AllWellFormed(ps)
  }

  ghost function PartVisible<M>(part: Participant<M>, a: Attribute): set<Time> {
    VisibleIn(Members(part), a)
  }

  function PartPush<M>(part: Participant<M>, t: Time, input: Input<M>): (r: Result<(bool, Participant<M>)>)
    requires PartWellFormed(part) && Fits(part, input)
    ensures r.Err? <==> part.Array? && !(0 <= input.id < |part.members|)
    ensures r.Ok? ==> PartWellFormed(r.value.1) && r.value.1.Single? == part.Single?
    ensures r.Ok? && !r.value.0 ==> r.value.1 == part
    ensures r.Ok? && part.Single? ==> r.value.0 == Push(part.policy, t, input.msg).0
    ensures r.Ok? && part.Array? ==> r.value.0 == Push(part.members[input.id], t, input.msg).0
    ensures r.Ok? && part.Single? ==> r.value.1 == Single(Push(part.policy, t, input.msg).1)
    ensures r.Ok? && part.Array? ==>
              r.value.1.members == part.members[input.id := Push(part.members[input.id], t, input.msg).1]
  {
    match part
    case Single(p) =>
      var (ok, p') := Push(p, t, input.msg);
      Ok((ok, Single(p')))
    case Array(ps) =>
      match ArrayPush(ps, t, input.msg, input.id)
      case Err(f) => Err(f)
      case Ok((ok, ps')) =>
        assert !ok ==> ps' == ps;
        Ok((ok, Array(ps')))
  }

  function PartSucTime<M>(part: Participant<M>, t: int, a: Attribute): (r: Time)
    requires PartWellFormed(part)
    ensures r == TimeMax || (r in PartVisible(part, a) && t < r)
    ensures forall x | x in PartVisible(part, a) && t < x :: r <= x
  {
    match part
    case Single(p) =>
      assert VisibleIn([p], a) == VisibleStamps(p, a) by { assert [p][..0] == []; }
      SucTime(p, t, a)
    case Array(ps) => ArraySucTime(ps, t, a)
  }

  function PartPeek<M>(part: Participant<M>, t: Time, ip: Interp<M>): (r: (Output<M>, PeekStatus))
    requires PartWellFormed(part)
    ensures part.Single? ==> r.0.One? && (r.1 == PeekSuccess <==> r.0.value.Some?)
    ensures part.Array? ==> r.0.Many? && |r.0.values| == |part.members|
    ensures part.Array? ==>
              (r.1 == PeekSuccess <==>
                 forall i | 0 <= i < |part.members| && part.members[i].attr != Optional ::
                   Peek(part.members[i], t, ip).1 == PeekSuccess)
    ensures part.Single? ==> r == (One(Peek(part.policy, t, ip).0), Peek(part.policy, t, ip).1)
    ensures part.Array? ==> r == (Many(ArrayPeek(part.members, t, ip).0), ArrayPeek(part.members, t, ip).1)
  {
    match part
    case Single(p) =>
      var (out, status) := Peek(p, t, ip);
      (One(out), status)
    case Array(ps) =>
      var (outs, status) := ArrayPeek(ps, t, ip);
      (Many(outs), status)
  }
}
