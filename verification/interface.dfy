/** The interface scenarios of the repository's synchronizer tests that
    check queue sizes and faults. They depend only on which storages the
    pushes fill, not on what the join loop emits. Every policy there is
    ExactTime with history window 10; payloads are arbitrary reals. */
module Interface {
  import opened Types
  import opened MapStorage
  import opened Interpolation
  import opened Policies
  import opened Synchronizer
  import opened JoinSteps

  /** An ExactTime policy with history window 10 holding `es`. */
  function Exact(es: seq<(Time, real)>, a: Attribute): Policy<real> {
    Policy(Storage(es, 10), a, ExactTime)
  }

  /** Two plain streams under a minimum interval of 10. */
  function Streams(): Sync<real> {
    Init([Single(Exact([], Normal)), Single(Exact([], Normal))], MinInterval(10), Additive())
  }

  /** One array participant of two members, the first with attribute `a`. */
  function Homo(mode: Mode, a: Attribute): Sync<real> {
    Init([Array([Exact([], a), Exact([], Normal)])], mode, Additive())
  }

  /** A message pushed into an empty ExactTime policy is stored alone. */
  lemma {:induction false} IntoEmpty(a: Attribute, t: Time, m: real)
    ensures Policies.Push(Exact([], a), t, m) == (true, Exact([(t, m)], a))
  {
    var full: seq<(Time, real)> := [] + [(t, m)];
    assert full == [(t, m)];
    var r := MapStorage.Push(Storage([], 10), t, m);
    assert |r.1.entries| == 1;
  }

  /** A newer message within the window of a lone entry is appended. */
  lemma {:induction false} OntoOne(a: Attribute, t0: Time, m0: real, t: Time, m: real)
    requires t0 < t && t - 10 <= t0
    ensures Increasing([(t0, m0)])
    ensures Policies.Push(Exact([(t0, m0)], a), t, m) == (true, Exact([(t0, m0), (t, m)], a))
  {
    TwoIncreasing(t0, m0, t, m);
    var full := [(t0, m0)] + [(t, m)];
    assert full == [(t0, m0), (t, m)];
    var r := MapStorage.Push(Storage([(t0, m0)], 10), t, m);
    assert |r.1.entries| == 2;
  }

  /** A first message on stream 0 fills its queue and leaves stream 1
      empty. */
  lemma {:induction false} FirstQueueSizes(x: real)
    ensures Synchronizer.Valid(Streams())
    ensures var r := Pushed(Streams(), 0, 0, Plain(x));
            Synchronizer.QueueSize(r.sync, 0, None) == Ok(1) && Synchronizer.QueueSize(r.sync, 1, None) == Ok(0)
  {
    var s := Streams();
    IntoEmpty(Normal, 0, x);
    PushedInstalls(s, 0, 0, Plain(x), Single(Exact([(0, x)], Normal)));
  }

  /** Pushes at 0 to members 0 and 1 of a fresh array fill one entry
      each, whatever the mode and the first member's attribute. */
  lemma {:induction false} TwoFilled(mode: Mode, a: Attribute, x: real, y: real)
    requires Synchronizer.Valid(Homo(mode, a))
    ensures var r1 := Pushed(Homo(mode, a), 0, 0, Routed(x, 0));
            var r2 := Pushed(r1.sync, 0, 0, Routed(y, 1));
            r2.sync.parts == [Array([Exact([(0, x)], a), Exact([(0, y)], Normal)])]
  {
    FirstFilled(mode, a, x);
    var s1 := Pushed(Homo(mode, a), 0, 0, Routed(x, 0)).sync;
    IntoEmpty(Normal, 0, y);
    var p2 := Array([Exact([(0, x)], a), Exact([(0, y)], Normal)]);
    assert s1.parts[0].members[1 := Exact([(0, y)], Normal)] == p2.members;
    PushedInstalls(s1, 0, 0, Routed(y, 1), p2);
  }

  /** The first of those pushes fills member 0. */
  lemma {:induction false} FirstFilled(mode: Mode, a: Attribute, x: real)
    requires Synchronizer.Valid(Homo(mode, a))
    ensures Pushed(Homo(mode, a), 0, 0, Routed(x, 0)).sync.parts == [Array([Exact([(0, x)], a), Exact([], Normal)])]
  {
    var s0 := Homo(mode, a);
    IntoEmpty(a, 0, x);
    var p1 := Array([Exact([(0, x)], a), Exact([], Normal)]);
    assert s0.parts[0].members[0 := Exact([(0, x)], a)] == p1.members;
    PushedInstalls(s0, 0, 0, Routed(x, 0), p1);
  }

  /** In an array of two, ids 0 and 1 are accepted and id 2 is a fault
      that changes nothing. */
  lemma {:induction false} ArrayPushFaults(x: real, y: real, z: real)
    ensures Synchronizer.Valid(Homo(MinInterval(10), Normal))
    ensures var r1 := Pushed(Homo(MinInterval(10), Normal), 0, 0, Routed(x, 0));
            var r2 := Pushed(r1.sync, 0, 0, Routed(y, 1));
            var r3 := Pushed(r2.sync, 0, 0, Routed(z, 2));
            && r1.status.Ok? && r2.status.Ok?
            && r3.status == Err(OutOfRange) && r3.sync == r2.sync && r3.trace == []
  {
    TwoFilled(MinInterval(10), Normal, x, y);
    var r1 := Pushed(Homo(MinInterval(10), Normal), 0, 0, Routed(x, 0));
    PushedFaults(Pushed(r1.sync, 0, 0, Routed(y, 1)).sync, 0, 0, Routed(z, 2));
  }

  /** A message at 1 to member 1 of the filled array makes its queue two
      long and leaves member 0 alone. */
  lemma {:induction false} ThirdFilled(s: Sync<real>, a: Attribute, x: real, y: real, z: real)
    requires Synchronizer.Valid(s) && s.parts == [Array([Exact([(0, x)], a), Exact([(0, y)], Normal)])]
    ensures Pushed(s, 0, 1, Routed(z, 1)).sync.parts == [Array([Exact([(0, x)], a), Exact([(0, y), (1, z)], Normal)])]
  {
    OntoOne(Normal, 0, y, 1, z);
    var p3 := Array([Exact([(0, x)], a), Exact([(0, y), (1, z)], Normal)]);
    assert s.parts[0].members[1 := Exact([(0, y), (1, z)], Normal)] == p3.members;
    PushedInstalls(s, 0, 1, Routed(z, 1), p3);
  }

  /** Under master/slave, pushes at 0 to members 0 and 1 and at 1 to
      member 1 leave queue sizes 1 and 2; id 2 is out of range. */
  lemma {:induction false} ArrayQueueSizes(x: real, y: real, z: real)
    ensures Synchronizer.Valid(Homo(MasterSlave, Master))
    ensures var r1 := Pushed(Homo(MasterSlave, Master), 0, 0, Routed(x, 0));
            var r2 := Pushed(r1.sync, 0, 0, Routed(y, 1));
            var r3 := Pushed(r2.sync, 0, 1, Routed(z, 1));
            && Synchronizer.QueueSize(r3.sync, 0, Some(0)) == Ok(1)
            && Synchronizer.QueueSize(r3.sync, 0, Some(1)) == Ok(2)
            && Synchronizer.QueueSize(r3.sync, 0, Some(2)) == Err(OutOfRange)
  {
    TwoFilled(MasterSlave, Master, x, y);
    var r1 := Pushed(Homo(MasterSlave, Master), 0, 0, Routed(x, 0));
    ThirdFilled(Pushed(r1.sync, 0, 0, Routed(y, 1)).sync, Master, x, y, z);
  }
}
