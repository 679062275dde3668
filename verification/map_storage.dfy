/** The per-stream buffer: a strictly time-ordered sequence of
    (stamp, message) entries with a history window. Iterators of the
    ordered map are modelled as indices, `None` standing for `end()`. */
module MapStorage {
  import opened Types

  datatype Storage<M> = Storage(entries: seq<(Time, M)>, historyWin: Time)

  /** Keys of the ordered map: strictly increasing stamps, stated between
      neighbours so that it unfolds one entry at a time. */
  ghost predicate Increasing<M>(es: seq<(Time, M)>) {
    IncreasingFrom(es, 0)
  }

  /** The neighbours from position `k` on are in order. */
  ghost predicate IncreasingFrom<M>(es: seq<(Time, M)>, k: nat)
    decreases |es| - k
  {
    k + 1 >= |es| || (es[k].0 < es[k + 1].0 && IncreasingFrom(es, k + 1))
  }

  /** Every pair of entries is ordered by its positions. */
  ghost predicate Ordered<M>(es: seq<(Time, M)>) {
    forall i, j | 0 <= i < j < |es| :: es[i].0 < es[j].0
  }

  /** Every pair of entries from position `k` on is ordered. */
  ghost predicate OrderedFrom<M>(es: seq<(Time, M)>, k: nat) {
    forall i, j | k <= i < j < |es| :: es[i].0 < es[j].0
  }

  /** The neighbour-wise and the pairwise readings agree. */
  lemma IncreasingOrdered<M>(es: seq<(Time, M)>)
    ensures Increasing(es) <==> Ordered(es)
  {
    OrderedFromIncreasing(es, 0);
  }

  lemma {:induction false} OrderedFromIncreasing<M>(es: seq<(Time, M)>, k: nat)
    ensures IncreasingFrom(es, k) <==> OrderedFrom(es, k)
    decreases |es| - k
  {
    if k + 1 < |es| {
      OrderedFromIncreasing(es, k + 1);
      if IncreasingFrom(es, k) {
        forall i, j | k <= i < j < |es| ensures es[i].0 < es[j].0 {
          if i == k && j > k + 1 {
            assert es[k + 1].0 < es[j].0;
          }
        }
      }
    }
  }

  ghost predicate Valid<M>(s: Storage<M>) {
    Increasing(s.entries)
  }

  ghost function Stamps<M>(s: Storage<M>): set<Time> {
    set i | 0 <= i < |s.entries| :: s.entries[i].0
  }

  /** Entry `i` is the last one stamped at or before `t`. */
  ghost predicate IsPredecessor<M>(es: seq<(Time, M)>, t: int, i: int) {
    0 <= i < |es| && es[i].0 <= t && (i + 1 == |es| || t < es[i + 1].0)
  }

  /** Entry `j` is the first one stamped strictly after `t`. */
  ghost predicate IsSuccessor<M>(es: seq<(Time, M)>, t: int, j: int) {
    0 <= j < |es| && t < es[j].0 && (j == 0 || es[j - 1].0 <= t)
  }

  /** Two entries in stamp order. */
  lemma TwoIncreasing<M>(t0: Time, m0: M, t1: Time, m1: M)
    requires t0 < t1
    ensures Increasing([(t0, m0), (t1, m1)])
  {
    assert [(t0, m0), (t1, m1)][1..] == [(t1, m1)];
  }

  /** An entry newer than all others may be appended. */
  lemma AppendIncreasing<M>(es: seq<(Time, M)>, t: Time, m: M)
    requires Increasing(es) && (|es| == 0 || es[|es| - 1].0 < t)
    ensures Increasing(es + [(t, m)])
  {
    IncreasingOrdered(es);
    IncreasingOrdered(es + [(t, m)]);
  }

  /** `upper_bound`: the first position whose stamp exceeds `t`. */
  function UpperBound<M>(es: seq<(Time, M)>, t: int): (i: nat)
    requires Increasing(es)
    ensures i <= |es|
    ensures forall j | 0 <= j < i :: es[j].0 <= t
    ensures forall j | i <= j < |es| :: t < es[j].0
  {
    IncreasingOrdered(es);
    UpperBoundFrom(es, t, 0)
  }

  /** The search from position `k`, all stamps before `k` being at most `t`. */
  function UpperBoundFrom<M>(es: seq<(Time, M)>, t: int, k: nat): (i: nat)
    requires Ordered(es) && k <= |es|
    requires forall j | 0 <= j < k :: es[j].0 <= t
    ensures k <= i <= |es|
    ensures forall j | 0 <= j < i :: es[j].0 <= t
    ensures forall j | i <= j < |es| :: t < es[j].0
    decreases |es| - k
  {
    if k == |es| || t < es[k].0 then k else UpperBoundFrom(es, t, k + 1)
  }

  function Size<M>(s: Storage<M>): nat {
    |s.entries|
  }

  /** The size is the number of distinct stamps held, as a map's size is
      the number of its keys. */
  lemma {:induction false} SizeCountsStamps<M>(s: Storage<M>)
    requires Valid(s)
    ensures Size(s) == |Stamps(s)|
  {
    IncreasingOrdered(s.entries);
    OrderedCount(s.entries);
  }

  lemma {:induction false} OrderedCount<M>(es: seq<(Time, M)>)
    requires Ordered(es)
    ensures |set i | 0 <= i < |es| :: es[i].0| == |es|
    decreases |es|
  {
    if |es| > 0 {
      var n := |es| - 1;
      var init := es[..n];
      OrderedCount(init);
      var all := set i | 0 <= i < |es| :: es[i].0;
      var before := set i | 0 <= i < |init| :: init[i].0;
      forall x | x in all
        ensures x in before + {es[n].0}
      {
        var i :| 0 <= i < |es| && es[i].0 == x;
        if i < n {
          assert init[i].0 == x;
        }
      }
      forall x | x in before
        ensures x in all && x < es[n].0
      {
        var i :| 0 <= i < |init| && init[i].0 == x;
        assert es[i].0 == x;
      }
      assert all == before + {es[n].0};
    }
  }

  function Empty<M>(s: Storage<M>): bool {
    |s.entries| == 0
  }

  /** The oldest entry; the caller makes sure the storage is not empty. */
  function Front<M>(s: Storage<M>): (r: (Time, M))
    requires Valid(s) && |s.entries| > 0
    ensures r in s.entries
    ensures forall i | 0 <= i < |s.entries| :: r.0 <= s.entries[i].0
  {
    IncreasingOrdered(s.entries);
    s.entries[0]
  }

  /** The newest entry; the caller makes sure the storage is not empty. */
  function Back<M>(s: Storage<M>): (r: (Time, M))
    requires Valid(s) && |s.entries| > 0
    ensures r in s.entries
    ensures forall i | 0 <= i < |s.entries| :: s.entries[i].0 <= r.0
  {
    IncreasingOrdered(s.entries);
    s.entries[|s.entries| - 1]
  }

  /** Exact lookup. */
  function Find<M>(s: Storage<M>, t: int): (r: Option<nat>)
    requires Valid(s)
    ensures r.Some? ==> r.value < |s.entries| && s.entries[r.value].0 == t
    ensures r.None? <==> forall i | 0 <= i < |s.entries| :: s.entries[i].0 != t
  {
    IncreasingOrdered(s.entries);
    var ub := UpperBound(s.entries, t);
    if 0 < ub && s.entries[ub - 1].0 == t then Some(ub - 1) else None
  }

  /** The entry with the greatest stamp not larger than `t`. */
  function FindPre<M>(s: Storage<M>, t: int): (r: Option<nat>)
    requires Valid(s)
    ensures r.Some? ==> IsPredecessor(s.entries, t, r.value)
    ensures r.Some? ==> forall j | 0 <= j < |s.entries| && s.entries[j].0 <= t :: j <= r.value
    ensures r.None? <==> forall j | 0 <= j < |s.entries| :: t < s.entries[j].0
  {
    var ub := UpperBound(s.entries, t);
    if ub != 0 then Some(ub - 1) else None
  }

  /** The entry with the smallest stamp strictly larger than `t`. */
  function FindSuc<M>(s: Storage<M>, t: int): (r: Option<nat>)
    requires Valid(s)
    ensures r.Some? ==> IsSuccessor(s.entries, t, r.value)
    ensures r.Some? ==> forall j | 0 <= j < |s.entries| && t < s.entries[j].0 :: r.value <= j
    ensures r.None? <==> forall j | 0 <= j < |s.entries| :: s.entries[j].0 <= t
  {
    var ub := UpperBound(s.entries, t);
    if ub != |s.entries| then Some(ub) else None
  }

  /** Appends at the tail, refusing stamps that do not exceed the newest
      one, then evicts at most the single oldest entry when it fell out of
      the history window. Returns whether the message was accepted. */
  function Push<M>(s: Storage<M>, t: Time, m: M): (r: (bool, Storage<M>))
    requires Valid(s)
    ensures Valid(r.1) && r.1.historyWin == s.historyWin
    ensures !r.0 <==> |s.entries| > 0 && t <= Back(s).0
    ensures !r.0 ==> r.1 == s
    ensures r.0 ==> r.1.entries == s.entries + [(t, m)] || r.1.entries == (s.entries + [(t, m)])[1..]
    ensures r.0 ==> (|r.1.entries| == |s.entries| <==> (s.entries + [(t, m)])[0].0 < t - s.historyWin)
    ensures r.0 && 0 <= s.historyWin ==> |r.1.entries| > 0 && r.1.entries[|r.1.entries| - 1] == (t, m)
  {
    if |s.entries| > 0 && t <= s.entries[|s.entries| - 1].0 then
      (false, s)
    else
      var full := s.entries + [(t, m)];
      IncreasingOrdered(s.entries);
      IncreasingOrdered(full);
      IncreasingOrdered(full[1..]);
      if full[0].0 < t - s.historyWin then
        (true, s.(entries := full[1..]))
      else
        (true, s.(entries := full))
  }

  /** A predecessor and a successor of the same time are adjacent. */
  lemma {:induction false} NeighboursAdjacent<M>(es: seq<(Time, M)>, t: int, i: int, j: int)
    requires Increasing(es) && IsPredecessor(es, t, i) && IsSuccessor(es, t, j)
    ensures j == i + 1
  {
    IncreasingOrdered(es);
  }

  /** There is at most one predecessor and at most one successor. */
  lemma {:induction false} NeighboursUnique<M>(es: seq<(Time, M)>, t: int, i: int, k: int)
    requires Increasing(es)
    ensures IsPredecessor(es, t, i) && IsPredecessor(es, t, k) ==> i == k
    ensures IsSuccessor(es, t, i) && IsSuccessor(es, t, k) ==> i == k
  {
    IncreasingOrdered(es);
  }
}
