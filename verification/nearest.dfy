/** Nearest retrieval: the closer of the predecessor and the successor,
    the predecessor winning ties, within a validity window. */
module Nearest {
  import opened Types
  import opened MapStorage

  function Dist(a: int, b: int): nat {
    if a <= b then b - a else a - b
  }

  ghost predicate IsNeighbour<M>(es: seq<(Time, M)>, t: int, k: int) {
    IsPredecessor(es, t, k) || IsSuccessor(es, t, k)
  }

  /** Entry `k` is the neighbour the policy picks and it lies in the window:
      no neighbour is closer, and a successor only wins when strictly
      closer than the predecessor. */
  ghost predicate Chosen<M>(es: seq<(Time, M)>, t: int, validWin: int, k: int) {
    && IsNeighbour(es, t, k)
    && Dist(es[k].0, t) <= validWin
    && Dist(es[k].0, t) < TimeMax
    && (forall j | IsNeighbour(es, t, j) :: Dist(es[k].0, t) <= Dist(es[j].0, t))
    && (IsSuccessor(es, t, k) ==> forall j | IsPredecessor(es, t, j) :: Dist(es[k].0, t) < Dist(es[j].0, t))
  }

  /** Which neighbour the comparison has selected so far. */
  datatype Selection = NoneYet | PreSel | SucSel

  /** The two-step running-minimum comparison, starting from the sentinel;
      `dp` and `ds` are the distances of the predecessor and the successor,
      `None` when the lookup gave `end()`. */
  function Select(dp: Option<nat>, ds: Option<nat>): (r: (int, Selection))
    ensures r.1 == PreSel ==> dp.Some? && r.0 == dp.value < TimeMax && (ds.Some? ==> dp.value <= ds.value)
    ensures r.1 == SucSel ==> ds.Some? && r.0 == ds.value < TimeMax && (dp.Some? ==> ds.value < dp.value)
    ensures r.1 == NoneYet ==> r.0 == TimeMax && (dp.Some? ==> TimeMax <= dp.value) && (ds.Some? ==> TimeMax <= ds.value)
  {
    var (d0, sel0) := if dp.Some? && dp.value < TimeMax then (dp.value, PreSel) else (TimeMax, NoneYet);
    if ds.Some? && ds.value < d0 then (ds.value, SucSel) else (d0, sel0)
  }

  function DistAt<M>(s: Storage<M>, t: Time, k: Option<nat>): (r: Option<nat>)
    requires k.Some? ==> k.value < |s.entries|
    ensures r.Some? <==> k.Some?
    ensures r.Some? ==> r.value == Dist(s.entries[k.value].0, t)
  {
    if k.Some? then Some(Dist(s.entries[k.value].0, t)) else None
  }

  function DoPeek<M>(s: Storage<M>, t: Time, validWin: Time): (r: Option<M>)
    requires Valid(s)
    ensures |s.entries| == 0 ==> r.None?
    ensures r.Some? ==> exists k | 0 <= k < |s.entries| :: Chosen(s.entries, t, validWin, k) && r.value == s.entries[k].1
    ensures r.None? ==> forall k | IsNeighbour(s.entries, t, k) ::
                          validWin < Dist(s.entries[k].0, t) || TimeMax <= Dist(s.entries[k].0, t)
  {
    var pre := FindPre(s, t);
    var suc := FindSuc(s, t);
    var sel := Select(DistAt(s, t, pre), DistAt(s, t, suc));
    if validWin < sel.0 || sel.1 == NoneYet then
      NotChosen(s, t, validWin, sel);
      None
    else if sel.1 == PreSel then
      PreChosen(s, t, validWin, pre.value);
      Some(s.entries[pre.value].1)
    else
      SucChosen(s, t, validWin, suc.value);
      Some(s.entries[suc.value].1)
  }

  lemma PreChosen<M>(s: Storage<M>, t: Time, validWin: Time, i: nat)
    requires Valid(s) && FindPre(s, t) == Some(i)
    requires Dist(s.entries[i].0, t) <= validWin && Dist(s.entries[i].0, t) < TimeMax
    requires FindSuc(s, t).Some? ==> Dist(s.entries[i].0, t) <= Dist(s.entries[FindSuc(s, t).value].0, t)
    ensures Chosen(s.entries, t, validWin, i)
  {
    NeighboursAre(s, t);
  }

  lemma SucChosen<M>(s: Storage<M>, t: Time, validWin: Time, j: nat)
    requires Valid(s) && FindSuc(s, t) == Some(j)
    requires Dist(s.entries[j].0, t) <= validWin && Dist(s.entries[j].0, t) < TimeMax
    requires FindPre(s, t).Some? ==> Dist(s.entries[j].0, t) < Dist(s.entries[FindPre(s, t).value].0, t)
    ensures Chosen(s.entries, t, validWin, j)
  {
    var es := s.entries;
    NeighboursAre(s, t);
    assert IsSuccessor(es, t, j);
    forall k | IsPredecessor(es, t, k)
      ensures Dist(es[j].0, t) < Dist(es[k].0, t)
    {
      assert FindPre(s, t) == Some(k);
    }
    forall k | IsNeighbour(es, t, k)
      ensures Dist(es[j].0, t) <= Dist(es[k].0, t)
    {
      if IsSuccessor(es, t, k) {
        assert FindSuc(s, t) == Some(k);
      }
    }
  }

  lemma NotChosen<M>(s: Storage<M>, t: Time, validWin: Time, sel: (int, Selection))
    requires Valid(s)
    requires sel == Select(DistAt(s, t, FindPre(s, t)), DistAt(s, t, FindSuc(s, t)))
    requires validWin < sel.0 || sel.1 == NoneYet
    ensures forall k | IsNeighbour(s.entries, t, k) ::
              validWin < Dist(s.entries[k].0, t) || TimeMax <= Dist(s.entries[k].0, t)
  {
    NeighboursAre(s, t);
  }

  /** The neighbours of `t` are exactly what the two lookups return. */
  lemma NeighboursAre<M>(s: Storage<M>, t: Time)
    requires Valid(s)
    ensures forall k :: IsPredecessor(s.entries, t, k) <==> FindPre(s, t) == Some(k)
    ensures forall k :: IsSuccessor(s.entries, t, k) <==> FindSuc(s, t) == Some(k)
  {
    forall k | IsPredecessor(s.entries, t, k)
      ensures FindPre(s, t) == Some(k)
    {
      NeighboursUnique(s.entries, t, k, FindPre(s, t).value);
    }
    forall k | IsSuccessor(s.entries, t, k)
      ensures FindSuc(s, t) == Some(k)
    {
      NeighboursUnique(s.entries, t, k, FindSuc(s, t).value);
    }
  }

  /** An entry stamped exactly at `t` is returned (distance zero). */
  lemma ExactHit<M>(s: Storage<M>, t: Time, validWin: Time, i: nat)
    requires Valid(s) && i < |s.entries| && s.entries[i].0 == t && 0 <= validWin
    ensures DoPeek(s, t, validWin) == Some(s.entries[i].1)
  {
    var es := s.entries;
    IncreasingOrdered(es);
    assert IsPredecessor(es, t, i);
    var r := DoPeek(s, t, validWin);
    assert r.Some?;
    var k :| 0 <= k < |es| && Chosen(es, t, validWin, k) && r.value == es[k].1;
    NeighboursUnique(es, t, i, k);
  }

  /** With a window below the sentinel, a value is found exactly when some
      neighbour lies within the window. */
  lemma FoundIff<M>(s: Storage<M>, t: Time, validWin: Time)
    requires Valid(s) && validWin < TimeMax
    ensures DoPeek(s, t, validWin).Some? <==>
            exists k | 0 <= k < |s.entries| :: IsNeighbour(s.entries, t, k) && Dist(s.entries[k].0, t) <= validWin
  {
    var r := DoPeek(s, t, validWin);
    if r.Some? {
      var k :| 0 <= k < |s.entries| && Chosen(s.entries, t, validWin, k) && r.value == s.entries[k].1;
      assert IsNeighbour(s.entries, t, k) && Dist(s.entries[k].0, t) <= validWin;
    }
  }
}
