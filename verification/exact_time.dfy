/** ExactTime retrieval: only an entry stamped exactly at the requested time. */
module ExactTime {
  import opened Types
  import opened MapStorage

  function DoPeek<M>(s: Storage<M>, t: Time): (r: Option<M>)
    requires Valid(s)
    ensures r.Some? <==> exists i | 0 <= i < |s.entries| :: s.entries[i].0 == t
    ensures forall i | 0 <= i < |s.entries| && s.entries[i].0 == t :: r == Some(s.entries[i].1)
  {
    IncreasingOrdered(s.entries);
    match Find(s, t)
    case None => None
    case Some(i) => Some(s.entries[i].1)
  }

  /** Only the stored stamps matter, not the history window. */
  lemma IgnoresWindow<M>(s: Storage<M>, h: Time, t: Time)
    requires Valid(s)
    ensures DoPeek(s.(historyWin := h), t) == DoPeek(s, t)
  {
  }
}
