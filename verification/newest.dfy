/** Newest retrieval: the most recent entry, whatever the requested time. */
module Newest {
  import opened Types
  import opened MapStorage

  function DoPeek<M>(s: Storage<M>, t: Time): (r: Option<M>)
    requires Valid(s)
    ensures r.Some? <==> |s.entries| > 0
    ensures r.Some? ==> r.value == Back(s).1
  {
    if !Empty(s) then Some(Back(s).1) else None
  }

  /** The requested time plays no part. */
  lemma IgnoresTime<M>(s: Storage<M>, t: Time, u: Time)
    requires Valid(s)
    ensures DoPeek(s, t) == DoPeek(s, u)
  {
  }
}
