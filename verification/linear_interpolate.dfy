/** LinearInterpolate retrieval: blend the two samples around the
    requested time, or extrapolate a little past the newest two. */
module LinearInterpolate {
  import opened Types
  import opened MapStorage
  import opened Interpolation

  /** Fraction of the way from `lo` to `hi` at which `t` lies. */
  function Ratio(lo: Time, hi: Time, t: Time): real
    requires lo < hi
  {
    (t - lo) as real / (hi - lo) as real
  }

  /** The estimate at `t` on the line through the samples `lo` and `hi`. */
  function Estimate<M>(ip: Interp<M>, lo: (Time, M), hi: (Time, M), t: Time): M
    requires lo.0 < hi.0
  {
    Blend(ip, lo.1, hi.1, Ratio(lo.0, hi.0, t))
  }

  function DoPeek<M>(s: Storage<M>, t: Time, predictWin: Time, ip: Interp<M>): (r: Option<M>)
    requires Valid(s)
    // no sample at or before t
    ensures (forall i | 0 <= i < |s.entries| :: t < s.entries[i].0) ==> r.None?
    // an exact hit is returned unchanged
    ensures forall i | 0 <= i < |s.entries| && s.entries[i].0 == t :: r == Some(s.entries[i].1)
    // past a single sample: no extrapolation
    ensures |s.entries| == 1 && s.entries[0].0 < t ==> r.None?
  {
    IncreasingOrdered(s.entries);
    var es := s.entries;
    var pre := FindPre(s, t);
    var suc := FindSuc(s, t);
    if pre.None? then
      None
    else if suc.None? && |es| < 2 && t != es[pre.value].0 then
      None
    else if t == es[pre.value].0 then
      Some(es[pre.value].1)
    else
      var (lo, hi) := if suc.None? then (pre.value - 1, pre.value) else (pre.value, suc.value);
      if t - es[hi].0 > predictWin then None
      else Some(Estimate(ip, es[lo], es[hi], t))
  }

  /** Strictly between two consecutive samples the estimate is their blend;
      the window test `t - hi <= predictWin` is then always met unless the
      window is negative. */
  lemma Interpolates<M>(s: Storage<M>, t: Time, predictWin: Time, ip: Interp<M>, i: nat)
    requires Valid(s) && i + 1 < |s.entries| && s.entries[i].0 < t < s.entries[i + 1].0
    ensures DoPeek(s, t, predictWin, ip)
            == if t - s.entries[i + 1].0 <= predictWin then Some(Estimate(ip, s.entries[i], s.entries[i + 1], t)) else None
  {
    assert FindPre(s, t) == Some(i);
    assert FindSuc(s, t) == Some(i + 1);
  }

  /** Past the newest of two or more samples the line through the newest
      two is extended, as long as `t` is within `predictWin` of the newest. */
  lemma Extrapolates<M>(s: Storage<M>, t: Time, predictWin: Time, ip: Interp<M>)
    requires Valid(s) && |s.entries| >= 2 && s.entries[|s.entries| - 1].0 < t
    ensures var n := |s.entries|;
            s.entries[n - 2].0 < s.entries[n - 1].0 &&
            DoPeek(s, t, predictWin, ip)
            == if t - s.entries[n - 1].0 <= predictWin then Some(Estimate(ip, s.entries[n - 2], s.entries[n - 1], t)) else None
  {
    IncreasingOrdered(s.entries);
    assert FindPre(s, t) == Some(|s.entries| - 1);
    assert FindSuc(s, t).None?;
  }

  /** Between two samples the ratio lies strictly inside (0, 1). */
  lemma InteriorRatio(lo: Time, hi: Time, t: Time)
    requires lo < t < hi
    ensures 0.0 < Ratio(lo, hi, t) < 1.0
  {
    var num := (t - lo) as real;
    var den := (hi - lo) as real;
    assert 0.0 < num < den;
    assert (den - num) / den > 0.0;
    assert den / den == 1.0;
    assert (den - num) / den == den / den - num / den;
  }

  /** With the default traits, interpolation is the straight line through
      the two samples; half-way between them it yields their mean. */
  lemma AdditiveEstimate(a: real, b: real, t0: Time, t1: Time, t: Time)
    requires t0 < t1
    ensures Estimate(Additive(), (t0, a), (t1, b), t) == a + (t - t0) as real / (t1 - t0) as real * (b - a)
    ensures 2 * t == t0 + t1 ==> Estimate(Additive(), (t0, a), (t1, b), t) == (a + b) / 2.0
  {
    AdditiveBlend(a, b, Ratio(t0, t1, t));
    if 2 * t == t0 + t1 {
      var x := (t - t0) as real;
      assert (t1 - t0) as real == 2.0 * x;
      Half(x);
      AdditiveBlend(a, b, 0.5);
    }
  }

  lemma Half(x: real)
    requires x > 0.0
    ensures x / (2.0 * x) == 0.5
  {
  }
}
