/**
 * Python's random.randint, as the game uses it. The generator itself is not
 * modelled: its output arrives as a natural number `draw`, and the model maps
 * every draw into the requested range.
 */
module PyRandom {

  /** A value, or nothing when the call raised instead of returning. */
  datatype Option<T> = None | Some(value: T)

  /**
   * random.randint(lo, hi): an integer between lo and hi, both ends included.
   * An empty range (lo > hi) raises ValueError in Python; that is None here.
   */
  function RandInt(lo: int, hi: int, draw: nat): (r: Option<int>)
    ensures r.Some? <==> lo <= hi
    ensures r.Some? ==> lo <= r.value <= hi
  {
    if lo <= hi then Some(lo + draw % (hi - lo + 1)) else None
  }

  /** Every value of a non-empty range is the result of some draw. */
  lemma RandIntReachesEvery(lo: int, hi: int, v: int)
    requires lo <= v <= hi
    ensures RandInt(lo, hi, v - lo) == Some(v)
  {
  }
}
