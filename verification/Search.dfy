/** Looking for the first number below a limit with a property, one number at a time. */
module Search {
  import opened Commands

  function First(p: int -> bool, m: int, limit: int): Option<int>
    decreases limit - m
  {
    if m >= limit then None
    else if p(m) then Some(m)
    else First(p, m + 1, limit)
  }

  ghost predicate NoneIn(p: int -> bool, m: int, m': int) {
    forall k :: m <= k < m' ==> !p(k)
  }

  /** Skipping numbers without the property does not change what is found. */
  lemma {:induction false} Skip(p: int -> bool, m: int, m': int, limit: int)
    requires m <= m' && NoneIn(p, m, m')
    ensures First(p, m, limit) == First(p, m', limit)
    decreases m' - m
  {
    if m < m' {
      Skip(p, m + 1, m', limit);
    }
  }

  /** It is the least number with the property, or there is none. */
  lemma {:induction false} FirstIsLeast(p: int -> bool, m: int, limit: int)
    ensures First(p, m, limit).Some? ==>
      var k := First(p, m, limit).value; m <= k < limit && p(k) && NoneIn(p, m, k)
    ensures First(p, m, limit).None? ==> NoneIn(p, m, limit)
    decreases limit - m
  {
    if m < limit && !p(m) {
      FirstIsLeast(p, m + 1, limit);
    }
  }
}
