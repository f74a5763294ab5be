/** The last elements of a sequence, which a bounded buffer and a chunked search both keep. */
module Sequences {
  function Last<T>(s: seq<T>, n: nat): (r: seq<T>) {
    if |s| > n then s[|s| - n..] else s
  }

  /** Keeping the last elements of what was kept is keeping those of everything so far. */
  lemma LastOfLast<T>(seen: seq<T>, data: seq<T>, n: nat)
    ensures Last(Last(seen, n) + data, n) == Last(seen + data, n)
  {
  }
}
