/**
  Streams of samples that arrive in slices.
 */
module Slices {

  /** Slices put together in order. */
  function Concat(parts: seq<seq<real>>): (whole: seq<real>) {
    if parts == [] then [] else Concat(parts[..|parts| - 1]) + parts[|parts| - 1]
  }

  lemma ConcatSnoc(parts: seq<seq<real>>, last: seq<real>)
    ensures Concat(parts + [last]) == Concat(parts) + last
  {
    assert (parts + [last])[..|parts|] == parts;
  }
}
