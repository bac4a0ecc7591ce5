/** The one iterator adaptor the core relies on: Rust's `Iterator::max_by_key`. */
module Iterators {

  /** Index that `max_by_key` picks over `keys`: a maximal key, the LAST one among equal maxima
      (the fold keeps the later element when the two keys compare equal). */
  function MaxByKeyIndex(keys: seq<int>): (i: nat)
    requires |keys| > 0
    ensures i < |keys|
    ensures forall j :: 0 <= j < |keys| ==> keys[j] <= keys[i]
    ensures forall j :: i < j < |keys| ==> keys[j] < keys[i]
    decreases |keys|
  {
    if |keys| == 1 then 0
    else
      var best := MaxByKeyIndex(keys[..|keys| - 1]);
      if keys[best] <= keys[|keys| - 1] then |keys| - 1 else best
  }
}
