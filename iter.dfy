/** Rust's `Iterator::max` over `usize` values: `None` for an empty iterator. */
module Iter {
  import opened Wrappers

  /** The largest element of `ws`, or `None` when `ws` is empty. */
  function Max(ws: seq<nat>): (r: Option<nat>)
    ensures r.None? <==> ws == []
    ensures r.Some? ==> r.value in ws
    ensures r.Some? ==> forall i :: 0 <= i < |ws| ==> ws[i] <= r.value
  {
    if ws == [] then None
    else
      var rest := Max(ws[1..]);
      if rest.None? || rest.value <= ws[0] then Some(ws[0]) else rest
  }
}
