/**
 * The few JavaScript `Array` operations the handlers apply to a copied
 * array: `unshift`, assignment to an index and `splice`.  The array is a
 * `seq` field that each method reassigns, so every call is an update in
 * place as far as its caller can tell.
 */
module JsArrays {
  import opened Common

  /** Where `splice(start, …)` starts: a start past the end is clamped to the length. */
  function SpliceStart<T>(s: seq<T>, start: nat): (k: nat)
    ensures k <= |s| && (start <= |s| ==> k == start) && (start > |s| ==> k == |s|)
  {
    if start <= |s| then start else |s|
  }

  /**
   * How many elements `splice` removes: an omitted count removes the whole
   * tail; a count larger than what is left removes only what is left.
   */
  function SpliceCount<T>(s: seq<T>, start: nat, deleteCount: Option<nat>): (d: nat)
    ensures SpliceStart(s, start) + d <= |s|
    ensures deleteCount.None? ==> SpliceStart(s, start) + d == |s|
    ensures deleteCount.Some? ==> d == Min(deleteCount.value, |s| - SpliceStart(s, start))
  {
    var k := SpliceStart(s, start);
    match deleteCount
    case None => |s| - k
    case Some(n) => if n <= |s| - k then n else |s| - k
  }

  class JsArray<T> {
    var items: seq<T>

    constructor (init: seq<T>)
      ensures items == init
    {
      items := init;
    }

    /** `a.unshift(x)`: `x` becomes the first element. */
    method Unshift(x: T)
      modifies this
      ensures items == [x] + old(items)
    {
      items := [x] + items;
    }

    /** `a[i] = x` for an index inside the array. */
    method SetAt(i: nat, x: T)
      requires i < |items|
      modifies this
      ensures items == old(items)[i := x]
    {
      items := items[i := x];
    }

    /**
     * `a.splice(start, deleteCount, ...insert)`: removes the clamped range
     * and puts `insert` in its place; returns the removed elements.
     */
    method Splice(start: nat, deleteCount: Option<nat>, insert: seq<T>) returns (removed: seq<T>)
      modifies this
      ensures var k := SpliceStart(old(items), start);
              var e := k + SpliceCount(old(items), start, deleteCount);
              removed == old(items)[k..e] && items == old(items)[..k] + insert + old(items)[e..]
    {
      var k := SpliceStart(items, start);
      var e := k + SpliceCount(items, start, deleteCount);
      removed := items[k..e];
      items := items[..k] + insert + items[e..];
    }
  }
}
