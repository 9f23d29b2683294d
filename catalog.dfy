/**
 * The filament catalog: an ordered list of materials that the print-job
 * form refers to by position.
 */
module Catalog {

  /** One catalog entry; `price` is the cost of one kilogram. */
  datatype Filament = Filament(name: string, material: string, color: string, price: real)

  /**
   * Where JavaScript's `splice(start, 1)` starts on a list of length `len`:
   * a negative start counts from the end (and stops at 0), a start past the
   * end is clamped to the end.
   */
  function SpliceStart(len: nat, start: int): nat
  {
    if start < 0 then (if len + start < 0 then 0 else len + start)
    else if start > len then len
    else start
  }

  /**
   * The list left behind by `s.splice(start, 1)`: the entry at the splice
   * start is dropped when there is one, otherwise the list is unchanged.
   */
  function RemoveAt<T>(s: seq<T>, start: int): (r: seq<T>)
    // A valid index: one entry fewer, the entries before it keep their
    // positions and every later entry moves down by exactly one.
    ensures 0 <= start < |s| ==>
              && |r| == |s| - 1
              && (forall k :: 0 <= k < start ==> r[k] == s[k])
              && (forall k :: start <= k < |r| ==> r[k] == s[k + 1])
    // An index at or past the end removes nothing.
    ensures start >= |s| ==> r == s
    // A negative index counts from the end of the list ...
    ensures -|s| <= start < 0 ==> |r| == |s| - 1 && r == s[..|s| + start] + s[|s| + start + 1..]
    // ... and one further back than the length removes the first entry.
    ensures start < -|s| && s != [] ==> r == s[1..]
    // Whatever the index, nothing is added and at most one entry goes.
    ensures |s| - 1 <= |r| <= |s|
    ensures multiset(r) <= multiset(s)
  {
    var k := SpliceStart(|s|, start);
    if k < |s| then
      assert s == s[..k] + [s[k]] + s[k + 1..];
      s[..k] + s[k + 1..]
    else
      s
  }
}
