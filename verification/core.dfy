/**
 * Outcome types shared by the whole model.
 *
 * The library has two kinds of "no result":
 *  - `Option<T>`: a normal, recoverable absence (the 4x4 `inverse` of a singular matrix);
 *  - `Checked<T>`: a fatal contract violation. Every `Panic` stands for a Rust `panic!`
 *    (an out-of-range row, component or minor index), which aborts the caller.
 */
module Core {

  datatype Option<+T> = None | Some(value: T)

  datatype Checked<+T> = Value(get: T) | Panic

  /**
   * `Index<usize>` on a vector (its fields in declaration order) or on a matrix (its rows):
   * element `index`; any other index panics.
   */
  function Index<T>(s: seq<T>, index: nat): (r: Checked<T>)
    ensures r.Value? <==> index < |s|
    ensures r.Value? ==> r.get == s[index]
  {
    if index < |s| then Value(s[index]) else Panic
  }

  /** `IndexMut<usize>` followed by a write of `x` through the returned reference. */
  function IndexMut<T>(s: seq<T>, index: nat, x: T): (r: Checked<seq<T>>)
    ensures r.Value? <==> index < |s|
    ensures r.Value? ==> |r.get| == |s| && Index(r.get, index) == Value(x)
  {
    if index < |s| then Value(s[index := x]) else Panic
  }

  /** A write through `IndexMut` changes only the selected element, which reads back as written. */
  lemma IndexMutWritesOne<T>(s: seq<T>, index: nat, x: T)
    requires index < |s|
    ensures IndexMut(s, index, x).Value?
    ensures |IndexMut(s, index, x).get| == |s|
    ensures Index(IndexMut(s, index, x).get, index) == Value(x)
    ensures forall i :: 0 <= i < |s| && i != index ==> Index(IndexMut(s, index, x).get, i) == Index(s, i)
  {
  }
}
