/** Python's `None`-or-value, as used by every extractor of the scraper. */
module Options {

  datatype Option<+T> = None | Some(value: T)

  /** The elements of a sequence, as Python's `set(xs)` gives them. */
  function Elems<T>(xs: seq<T>): (s: set<T>)
    ensures forall i :: 0 <= i < |xs| ==> xs[i] in s
    ensures forall x :: x in s ==> exists i :: 0 <= i < |xs| && xs[i] == x
  {
    set x | x in xs
  }

  lemma ElemsConcat<T>(a: seq<T>, b: seq<T>)
    ensures Elems(a + b) == Elems(a) + Elems(b)
  {
  }
}
