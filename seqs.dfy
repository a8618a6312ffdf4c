/** Small sequence helpers shared by the history and the chunker. */
module Seqs {

  function Min(a: int, b: int): int
  {
    if a <= b then a else b
  }

  /** Concatenation of a list of pieces, as Python's `''.join(parts)`. */
  function Concat<T>(parts: seq<seq<T>>): (r: seq<T>)
    ensures parts == [] ==> r == []
  {
    if parts == [] then [] else Concat(parts[..|parts| - 1]) + parts[|parts| - 1]
  }

  /** A non-empty tail splits into its front and its last element. */
  lemma SplitLast<T>(h: seq<T>, ms: seq<T>)
    requires ms != []
    ensures h + ms == (h + ms[..|ms| - 1]) + [ms[|ms| - 1]]
  {
    assert ms == ms[..|ms| - 1] + [ms[|ms| - 1]];
  }

  /** Concatenating one more piece extends the joined text by exactly that piece. */
  lemma ConcatSnoc<T>(parts: seq<seq<T>>, k: nat)
    requires k < |parts|
    ensures Concat(parts[..k + 1]) == Concat(parts[..k]) + parts[k]
  {
    assert parts[..k + 1][..k] == parts[..k];
  }

  /** Text that follows a fixed prefix grows by exactly the next piece. */
  lemma ConcatSnocAfter<T>(prefix: seq<T>, parts: seq<seq<T>>, k: nat)
    requires k < |parts|
    ensures prefix + Concat(parts[..k + 1]) == (prefix + Concat(parts[..k])) + parts[k]
  {
    ConcatSnoc(parts, k);
  }
}
