/** Vocabulary shared by every module: optional values, fallible answers and byte strings. */
module Basics {

  datatype Option<+T> = None | Some(value: T)

  datatype Result<+T, +E> = Ok(value: T) | Err(error: E)

  type Byte = bv8
  type Bytes = seq<Byte>

  /** A reading of a monotone clock, in its smallest unit. */
  type Time = int

  /** The pieces of a body joined in order. */
  function Concat(pieces: seq<Bytes>): Bytes {
    if pieces == [] then [] else Concat(pieces[..|pieces| - 1]) + pieces[|pieces| - 1]
  }

  lemma ConcatSnoc(pieces: seq<Bytes>, piece: Bytes)
    ensures Concat(pieces + [piece]) == Concat(pieces) + piece
  {
    assert (pieces + [piece])[..|pieces|] == pieces;
  }

  /** Pieces of at least `floor` bytes each add up. */
  lemma {:induction false} ConcatAtLeast(pieces: seq<Bytes>, floor: nat)
    requires forall i :: 0 <= i < |pieces| ==> |pieces[i]| >= floor
    ensures |Concat(pieces)| >= |pieces| * floor
  {
    if pieces != [] {
      ConcatAtLeast(pieces[..|pieces| - 1], floor);
      assert |pieces| * floor == (|pieces| - 1) * floor + floor;
    }
  }

  function Init<T>(s: seq<T>): seq<T>
    requires s != []
  {
    s[..|s| - 1]
  }

  function Last<T>(s: seq<T>): T
    requires s != []
  {
    s[|s| - 1]
  }

  predicate NoDuplicates<T(==)>(s: seq<T>) {
    forall i, j :: 0 <= i < j < |s| ==> s[i] != s[j]
  }
}
