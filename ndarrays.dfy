/**
 * The weight arrays the bridge carries between a stub layer and a real
 * layer. Their numeric contents are opaque to the model: an array is a
 * shape and its cells, each an index with a value, and the only operation
 * the layer code applies to one is numpy's `.T`, which reverses the order
 * of all axes (for a 2-d matrix, the ordinary transpose).
 */
module NdArrays {

  type Index = seq<int>

  datatype Cell = Cell(index: Index, value: real)

  datatype NdArray = NdArray(shape: seq<int>, cells: seq<Cell>)

  /** Every stored cell lies inside the array's shape. */
  ghost predicate Valid(a: NdArray)
  {
    forall c :: c in a.cells ==> InBounds(c.index, a.shape)
  }

  ghost predicate InBounds(k: Index, shape: seq<int>)
  {
    |k| == |shape| && forall i :: 0 <= i < |k| ==> 0 <= k[i] < shape[i]
  }

  function Reverse(s: seq<int>): (r: seq<int>)
    ensures |r| == |s|
  {
    if s == [] then [] else Reverse(s[1..]) + [s[0]]
  }

  lemma {:induction false} ReverseAt(s: seq<int>, i: nat)
    requires i < |s|
    ensures Reverse(s)[i] == s[|s| - 1 - i]
  {
    if i < |s| - 1 {
      ReverseAt(s[1..], i);
    }
  }

  lemma ReverseReverse(s: seq<int>)
    ensures Reverse(Reverse(s)) == s
  {
    var r := Reverse(Reverse(s));
    forall i | 0 <= i < |s|
      ensures r[i] == s[i]
    {
      ReverseAt(Reverse(s), i);
      ReverseAt(s, |s| - 1 - i);
    }
  }

  function TransposeCell(c: Cell): Cell
  {
    Cell(Reverse(c.index), c.value)
  }

  /** numpy's `a.T`: the axes are reversed, and so is every cell's index. */
  function Transpose(a: NdArray): (t: NdArray)
    ensures t.shape == Reverse(a.shape)
    ensures |t.cells| == |a.cells|
    ensures forall i :: 0 <= i < |a.cells| ==> t.cells[i] == TransposeCell(a.cells[i])
  {
    NdArray(Reverse(a.shape), seq(|a.cells|, i requires 0 <= i < |a.cells| => TransposeCell(a.cells[i])))
  }

  /** Transposing twice gives back the original array. */
  lemma TransposeInvolution(a: NdArray)
    ensures Transpose(Transpose(a)) == a
  {
    var tt := Transpose(Transpose(a));
    ReverseReverse(a.shape);
    forall i | 0 <= i < |a.cells|
      ensures tt.cells[i] == a.cells[i]
    {
      ReverseReverse(a.cells[i].index);
    }
  }

  /** A well-formed array stays well-formed under transposition. */
  lemma TransposeValid(a: NdArray)
    requires Valid(a)
    ensures Valid(Transpose(a))
  {
    var t := Transpose(a);
    forall c | c in t.cells
      ensures InBounds(c.index, t.shape)
    {
      var n :| 0 <= n < |t.cells| && t.cells[n] == c;
      var k := a.cells[n].index;
      assert InBounds(k, a.shape);
      forall i | 0 <= i < |k|
        ensures 0 <= c.index[i] < t.shape[i]
      {
        ReverseAt(k, i);
        ReverseAt(a.shape, i);
      }
    }
  }
}
