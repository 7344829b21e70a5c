/**
 * The `output_shape` getters that the stub classes compute with a loop over
 * an accumulator: Conv rewrites a list in place, Concatenate keeps a running
 * sum, Flatten a running product, and Pooling grows a tuple. Each method is
 * proved to compute the shape-algebra function of the same name in Layers.
 */
module ShapeLoops {
  import opened Wrappers
  import opened Layers

  /** `StubConv.output_shape`: `ret = list(shape[:-1])`, each entry rewritten in place, then `filters` appended. */
  method ConvOutputShapeLoop(shape: Shape, kernelSize: int, stride: int, filters: int) returns (r: Result<Shape, Error>)
    ensures r == ConvOutputShape(shape, kernelSize, stride, filters)
  {
    var spatial := Init(shape);
    var ret := spatial;
    var index := 0;
    while index < |ret|
      invariant 0 <= index <= |ret| == |spatial|
      invariant index > 0 ==> stride != 0
      invariant forall i :: 0 <= i < index ==> ret[i] == ConvDim(spatial[i], kernelSize, stride)
      invariant forall i :: index <= i < |ret| ==> ret[i] == spatial[i]
    {
      if stride == 0 {
        assert spatial != [];
        return Failure(ZeroDivisionError);
      }
      ret := ret[index := ConvDim(ret[index], kernelSize, stride)];
      index := index + 1;
    }
    r := Success(ret + [filters]);
    if spatial == [] {
      assert ret + [filters] == [filters];
    } else {
      assert stride != 0;
      assert ret == seq(|spatial|, i requires 0 <= i < |spatial| => ConvDim(spatial[i], kernelSize, stride));
    }
  }

  /** `StubConcatenate.output_shape`: a running sum of every input's last entry, then the first input's other entries. */
  method ConcatenateOutputShapeLoop(shapes: seq<Shape>) returns (r: Result<Shape, Error>)
    ensures r == ConcatenateOutputShape(shapes)
  {
    var ret := 0;
    var i := 0;
    while i < |shapes|
      invariant 0 <= i <= |shapes|
      invariant [] !in shapes[..i]
      invariant ret == SumLast(shapes[..i])
    {
      if shapes[i] == [] {
        assert shapes[i] in shapes;
        return Failure(IndexError);
      }
      assert shapes[..i + 1][..i] == shapes[..i];
      ret := ret + Last(shapes[i]);
      i := i + 1;
    }
    assert shapes[..i] == shapes;
    if shapes == [] {
      return Failure(IndexError);
    }
    r := Success(Init(shapes[0]) + [ret]);
  }

  /** `StubFlatten.output_shape`: a running product of all entries, starting from 1. */
  method FlattenOutputShapeLoop(shape: Shape) returns (r: Shape)
    ensures r == [Product(shape)]
  {
    var ret := 1;
    var i := 0;
    while i < |shape|
      invariant 0 <= i <= |shape|
      invariant ret == Product(shape[..i])
    {
      assert shape[..i + 1][..i] == shape[..i];
      ret := ret * shape[i];
      i := i + 1;
    }
    assert shape[..i] == shape;
    r := [ret];
  }

  /** `StubPooling.output_shape`: a tuple grown by one pooled entry per spatial axis, then the channel entry. */
  method PoolingOutputShapeLoop(shape: Shape, kernelSize: int) returns (r: Result<Shape, Error>)
    ensures r == PoolingOutputShape(shape, kernelSize)
  {
    var spatial := Init(shape);
    var ret: Shape := [];
    var i := 0;
    while i < |spatial|
      invariant 0 <= i <= |spatial|
      invariant i > 0 ==> kernelSize != 0
      invariant |ret| == i
      invariant forall j :: 0 <= j < i ==> ret[j] == PoolDim(spatial[j], kernelSize)
    {
      if kernelSize == 0 {
        return Failure(ZeroDivisionError);
      }
      ret := ret + [PoolDim(spatial[i], kernelSize)];
      i := i + 1;
    }
    if shape == [] {
      return Failure(IndexError);
    }
    r := Success(ret + [Last(shape)]);
    if spatial != [] {
      assert ret == seq(|spatial|, j requires 0 <= j < |spatial| => PoolDim(spatial[j], kernelSize));
    }
  }
}
