/**
 * The stub layers of a neural-architecture-search graph: framework-free
 * descriptions of one layer's kind and hyperparameters, the shape of what
 * the layer outputs for a given input shape, and its parameter count.
 *
 * Shapes follow the channels-last convention: the last entry of a shape is
 * the channel (feature) dimension, the entries before it are spatial.
 */
module Layers {
  import opened Wrappers
  import opened PyInt

  type Shape = seq<int>

  /** Spatial rank of the 1d/2d/3d variants of a layer family. */
  type Rank = n: int | 1 <= n <= 3 witness 1

  /** The Python exceptions the modelled code can raise. */
  datatype Error = IndexError | ZeroDivisionError | TypeError

  /**
   * One stub layer: its class (a rank tag stands for the 1d/2d/3d
   * subclasses) and the hyperparameters its constructor stores.
   * Dropout's rate is a float the model never computes with.
   */
  datatype Layer =
    | Input
    | Dense(inputUnits: int, units: int)
    | Conv(rank: Rank, inputChannel: int, filters: int, kernelSize: int, stride: int)
    | BatchNormalization(rank: Rank, numFeatures: int)
    | Pooling(rank: Rank, kernelSize: int, stride: int, padding: int)
    | GlobalPooling(rank: Rank)
    | Dropout(rank: Rank, rate: real)
    | Flatten
    | ReLU
    | Softmax
    | Concatenate
    | Add

  /** Concatenate and Add take an ordered list of input nodes, every other kind one node. */
  predicate Aggregate(l: Layer)
  {
    l.Concatenate? || l.Add?
  }

  /** What a stub's `input` refers to: one graph node, or a list of them; only their shapes are read. */
  datatype Inbound = Node(shape: Shape) | Nodes(shapes: seq<Shape>)

  /** The graph builder hands an aggregate layer a list of nodes and every other layer a single node. */
  predicate Wired(l: Layer, inbound: Inbound)
  {
    inbound.Nodes? <==> Aggregate(l)
  }

  /** `StubConv*d(input_channel, filters, kernel_size, stride=1)`. */
  function NewConv(rank: Rank, inputChannel: int, filters: int, kernelSize: int, stride: int := 1): (l: Layer)
    ensures l.Conv? && l.rank == rank && l.stride == stride
    ensures l.inputChannel == inputChannel && l.filters == filters && l.kernelSize == kernelSize
  {
    Conv(rank, inputChannel, filters, kernelSize, stride)
  }

  /**
   * `StubPooling*d(kernel_size=2, stride=None, padding=0)`: the stored stride
   * is `stride or kernel_size`, so an absent or zero stride becomes the
   * kernel size.
   */
  function NewPooling(rank: Rank, kernelSize: int := 2, stride: Option<int> := None, padding: int := 0): (l: Layer)
    ensures l.Pooling? && l.rank == rank && l.kernelSize == kernelSize && l.padding == padding
    ensures stride.None? || stride.value == 0 ==> l.stride == kernelSize
    ensures stride.Some? && stride.value != 0 ==> l.stride == stride.value
    ensures kernelSize != 0 ==> l.stride != 0
  {
    var effective := if stride.Some? && stride.value != 0 then stride.value else kernelSize;
    Pooling(rank, kernelSize, effective, padding)
  }

  // ---------------------------------------------------------------------
  // Shape algebra
  // ---------------------------------------------------------------------

  /** Python's `shape[:-1]`: everything but the last entry (empty for an empty shape). */
  function Init(s: Shape): (r: Shape)
    ensures |r| == if s == [] then 0 else |s| - 1
    ensures forall i :: 0 <= i < |r| ==> r[i] == s[i]
  {
    if s == [] then [] else s[..|s| - 1]
  }

  /** Python's `shape[-1]`. */
  function Last(s: Shape): int
    requires s != []
  {
    s[|s| - 1]
  }

  function Max(a: int, b: int): int
  {
    if a < b then b else a
  }

  /** One spatial dimension through a convolution: `int((d - k) / s) + 1`, truncating. */
  function ConvDim(d: int, kernelSize: int, stride: int): int
    requires stride != 0
  {
    TruncDiv(d - kernelSize, stride) + 1
  }

  /**
   * `StubConv.output_shape`: every spatial dimension goes through ConvDim,
   * and the channel dimension becomes `filters`. The division only happens
   * when there is a spatial dimension, so a zero stride fails only then.
   */
  function ConvOutputShape(shape: Shape, kernelSize: int, stride: int, filters: int): (r: Result<Shape, Error>)
    ensures r.Failure? <==> |shape| > 1 && stride == 0
    ensures r.Failure? ==> r.error == ZeroDivisionError
    ensures r.Success? ==> |r.value| == Max(|shape|, 1) && Last(r.value) == filters
    ensures r.Success? ==> forall i :: 0 <= i < |shape| - 1 ==> stride != 0 && r.value[i] == ConvDim(shape[i], kernelSize, stride)
  {
    var spatial := Init(shape);
    if spatial == [] then Success([filters])
    else if stride == 0 then Failure(ZeroDivisionError)
    else Success(seq(|spatial|, i requires 0 <= i < |spatial| => ConvDim(spatial[i], kernelSize, stride)) + [filters])
  }

  /** One spatial dimension through a pooling layer: `max(int(d / k), 1)`, truncating. */
  function PoolDim(d: int, kernelSize: int): (r: int)
    requires kernelSize != 0
    ensures r >= 1
  {
    Max(TruncDiv(d, kernelSize), 1)
  }

  /**
   * `StubPooling.output_shape`: the spatial dimensions go through PoolDim and
   * the channel dimension is kept. Stride and padding are not consulted.
   */
  function PoolingOutputShape(shape: Shape, kernelSize: int): (r: Result<Shape, Error>)
    ensures r.Failure? <==> shape == [] || (|shape| > 1 && kernelSize == 0)
    ensures shape == [] ==> r == Failure(IndexError)
    ensures shape != [] && r.Failure? ==> r.error == ZeroDivisionError
    ensures r.Success? ==> |r.value| == |shape| && Last(r.value) == Last(shape)
    ensures r.Success? ==> forall i :: 0 <= i < |shape| - 1 ==> r.value[i] >= 1
    ensures r.Success? ==> forall i :: 0 <= i < |shape| - 1 ==> kernelSize != 0 && r.value[i] == PoolDim(shape[i], kernelSize)
  {
    var spatial := Init(shape);
    if spatial != [] && kernelSize == 0 then Failure(ZeroDivisionError)
    else if shape == [] then Failure(IndexError)
    else Success(seq(|spatial|, i requires 0 <= i < |spatial| => PoolDim(spatial[i], kernelSize)) + [Last(shape)])
  }

  /** `StubGlobalPooling.output_shape`: only the channel dimension survives. */
  function GlobalPoolingOutputShape(shape: Shape): (r: Result<Shape, Error>)
    ensures r.Failure? <==> shape == []
    ensures r.Failure? ==> r.error == IndexError
    ensures r.Success? ==> r.value == [Last(shape)]
  {
    if shape == [] then Failure(IndexError) else Success([Last(shape)])
  }

  /** The product of all entries, accumulated left to right from 1. */
  function Product(s: Shape): int
  {
    if s == [] then 1 else Product(s[..|s| - 1]) * Last(s)
  }

  /** The sum of the last entries of a list of shapes, accumulated left to right from 0. */
  function SumLast(shapes: seq<Shape>): int
    requires [] !in shapes
  {
    if shapes == [] then 0 else SumLast(shapes[..|shapes| - 1]) + Last(shapes[|shapes| - 1])
  }

  /**
   * `StubConcatenate.output_shape`: the first input's shape with its channel
   * dimension replaced by the sum of every input's channel dimension. The
   * other dimensions of the inputs are not compared.
   */
  function ConcatenateOutputShape(shapes: seq<Shape>): (r: Result<Shape, Error>)
    ensures r.Failure? <==> shapes == [] || [] in shapes
    ensures r.Failure? ==> r.error == IndexError
    ensures r.Success? ==> |r.value| == |shapes[0]| && Init(r.value) == Init(shapes[0])
    ensures r.Success? ==> Last(r.value) == SumLast(shapes)
  {
    if [] in shapes || shapes == [] then Failure(IndexError)
    else Success(Init(shapes[0]) + [SumLast(shapes)])
  }

  /** `StubAdd.output_shape`: the first input's shape, unchecked against the others. */
  function AddOutputShape(shapes: seq<Shape>): (r: Result<Shape, Error>)
    ensures r.Failure? <==> shapes == []
    ensures r.Failure? ==> r.error == IndexError
    ensures r.Success? ==> r.value == shapes[0]
  {
    if shapes == [] then Failure(IndexError) else Success(shapes[0])
  }

  /**
   * The `output_shape` property of every stub layer class. Only the getters
   * that index an input or divide can raise; the kinds that inherit the base
   * getter pass the input shape through.
   */
  function OutputShape(l: Layer, inbound: Inbound): (r: Result<Shape, Error>)
    requires Wired(l, inbound)
    ensures r.Failure? <==>
      || (l.Conv? && |inbound.shape| > 1 && l.stride == 0)
      || (l.Pooling? && (inbound.shape == [] || (|inbound.shape| > 1 && l.kernelSize == 0)))
      || (l.GlobalPooling? && inbound.shape == [])
      || (l.Concatenate? && (inbound.shapes == [] || [] in inbound.shapes))
      || (l.Add? && inbound.shapes == [])
    ensures l.Input? || l.BatchNormalization? || l.Dropout? || l.ReLU? || l.Softmax? ==> r == Success(inbound.shape)
    ensures l.Dense? || l.Flatten? || l.GlobalPooling? ==> r.Success? ==> |r.value| == 1
  {
    match l
    case Dense(_, units) => Success([units])
    case Conv(_, _, filters, kernelSize, stride) => ConvOutputShape(inbound.shape, kernelSize, stride, filters)
    case Pooling(_, kernelSize, _, _) => PoolingOutputShape(inbound.shape, kernelSize)
    case GlobalPooling(_) => GlobalPoolingOutputShape(inbound.shape)
    case Flatten => Success([Product(inbound.shape)])
    case Concatenate => ConcatenateOutputShape(inbound.shapes)
    case Add => AddOutputShape(inbound.shapes)
    case _ => Success(inbound.shape)
  }

  // ---------------------------------------------------------------------
  // Properties of the shape algebra
  // ---------------------------------------------------------------------

  /**
   * For a positive stride and a dimension at least the kernel size, ConvDim
   * counts the kernel windows that fit: `n` windows placed `stride` apart
   * fit into `d`, and `n + 1` do not.
   */
  lemma ConvDimCountsWindows(d: int, kernelSize: int, stride: int)
    requires stride > 0 && d >= kernelSize
    ensures var n := ConvDim(d, kernelSize, stride);
      n >= 1 && (n - 1) * stride + kernelSize <= d < n * stride + kernelSize
  {
    TruncDivRoundsTowardZero(d - kernelSize, stride);
  }

  /**
   * Truncation, not floor: a dimension a little smaller than the kernel
   * (by less than the stride) still yields one output position, although no
   * window fits.
   */
  lemma ConvDimTruncatesTowardZero(d: int, kernelSize: int, stride: int)
    requires stride > 0 && kernelSize - stride < d < kernelSize
    ensures ConvDim(d, kernelSize, stride) == 1
  {
    TruncDivRoundsTowardZero(d - kernelSize, stride);
  }

  /** For a non-empty input, a convolution keeps the rank of the shape. */
  lemma ConvOutputShapeKeepsLength(l: Layer, s: Shape)
    requires l.Conv? && s != [] && (|s| > 1 ==> l.stride != 0)
    ensures OutputShape(l, Node(s)).Success?
    ensures |OutputShape(l, Node(s)).value| == |s|
  {
  }

  /**
   * A 3x3 convolution with stride 1 and 16 filters turns a 32x32 RGB input
   * into 30x30x16, and a 2x2 pooling then halves the spatial dimensions.
   */
  lemma ConvThenPoolExample()
    ensures ConvOutputShape([32, 32, 3], 3, 1, 16) == Success([30, 30, 16])
    ensures PoolingOutputShape([30, 30, 16], 2) == Success([15, 15, 16])
  {
    var c := ConvOutputShape([32, 32, 3], 3, 1, 16).value;
    assert ConvDim(32, 3, 1) == 30;
    assert c == [c[0], c[1], c[2]];
    var p := PoolingOutputShape([30, 30, 16], 2).value;
    assert PoolDim(30, 2) == 15;
    assert p == [p[0], p[1], p[2]];
  }

  /**
   * For a positive kernel and a non-negative dimension of at least one
   * kernel, PoolDim counts the non-overlapping kernel windows that fit.
   */
  lemma PoolDimCountsWindows(d: int, kernelSize: int)
    requires kernelSize > 0 && d >= kernelSize
    ensures PoolDim(d, kernelSize) * kernelSize <= d < (PoolDim(d, kernelSize) + 1) * kernelSize
  {
    TruncDivRoundsTowardZero(d, kernelSize);
  }

  /** A pooling layer's output shape depends on its kernel size only, never on stride or padding. */
  lemma PoolingIgnoresStrideAndPadding(r1: Rank, r2: Rank, k: int, s1: int, s2: int, p1: int, p2: int, s: Shape)
    ensures OutputShape(Pooling(r1, k, s1, p1), Node(s)) == OutputShape(Pooling(r2, k, s2, p2), Node(s))
  {
  }

  lemma {:induction false} ProductAppend(a: Shape, b: Shape)
    ensures Product(a + b) == Product(a) * Product(b)
  {
    if b != [] {
      var b' := b[..|b| - 1];
      assert (a + b)[..|a + b| - 1] == a + b';
      ProductAppend(a, b');
      assert Product(a + b) == Product(a) * Product(b') * Last(b);
    } else {
      assert a + b == a;
    }
  }

  /**
   * Flatten keeps the element count: flattening a shape split anywhere
   * gives the product of the two parts' element counts, and flattening an
   * already flat shape changes nothing.
   */
  lemma FlattenCountsElements(a: Shape, b: Shape)
    ensures OutputShape(Flatten, Node(a + b)) == Success([Product(a) * Product(b)])
    ensures OutputShape(Flatten, Node([Product(a)])) == OutputShape(Flatten, Node(a))
  {
    ProductAppend(a, b);
    ProductSingleton(Product(a));
  }

  lemma {:induction false} SumLastAppend(xs: seq<Shape>, ys: seq<Shape>)
    requires [] !in xs && [] !in ys
    ensures [] !in xs + ys
    ensures SumLast(xs + ys) == SumLast(xs) + SumLast(ys)
  {
    if ys != [] {
      var ys' := ys[..|ys| - 1];
      assert (xs + ys)[..|xs + ys| - 1] == xs + ys';
      SumLastAppend(xs, ys');
    } else {
      assert xs + ys == xs;
    }
  }

  /** Concatenating a single input is the identity. */
  lemma ConcatenateSingle(s: Shape)
    requires s != []
    ensures OutputShape(Concatenate, Nodes([s])) == Success(s)
  {
    assert [] !in [s];
    assert [s][..0] == [];
    assert SumLast([s]) == Last(s);
    assert Init(s) + [Last(s)] == s;
  }

  lemma SumLastPair(x: Shape, y: Shape)
    requires x != [] && y != []
    ensures [] !in [x, y]
    ensures SumLast([x, y]) == Last(x) + Last(y)
  {
    assert [x, y][..1] == [x];
    assert [x][..0] == [];
    assert SumLast([x]) == Last(x);
  }

  /**
   * Nested concatenations flatten: concatenating the outputs of two
   * concatenations is the concatenation of all their inputs.
   */
  lemma ConcatenateFlattens(xs: seq<Shape>, ys: seq<Shape>)
    requires xs != [] && ys != [] && [] !in xs && [] !in ys
    ensures ConcatenateOutputShape(xs).Success? && ConcatenateOutputShape(ys).Success?
    ensures ConcatenateOutputShape([ConcatenateOutputShape(xs).value, ConcatenateOutputShape(ys).value])
         == ConcatenateOutputShape(xs + ys)
  {
    var x := ConcatenateOutputShape(xs).value;
    var y := ConcatenateOutputShape(ys).value;
    SumLastAppend(xs, ys);
    SumLastPair(x, y);
    assert (xs + ys)[0] == xs[0];
  }

  /** BatchNormalization, Dropout, ReLU, Softmax and Input pass the input shape through. */
  lemma IdentityKindsKeepShape(l: Layer, s: Shape)
    requires l.Input? || l.BatchNormalization? || l.Dropout? || l.ReLU? || l.Softmax?
    ensures OutputShape(l, Node(s)) == Success(s)
  {
  }

  /** A dense layer outputs `(units,)` whatever its input. */
  lemma DenseIgnoresInput(inputUnits: int, units: int, s: Shape, t: Shape)
    ensures OutputShape(Dense(inputUnits, units), Node(s)) == OutputShape(Dense(inputUnits, units), Node(t))
    ensures OutputShape(Dense(inputUnits, units), Node(s)) == Success([units])
  {
  }

  // ---------------------------------------------------------------------
  // Size algebra
  // ---------------------------------------------------------------------

  /** The `size()` of every stub layer class: the parameter count used for model-size budgets. */
  function Size(l: Layer): (r: int)
    ensures r != 0 ==> l.Dense? || l.Conv? || l.BatchNormalization?
    ensures l.Conv? ==> r == l.filters * (l.kernelSize * l.kernelSize + 1)
  {
    match l
    case Dense(inputUnits, units) => inputUnits * units + units
    case Conv(_, _, filters, kernelSize, _) => filters * kernelSize * kernelSize + filters
    case BatchNormalization(_, numFeatures) => numFeatures * 4
    case _ => 0
  }

  /** `k` repeated `n` times. */
  function Repeat(k: int, n: nat): (r: Shape)
    ensures |r| == n
  {
    if n == 0 then [] else Repeat(k, n - 1) + [k]
  }

  /**
   * The shapes of the arrays a real (Torch) layer of this kind holds, in the
   * order `import_weights` collects them: a dense layer's `(units,
   * input_units)` weight and `(units,)` bias; a convolution's `(filters,
   * input_channel, k, ..., k)` kernel with one `k` per spatial axis and its
   * `(filters,)` bias; a batch normalization's four per-feature vectors.
   */
  function ParameterShapes(l: Layer): seq<Shape>
  {
    match l
    case Dense(inputUnits, units) => [[units, inputUnits], [units]]
    case Conv(rank, inputChannel, filters, kernelSize, _) => [[filters, inputChannel] + Repeat(kernelSize, rank), [filters]]
    case BatchNormalization(_, n) => [[n], [n], [n], [n]]
    case _ => []
  }

  function ElementCount(shapes: seq<Shape>): int
  {
    if shapes == [] then 0 else Product(shapes[0]) + ElementCount(shapes[1..])
  }

  lemma ElementCountPair(a: Shape, b: Shape)
    ensures ElementCount([a, b]) == Product(a) + Product(b)
  {
    var rest: seq<Shape> := [b][1..];
    assert |rest| == 0;
    assert ElementCount([b]) == Product(b) + ElementCount(rest);
    assert [a, b][1..] == [b];
  }

  lemma ProductSingleton(x: int)
    ensures Product([x]) == x
  {
    assert [x][..0] == [];
  }

  lemma ProductPair(x: int, y: int)
    ensures Product([x, y]) == x * y
  {
    assert [x, y][..1] == [x];
    ProductSingleton(x);
  }

  lemma ProductQuad(w: int, x: int, y: int, z: int)
    ensures Product([w, x, y, z]) == w * x * y * z
  {
    ProductAppend([w, x], [y, z]);
    assert [w, x] + [y, z] == [w, x, y, z];
    ProductPair(w, x);
    ProductPair(y, z);
  }

  /**
   * For dense and batch-normalization layers, and for layers with no weights,
   * `size()` is exactly the number of weight elements.
   */
  lemma SizeCountsParameters(l: Layer)
    requires !l.Conv?
    ensures Size(l) == ElementCount(ParameterShapes(l))
  {
    match l
    case Dense(iu, u) =>
      ProductPair(u, iu);
      ProductSingleton(u);
      ElementCountPair([u, iu], [u]);
    case BatchNormalization(_, n) =>
      ProductSingleton(n);
      var ps: seq<Shape> := [[n], [n], [n], [n]];
      ElementCountPair([n], [n]);
      assert ps[1..][1..] == [[n], [n]];
      assert ElementCount(ps) == n + n + ElementCount([[n], [n]]);
    case _ =>
  }

  /**
   * A convolution's `size()` uses the 2-d kernel area and ignores the input
   * channels: it equals the weight element count of a 2-d convolution over a
   * single input channel, and not in general (a 3-channel 3x3 convolution
   * with 16 filters has 448 weights, but its size is 160).
   */
  lemma ConvSizeIsSingleChannel2dCount(filters: int, kernelSize: int, stride: int)
    ensures Size(Conv(2, 1, filters, kernelSize, stride))
         == ElementCount(ParameterShapes(Conv(2, 1, filters, kernelSize, stride)))
    ensures Size(Conv(2, 3, 16, 3, 1)) == 160
    ensures ElementCount(ParameterShapes(Conv(2, 3, 16, 3, 1))) == 448
  {
    var k := kernelSize;
    assert Repeat(k, 2) == [k, k];
    assert [filters, 1] + Repeat(k, 2) == [filters, 1, k, k];
    ProductQuad(filters, 1, k, k);
    ProductSingleton(filters);
    ElementCountPair([filters, 1, k, k], [filters]);
    assert Repeat(3, 2) == [3, 3];
    assert [16, 3] + Repeat(3, 2) == [16, 3, 3, 3];
    ProductQuad(16, 3, 3, 3);
    ProductSingleton(16);
    ElementCountPair([16, 3, 3, 3], [16]);
  }
}
