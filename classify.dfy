/**
 * Querying a stub layer's role: `is_layer` (membership in a named family),
 * `layer_width`, the rank factories `get_*_class` that pick the 1d/2d/3d
 * subclass of a family, and their inverse `get_n_dim`.
 */
module Classify {
  import opened Wrappers
  import opened PyInt
  import opened Layers

  /** The concrete stub classes; the ranked families have one class per rank. */
  datatype StubClass =
    | InputClass
    | DenseClass
    | ConvClass(rank: Rank)
    | BatchNormalizationClass(rank: Rank)
    | PoolingClass(rank: Rank)
    | GlobalPoolingClass(rank: Rank)
    | DropoutClass(rank: Rank)
    | FlattenClass
    | ReLUClass
    | SoftmaxClass
    | ConcatenateClass
    | AddClass

  /** The class a layer value is an instance of. */
  function ClassOf(l: Layer): StubClass
  {
    match l
    case Input => InputClass
    case Dense(_, _) => DenseClass
    case Conv(r, _, _, _, _) => ConvClass(r)
    case BatchNormalization(r, _) => BatchNormalizationClass(r)
    case Pooling(r, _, _, _) => PoolingClass(r)
    case GlobalPooling(r) => GlobalPoolingClass(r)
    case Dropout(r, _) => DropoutClass(r)
    case Flatten => FlattenClass
    case ReLU => ReLUClass
    case Softmax => SoftmaxClass
    case Concatenate => ConcatenateClass
    case Add => AddClass
  }

  /** The layer-type names `is_layer` recognises. */
  const LayerTypeNames: set<string> :=
    {"Input", "Conv", "Dense", "BatchNormalization", "Concatenate", "Add",
     "Pooling", "Dropout", "Softmax", "ReLU", "Flatten", "GlobalAveragePooling"}

  /** The one recognised type name each layer belongs to; all ranks of a family share it. */
  function FamilyName(l: Layer): (name: string)
    ensures name in LayerTypeNames
  {
    match l
    case Input => "Input"
    case Dense(_, _) => "Dense"
    case Conv(_, _, _, _, _) => "Conv"
    case BatchNormalization(_, _) => "BatchNormalization"
    case Pooling(_, _, _, _) => "Pooling"
    case GlobalPooling(_) => "GlobalAveragePooling"
    case Dropout(_, _) => "Dropout"
    case Flatten => "Flatten"
    case ReLU => "ReLU"
    case Softmax => "Softmax"
    case Concatenate => "Concatenate"
    case Add => "Add"
  }

  /**
   * `is_layer(layer, layer_type)`: Some(membership) for a recognised type
   * name, and None (Python's falsy `None`, from falling off the end of the
   * chain) for any other name.
   */
  function IsLayer(l: Layer, layerType: string): (r: Option<bool>)
    ensures r.None? <==> layerType !in LayerTypeNames
    ensures r.Some? ==> (r.value <==> FamilyName(l) == layerType)
  {
    if layerType == "Input" then Some(l.Input?)
    else if layerType == "Conv" then Some(l.Conv?)
    else if layerType == "Dense" then Some(l.Dense?)
    else if layerType == "BatchNormalization" then Some(l.BatchNormalization?)
    else if layerType == "Concatenate" then Some(l.Concatenate?)
    else if layerType == "Add" then Some(l.Add?)
    else if layerType == "Pooling" then Some(l.Pooling?)
    else if layerType == "Dropout" then Some(l.Dropout?)
    else if layerType == "Softmax" then Some(l.Softmax?)
    else if layerType == "ReLU" then Some(l.ReLU?)
    else if layerType == "Flatten" then Some(l.Flatten?)
    else if layerType == "GlobalAveragePooling" then Some(l.GlobalPooling?)
    else None
  }

  /** Python truthiness of `is_layer`'s result: None counts as false. */
  predicate Truthy(b: Option<bool>)
  {
    b == Some(true)
  }

  /** `is_layer(l, 'Conv')` holds for the convolutions of every rank. */
  lemma IsLayerConvEveryRank(r: Rank, inputChannel: int, filters: int, kernelSize: int, stride: int)
    ensures Truthy(IsLayer(Conv(r, inputChannel, filters, kernelSize, stride), "Conv"))
  {
  }

  /**
   * `layer_width`: `units` for a dense layer, `filters` for a convolution,
   * TypeError for any other kind.
   */
  function LayerWidth(l: Layer): (r: Result<int, Error>)
    ensures r.Success? <==> l.Dense? || l.Conv?
    ensures l.Dense? ==> r == Success(l.units)
    ensures l.Conv? ==> r == Success(l.filters)
    ensures r.Failure? ==> r.error == TypeError
  {
    if Truthy(IsLayer(l, "Dense")) then Success(l.units)
    else if Truthy(IsLayer(l, "Conv")) then Success(l.filters)
    else Failure(TypeError)
  }

  /**
   * `class_list[n_dim - 1]` over a three-entry list: Python indexing, so
   * 0, -1 and -2 wrap around to the last, middle and first entry, and
   * anything else raises IndexError.
   */
  function PickByRank(classes: seq<StubClass>, nDim: int): Result<StubClass, Error>
    requires |classes| == 3
  {
    match PyListIndex(3, nDim - 1)
    case Some(i) => Success(classes[i])
    case None => Failure(IndexError)
  }

  /** The rank a factory index selects after Python's wrap-around, for `-2 <= n <= 3`. */
  function WrappedRank(nDim: int): Rank
    requires -2 <= nDim <= 3
  {
    if nDim >= 1 then nDim else nDim + 3
  }

  function GetConvClass(nDim: int): (r: Result<StubClass, Error>)
    ensures r.Success? <==> -2 <= nDim <= 3
    ensures r.Success? ==> r.value == ConvClass(WrappedRank(nDim))
    ensures r.Failure? ==> r.error == IndexError
  {
    PickByRank([ConvClass(1), ConvClass(2), ConvClass(3)], nDim)
  }

  function GetDropoutClass(nDim: int): (r: Result<StubClass, Error>)
    ensures r.Success? <==> -2 <= nDim <= 3
    ensures r.Success? ==> r.value == DropoutClass(WrappedRank(nDim))
    ensures r.Failure? ==> r.error == IndexError
  {
    PickByRank([DropoutClass(1), DropoutClass(2), DropoutClass(3)], nDim)
  }

  function GetGlobalAvgPoolingClass(nDim: int): (r: Result<StubClass, Error>)
    ensures r.Success? <==> -2 <= nDim <= 3
    ensures r.Success? ==> r.value == GlobalPoolingClass(WrappedRank(nDim))
    ensures r.Failure? ==> r.error == IndexError
  {
    PickByRank([GlobalPoolingClass(1), GlobalPoolingClass(2), GlobalPoolingClass(3)], nDim)
  }

  function GetPoolingClass(nDim: int): (r: Result<StubClass, Error>)
    ensures r.Success? <==> -2 <= nDim <= 3
    ensures r.Success? ==> r.value == PoolingClass(WrappedRank(nDim))
    ensures r.Failure? ==> r.error == IndexError
  {
    PickByRank([PoolingClass(1), PoolingClass(2), PoolingClass(3)], nDim)
  }

  function GetBatchNormClass(nDim: int): (r: Result<StubClass, Error>)
    ensures r.Success? <==> -2 <= nDim <= 3
    ensures r.Success? ==> r.value == BatchNormalizationClass(WrappedRank(nDim))
    ensures r.Failure? ==> r.error == IndexError
  {
    PickByRank([BatchNormalizationClass(1), BatchNormalizationClass(2), BatchNormalizationClass(3)], nDim)
  }

  /** The layer belongs to one of the five rank-bearing families. */
  predicate HasRank(l: Layer)
  {
    l.Conv? || l.BatchNormalization? || l.Pooling? || l.GlobalPooling? || l.Dropout?
  }

  /**
   * `get_n_dim`: the rank of a layer of a ranked family, by checking its
   * class against the 1d classes, then the 2d, then the 3d; -1 otherwise.
   */
  function GetNDim(l: Layer): (r: int)
    ensures HasRank(l) ==> r == l.rank
    ensures !HasRank(l) ==> r == -1
  {
    var c := ClassOf(l);
    if c in {ConvClass(1), DropoutClass(1), GlobalPoolingClass(1), PoolingClass(1), BatchNormalizationClass(1)} then 1
    else if c in {ConvClass(2), DropoutClass(2), GlobalPoolingClass(2), PoolingClass(2), BatchNormalizationClass(2)} then 2
    else if c in {ConvClass(3), DropoutClass(3), GlobalPoolingClass(3), PoolingClass(3), BatchNormalizationClass(3)} then 3
    else -1
  }

  /** The classes the five factories can return for one index. */
  predicate FromFactory(c: StubClass, nDim: int)
  {
    || GetConvClass(nDim) == Success(c)
    || GetDropoutClass(nDim) == Success(c)
    || GetGlobalAvgPoolingClass(nDim) == Success(c)
    || GetPoolingClass(nDim) == Success(c)
    || GetBatchNormClass(nDim) == Success(c)
  }

  /**
   * `get_n_dim` inverts the factories: any layer of a class a factory built
   * for `n` in 1..3 has rank `n` (and an index that wrapped around gives
   * the wrapped rank).
   */
  lemma GetNDimInvertsFactories(nDim: int, l: Layer)
    requires FromFactory(ClassOf(l), nDim)
    ensures -2 <= nDim <= 3 && HasRank(l)
    ensures GetNDim(l) == WrappedRank(nDim)
    ensures 1 <= nDim <= 3 ==> GetNDim(l) == nDim
  {
  }
}
