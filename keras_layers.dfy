/**
 * Which Keras layer a stub materializes to (`to_real_keras_layer` and
 * `keras_dropout`). The Keras constructors themselves are not modelled:
 * the result is a description of the constructor call and its arguments.
 */
module KerasLayers {
  import opened Wrappers
  import opened Layers

  datatype KerasLayer =
    | KerasDense(units: int, inputUnits: int)
    | KerasConv2D(filters: int, kernelSize: int, inputShape: Shape, padding: string)
    | KerasMaxPool2D(poolSize: int)
    | KerasBatchNormalization(inputShape: Shape)
    | KerasConcatenate
    | KerasAdd
    | KerasSpatialDropout(dims: Rank, rate: real)
    | KerasDropout(rate: real)
    | KerasActivation(activation: string)
    | KerasFlatten
    | KerasGlobalAveragePooling2D

  /**
   * `keras_dropout(layer, rate)`: spatial dropout over the input's spatial
   * axes when the input shape has 2, 3 or 4 entries (1, 2 or 3 spatial axes
   * plus channels), plain dropout otherwise.
   */
  function KerasDropoutFor(inputShape: Shape, rate: real): (r: KerasLayer)
    ensures r.KerasSpatialDropout? || r.KerasDropout?
    ensures r.KerasSpatialDropout? <==> 2 <= |inputShape| <= 4
    ensures r.KerasSpatialDropout? ==> r.dims == |inputShape| - 1
    ensures r.rate == rate
  {
    var inputDim := |inputShape|;
    if inputDim == 2 then KerasSpatialDropout(1, rate)
    else if inputDim == 3 then KerasSpatialDropout(2, rate)
    else if inputDim == 4 then KerasSpatialDropout(3, rate)
    else KerasDropout(rate)
  }

  /**
   * `to_real_keras_layer`: every rank of a convolution, pooling and global
   * pooling becomes the 2-d Keras layer, the convolution with `'same'`
   * padding (unlike the stub's own output shape, which assumes none),
   * pooling always uses a pool size of 2, and an input layer falls through
   * the chain (None).
   */
  function ToRealKerasLayer(l: Layer, inbound: Inbound): (r: Option<KerasLayer>)
    requires Wired(l, inbound)
    ensures r.None? <==> l.Input?
    ensures l.Conv? ==> r == Some(KerasConv2D(l.filters, l.kernelSize, inbound.shape, "same"))
    ensures l.Pooling? ==> r == Some(KerasMaxPool2D(2))
    ensures l.GlobalPooling? ==> r == Some(KerasGlobalAveragePooling2D)
    ensures l.Dropout? ==> r == Some(KerasDropoutFor(inbound.shape, l.rate))
  {
    match l
    case Dense(inputUnits, units) => Some(KerasDense(units, inputUnits))
    case Conv(_, _, filters, kernelSize, _) => Some(KerasConv2D(filters, kernelSize, inbound.shape, "same"))
    case Pooling(_, _, _, _) => Some(KerasMaxPool2D(2))
    case BatchNormalization(_, _) => Some(KerasBatchNormalization(inbound.shape))
    case Concatenate => Some(KerasConcatenate)
    case Add => Some(KerasAdd)
    case Dropout(_, rate) => Some(KerasDropoutFor(inbound.shape, rate))
    case ReLU => Some(KerasActivation("relu"))
    case Softmax => Some(KerasActivation("softmax"))
    case Flatten => Some(KerasFlatten)
    case GlobalPooling(_) => Some(KerasGlobalAveragePooling2D)
    case Input => None
  }

  /** The Keras materialization is rank-collapsed: changing a layer's rank never changes it. */
  lemma KerasLayerIgnoresRank(l: Layer, r: Rank, inbound: Inbound)
    requires l.Conv? || l.BatchNormalization? || l.Pooling? || l.GlobalPooling? || l.Dropout?
    requires Wired(l, inbound)
    ensures ToRealKerasLayer(l.(rank := r), inbound) == ToRealKerasLayer(l, inbound)
  {
  }
}
