/**
 * The stub layer object and its weight bridge. A stub owns a mutable
 * `weights` slot, empty (None) until weights are set or imported. Weights
 * are imported from, and exported to, two kinds of real layer:
 *
 *  - a Torch layer, whose `weight`, `bias`, `running_mean` and
 *    `running_var` fields the bridge reads and assigns one by one;
 *  - a Keras layer, whose weights the bridge reads with `get_weights()` and
 *    replaces with `set_weights(...)`.
 *
 * Dense and convolution kernels are stored transposed in the Keras
 * direction; batch normalization carries four arrays in the Torch
 * direction. Conversions between Torch tensors and numpy arrays are the
 * identity on the model's arrays.
 */
module WeightBridge {
  import opened Wrappers
  import opened NdArrays
  import opened Layers
  import ShapeLoops

  type Weights = seq<NdArray>

  /** The layers that override the bridge (`StubWeightBiasLayer` and its subclasses); for all others it does nothing. */
  predicate WeightBias(l: Layer)
  {
    l.Dense? || l.Conv? || l.BatchNormalization?
  }

  /** How many arrays the Torch direction moves: weight and bias, plus the running statistics for batch normalization. */
  function TorchArrayCount(l: Layer): nat
  {
    if l.BatchNormalization? then 4 else if WeightBias(l) then 2 else 0
  }

  /** The four tensor fields of a Torch layer the bridge touches. */
  datatype TorchFields = TorchFields(weight: NdArray, bias: NdArray, runningMean: NdArray, runningVar: NdArray)

  // ---------------------------------------------------------------------
  // The bridge as functions of the weights moved
  // ---------------------------------------------------------------------

  /**
   * `import_weights(torch_layer)`: the weights a stub takes from a Torch
   * layer, None when the import does nothing.
   */
  function TorchImport(l: Layer, t: TorchFields): (r: Option<Weights>)
    ensures r.Some? <==> WeightBias(l)
    ensures r.Some? ==> |r.value| == TorchArrayCount(l) && r.value[0] == t.weight && r.value[1] == t.bias
    ensures r.Some? && l.BatchNormalization? ==> r.value[2] == t.runningMean && r.value[3] == t.runningVar
  {
    if l.BatchNormalization? then Some([t.weight, t.bias, t.runningMean, t.runningVar])
    else if WeightBias(l) then Some([t.weight, t.bias])
    else None
  }

  /**
   * `export_weights(torch_layer)`: the Torch layer's fields afterwards, and
   * the exception raised, if any. The fields are assigned in order from
   * `weights[0]`, `weights[1]`, ...; indexing a missing array raises
   * IndexError after the earlier fields were assigned, and an absent
   * payload raises TypeError before any is.
   */
  function TorchExport(l: Layer, weights: Option<Weights>, before: TorchFields): (r: (TorchFields, Option<Error>))
    ensures r.1.None? <==> !WeightBias(l) || (weights.Some? && |weights.value| >= TorchArrayCount(l))
    ensures weights.None? ==> r.0 == before
    ensures !WeightBias(l) ==> r.0 == before
    ensures WeightBias(l) && weights.None? ==> r.1 == Some(TypeError)
    ensures WeightBias(l) && weights.Some? && |weights.value| < TorchArrayCount(l) ==> r.1 == Some(IndexError)
    ensures !l.BatchNormalization? ==> r.0.runningMean == before.runningMean && r.0.runningVar == before.runningVar
    ensures WeightBias(l) && weights.Some? && |weights.value| >= 1 ==> r.0.weight == weights.value[0]
    ensures WeightBias(l) && weights.Some? && |weights.value| < 2 ==> r.0.bias == before.bias
    ensures WeightBias(l) && r.1.None? ==> TorchImport(l, r.0) == Some(weights.value[..TorchArrayCount(l)])
  {
    if !WeightBias(l) then (before, None)
    else if weights.None? then (before, Some(TypeError))
    else
      var ws := weights.value;
      var n := |ws|;
      var f1 := if n >= 1 then before.(weight := ws[0]) else before;
      var f2 := if n >= 2 then f1.(bias := ws[1]) else f1;
      if !l.BatchNormalization? then
        assert n >= 2 ==> ws[..2] == [ws[0], ws[1]];
        (f2, if n < 2 then Some(IndexError) else None)
      else
        var f3 := if n >= 3 then f2.(runningMean := ws[2]) else f2;
        var f4 := if n >= 4 then f3.(runningVar := ws[3]) else f3;
        assert n >= 4 ==> ws[..4] == [ws[0], ws[1], ws[2], ws[3]];
        (f4, if n < 4 then Some(IndexError) else None)
  }

  /**
   * `import_weights_keras(keras_layer)`: Success(None) when the import does
   * nothing; otherwise the stub's new weights, the kernel transposed back
   * for dense and convolution layers (IndexError if Keras holds fewer than
   * two arrays), the Keras list as it is for batch normalization.
   */
  function KerasImport(l: Layer, kerasWeights: Weights): (r: Result<Option<Weights>, Error>)
    ensures r.Failure? <==> (l.Dense? || l.Conv?) && |kerasWeights| < 2
    ensures r.Success? ==> (r.value.Some? <==> WeightBias(l))
    ensures l.BatchNormalization? ==> r == Success(Some(kerasWeights))
    ensures r.Failure? ==> r.error == IndexError
  {
    if l.Dense? || l.Conv? then
      if |kerasWeights| < 2 then Failure(IndexError)
      else Success(Some([Transpose(kerasWeights[0]), kerasWeights[1]]))
    else if l.BatchNormalization? then Success(Some(kerasWeights))
    else Success(None)
  }

  /**
   * `export_weights_keras(keras_layer)`: what `set_weights` is called with
   * (Success(None): not called), or the exception raised before the call.
   * Dense and convolution layers pass `(weights[0].T, weights[1])`, batch
   * normalization its weights unchanged.
   */
  function KerasExport(l: Layer, weights: Option<Weights>): (r: Result<Option<Weights>, Error>)
    ensures r.Failure? <==> WeightBias(l) && (weights.None? || ((l.Dense? || l.Conv?) && |weights.value| < 2))
    ensures r.Success? ==> (r.value.Some? <==> WeightBias(l))
    ensures l.BatchNormalization? && weights.Some? ==> r == Success(weights)
    ensures WeightBias(l) && weights.None? ==> r == Failure(TypeError)
    ensures WeightBias(l) && weights.Some? && r.Failure? ==> r.error == IndexError
  {
    if !WeightBias(l) then Success(None)
    else if weights.None? then Failure(TypeError)
    else if l.BatchNormalization? then Success(weights)
    else if |weights.value| < 2 then Failure(IndexError)
    else Success(Some([Transpose(weights.value[0]), weights.value[1]]))
  }

  /**
   * Exporting to Keras and importing back restores the weights: for dense
   * and convolution layers the kernel is transposed twice and the bias
   * passes untouched; batch normalization passes its list through both ways.
   */
  lemma KerasRoundTrip(l: Layer, ws: Weights)
    requires WeightBias(l)
    requires l.Dense? || l.Conv? ==> |ws| == 2
    ensures KerasExport(l, Some(ws)).Success?
    ensures KerasImport(l, KerasExport(l, Some(ws)).value.value) == Success(Some(ws))
  {
    if !l.BatchNormalization? {
      TransposeInvolution(ws[0]);
      assert [ws[0], ws[1]] == ws;
    }
  }

  /** Exporting to Torch and importing back restores the weights (2 arrays, or 4 for batch normalization). */
  lemma TorchRoundTrip(l: Layer, ws: Weights, before: TorchFields)
    requires WeightBias(l) && |ws| == TorchArrayCount(l)
    ensures TorchExport(l, Some(ws), before).1 == None
    ensures TorchImport(l, TorchExport(l, Some(ws), before).0) == Some(ws)
  {
    assert ws[..TorchArrayCount(l)] == ws;
  }

  /**
   * A kernel imported from Torch reaches Keras transposed, with the bias
   * as it was: the two frameworks store dense and convolution kernels in
   * opposite orientations.
   */
  lemma TorchToKerasTransposesKernel(l: Layer, t: TorchFields)
    requires l.Dense? || l.Conv?
    ensures KerasExport(l, TorchImport(l, t)) == Success(Some([Transpose(t.weight), t.bias]))
  {
  }

  // ---------------------------------------------------------------------
  // The real layers
  // ---------------------------------------------------------------------

  /** A Torch layer: its parameter tensors are fields the bridge assigns. */
  class TorchLayer {
    var weight: NdArray
    var bias: NdArray
    var runningMean: NdArray
    var runningVar: NdArray

    constructor (fields: TorchFields)
      ensures Fields() == fields
    {
      weight := fields.weight;
      bias := fields.bias;
      runningMean := fields.runningMean;
      runningVar := fields.runningVar;
    }

    function Fields(): TorchFields
      reads this
    {
      TorchFields(weight, bias, runningMean, runningVar)
    }
  }

  /** A Keras layer: its weights are read and replaced as one list. */
  class KerasLayer {
    var weights: Weights

    constructor (weights: Weights)
      ensures this.weights == weights
    {
      this.weights := weights;
    }

    method GetWeights() returns (ws: Weights)
      ensures ws == weights
    {
      ws := weights;
    }

    method SetWeights(ws: Weights)
      modifies this
      ensures weights == ws
    {
      weights := ws;
    }
  }

  // ---------------------------------------------------------------------
  // The stub layer
  // ---------------------------------------------------------------------

  /** A stub layer object: its kind and hyperparameters, its input node(s), and its weight slot. */
  class StubLayer {
    const layer: Layer
    const input: Inbound
    var weights: Option<Weights>

    /** A new stub has no weights. */
    constructor (layer: Layer, input: Inbound)
      ensures this.layer == layer && this.input == input
      ensures weights == None
    {
      this.layer := layer;
      this.input := input;
      weights := None;
    }

    method SetWeights(ws: Option<Weights>)
      modifies this`weights
      ensures weights == ws
    {
      weights := ws;
    }

    method GetWeights() returns (ws: Option<Weights>)
      ensures ws == weights
    {
      ws := weights;
    }

    /** The `output_shape` property, computed with the same loops the stub classes use. */
    method OutputShape() returns (r: Result<Shape, Error>)
      requires Wired(layer, input)
      ensures r == Layers.OutputShape(layer, input)
    {
      match layer
      case Conv(_, _, filters, kernelSize, stride) =>
        r := ShapeLoops.ConvOutputShapeLoop(input.shape, kernelSize, stride, filters);
      case Pooling(_, kernelSize, _, _) =>
        r := ShapeLoops.PoolingOutputShapeLoop(input.shape, kernelSize);
      case Concatenate =>
        r := ShapeLoops.ConcatenateOutputShapeLoop(input.shapes);
      case Flatten =>
        var s := ShapeLoops.FlattenOutputShapeLoop(input.shape);
        r := Success(s);
      case _ =>
        r := Layers.OutputShape(layer, input);
    }

    /** `import_weights(torch_layer)`. */
    method ImportWeights(t: TorchLayer)
      modifies this`weights
      ensures weights == if WeightBias(layer) then TorchImport(layer, t.Fields()) else old(weights)
    {
      if layer.BatchNormalization? {
        SetWeights(Some([t.weight, t.bias, t.runningMean, t.runningVar]));
      } else if WeightBias(layer) {
        SetWeights(Some([t.weight, t.bias]));
      }
    }

    /** `import_weights_keras(keras_layer)`; on an exception the weights are left as they were. */
    method ImportWeightsKeras(k: KerasLayer) returns (err: Option<Error>)
      modifies this`weights
      ensures match KerasImport(layer, old(k.weights))
        case Failure(e) => err == Some(e) && weights == old(weights)
        case Success(None) => err == None && weights == old(weights)
        case Success(Some(ws)) => err == None && weights == Some(ws)
    {
      err := None;
      if layer.Dense? || layer.Conv? {
        var kw := k.GetWeights();
        if |kw| < 2 {
          return Some(IndexError);
        }
        SetWeights(Some([Transpose(kw[0]), kw[1]]));
      } else if layer.BatchNormalization? {
        var kw := k.GetWeights();
        SetWeights(Some(kw));
      }
    }

    /**
     * `export_weights(torch_layer)`: assigns the Torch layer's fields in
     * order and stops at the first exception; nothing else changes.
     */
    method ExportWeights(t: TorchLayer) returns (err: Option<Error>)
      modifies t
      ensures (t.Fields(), err) == TorchExport(layer, weights, old(t.Fields()))
    {
      err := None;
      if !WeightBias(layer) {
        return;
      }
      if weights.None? {
        return Some(TypeError);
      }
      var ws := weights.value;
      if |ws| < 1 {
        return Some(IndexError);
      }
      t.weight := ws[0];
      if |ws| < 2 {
        return Some(IndexError);
      }
      t.bias := ws[1];
      if layer.BatchNormalization? {
        if |ws| < 3 {
          return Some(IndexError);
        }
        t.runningMean := ws[2];
        if |ws| < 4 {
          return Some(IndexError);
        }
        t.runningVar := ws[3];
      }
    }

    /** `export_weights_keras(keras_layer)`: one `set_weights` call, or none when an exception comes first. */
    method ExportWeightsKeras(k: KerasLayer) returns (err: Option<Error>)
      modifies k
      ensures match KerasExport(layer, weights)
        case Failure(e) => err == Some(e) && k.weights == old(k.weights)
        case Success(None) => err == None && k.weights == old(k.weights)
        case Success(Some(ws)) => err == None && k.weights == ws
    {
      err := None;
      if !WeightBias(layer) {
        return;
      }
      if weights.None? {
        return Some(TypeError);
      }
      var ws := weights.value;
      if layer.BatchNormalization? {
        k.SetWeights(ws);
      } else if |ws| < 2 {
        return Some(IndexError);
      } else {
        k.SetWeights([Transpose(ws[0]), ws[1]]);
      }
    }
  }

  // ---------------------------------------------------------------------
  // The module-level helpers and what callers can rely on
  // ---------------------------------------------------------------------

  /** `set_torch_weight_to_stub(torch_layer, stub_layer)`. */
  method SetTorchWeightToStub(t: TorchLayer, stub: StubLayer)
    modifies stub`weights
    ensures stub.weights == if WeightBias(stub.layer) then TorchImport(stub.layer, t.Fields()) else old(stub.weights)
  {
    stub.ImportWeights(t);
  }

  /** `set_keras_weight_to_stub(keras_layer, stub_layer)`. */
  method SetKerasWeightToStub(k: KerasLayer, stub: StubLayer) returns (err: Option<Error>)
    modifies stub`weights
    ensures match KerasImport(stub.layer, old(k.weights))
      case Failure(e) => err == Some(e) && stub.weights == old(stub.weights)
      case Success(None) => err == None && stub.weights == old(stub.weights)
      case Success(Some(ws)) => err == None && stub.weights == Some(ws)
  {
    err := stub.ImportWeightsKeras(k);
  }

  /** `set_stub_weight_to_torch(stub_layer, torch_layer)`. */
  method SetStubWeightToTorch(stub: StubLayer, t: TorchLayer) returns (err: Option<Error>)
    modifies t
    ensures (t.Fields(), err) == TorchExport(stub.layer, stub.weights, old(t.Fields()))
  {
    err := stub.ExportWeights(t);
  }

  /** `set_stub_weight_to_keras(stub_layer, keras_layer)`. */
  method SetStubWeightToKeras(stub: StubLayer, k: KerasLayer) returns (err: Option<Error>)
    modifies k
    ensures match KerasExport(stub.layer, stub.weights)
      case Failure(e) => err == Some(e) && k.weights == old(k.weights)
      case Success(None) => err == None && k.weights == old(k.weights)
      case Success(Some(ws)) => err == None && k.weights == ws
  {
    err := stub.ExportWeightsKeras(k);
  }

  /** A fresh stub has no weights, and reading them back after setting them gives what was set. */
  method SetThenGet(l: Layer, input: Inbound, ws: Weights) returns (initially: Option<Weights>, afterwards: Option<Weights>)
    ensures initially == None
    ensures afterwards == Some(ws)
  {
    var stub := new StubLayer(l, input);
    initially := stub.GetWeights();
    stub.SetWeights(Some(ws));
    afterwards := stub.GetWeights();
  }

  /**
   * Exporting a stub's weights to a Keras layer and importing them into a
   * stub of the same kind gives that stub the original weights.
   */
  method KerasExportThenImport(source: StubLayer, k: KerasLayer, target: StubLayer)
    requires target.layer == source.layer && WeightBias(source.layer)
    requires source.weights.Some?
    requires source.layer.Dense? || source.layer.Conv? ==> |source.weights.value| == 2
    modifies k, target`weights
    ensures target.weights == old(source.weights)
  {
    KerasRoundTrip(source.layer, source.weights.value);
    var e1 := SetStubWeightToKeras(source, k);
    var e2 := SetKerasWeightToStub(k, target);
  }

  /**
   * Exporting a stub's weights to a Torch layer and importing them into a
   * stub of the same kind gives that stub the original weights; the export
   * raises nothing.
   */
  method TorchExportThenImport(source: StubLayer, t: TorchLayer, target: StubLayer) returns (err: Option<Error>)
    requires target.layer == source.layer && WeightBias(source.layer)
    requires source.weights.Some? && |source.weights.value| == TorchArrayCount(source.layer)
    modifies t, target`weights
    ensures err == None
    ensures target.weights == old(source.weights)
  {
    TorchRoundTrip(source.layer, source.weights.value, t.Fields());
    err := SetStubWeightToTorch(source, t);
    SetTorchWeightToStub(t, target);
  }
}
