# Stub layers of the autokeras search graph, in Dafny

This project models `autokeras/nn/layers.py`. That file describes neural-network layers as
framework-free *stub layers*: each stub records its kind, its hyperparameters and the graph node(s)
it reads from. The model covers four parts of it.

- **Shape algebra.** The `output_shape` of every stub class, as functions of the input shape that
  return `Success(shape)` or the Python exception raised (`IndexError` for `shape[-1]` of an empty
  shape or `input[0]` of an empty list, `ZeroDivisionError` for a zero stride or kernel size).
  Conv, Concatenate, Flatten and Pooling compute their shape with a loop in the source. Those loops
  are methods proved to compute the same functions.
- **Size algebra.** The `size()` parameter count of every kind. Lemmas relate it to the shapes of
  the arrays a real layer of that kind holds.
- **Classification and rank.** These cover `is_layer`, `layer_width`, the five `get_*_class` rank
  factories and their inverse `get_n_dim`. They also cover the Keras layer that
  `to_real_keras_layer` and `keras_dropout` choose, modelled as a description of the constructor
  call.
- **The weight bridge.** The `StubLayer` class holds the mutable `weights` slot. `TorchLayer` and
  `KerasLayer` are classes for the real layers whose fields or weight list the bridge reads and
  writes. The import/export methods and the four `set_*` helpers are proved against pure functions.
  Round-trip lemmas are proved about those functions.

Modules: `Wrappers` (Option, Result), `PyInt` (Python's truncating `int(a / b)` and list indexing),
`NdArrays` (weight arrays and numpy's `.T`), `Layers` (layer kinds, output shapes, sizes),
`Classify` (`is_layer`, `layer_width`, factories, `get_n_dim`), `KerasLayers` (Keras
materialization), `ShapeLoops` (loop forms of the shape getters) and `WeightBridge` (the stub and
real-layer classes).

Modelling choices:

- The 1d/2d/3d subclasses of Conv, BatchNormalization, Pooling, GlobalPooling and Dropout are one
  constructor each, with a `Rank` tag.
- `int(x / y)` in the Conv and Pooling getters is Python true division, then truncation toward
  zero. It is modelled as `PyInt.TruncDiv`, not as Dafny's Euclidean `/`. For a dimension smaller
  than the kernel by less than the stride, floor division would give 0 output positions; the code
  truncates and gives 1 (`Layers.ConvDimTruncatesTowardZero`).
- The factories index a three-element Python list with `n_dim - 1`. So 0, -1 and -2 wrap around to
  the 3d, 2d and 1d classes, and every other index outside 1..3 raises `IndexError`. The model keeps
  the wrap-around rather than requiring `1 <= n_dim <= 3`.
- `is_layer` returns `None` for a type name it does not know. The model returns `Option<bool>`,
  and `Classify.Truthy` is Python's truth test on the result.
- Export raises `TypeError` when the stub has no weights, because `None[0]` fails. It raises
  `IndexError` when the stub has too few weights. The Torch direction assigns fields one at a time,
  so an `IndexError` there comes after the earlier fields were already assigned. The model keeps
  that partial update.

## Model

| member | source | states |
|---|---|---|
| PyInt.TruncDiv | autokeras/nn/layers.py:164 | the magnitude of `int(a / b)` is the magnitude of `a` divided by that of `b`, rounded down |
| PyInt.TruncDivRoundsTowardZero | autokeras/nn/layers.py:164 | the remainder left by `int(a / b)` has the dividend's sign and is smaller than the divisor |
| PyInt.TruncDivIsNotFloor | autokeras/nn/layers.py:164 | `int(-1 / 2)` is 0, where floor division gives -1 |
| PyInt.PyListIndex | autokeras/nn/layers.py:461 | a list index succeeds exactly for `-len <= i < len`, and a negative index counts from the end |
| NdArrays.Transpose | autokeras/nn/layers.py:140 | `.T` reverses the shape and the index of every cell and keeps every value |
| NdArrays.TransposeInvolution | autokeras/nn/layers.py:139-143 | transposing twice gives back the original array |
| NdArrays.TransposeValid | autokeras/nn/layers.py:143 | a transposed well-formed array has all its cells inside its shape |
| Layers.NewConv | autokeras/nn/layers.py:153-158 | a convolution stores its hyperparameters, with stride 1 by default |
| Layers.NewPooling | autokeras/nn/layers.py:261-265 | a pooling layer's stride is the given stride when it is truthy, and the kernel size when it is absent or 0 (kernel default 2, padding 0) |
| Layers.ConvOutputShape | autokeras/nn/layers.py:160-166 | fails with ZeroDivisionError exactly when the stride is 0 and a spatial axis exists; otherwise the output keeps the rank (at least 1), each spatial entry `d` becomes `trunc((d - k) / s) + 1`, and the last entry is `filters` |
| Layers.ConvThenPoolExample | autokeras/nn/layers.py:160-273 | a 3x3, stride-1, 16-filter convolution maps `(32, 32, 3)` to `(30, 30, 16)`, and 2x2 pooling maps that to `(15, 15, 16)` |
| Layers.ConvDimCountsWindows | autokeras/nn/layers.py:164 | for a positive stride, an output dimension is the number of kernel windows, placed `stride` apart, that fit into the input dimension |
| Layers.ConvDimTruncatesTowardZero | autokeras/nn/layers.py:164 | an input dimension just below the kernel size still yields one output position |
| Layers.ConvOutputShapeKeepsLength | autokeras/nn/layers.py:160-166 | a convolution over a non-empty shape succeeds and keeps its length |
| Layers.PoolDim | autokeras/nn/layers.py:271 | a pooled dimension is at least 1 |
| Layers.PoolingOutputShape | autokeras/nn/layers.py:267-273 | fails exactly on an empty shape (IndexError) or a zero kernel with a spatial axis (ZeroDivisionError); otherwise keeps length and channel entry, and each spatial entry `d` becomes `max(trunc(d / k), 1)`, so at least 1 |
| Layers.PoolDimCountsWindows | autokeras/nn/layers.py:271 | a pooled dimension is the number of non-overlapping kernel windows that fit |
| Layers.PoolingIgnoresStrideAndPadding | autokeras/nn/layers.py:267-273 | the pooling output shape depends on neither rank, stride nor padding |
| Layers.GlobalPoolingOutputShape | autokeras/nn/layers.py:299-301 | the output is the channel entry alone, and an empty shape raises IndexError |
| Layers.ConcatenateOutputShape | autokeras/nn/layers.py:217-223 | fails with IndexError exactly for no inputs or an empty input shape; otherwise the output has the first input's length and its non-channel entries, and its channel entry is the sum of every input's channel entry |
| Layers.AddOutputShape | autokeras/nn/layers.py:230-232 | the output is the first input's shape, and an empty input list raises IndexError |
| Layers.OutputShape | autokeras/nn/layers.py:65-67 | the dispatch over all classes raises exactly for the Conv, Pooling, GlobalPooling, Concatenate and Add error cases above; the kinds inheriting the base getter return the input shape; Dense, Flatten and GlobalPooling return one entry (their values: `DenseIgnoresInput`, `FlattenCountsElements`, `GlobalPoolingOutputShape`) |
| Layers.ProductAppend | autokeras/nn/layers.py:241-243 | the running product over two concatenated shapes is the product of their products |
| Layers.FlattenCountsElements | autokeras/nn/layers.py:239-244 | flattening keeps the element count, and flattening a flat shape changes nothing |
| Layers.SumLastAppend | autokeras/nn/layers.py:219-221 | the running channel sum over two input lists is the sum of their sums |
| Layers.ConcatenateSingle | autokeras/nn/layers.py:217-223 | concatenating one input gives back its shape |
| Layers.ConcatenateFlattens | autokeras/nn/layers.py:217-223 | concatenating two concatenations' outputs equals concatenating all their inputs |
| Layers.IdentityKindsKeepShape | autokeras/nn/layers.py:65-67 | Input, BatchNormalization, Dropout, ReLU and Softmax output their input shape |
| Layers.DenseIgnoresInput | autokeras/nn/layers.py:135-137 | a dense layer outputs `(units,)` for every input shape |
| Layers.Size | autokeras/nn/layers.py:174-175 | only dense, convolution and batch-normalization layers have a non-zero size; a convolution's is `filters * (k * k + 1)` for every rank |
| Layers.SizeCountsParameters | autokeras/nn/layers.py:145-146 | a dense layer's size (and a batch normalization's `4 * num_features`, lines 106-107, and the 0 of other kinds, lines 62-63) is the element count of its weight arrays |
| Layers.ConvSizeIsSingleChannel2dCount | autokeras/nn/layers.py:174-175 | a convolution's size is the weight count of a single-channel 2-d convolution, and differs from the count otherwise (160 against 448) |
| Classify.FamilyName | autokeras/nn/layers.py:353-377 | every layer belongs to one of the recognised type names |
| Classify.IsLayer | autokeras/nn/layers.py:353-377 | None exactly for an unknown type name; otherwise true exactly when the layer's family has that name |
| Classify.IsLayerConvEveryRank | autokeras/nn/layers.py:356-357 | `is_layer(l, 'Conv')` holds for a convolution of each rank |
| Classify.LayerWidth | autokeras/nn/layers.py:380-385 | `units` for dense, `filters` for convolution, TypeError for all other kinds |
| Classify.GetConvClass | autokeras/nn/layers.py:459-461 | succeeds exactly for `-2 <= n <= 3`, with the convolution class of the wrapped rank; IndexError otherwise |
| Classify.GetDropoutClass | autokeras/nn/layers.py:464-466 | succeeds exactly for `-2 <= n <= 3`, with the dropout class of the wrapped rank; IndexError otherwise |
| Classify.GetGlobalAvgPoolingClass | autokeras/nn/layers.py:469-471 | succeeds exactly for `-2 <= n <= 3`, with the global pooling class of the wrapped rank; IndexError otherwise |
| Classify.GetPoolingClass | autokeras/nn/layers.py:474-476 | succeeds exactly for `-2 <= n <= 3`, with the pooling class of the wrapped rank; IndexError otherwise |
| Classify.GetBatchNormClass | autokeras/nn/layers.py:479-481 | succeeds exactly for `-2 <= n <= 3`, with the batch normalization class of the wrapped rank; IndexError otherwise |
| Classify.GetNDim | autokeras/nn/layers.py:484-491 | the rank of a layer of the five ranked families, -1 for every other kind |
| Classify.GetNDimInvertsFactories | autokeras/nn/layers.py:459-491 | a layer of any class a factory builds for `n` has `get_n_dim` equal to `n` for `n` in 1..3, and to the wrapped rank otherwise |
| KerasLayers.KerasDropoutFor | autokeras/nn/layers.py:403-412 | spatial dropout over `len(shape) - 1` axes exactly when the input shape has 2 to 4 entries, plain dropout otherwise, with the rate kept |
| KerasLayers.ToRealKerasLayer | autokeras/nn/layers.py:415-440 | an input layer has no Keras layer; convolution, pooling and global pooling of every rank become the 2-d Keras layers, the convolution with `padding='same'`, and pooling has pool size 2 |
| KerasLayers.KerasLayerIgnoresRank | autokeras/nn/layers.py:415-440 | the Keras layer chosen never depends on the stub's rank |
| ShapeLoops.ConvOutputShapeLoop | autokeras/nn/layers.py:160-166 | the in-place rewriting loop computes `Layers.ConvOutputShape`, including its ZeroDivisionError |
| ShapeLoops.ConcatenateOutputShapeLoop | autokeras/nn/layers.py:217-223 | the running-sum loop computes `Layers.ConcatenateOutputShape`, including its IndexErrors |
| ShapeLoops.FlattenOutputShapeLoop | autokeras/nn/layers.py:239-244 | the running-product loop yields the product of all input entries |
| ShapeLoops.PoolingOutputShapeLoop | autokeras/nn/layers.py:267-273 | the tuple-growing loop computes `Layers.PoolingOutputShape`, including its errors |
| WeightBridge.TorchImport | autokeras/nn/layers.py:74-98 | import reads weight and bias (and both running statistics for batch normalization) in that order, and does nothing for other kinds |
| WeightBridge.TorchExport | autokeras/nn/layers.py:80-104 | export raises exactly when a bridging stub lacks weights (TypeError, nothing assigned) or has too few (IndexError), after assigning `weight` when there is one array but leaving `bias` as it was; a non-bridging kind leaves the Torch layer as it was; it never touches the running statistics of a dense or convolution layer; and an export that succeeds imports back as the exported arrays |
| WeightBridge.KerasImport | autokeras/nn/layers.py:139-140 | import fails with IndexError exactly for a dense or convolution layer given fewer than two Keras arrays; batch normalization takes the Keras list as it is |
| WeightBridge.KerasExport | autokeras/nn/layers.py:142-143 | export raises exactly when a bridging stub has no weights (TypeError), or a dense or convolution stub has fewer than two (IndexError); batch normalization passes its weights unchanged |
| WeightBridge.KerasRoundTrip | autokeras/nn/layers.py:139-143 | a Keras export followed by an import restores `(W, b)` of a dense or convolution layer, and batch normalization's list |
| WeightBridge.TorchRoundTrip | autokeras/nn/layers.py:93-104 | a Torch export followed by an import restores the pair, or batch normalization's four arrays, without raising |
| WeightBridge.TorchToKerasTransposesKernel | autokeras/nn/layers.py:142-143 | a kernel imported from Torch reaches Keras transposed, with the bias unchanged |
| WeightBridge.StubLayer.constructor | autokeras/nn/layers.py:36-39 | a new stub has its inputs and no weights |
| WeightBridge.StubLayer.SetWeights | autokeras/nn/layers.py:44-45 | the stub's weight slot becomes the given value, `None` included |
| WeightBridge.StubLayer.GetWeights | autokeras/nn/layers.py:59-60 | returns the stub's weights |
| WeightBridge.StubLayer.OutputShape | autokeras/nn/layers.py:65-67 | each class's shape getter, its loops included, computes `Layers.OutputShape` |
| WeightBridge.StubLayer.ImportWeights | autokeras/nn/layers.py:93-98 | the stub's weights become `TorchImport` of the Torch layer's fields for the bridging kinds, and stay as they were otherwise |
| WeightBridge.StubLayer.ImportWeightsKeras | autokeras/nn/layers.py:77-78 | the stub's weights become `KerasImport` of the Keras weights, and stay as they were when it raises or does nothing |
| WeightBridge.StubLayer.ExportWeights | autokeras/nn/layers.py:100-104 | the Torch layer's fields and the exception raised are those of `TorchExport` |
| WeightBridge.StubLayer.ExportWeightsKeras | autokeras/nn/layers.py:84-85 | the Keras layer's weights become `KerasExport` of the stub's weights, and stay as they were when it raises or does nothing |
| WeightBridge.SetTorchWeightToStub | autokeras/nn/layers.py:443-444 | as the stub's Torch import |
| WeightBridge.SetKerasWeightToStub | autokeras/nn/layers.py:447-448 | as the stub's Keras import |
| WeightBridge.SetStubWeightToTorch | autokeras/nn/layers.py:451-452 | as the stub's Torch export |
| WeightBridge.SetStubWeightToKeras | autokeras/nn/layers.py:455-456 | as the stub's Keras export |
| WeightBridge.SetThenGet | autokeras/nn/layers.py:39-60 | a fresh stub has no weights, and reading after a set gives what was set |
| WeightBridge.KerasExportThenImport | autokeras/nn/layers.py:139-143 | exporting a stub to Keras and importing into a stub of the same kind copies the weights exactly |
| WeightBridge.TorchExportThenImport | autokeras/nn/layers.py:93-104 | exporting a stub to Torch and importing into a stub of the same kind copies the weights exactly, without an exception |

## Left out

- Forward passes (`GlobalAvgPool1d/2d/3d`, `TorchConcatenate`, `TorchAdd`, `TorchFlatten`) are tensor numerics inside Torch. They are not modelled.
- `to_real_layer` of every class is a call into a Torch constructor whose behaviour is not visible. It is not modelled. `to_real_keras_layer` is modelled only as the choice of Keras class and arguments. The Keras layers' own shape computations are not modelled: the Keras convolution pads (`padding='same'`) while `Layers.ConvOutputShape` does not, so the two output shapes differ.
- `Constant.POOLING_KERNEL_SIZE` is defined in `autokeras/constant.py`, which is not part of this model. It is only used by `to_real_layer`.
- `build()` does nothing, so it has no model.
- `.cpu().numpy()` and `torch.Tensor(...)` are conversions done by foreign code. They are the identity on the model's arrays. Numeric values are opaque reals, and float precision is not modelled.
- Dropout's `rate` is carried along but never computed with.
- The graph nodes a stub points at are reduced to their shapes. `output` nodes are not modelled, and neither is a stub whose `input` is still `None`.
- `int(x / y)` goes through a float in Python. The model uses exact truncating division, so it does not capture rounding for values beyond 2^53.
- Keras's own `set_weights` is a replacement of the weight list. Its length and shape checks are not modelled. It is modelled as raising TypeError when given `None`, as batch normalization's export does without weights, and the layer is left unchanged.
- WeightBridge.TorchLayer and WeightBridge.KerasLayer stand for Torch and Keras objects. They are not shared with other stubs, so aliasing between them is not modelled.
- Nothing in the file is concurrent. Concurrent import and export are not modelled.
