# LiteCNN-Pro inference core in Dafny

This project models the inference core of LiteCNN-Pro. LiteCNN-Pro is a small convolutional
image classifier (a stem, seven depthwise-separable blocks with squeeze-and-excitation, and a
two-layer classifier) that runs in plain C++. The model covers:

- the tensor type and its accessors (`include/tensor.h`);
- the binary weight container, both the writer (`extract_weights.py`) and the loader
  (`WeightLoader::load`, `src/tensor.cpp`);
- the numeric layers: convolution, batch normalisation, adaptive average pooling and fully
  connected (`src/layers.cpp`), plus the inline element-wise helpers of `include/layers.h`;
- the network itself: loading weights by name, the squeeze-and-excitation block, the
  depthwise-separable block and the forward pass (`src/model.cpp`);
- the server's image normalisation loop and the top-5 response builder (`src/server.cpp`).

A `Tensor` is a value, `Tensor(shape, data)`, with a flat row-major buffer of reals. Each
kernel is a method that fills a fresh buffer in the source's loop order. Each kernel is proved
equal to a specification function that gives every output element directly. The network is a
class holding the weight map. Its graph is a family of functions that return
`Result<Tensor>`. A missing weight gives `Failure("Weight not found: " + name)`, as the
source's exception does, and a shape the source would index out of bounds gives a failure as
well. `sqrt` and `exp` are fields of a `Math` value (`Numerics.Math`). The proofs assume only
what each lemma states about them, such as "exp is positive" or "exp is monotone".

Modules and files:

| file | module | models |
|---|---|---|
| wrappers.dfy | Wrappers | Option / Result |
| arith.dfy | Arith | integer helpers; C++ truncating division |
| numerics.dfy | Numerics | `Math` (sqrt, exp), division, min/max |
| tensors.dfy | Tensors | `include/tensor.h` |
| container.dfy | Container | `extract_weights.py` writer, `WeightLoader::load` |
| convolution.dfy | Convolution | `conv2d` |
| normalization.dfy | Normalization | `batchnorm2d` |
| pooling.dfy | Pooling | `adaptive_avg_pool2d` |
| dense.dfy | Dense | `linear` |
| elementwise.dfy | Elementwise | `relu6_inplace`, `sigmoid_inplace`, `multiply`, `reshape` |
| model.dfy | Model | `LiteCNNPro` |
| server.dfy | Server | `preprocess_image` normalisation, `create_response` |

## Model

| member | source | states |
|---|---|---|
| Tensors.Size | include/tensor.h:26-30 | the element count is the product of the shape; the empty shape has count 1 |
| Tensors.NewTensor | include/tensor.h:17-21 | the shape constructor keeps the shape, allocates exactly product(shape) elements and zero-fills them |
| Tensors.ShapeDataConstructorUnchecked | include/tensor.h:23-24 | the (shape, data) constructor stores both unchanged; the result is well formed exactly when the data length equals the product of the shape |
| Tensors.EmptyTensorInvalid | include/tensor.h:15 | the default tensor has an empty shape (count 1) and no data, so it is not well formed |
| Tensors.AtInBounds | include/tensor.h:36-44 | for a well-formed 4-D tensor, every in-range (n, c, h, w) gives an index inside the buffer |
| Tensors.DecodeOffset | include/tensor.h:37 | the row-major index of at() can be decoded back to its (n, c, h, w) |
| Tensors.OffsetInjective | include/tensor.h:37 | two different in-range coordinates never share a buffer index |
| Tensors.Decode | include/tensor.h:37 | every flat index is the row-major index of a unique in-range coordinate |
| Container.Truncated | extract_weights.py:39 | a name is cut to its first 256 bytes, and one of 256 bytes or fewer is kept whole |
| Container.ExtractWeights | extract_weights.py:27-54 | the writer loop emits exactly the container encoding: magic "LCNN", version 1, the count, then each entry's name length, name, rank, dimensions and data, as 32-bit little-endian words |
| Container.WriteEntry | extract_weights.py:38-54 | one loop iteration appends exactly the encoding of that parameter |
| Container.WriteDims | extract_weights.py:47-50 | the dimension loop appends one word per dimension, in order |
| Container.EncodedLength | extract_weights.py:27-54 | the file holds a 12-byte header plus, per entry, three words, the name bytes, one word per dimension and one per element |
| Container.Encode | extract_weights.py:27-54 | the whole file the writer produces: the 12-byte header (magic, version 1, count) and then every entry in state-dict order; its properties are ExtractWeights (the loop emits exactly this), EncodedLength and ParseEncode (the loader reads it back) |
| Container.ReadWordBytes | extract_weights.py:30 | a word written with `struct.pack('I', ...)` reads back as the same word |
| Container.ReadEncodedWords | src/tensor.cpp:45-50 | a run of written dimension words reads back unchanged |
| Container.CStringIsPrefix | src/tensor.cpp:36-39 | the name built from the buffer is its prefix up to the first zero byte |
| Container.CStringWhole | src/tensor.cpp:36-39 | a name without zero bytes is kept whole |
| Container.Parse | src/tensor.cpp:13-27 | a wrong magic fails with "Invalid magic number"; a success means the stream starts with the magic and yields exactly the declared number of entries |
| Container.ParseEncode | src/tensor.cpp:5-75 | loading what the writer wrote gives back every parameter, in order, with its (truncated) name, shape and data; any trailing bytes are left over |
| Container.ParseEncodedEntry | src/tensor.cpp:31-60 | one written entry is read back as that parameter |
| Container.ParseEntry | src/tensor.cpp:31-60 | the entry grammar the loader's loop body follows: name length, that many name bytes cut at the first zero byte, rank, dimensions, then product(dims) data words; a read data block always holds product(shape) elements and every successful read consumes input |
| Container.NameRoundTrip | src/tensor.cpp:33-39 | a name of at most 256 bytes with no zero byte survives the round trip exactly |
| Container.LongNameTruncated | extract_weights.py:39 | a longer name comes back as its first 256 bytes |
| Container.ReadEntry | src/tensor.cpp:31-60 | the loop body reads one entry by the entry grammar: name length, name, rank, dimensions, product(shape) data words |
| Container.ReadTensor | src/tensor.cpp:41-57 | the shape and data part of one entry, with the element count equal to the product of the dimensions |
| Container.Load | src/tensor.cpp:5-75 | succeeds exactly when the file opened and parses (a stream that ends early fails here, where the source returns true); on success the parsed entries are appended in order to the existing weights; those already present are always kept; a missing file or a bad magic appends nothing |
| Container.LoadEntries | src/tensor.cpp:31-72 | the entry loop appends the decoded entries in order and succeeds exactly when every declared entry can be read (a stream that ends early fails here, where the source returns true) |
| Convolution.Conv2d | src/layers.cpp:6-64 | the output tensor is the convolution specification: shape [N, Cout, Hout, Wout] and every element computed as below |
| Convolution.Conv2dSpec | src/layers.cpp:20-23 | the output is well formed, with spatial sizes (H + 2·padding − K) / stride + 1 rounded toward zero |
| Convolution.Conv2dSpecAt | src/layers.cpp:29-61 | each written output element is the sum over its group's input channels and kernel taps, with out-of-range input positions contributing nothing |
| Convolution.Conv2dSpecAllWritten | src/layers.cpp:29-61 | when Cout is a multiple of groups, every output channel is such a window sum |
| Convolution.Conv2dSpecUnwritten | src/layers.cpp:31-32 | output channels past groups·(Cout/groups) keep their zero |
| Convolution.TapInBounds | src/layers.cpp:42-52 | every tap the bounds check admits reads inside the input and the weight buffers, within its own group's channels |
| Convolution.ConvGroupLocal | src/layers.cpp:31-56 | an output element depends only on its own batch item's input channels of its own group |
| Normalization.BatchNorm2d | src/layers.cpp:67-96 | the output equals the batch-norm specification; eps defaults to 1e-5 |
| Normalization.BatchNormAt | src/layers.cpp:80-92 | each element becomes (x − mean[c]) · weight[c] / sqrt(var[c] + eps) + bias[c] for its own channel c |
| Normalization.BatchNormIdentity | src/layers.cpp:84-89 | with zero mean, unit scale, zero bias and unit denominator the layer is the identity |
| Pooling.CellOrdered | src/layers.cpp:111-114 | each pooling cell starts no later than it ends, and ends where the next one starts |
| Pooling.CellBounds | src/layers.cpp:111-114 | the cells start at 0, the last ends at the input size, and none passes it |
| Pooling.CellNonEmpty | src/layers.cpp:111-114 | when the output is no larger than the input, no cell is empty |
| Pooling.CellsDisjoint | src/layers.cpp:111-114 | distinct cells do not overlap |
| Pooling.CellsTile | src/layers.cpp:111-114 | every input position lies in exactly one cell |
| Pooling.AdaptiveAvgPool2d | src/layers.cpp:99-134 | the output equals the pooling specification, of shape [N, C, outH, outW] |
| Pooling.AdaptiveAvgPool2dSpecAt | src/layers.cpp:116-129 | each output element is the mean of its cell of the input plane |
| Pooling.GlobalAveragePool | src/layers.cpp:99-134 | with a 1×1 output, each element is the mean of the whole H×W plane |
| Pooling.CellAverage | src/layers.cpp:117-127 | the inner loops sum the cell and divide by its area |
| Dense.Linear | src/layers.cpp:137-165 | the output equals the linear specification of shape [N, out_features]; bias defaults to none |
| Dense.LinearSpecAt | src/layers.cpp:148-161 | element (n, o) is the dot product of input row n with weight row o, plus bias[o] when a bias is given |
| Dense.LinearElement | src/layers.cpp:150-158 | the inner loop accumulates exactly that dot product and adds the bias |
| Dense.LinearRowLocal | src/layers.cpp:148-161 | output row n depends only on input row n |
| Elementwise.Relu6 | include/layers.h:18 | the result lies in [0, 6]: values inside are kept, negative values become 0, and values above 6 become 6 |
| Elementwise.Relu6All | include/layers.h:16-20 | every element is clamped into [0, 6] and those already inside are kept |
| Elementwise.Relu6InPlace | include/layers.h:16-20 | the tensor keeps its shape and every element is clamped independently |
| Elementwise.Relu6Idempotent | include/layers.h:16-20 | clamping twice equals clamping once |
| Elementwise.Relu6FixesRange | include/layers.h:16-20 | a buffer already in [0, 6] is unchanged |
| Elementwise.Sigmoid | include/layers.h:31 | with exp non-negative the result is in (0, 1]; with exp positive it is below 1 |
| Elementwise.SigmoidComplement | include/layers.h:31 | sigmoid(v) + sigmoid(−v) = 1 when exp(v)·exp(−v) = 1 |
| Elementwise.SigmoidAll | include/layers.h:29-33 | each element is mapped on its own |
| Elementwise.SigmoidAllBounds | include/layers.h:29-33 | with exp positive every result lies in (0, 1) |
| Elementwise.SigmoidInPlace | include/layers.h:29-33 | the tensor keeps its shape and every element is replaced by its sigmoid |
| Elementwise.Multiply | include/layers.h:36-42 | the result has a's shape and element i equals a[i]·b[i]; b must be at least as long as a |
| Elementwise.ReshapeValidIff | include/layers.h:45-50 | reshape checks nothing: the result is well formed exactly when the new shape's count equals the data length |
| Elementwise.ReshapeRoundTrip | include/layers.h:45-50 | reshaping back to the original shape gives the original tensor |
| Elementwise.ReshapeAcceptsWrongCount | include/layers.h:45-50 | a reshape to a wrong count is accepted and yields an ill-formed tensor |
| Elementwise.Reshape | include/layers.h:45-50 | the definition takes the new shape and keeps the data untouched, with no check; ReshapeValidIff, ReshapeRoundTrip and ReshapeAcceptsWrongCount state what that means |
| Model.Canonical | src/model.cpp:15-19 | the stored name is either the name itself or the name with its "_orig_mod." prefix removed |
| Model.CanonicalStrips | src/model.cpp:15-19 | a prefixed name loses exactly the prefix |
| Model.CanonicalKeeps | src/model.cpp:15-19 | a name without the prefix is kept |
| Model.InstallKeys | src/model.cpp:13-21 | after loading, the map's keys are the old keys plus the cleaned name of every loaded entry |
| Model.InstallLastWins | src/model.cpp:20 | when two entries clean to the same name, the later one's tensor is stored |
| Model.InstallUntouched | src/model.cpp:13-21 | weights whose name no entry cleans to keep their old tensor |
| Model.Install | src/model.cpp:13-21 | the definition is the insertion loop of load_weights: each loaded entry in order is stored under its cleaned name, a later one overwriting an earlier one; InstallKeys, InstallLastWins and InstallUntouched prove what the resulting map holds |
| Model.LiteCNNPro.constructor | src/model.cpp:4 | a new network has no weights |
| Model.LiteCNNPro.LoadWeights | src/model.cpp:6-25 | returns true exactly when the container loads (a stream that ends early fails here, where the source returns true); on failure the map is unchanged; on success every entry is stored under its cleaned name, in order, over the old map |
| Model.Lookup | src/model.cpp:27-33 | succeeds exactly when the name is present, returning its tensor; otherwise fails with "Weight not found: " + name |
| Model.LiteCNNPro.GetWeight | src/model.cpp:27-33 | get_weight is that lookup on the network's weight map |
| Model.LiteCNNPro.HasWeight | src/model.cpp:35-37 | true exactly when the name is in the map |
| Model.HasIffGet | src/model.cpp:27-37 | has_weight holds exactly when get_weight does not fail |
| Model.LiteCNNPro.SeBlock | src/model.cpp:39-76 | the method equals the squeeze-and-excitation specification: pool, flatten, linear, ReLU6, linear, sigmoid, then channel-wise scaling |
| Model.SeBlockSpec | src/model.cpp:39-76 | a successful SE block keeps the input's shape |
| Model.BroadcastScale | src/model.cpp:63-73 | the broadcast loop scales every element of channel (n, c) by scale[n·C + c] |
| Model.BroadcastAt | src/model.cpp:66-69 | element (n, c, h, w) becomes x(n, c, h, w)·scale[n·C + c] |
| Model.BroadcastOnes | src/model.cpp:63-73 | a unit scale leaves the tensor unchanged |
| Model.Broadcast | src/model.cpp:63-73 | the SE multiply keeps the shape and the buffer length; BroadcastAt gives each element as x(n, c, h, w)·scale[n·C + c] and BroadcastOnes shows a unit scale is the identity |
| Model.Conv | src/layers.cpp:6-64 | the graph's convolution succeeds exactly when the shapes are admissible, and then equals the conv2d specification |
| Model.BatchNorm | src/model.cpp:85-89 | a successful batch norm keeps the shape |
| Model.BlockNeeds | src/model.cpp:78-110 | a successful depthwise-separable block has found its depthwise, pointwise, both batch norms' and (when enabled) the SE block's weights |
| Model.BlockLocal | src/model.cpp:78-110 | the block depends only on those weights |
| Model.BlockBatch | src/model.cpp:78-110 | the block keeps the batch size and outputs as many channels as the pointwise kernel has |
| Model.BlockSpatial | src/model.cpp:81-94 | with 3×3 depthwise and 1×1 pointwise kernels, each spatial size becomes the output size of a 3×3, padding-1 convolution at the block's stride, as the pointwise 1×1 convolution keeps it |
| Model.DepthwiseSeparableConv | src/model.cpp:78-110 | the definition gives the block: depthwise convolution (stride, padding 1, one group per channel), bn1, ReLU6, pointwise 1×1 convolution, bn2, ReLU6, then the SE block when enabled; a missing weight fails with its name; BlockNeeds, BlockLocal, BlockBatch and BlockSpatial prove its properties |
| Model.SeBlockNeeds | src/model.cpp:50-57 | a successful SE block has found both excitation weights |
| Model.SeBlockLocal | src/model.cpp:50-57 | the SE block depends only on those two weights |
| Model.BatchNormNeeds | src/model.cpp:85-89 | a successful batch norm has found its four tensors |
| Model.BatchNormLocal | src/model.cpp:85-89 | it depends only on them |
| Model.BlocksNeeds | src/model.cpp:123-129 | running the remaining feature blocks needs every one of their weights |
| Model.BlocksLocal | src/model.cpp:123-129 | it depends only on them |
| Model.BlocksBatch | src/model.cpp:123-129 | the feature blocks keep the batch size |
| Model.BlocksSpatial | src/model.cpp:123-129 | with the standard kernels, the spatial size follows the stride table 2, 1, 2, 1, 2, 1, 2 |
| Model.Blocks | src/model.cpp:123-129 | the definition runs features.k to features.6 in order with strides 2, 1, 2, 1, 2, 1, 2 and SE enabled, stopping at the first failure; BlocksNeeds, BlocksLocal, BlocksBatch and BlocksSpatial prove its properties |
| Model.StemNeeds | src/model.cpp:114-120 | a successful stem has found its convolution and batch-norm weights |
| Model.StemLocal | src/model.cpp:114-120 | the stem depends only on them |
| Model.Stem | src/model.cpp:114-120 | the definition gives the stem: stem.0 convolution with stride 2, padding 1 and one group, stem.1 batch norm, ReLU6; StemNeeds and StemLocal prove its properties |
| Model.HeadNeeds | src/model.cpp:132-145 | a successful classifier has found both layers' weights and biases |
| Model.HeadLocal | src/model.cpp:132-145 | the classifier depends only on them |
| Model.HeadShape | src/model.cpp:132-145 | a successful head outputs [N, classes], where classes is the row count of classifier.5.weight |
| Model.Head | src/model.cpp:131-147 | the definition gives the head: 1×1 global average pooling, flatten to [N, C], classifier.2 with its bias, ReLU6, classifier.5 with its bias, looking up each bias before its weight; HeadNeeds, HeadLocal and HeadShape prove its properties |
| Model.ForwardNeeds | src/model.cpp:112-148 | a successful forward pass has found every one of the network's named weights |
| Model.ForwardLocal | src/model.cpp:112-148 | the forward pass depends only on those weights: maps that agree on them give the same result |
| Model.ForwardShape | src/model.cpp:112-148 | a successful forward pass outputs one row of classifier.5.weight's length per input image |
| Model.Forward | src/model.cpp:112-148 | the definition is Features followed by Head; ForwardNeeds, ForwardLocal, ForwardShape and Features224 prove its properties |
| Model.FeaturesSpatial | src/model.cpp:114-129 | the feature map's spatial size is the stem's stride-2 reduction followed by the block strides |
| Model.Features224 | src/model.cpp:114-129 | with the standard kernels, a 224×224 input gives a 7×7 feature map and keeps its batch size |
| Model.Features | src/model.cpp:114-129 | the definition is the stem followed by the seven blocks; FeaturesSpatial and Features224 prove its output sizes |
| Model.SpatialAlong | src/model.cpp:123-129 | the block strides applied to a size follow any chain of sizes that agrees with the stride table step by step |
| Server.Normalize | src/server.cpp:89-90 | the normalised value maps back to the byte through v·std[c] + mean[c] = byte/255, and lies in [−mean/std, (1 − mean)/std] |
| Server.LoopIndices | src/server.cpp:83-87 | for every loop (c, h, w), both indices are in range; the destination is the [1, 3, 224, 224] position (0, c, h, w) and the source is the interleaved RGB position |
| Server.LayoutBijection | src/server.cpp:86-87 | the HWC-to-CHW index map is a bijection of the 3·224·224 positions |
| Server.Preprocessed | src/server.cpp:77 | the result has shape [1, 3, 224, 224] and is well formed |
| Server.PreprocessedAt | src/server.cpp:83-93 | element (0, c, h, w) is channel c of pixel (h, w) of the resized image, normalised with channel c's mean and std |
| Server.PreprocessedRecovers | src/server.cpp:83-93 | every byte of the resized image can be recovered from the tensor |
| Server.PreprocessedInjective | src/server.cpp:83-93 | different images give different tensors |
| Server.InferenceServer.PreprocessImage | src/server.cpp:76-95 | the loop nest builds exactly that tensor |
| Server.ScoresOf | src/server.cpp:100-103 | the score list pairs each logit with its own index |
| Server.RankScores | src/server.cpp:100-106 | the scores vector built in index order and then partially sorted: a permutation of (logit i, i) for every class whose first five are non-increasing and at least every later score |
| Server.PermutedScores | src/server.cpp:105-106 | any rearrangement of the scores still pairs each class with its own logit, has distinct ids and contains every class |
| Server.PartialSort | src/server.cpp:105-106 | the partial sort keeps the scores as a permutation and leaves the first five in non-increasing order, each at least every later score |
| Server.TopFiveOfSorted | src/server.cpp:105-125 | after the partial sort, the first five ids are distinct valid classes, in non-increasing order of logit, and no other class has a larger logit than the fifth |
| Server.TopFirstIsMax | src/server.cpp:109 | the first selected logit is the maximum of all logits |
| Server.TopFiveLogitsUnique | src/server.cpp:105-106 | any two valid top-5 selections have the same five logits in the same order, whatever the order of tied classes |
| Server.ResponseIgnoresTies | src/server.cpp:105-125 | so the reported probabilities do not depend on how ties are broken |
| Server.ExponentsNonPositive | src/server.cpp:109-114 | every exponent is at most 0, because the first selected logit is the largest |
| Server.SoftmaxDistribution | src/server.cpp:109-124 | with exp positive, each probability lies in (0, 1] and the five sum to 1 |
| Server.SoftmaxOrdered | src/server.cpp:109-124 | with exp monotone, the probabilities are non-increasing like the logits |
| Server.Softmax | src/server.cpp:109-124 | the probabilities, one per selected logit: exp(v − first) divided by the sum of those exponentials; SoftmaxDistribution and SoftmaxOrdered prove they form an ordered distribution |
| Server.ShiftedExps | src/server.cpp:113-117 | the loop collects exp(logit − max) for the five scores and their sum |
| Server.InferenceServer.CreateResponse | src/server.cpp:98-142 | exactly five predictions: a valid top-5 of the logits, whose scores are the softmax of the selected logits, each carrying the breed names exactly when its class is in the breed table |
| Server.InferenceServer.constructor | include/server.h:21 | the server holds the given breed table |

## Left out

- File, console and network I/O (`std::ifstream` opening, `std::cout`/`std::cerr` logging, the HTTP server, JSON text): a missing file is an `Option` input; the response is the list of predictions before it becomes JSON.
- Image decoding and resizing (stb): `preprocess_image` takes the already resized 224×224×3 byte buffer; a decode failure is not modelled.
- `load_breeds` and the breed file: the breed table is a constructor parameter of `InferenceServer`.
- The Metal / PyTorch paths, `main.cpp` and `server_mps_configurable.cpp` are not part of this model.
- Floating point: tensors hold exact reals, so rounding, NaN and infinity are not modelled; `float` bit patterns in the container are words that the loader turns into reals through a `float` parameter.
- sqrt and exp are parameters (`Numerics.Math`); the lemmas state the facts about them they rely on.
- Division by zero (an empty pooling cell, a zero batch-norm denominator, a zero softmax sum) yields 0 in the model, where the source yields infinity or NaN.
- The constants 0.485f, 0.229f and so on are taken as exact decimals.
- Integer width: `int` and `size_t` wrap-around, `static_cast<int>` of a dimension of 2^31 or more, and `name_len + 1` overflow are not modelled; dimensions and counts are unbounded naturals.
- Container.WordBytes: a word is the low 32 bits of the value, little-endian, as `struct.pack('I', ...)` writes it on the little-endian machines the format targets.
- Container.Parse: is stronger than the source. A stream that ends early fails with "Unexpected end of weights file", because the source never checks its reads. The version word is read and not checked, as in the source.
- Container.Load: inherits the stronger Parse: a file that starts with the magic but ends before the declared entries returns false, where `WeightLoader::load` returns true.
- Container.LoadEntries: likewise fails when the stream ends before the declared entries; the source's loop reads on regardless.
- Model.LiteCNNPro.LoadWeights: likewise returns false, leaving the map unchanged, on such a truncated file, where `load_weights` returns true.
- Container.ExtractWeights: requires fewer than 2^32 parameters and each name length, rank, dimension and element count to fit in 32 bits, since `struct.pack('I', ...)` raises otherwise; the PyTorch state dict itself is an input list.
- Names go from bytes to characters one to one; there is no UTF-8 decoding.
- Shape mismatches that are undefined behaviour in the source (an out-of-range `b.data[i]`, a weight tensor too short) are failures of the graph functions or preconditions of the kernels, not reads of arbitrary memory.
- `get_weight` argument evaluation order in C++ is unspecified; when several weights of one call are missing, the model reports the first one in argument order.
- The objects are values: `relu6_inplace`, `sigmoid_inplace` and the broadcast loop return the updated tensor instead of updating it in place, so aliasing is not modelled.
- The seven calls of `depthwise_separable_conv` in `forward` are a fold over the stride table `Model.Strides`.
- Server.InferenceServer.CreateResponse: requires at least five logits, since the source's `partial_sort` and `scores[i]` are undefined otherwise. The order of tied classes from `std::partial_sort` is unspecified; the model takes the first maximum at each step, and `Server.ResponseIgnoresTies` shows the probabilities do not depend on that choice.
