# ONNX Scan and STFT lowering in the ONNX frontend, modelled in Dafny

This project models two operator translators of the ONNX frontend. Each one
turns an ONNX node into a graph of runtime operations. The model keeps the
integer and index bookkeeping of that construction and states it as plain
data. It does not model the graph objects or what the built operations
compute.

- `shapes.dfy` (module `Shapes`): partial shapes (dynamic rank, or a list of
  static or dynamic dimensions), ranks, the axis normalisation helper, and
  the `Option`/`Result` wrappers. A `Result` error stands for the exception
  the frontend raises.
- `scan.dfy` (module `Scan`): the lowering of ONNX `Scan` (versions 8 and 9)
  to a TensorIterator.
  - The body graph is a class, `ScanBody`, whose parameter list, result list
    and consumer wiring the lowering rewrites in place, loop by loop.
  - State-value parameters take their node input's element type and shape.
  - Scan-input parameters take their input's shape with the scan axis set
    to 1, and every consumer is rewired to a Squeeze of the parameter.
  - Scan outputs are wrapped in an Unsqueeze.
  - The TensorIterator is described as a `TensorIteratorPlan`: the sliced
    inputs with their slicing quadruples, the merged (back-edge) inputs, and
    the outputs in order.
  - Attribute defaulting and the two versions' entry points are modelled
    too.
- `stft.dfy` (module `Stft`): the translation of ONNX `STFT` (version 17).
  - `Validate` models the straight-line run of checks and the frame-length
    arithmetic.
  - The `Translate` method models the nested batch-by-frame loop. It emits
    one slice window per (batch, frame) pair, grouped by batch.
  - Lemmas prove the frame bounds, spacing and emission order.

## Model

| member | source | states |
|---|---|---|
| `Shapes.NormalizeAxis` | src/frontends/onnx/frontend/src/op/scan.cpp:55-57 | Assumed contract of the runtime helper. With a known rank n, the axis is accepted iff -n <= axis < n, and the result is in [0, n) and equals either the axis or the axis + n. With an unknown rank, the axis is returned unchanged. |
| `Scan.ScanParamShape` | src/frontends/onnx/frontend/src/op/scan.cpp:53-60 | A scan input of known rank gives a parameter shape of the same rank. The normalised axis is 1 and every other dimension is unchanged. An input of dynamic rank keeps its shape. The result fails exactly when the axis is out of range. |
| `Scan.Rewired` | src/frontends/onnx/frontend/src/op/scan.cpp:63-67 | After rewiring, no consumer reads a scan-input parameter directly. A consumer of scan parameter p reads the Squeeze of p along that input's axis. Every other consumer is unchanged. |
| `Scan.ScanBody.RedirectConsumers` | src/frontends/onnx/frontend/src/op/scan.cpp:63-67 | Every consumer of parameter `index` now reads its Squeeze. All other consumers, the parameters and the results are unchanged. |
| `Scan.ScanBody.AlignStateInputs` | src/frontends/onnx/frontend/src/op/scan.cpp:40-44 | State parameter i takes the element type and shape of node input i + in_offset. All other parameters, the results and the consumers are unchanged. |
| `Scan.ScanBody.AlignScanInputs` | src/frontends/onnx/frontend/src/op/scan.cpp:49-68 | Fails exactly when some scan axis is out of range for its input's rank. On success, each scan parameter keeps its element type and gets `ScanParamShape` of its input. State parameters and results are unchanged, and all consumers are rewired. |
| `Scan.UnsqueezeScanOutputs` | src/frontends/onnx/frontend/src/op/scan.cpp:69-75 | State results are kept. Scan result i is wrapped in an Unsqueeze along scan_output_axes[i]. |
| `Scan.ScanBody.AlignScanOutputs` | src/frontends/onnx/frontend/src/op/scan.cpp:70-75 | The body's results become `UnsqueezeScanOutputs` of the old results. Parameters and consumers are unchanged. |
| `Scan.DirectionSlicing` | src/frontends/onnx/frontend/src/op/scan.cpp:88-92 | Direction flag 0 selects the forward quadruple: start 0, stride 1, part size 1, end -1. Any nonzero flag selects the reverse one: start -1, stride -1, part size 1, end 0. The axis is passed through. The same mapping is used for outputs at lines 107-111. |
| `Scan.DirectionVisitOrder` | src/frontends/onnx/frontend/src/op/scan.cpp:88-92 | The slicing for direction 0, (0, 1, 1, -1), visits the n positions in increasing order. Any nonzero direction, (-1, -1, 1, 0), visits them in decreasing order. |
| `Scan.SlicedInputs` | src/frontends/onnx/frontend/src/op/scan.cpp:83-93 | Fails exactly when a scan-input axis is out of range. Otherwise there is one sliced input per scan input, in order: parameter num_initial_values + i from node input num_initial_values + i + in_offset, with its direction's slicing along the normalised axis. |
| `Scan.IteratorOutputs` | src/frontends/onnx/frontend/src/op/scan.cpp:96-114 | Fails exactly when a scan-output axis is out of range for its unsqueezed result. Otherwise state parameter i is merged from node input i + in_offset with back edge result i. There are num_initial_values + num_scan_outputs outputs: every state value's last iteration first, then every scan output's concatenation with its direction's slicing, each group in body order. |
| `Scan.ScanBody.ScanToTensorIterator` | src/frontends/onnx/frontend/src/op/scan.cpp:26-115 | The whole lowering. num_initial_values = \|body_inputs\| - num_scan_inputs. Succeeds exactly when every input and output axis is valid. Then the body is aligned as above and the plan holds the sliced inputs, merged inputs and outputs as above. |
| `Scan.ListAttributeOr` | src/frontends/onnx/frontend/src/op/scan.cpp:132-143 | A list attribute the node sets is used as given. A missing one is a list of `count` copies of the default. |
| `Scan.ReadScanAttributes` | src/frontends/onnx/frontend/src/op/scan.cpp:128-143 | Fails with `MissingAttribute` exactly when num_scan_inputs is missing. Fails with `InvalidCounts` exactly when num_scan_inputs is negative, or when there are fewer body results than state values (num_scan_outputs wraps around). In both cases the source asks for an impossibly long default list, which throws. The input axes and directions default to num_scan_inputs entries of default_axis and 0. The output axes and directions default to num_scan_outputs = \|body_outputs\| - num_initial_values entries. The input directions are read under the version's attribute name. |
| `Scan.ImportOnnxScan` | src/frontends/onnx/frontend/src/op/scan.cpp:117-155 | A missing body subgraph, a missing num_scan_inputs or invalid counts is an error, and the body is left untouched. Otherwise the result is the lowering with the attributes read as above. |
| `Scan.ScanOpset8` | src/frontends/onnx/frontend/src/op/scan.cpp:161-168 | Fails with the body untouched unless input 0 (sequence_lens) exists and is null. Otherwise imports with default axis 1, input offset 1 and attribute "directions". |
| `Scan.ScanOpset9` | src/frontends/onnx/frontend/src/op/scan.cpp:174-178 | Imports with default axis 0, input offset 0 and attribute "scan_input_directions". |
| `Stft.Validate` | src/frontends/onnx/frontend/src/op/stft.cpp:30-79 | Each check, in the frontend's order, fails with its own error: fewer than two inputs; a frame_step that is not a one-element constant; a signal that is not static of rank 3; a frame_step that is not positive; a frame-length input that is not a one-element constant, or is negative; a window of known rank that is not 1-D; a static window length different from frame_length; onesided == 1 with a complex signal. A node that passes every check validates. The setup it returns holds the frame step, batch size, signal length, frame length, complexness, whether the window and frame-length inputs are given, and onesided (default 1). |
| `Stft.FrameLength` | src/frontends/onnx/frontend/src/op/stft.cpp:49-58 | The frame-length input when it is given. Otherwise the largest value with frame_length * frame_step <= signal_len. Never negative. |
| `Stft.IsComplex` | src/frontends/onnx/frontend/src/op/stft.cpp:73-76 | A tensor of unknown rank is never complex. A rank-3 signal is complex exactly when its last dimension is statically 2. |
| `Stft.ReshapeTarget` | src/frontends/onnx/frontend/src/op/stft.cpp:97-102 | The target starts with -1. It has one entry exactly when the slice is real and onesided is nonzero. Otherwise its second entry is 2 for a complex slice and 1 for a real one. |
| `Stft.OnesidedFlattens` | src/frontends/onnx/frontend/src/op/stft.cpp:77-101 | A node that validates with onesided == 1 always reshapes its slices to [-1]. |
| `Stft.Translate` | src/frontends/onnx/frontend/src/op/stft.cpp:80-123 | Fails exactly when `Validate` fails, with its error. Otherwise the plan has batch_size groups, and group b holds the nstfts frames [k*frame_step, k*frame_step + frame_length) of batch b in order. The plan also records the reshape target, the window, the DFT length input and one-sidedness. |
| `Stft.TruncDiv` | src/frontends/onnx/frontend/src/op/stft.cpp:81 | C++ integer division: for a positive divisor it equals floor division on a non-negative dividend, negates the quotient of the magnitudes for a negative dividend, and gives 0 for a dividend strictly between -divisor and 0. |
| `Stft.FrameCountAsWritten` | src/frontends/onnx/frontend/src/op/stft.cpp:81 | The frame count as written, with truncation. A frame longer than the signal by less than one step still gives one frame. With a negative step and a frame longer than the signal, the count is at least 1. |
| `Stft.FrameCount` | src/frontends/onnx/frontend/src/op/stft.cpp:81 | The corrected frame count: (count - 1) * frame_step <= signal_len - frame_length < count * frame_step. So the last frame index is the largest k whose frame still ends inside the signal. |
| `Stft.FrameCountsAgree` | src/frontends/onnx/frontend/src/op/stft.cpp:81 | When frame_length <= signal_len, the frame count (signal_len - frame_length) / frame_step + 1 is the same under truncating and floor division, and is at least 1. |
| `Stft.FramesStayInSignal` | src/frontends/onnx/frontend/src/op/stft.cpp:81-94 | Take 0 < frame_step and 0 <= frame_length. Every frame index k below the frame count has 0 <= k*frame_step and k*frame_step + frame_length <= signal_len. |
| `Stft.PlannedFramesInSignal` | src/frontends/onnx/frontend/src/op/stft.cpp:86-95 | For a node that validates, every slice window of its plan has batch b < batch_size, lies within [0, signal_len] on the time axis, and is frame_length long. The corrected `Validate` guarantees a positive frame step and a non-negative frame length. |
| `Stft.ConsecutiveFrames` | src/frontends/onnx/frontend/src/op/stft.cpp:88-95 | Within a batch, consecutive frames start frame_step apart and each spans frame_length. |
| `Stft.FlattenLength` | src/frontends/onnx/frontend/src/op/stft.cpp:118-123 | Stacking batch_size groups of n frames gives batch_size * n frames. |
| `Stft.FlattenAt` | src/frontends/onnx/frontend/src/op/stft.cpp:118-123 | Position i of the stacked output is frame k of batch b, with i = b*n + k and k < n. |
| `Stft.EmissionOrder` | src/frontends/onnx/frontend/src/op/stft.cpp:86-123 | In the stacked output, frames come in strictly increasing (batch, start) order: batch order first, then frame order within a batch. |
| `Stft.ScalarConstantHasOneValue` | src/frontends/onnx/frontend/src/op/stft.cpp:38-43 | A constant that passes the one-element check has exactly the one value that is read next. |
| `Stft.EmptyConstantPassesAsWritten` | src/frontends/onnx/frontend/src/op/stft.cpp:38-43 | The check as written (shape_size <= 1) accepts a constant of shape [0], which has no element 0. The one-element check rejects it. |
| `Stft.ZeroFrameStepReachesDivision` | src/frontends/onnx/frontend/src/op/stft.cpp:37-49 | A node with frame_step 0 passes every check before the division at line 49. The corrected `Validate` rejects it as a non-positive frame step. |
| `Stft.NegativeFrameStepEmitsWindows` | src/frontends/onnx/frontend/src/op/stft.cpp:37-94 | Take frame_step -1, a frame-length input of 10, no window and a real signal of length 8. This node passes every check as written. The truncated count is 3: frame 0 ends at 10 > 8, and frame 1 starts at -1. The corrected `Validate` rejects the node. |
| `Stft.NegativeFrameLengthOverruns` | src/frontends/onnx/frontend/src/op/stft.cpp:50-94 | Take frame_step 2, a frame-length input of -4, no window and a real signal of length 8. This node passes every check as written. The count is 7, and frame 6 starts at 12, past the signal. The corrected `Validate` rejects the node as having a negative frame length. |
| `Stft.TruncatedCountOverruns` | src/frontends/onnx/frontend/src/op/stft.cpp:81 | With signal_len 10, frame_length 13 and frame_step 4, truncating division gives one frame, ending at 13 > 10. Floor division gives none. |

## Left out

- The runtime's operations and what they compute are not part of this model. This covers TensorIterator execution, Squeeze, Unsqueeze, Slice, Reshape, Concat, Broadcast, ShapeOf, Multiply and DFT. Only the plan the translators emit is modelled.
- `validate_and_infer_types` and shape inference are not part of this model. Two shape rules are assumed:
  - An Unsqueeze adds one dimension to the rank (`Scan.ValueRank`).
  - A slice of the signal keeps the signal's last dimension, so a slice is complex exactly when the signal is.
- The axis validation done by the Squeeze and Unsqueeze constructors is not modelled. Their condition is the same as that of the `normalize_axis` calls that are modelled.
- `Shapes.NormalizeAxis`: its body is not part of this model, so it is an assumed contract. Against a known rank n it accepts -n <= axis < n. The runtime may also accept axis 0 against rank 0. Against an unknown rank it returns the axis unchanged.
- `Scan.Visited` assumes the TensorIterator's slicing convention: negative bounds count from the end, and the end is inclusive. `Scan.DirectionVisitOrder` rests on it.
- The DFT, the window multiplication and the choice between using the window as is or unsqueezed and broadcast are left out. That choice depends on the inferred shape of the reshaped slice. The plan records only whether a window is applied.
- Element types are opaque codes. Node descriptions and error messages are dropped; errors are constructors of `ScanError` and `StftError`.
- `Scan.ScanBody.ScanToTensorIterator`: it requires the counts in `Scan.ScanArity` and axis and direction lists at least as long as those counts. The source subtracts `size_t` counts and indexes with `operator[]` without checking, so outside these conditions it reads out of bounds.
- `Scan.ImportOnnxScan`: it requires `Scan.ImportArity`, which applies only once the attributes have been read. It demands num_scan_inputs <= |body_inputs| (otherwise num_initial_values wraps around and the lowering reads past the body's parameters), a node input for every body parameter after the offset, and attribute lists at least as long as the counts. `Scan.ScanOpset8` and `Scan.ScanOpset9` inherit it.
- `Scan.ReadScanAttributes`: counts that are valid but too large to allocate (the source's `bad_alloc`, or `length_error` above the vector's maximum size) are not modelled. Integers are unbounded.
- `Scan.ScanBody.ScanToTensorIterator`: after a failed lowering, the body's state is left unspecified. The frontend throws midway and discards the node.
- 64-bit overflow of the index arithmetic (k * frame_step + frame_length and the like) is not modelled. Integers are unbounded.
- Constants are modelled with integer values. `cast_vector<int64_t>` conversion of floating-point constants is not modelled.
- random_normal_like.cpp, scatter_nd.cpp, mul.hpp, sqrt.hpp and plugin.hpp are not part of this model. They are thin forwards to runtime operations, or declarations without bodies.

## Findings

| source | as written | input that shows it | evidently intended | confidence | as-written member | corrected member |
|---|---|---|---|---|---|---|
| src/frontends/onnx/frontend/src/op/stft.cpp:49 | The signal length is divided by frame_step, and nothing checks frame_step first. | frame_step constant 0, signal of shape [1, 8, 1] | Reject a frame_step that is not positive | medium, not executed | `Stft.ZeroFrameStepReachesDivision` | `Stft.Validate` |
| src/frontends/onnx/frontend/src/op/stft.cpp:81-94 | A negative frame_step is not rejected either. The truncated count and the loop then emit windows that run past the end of the signal or start before it. | frame_step constant -1, frame-length constant 10, signal of shape [1, 8, 1]: windows [0, 10), [-1, 9), [-2, 8) | Reject a frame_step that is not positive, so every window lies within the signal | medium, not executed | `Stft.NegativeFrameStepEmitsWindows` | `Stft.PlannedFramesInSignal` |
| src/frontends/onnx/frontend/src/op/stft.cpp:50-58 | The frame-length constant is read without a sign check, and a negative frame length makes the count exceed the signal. | frame_step constant 2, frame-length constant -4, signal of shape [1, 8, 1]: 7 frames, frame 6 starting at 12 | Reject a negative frame length, so every window lies within the signal | medium, not executed | `Stft.NegativeFrameLengthOverruns` | `Stft.PlannedFramesInSignal` |
| src/frontends/onnx/frontend/src/op/stft.cpp:38-43 | The check accepts a constant with at most one element (`shape_size <= 1`) and then reads element 0. The frame-length check at lines 52-57 is the same. | frame_step constant of shape [0] | Accept only a constant with exactly one element (a scalar or shape [1]) | medium, not executed | `Stft.EmptyConstantPassesAsWritten` | `Stft.ScalarConstantHasOneValue` |
| src/frontends/onnx/frontend/src/op/stft.cpp:81 | The frame count divides with truncation toward zero, so a frame longer than the signal by less than one step still gets one frame. | signal_len 10, frame_length 13, frame_step 4: one frame, covering [0, 13) | Floor division, so every frame lies within the signal (zero frames here) | low, not executed | `Stft.TruncatedCountOverruns` | `Stft.FramesStayInSignal` |

The rest of the model uses the corrected definitions. `Stft.Validate` rejects a non-positive frame step and a negative frame length, and accepts only one-element constants. `Stft.FrameCount` divides with floor.
