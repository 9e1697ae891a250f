/**
 * Translation of the ONNX operator STFT (version 17 of the ONNX operator
 * specification) by the ONNX frontend
 * (src/frontends/onnx/frontend/src/op/stft.cpp).
 *
 * The frontend validates the node's inputs, works out the frame length and
 * the number of frames, and then cuts the signal into one slice window per
 * (batch, frame) pair, each reshaped and handed to a DFT; the results are
 * stacked frame by frame within a batch and batch by batch. The model keeps
 * that construction plan: the checks, the integer arithmetic and the list of
 * slice windows in emission order. The DFT itself and the window
 * multiplication are not modelled.
 */
module Stft {
  import opened Shapes

  /** A node input: absent, a constant (dimensions and values), or any other tensor. */
  datatype Port =
    | NullPort
    | ConstantPort(dims: seq<nat>, values: seq<int>)
    | TensorPort(shape: PartialShape)

  /** Number of elements of a tensor with these dimensions. */
  function ShapeSize(dims: seq<nat>): nat
  {
    if |dims| == 0 then 1 else dims[0] * ShapeSize(dims[1..])
  }

  /** A constant holds exactly as many values as its dimensions say. */
  predicate WellFormedPort(p: Port)
  {
    p.ConstantPort? ==> |p.values| == ShapeSize(p.dims)
  }

  /** The partial shape of an input; a constant's shape is static, an absent input's rank unknown. */
  function PortShape(p: Port): PartialShape
  {
    match p
    case NullPort => DynamicRank
    case ConstantPort(dims, _) => Ranked(seq(|dims|, i requires 0 <= i < |dims| => Static(dims[i])))
    case TensorPort(shape) => shape
  }

  /** An STFT node: its inputs and its integer attributes. */
  datatype StftNode = StftNode(inputs: seq<Port>, ints: map<string, int>)

  predicate WellFormedNode(node: StftNode)
  {
    forall i :: 0 <= i < |node.inputs| ==> WellFormedPort(node.inputs[i])
  }

  function IntAttributeOr(ints: map<string, int>, name: string, default: int): int
  {
    if name in ints then ints[name] else default
  }

  /** A constant with exactly one element: a scalar, or a tensor of shape [1] (or [1, 1], ...). */
  predicate IsScalarConstant(p: Port)
  {
    p.ConstantPort? && ShapeSize(p.dims) == 1
  }

  /** The check the frontend writes for a scalar constant: a constant with at most one element. */
  predicate IsScalarConstantAsWritten(p: Port)
  {
    p.ConstantPort? && ShapeSize(p.dims) <= 1
  }

  /** A constant that passes the corrected check has the one value the frontend then reads. */
  lemma ScalarConstantHasOneValue(p: Port)
    requires WellFormedPort(p) && IsScalarConstant(p)
    ensures |p.values| == 1 && IsScalarConstantAsWritten(p)
  {
  }

  /**
   * The check as written accepts an empty constant (shape [0]), whose first
   * value, which the frontend reads next, does not exist; the corrected
   * check rejects it.
   */
  lemma EmptyConstantPassesAsWritten()
    ensures var p := ConstantPort([0], []);
      WellFormedPort(p) && IsScalarConstantAsWritten(p) && |p.values| == 0 && !IsScalarConstant(p)
  {
  }

  /** A tensor whose last dimension is statically 2 holds complex numbers (real, imaginary pairs). */
  predicate IsComplex(s: PartialShape)
    ensures s.DynamicRank? ==> !IsComplex(s)
    ensures s.Ranked? && |s.dims| == 3 ==> (IsComplex(s) <==> s.dims[2] == Static(2))
  {
    s.Ranked? && |s.dims| > 0 && s.dims[|s.dims| - 1] == Static(2)
  }

  datatype StftError =
    | MissingInput(index: nat)
    | FrameStepNotScalarConstant
    | SignalNotStaticRank3
    | NonPositiveFrameStep
    | FrameLengthNotScalarConstant
    | NegativeFrameLength
    | WindowRankNot1
    | WindowLengthMismatch
    | ComplexSignalOnesided

  /** What validation establishes about a node: the sizes and flags the framing uses. */
  datatype StftSetup = StftSetup(
    batchSize: nat,
    signalLength: nat,
    frameStep: int,
    frameLength: int,
    signalIsComplex: bool,
    windowProvided: bool,
    dftLengthProvided: bool,
    onesided: int)

  /**
   * The checks before the frame length is computed, as the frontend writes
   * them: two inputs, a frame step that is a constant with at most one
   * element, and a static signal of rank 3. Nothing requires the frame step
   * to be nonzero before it divides the signal length.
   */
  predicate PassesChecksBeforeDivisionAsWritten(node: StftNode)
  {
    |node.inputs| >= 2 && IsScalarConstantAsWritten(node.inputs[1]) &&
    PortShape(node.inputs[0]).IsStatic() && |PortShape(node.inputs[0]).dims| == 3
  }

  /** A zero frame step passes every check as written and reaches the division by it. */
  lemma ZeroFrameStepReachesDivision()
    ensures var node := StftNode([TensorPort(Ranked([Static(1), Static(8), Static(1)])), ConstantPort([], [0])], map[]);
      PassesChecksBeforeDivisionAsWritten(node) && node.inputs[1].values[0] == 0 &&
      Validate(node) == Err(NonPositiveFrameStep)
  {
  }

  /**
   * A negative frame step passes every check as written (here with a
   * frame-length input of 10, no window and a real signal of length 8):
   * truncating division gives three frames, [0, 10), [-1, 9) and [-2, 8),
   * the first running past the end of the signal and the others starting
   * before it. The corrected validation rejects the node.
   */
  lemma NegativeFrameStepEmitsWindows()
    ensures var node := StftNode([TensorPort(Ranked([Static(1), Static(8), Static(1)])), ConstantPort([], [-1]),
                                  NullPort, ConstantPort([], [10])], map[]);
      PassesChecksBeforeDivisionAsWritten(node) && IsScalarConstantAsWritten(node.inputs[3]) &&
      node.inputs[2].NullPort? && !IsComplex(PortShape(node.inputs[0])) &&
      Validate(node) == Err(NonPositiveFrameStep)
    ensures FrameCountAsWritten(8, 10, -1) == 3 && 0 * -1 + 10 > 8 && 1 * -1 < 0
  {
  }

  /**
   * A negative frame-length input passes every check as written (signal of
   * length 8, frame step 2, frame length -4, no window): the frame count is
   * (8 - (-4)) / 2 + 1 = 7, and frame 6 starts at 12, past the end of the
   * signal. The corrected validation rejects the node.
   */
  lemma NegativeFrameLengthOverruns()
    ensures var node := StftNode([TensorPort(Ranked([Static(1), Static(8), Static(1)])), ConstantPort([], [2]),
                                  NullPort, ConstantPort([], [-4])], map[]);
      PassesChecksBeforeDivisionAsWritten(node) && IsScalarConstantAsWritten(node.inputs[3]) &&
      node.inputs[2].NullPort? && !IsComplex(PortShape(node.inputs[0])) &&
      Validate(node) == Err(NegativeFrameLength)
    ensures FrameCountAsWritten(8, -4, 2) == 7 && 6 * 2 > 8
  {
  }

  /** The frame-step input is a one-element constant and the signal is static of rank 3. */
  predicate StepAndSignalChecked(node: StftNode)
  {
    |node.inputs| >= 2 && IsScalarConstant(node.inputs[1]) &&
    PortShape(node.inputs[0]).IsStatic() && |PortShape(node.inputs[0]).dims| == 3
  }

  /** Input 3 (the frame length, also the DFT length) is present and not null. */
  predicate DftLengthProvided(node: StftNode)
  {
    |node.inputs| > 3 && !node.inputs[3].NullPort?
  }

  /** Input 2 (the window) is present and not null. */
  predicate WindowProvided(node: StftNode)
  {
    |node.inputs| > 2 && !node.inputs[2].NullPort?
  }

  /**
   * The checks that fix the framing pass: a positive one-element frame step,
   * a static rank-3 signal and, when given, a one-element frame-length
   * constant that is not negative.
   */
  predicate FramingChecked(node: StftNode)
    requires WellFormedNode(node)
  {
    StepAndSignalChecked(node) && 0 < node.inputs[1].values[0] &&
    (DftLengthProvided(node) ==> IsScalarConstant(node.inputs[3]) && 0 <= node.inputs[3].values[0])
  }

  /**
   * The frame length: the frame-length input when given, otherwise the
   * largest length of which a whole number of frame steps fits in the
   * signal.
   */
  function FrameLength(node: StftNode): (frameLength: int)
    requires WellFormedNode(node) && FramingChecked(node)
    ensures 0 <= frameLength
    ensures DftLengthProvided(node) ==> frameLength == node.inputs[3].values[0]
    ensures !DftLengthProvided(node) ==>
      var step, length := node.inputs[1].values[0], PortShape(node.inputs[0]).dims[1].length;
      frameLength * step <= length < (frameLength + 1) * step
  {
    if DftLengthProvided(node) then node.inputs[3].values[0]
    else PortShape(node.inputs[0]).dims[1].length / node.inputs[1].values[0]
  }

  /** A window of known rank is one-dimensional, and of length frameLength when that is static. */
  predicate WindowFits(node: StftNode, frameLength: int)
  {
    WindowProvided(node) && PortShape(node.inputs[2]).Ranked? ==>
      var window := PortShape(node.inputs[2]).dims;
      |window| == 1 && (window[0].Static? ==> window[0].length == frameLength)
  }

  /**
   * Validation of an STFT node and the sizes it fixes, in the frontend's
   * order of checks. Each failing check gives its own error, and a node that
   * passes every check validates. A frame step that is not positive is
   * rejected before it divides the signal length, and a negative frame
   * length is rejected.
   */
  function Validate(node: StftNode): (r: Result<StftSetup, StftError>)
    requires WellFormedNode(node)
    ensures |node.inputs| < 2 ==> r == Err(MissingInput(|node.inputs|))
    ensures |node.inputs| >= 2 && !IsScalarConstant(node.inputs[1]) ==> r == Err(FrameStepNotScalarConstant)
    ensures |node.inputs| >= 2 && IsScalarConstant(node.inputs[1]) && !StepAndSignalChecked(node) ==>
      r == Err(SignalNotStaticRank3)
    ensures StepAndSignalChecked(node) && node.inputs[1].values[0] <= 0 ==> r == Err(NonPositiveFrameStep)
    ensures StepAndSignalChecked(node) && 0 < node.inputs[1].values[0] && DftLengthProvided(node) ==>
      (!IsScalarConstant(node.inputs[3]) ==> r == Err(FrameLengthNotScalarConstant)) &&
      (IsScalarConstant(node.inputs[3]) && node.inputs[3].values[0] < 0 ==> r == Err(NegativeFrameLength))
    ensures FramingChecked(node) && WindowProvided(node) && PortShape(node.inputs[2]).Ranked? ==>
      var window := PortShape(node.inputs[2]).dims;
      (|window| != 1 ==> r == Err(WindowRankNot1)) &&
      (|window| == 1 && window[0].Static? && window[0].length != FrameLength(node) ==> r == Err(WindowLengthMismatch))
    ensures FramingChecked(node) && WindowFits(node, FrameLength(node)) &&
            IntAttributeOr(node.ints, "onesided", 1) == 1 && IsComplex(PortShape(node.inputs[0])) ==>
      r == Err(ComplexSignalOnesided)
    ensures r.Ok? <==>
      FramingChecked(node) && WindowFits(node, FrameLength(node)) &&
      !(IntAttributeOr(node.ints, "onesided", 1) == 1 && IsComplex(PortShape(node.inputs[0])))
    ensures r.Ok? ==>
      var signal := PortShape(node.inputs[0]);
      r.value.frameStep == node.inputs[1].values[0] && 0 < r.value.frameStep &&
      r.value.batchSize == signal.dims[0].length && r.value.signalLength == signal.dims[1].length &&
      r.value.signalIsComplex == IsComplex(signal) &&
      r.value.frameLength == FrameLength(node) && 0 <= r.value.frameLength &&
      r.value.dftLengthProvided == DftLengthProvided(node) && r.value.windowProvided == WindowProvided(node) &&
      r.value.onesided == IntAttributeOr(node.ints, "onesided", 1)
    ensures r.Ok? && r.value.onesided == 1 ==> !r.value.signalIsComplex
  {
    if |node.inputs| == 0 then Err(MissingInput(0))
    else if |node.inputs| == 1 then Err(MissingInput(1))
    else if !IsScalarConstant(node.inputs[1]) then Err(FrameStepNotScalarConstant)
    else if !StepAndSignalChecked(node) then Err(SignalNotStaticRank3)
    else if node.inputs[1].values[0] <= 0 then Err(NonPositiveFrameStep)
    else if DftLengthProvided(node) && !IsScalarConstant(node.inputs[3]) then Err(FrameLengthNotScalarConstant)
    else if DftLengthProvided(node) && node.inputs[3].values[0] < 0 then Err(NegativeFrameLength)
    else
      var frameLength := FrameLength(node);
      var window := if WindowProvided(node) then PortShape(node.inputs[2]) else DynamicRank;
      if window.Ranked? && |window.dims| != 1 then Err(WindowRankNot1)
      else if window.Ranked? && window.dims[0].Static? && window.dims[0].length != frameLength then
        Err(WindowLengthMismatch)
      else
        var signal := PortShape(node.inputs[0]);
        var onesided := IntAttributeOr(node.ints, "onesided", 1);
        if onesided == 1 && IsComplex(signal) then Err(ComplexSignalOnesided)
        else
          Ok(StftSetup(signal.dims[0].length, signal.dims[1].length, node.inputs[1].values[0], frameLength,
                       IsComplex(signal), WindowProvided(node), DftLengthProvided(node), onesided))
  }

  /** C++ integer division: the quotient truncated toward zero. */
  function TruncDiv(a: int, b: int): (q: int)
    requires b != 0
    ensures 0 <= a && 0 < b ==> q == a / b
    ensures a < 0 < b ==> q == -((-a) / b)
    ensures -b < a < 0 ==> q == 0
  {
    var q := (if a < 0 then -a else a) / (if b < 0 then -b else b);
    if (a < 0) == (b < 0) then q else -q
  }

  /** Number of frames as the frontend writes it, with truncating division. */
  function FrameCountAsWritten(signalLength: int, frameLength: int, frameStep: int): (count: int)
    requires frameStep != 0
    ensures signalLength < frameLength < signalLength + frameStep ==> count == 1
    ensures frameStep < 0 && signalLength < frameLength ==> 1 <= count
  {
    TruncDiv(signalLength - frameLength, frameStep) + 1
  }

  /**
   * Number of frames: the frames start every frameStep samples from 0, as
   * long as a whole frame fits (rounding the quotient down). Not positive
   * when no frame fits.
   */
  function FrameCount(signalLength: int, frameLength: int, frameStep: int): (count: int)
    requires 0 < frameStep
    ensures (count - 1) * frameStep <= signalLength - frameLength < count * frameStep
  {
    var q := (signalLength - frameLength) / frameStep;
    assert (q + 1) * frameStep == q * frameStep + frameStep;
    q + 1
  }

  /** When the frame fits in the signal the two divisions agree. */
  lemma FrameCountsAgree(signalLength: int, frameLength: int, frameStep: int)
    requires 0 < frameStep && frameLength <= signalLength
    ensures FrameCountAsWritten(signalLength, frameLength, frameStep) == FrameCount(signalLength, frameLength, frameStep)
    ensures 1 <= FrameCount(signalLength, frameLength, frameStep)
  {
  }

  /**
   * With truncating division, a frame a little longer than the signal still
   * gets one frame, which runs past the end of the signal; rounding down
   * gives none.
   */
  lemma TruncatedCountOverruns()
    ensures FrameCountAsWritten(10, 13, 4) == 1 && 0 * 4 + 13 > 10
    ensures FrameCount(10, 13, 4) == 0
  {
  }

  /** Every frame that is emitted lies within the signal. */
  lemma FramesStayInSignal(signalLength: nat, frameLength: int, frameStep: int, k: int)
    requires 0 < frameStep && 0 <= frameLength
    requires 0 <= k < FrameCount(signalLength, frameLength, frameStep)
    ensures 0 <= k * frameStep && k * frameStep + frameLength <= signalLength
  {
    var q := (signalLength - frameLength) / frameStep;
    assert q * frameStep <= signalLength - frameLength;
    assert k <= q;
    assert k * frameStep <= q * frameStep by {
      MulMonotone(k, q, frameStep);
    }
  }

  /**
   * The reshape target of each slice: [-1, 2] keeps the real/imaginary pairs
   * of a complex slice, [-1] flattens a slice for a one-sided transform and
   * [-1, 1] otherwise.
   */
  function ReshapeTarget(complex: bool, onesided: int): (t: seq<int>)
    ensures 1 <= |t| <= 2 && t[0] == -1
    ensures |t| == 1 <==> !complex && onesided != 0
    ensures |t| == 2 ==> t[1] == if complex then 2 else 1
  {
    if complex then [-1, 2] else if onesided != 0 then [-1] else [-1, 1]
  }

  /** A node that validates with onesided == 1 always has its slices flattened completely. */
  lemma OnesidedFlattens(node: StftNode)
    requires WellFormedNode(node) && Validate(node).Ok? && Validate(node).value.onesided == 1
    ensures ReshapeTarget(Validate(node).value.signalIsComplex, Validate(node).value.onesided) == [-1]
  {
  }

  /** The slice window of one frame: axis 0 over [batch, batch + 1), axis 1 over [begin, end), step 1. */
  datatype Frame = Frame(batch: int, begin: int, end: int)

  /** The graph the translation builds, as a plan. */
  datatype StftPlan = StftPlan(
    reshapeTarget: seq<int>,     // target shape of every slice's Reshape
    windowed: bool,              // each DFT input is the flattened slice times the window
    dftLengthInput: bool,        // each DFT receives the frame-length input as its length
    onesidedDft: bool,           // each DFT is one-sided
    groups: seq<seq<Frame>>)     // the frames of each batch, stacked in this order

  /**
   * batchSize groups, group b holding frame k in position k for every k
   * below the frame count, frame k covering [k * frameStep, k * frameStep + frameLength).
   */
  predicate FramesPlanned(groups: seq<seq<Frame>>, batchSize: nat, count: int, frameStep: int, frameLength: int)
  {
    |groups| == batchSize &&
    forall b :: 0 <= b < |groups| ==>
      |groups[b]| == (if count < 0 then 0 else count) &&
      forall k :: 0 <= k < |groups[b]| ==>
        groups[b][k] == Frame(b, k * frameStep, k * frameStep + frameLength)
  }

  /** The plan built for a node that validated with setup `s`. */
  predicate PlanFor(plan: StftPlan, s: StftSetup)
    requires 0 < s.frameStep
  {
    plan.reshapeTarget == ReshapeTarget(s.signalIsComplex, s.onesided) &&
    plan.windowed == s.windowProvided &&
    plan.dftLengthInput == s.dftLengthProvided &&
    plan.onesidedDft == (s.onesided == 1) &&
    FramesPlanned(plan.groups, s.batchSize, FrameCount(s.signalLength, s.frameLength, s.frameStep),
                  s.frameStep, s.frameLength)
  }

  /** Translates an STFT node: validation, then one slice window per batch and frame. */
  method Translate(node: StftNode) returns (r: Result<StftPlan, StftError>)
    requires WellFormedNode(node)
    ensures r.Err? <==> Validate(node).Err?
    ensures r.Err? ==> r.error == Validate(node).error
    ensures r.Ok? ==> PlanFor(r.value, Validate(node).value)
  {
    var setup := Validate(node);
    if setup.Err? {
      return Err(setup.error);
    }
    var s := setup.value;
    var count := FrameCount(s.signalLength, s.frameLength, s.frameStep);
    var all: seq<seq<Frame>> := [];
    for batch := 0 to s.batchSize
      invariant FramesPlanned(all, batch, count, s.frameStep, s.frameLength)
    {
      var inBatch: seq<Frame> := [];
      var k := 0;
      while k < count
        invariant 0 <= k && (count < 0 ==> k == 0) && (0 <= count ==> k <= count)
        invariant |inBatch| == k
        invariant forall j :: 0 <= j < k ==>
          inBatch[j] == Frame(batch, j * s.frameStep, j * s.frameStep + s.frameLength)
      {
        inBatch := inBatch + [Frame(batch, k * s.frameStep, k * s.frameStep + s.frameLength)];
        k := k + 1;
      }
      all := all + [inBatch];
    }
    return Ok(StftPlan(ReshapeTarget(s.signalIsComplex, s.onesided), s.windowProvided,
                       s.dftLengthProvided, s.onesided == 1, all));
  }

  /**
   * Every slice window of a translated node lies inside the signal: batch b
   * of the batch axis and a whole frame of frameLength samples on the time
   * axis.
   */
  lemma PlannedFramesInSignal(node: StftNode, plan: StftPlan, b: nat, k: nat)
    requires WellFormedNode(node) && Validate(node).Ok? && PlanFor(plan, Validate(node).value)
    requires b < |plan.groups| && k < |plan.groups[b]|
    ensures plan.groups[b][k].batch == b < Validate(node).value.batchSize
    ensures 0 <= plan.groups[b][k].begin && plan.groups[b][k].end <= Validate(node).value.signalLength
    ensures plan.groups[b][k].end - plan.groups[b][k].begin == Validate(node).value.frameLength
  {
    var s := Validate(node).value;
    FramesStayInSignal(s.signalLength, s.frameLength, s.frameStep, k);
  }

  /** Within a batch, consecutive frames start frameStep samples apart and all have length frameLength. */
  lemma ConsecutiveFrames(groups: seq<seq<Frame>>, batchSize: nat, count: int, frameStep: int, frameLength: int,
                          b: nat, k: nat)
    requires FramesPlanned(groups, batchSize, count, frameStep, frameLength)
    requires b < batchSize && k + 1 < count
    ensures groups[b][k + 1].begin == groups[b][k].begin + frameStep
    ensures groups[b][k].end - groups[b][k].begin == frameLength
  {
  }

  /** The frames in the order the final concatenation stacks them: batch by batch, frame by frame. */
  function Flatten(groups: seq<seq<Frame>>): seq<Frame>
  {
    if |groups| == 0 then [] else groups[0] + Flatten(groups[1..])
  }

  lemma {:induction false} FlattenLength(groups: seq<seq<Frame>>, n: nat)
    requires forall g :: 0 <= g < |groups| ==> |groups[g]| == n
    ensures |Flatten(groups)| == |groups| * n
  {
    if |groups| > 0 {
      FlattenLength(groups[1..], n);
    }
  }

  /** Position i of the stacked output is frame k of batch b, where i == b * n + k. */
  lemma {:induction false} FlattenAt(groups: seq<seq<Frame>>, n: nat, i: nat) returns (b: nat, k: nat)
    requires forall g :: 0 <= g < |groups| ==> |groups[g]| == n
    requires i < |Flatten(groups)|
    ensures b < |groups| && k < n && i == b * n + k && Flatten(groups)[i] == groups[b][k]
  {
    if i < |groups[0]| {
      b, k := 0, i;
    } else {
      var b', k' := FlattenAt(groups[1..], n, i - n);
      b, k := b' + 1, k';
      assert (b' + 1) * n == b' * n + n;
    }
  }

  /**
   * In the stacked output, frames appear in strictly increasing (batch,
   * start) order: all frames of batch b before those of batch b + 1, and
   * within a batch in increasing start position.
   */
  lemma EmissionOrder(groups: seq<seq<Frame>>, batchSize: nat, count: nat, frameStep: int, frameLength: int,
                      i: nat, j: nat)
    requires FramesPlanned(groups, batchSize, count, frameStep, frameLength) && 0 < frameStep
    requires i < j < |Flatten(groups)|
    ensures Flatten(groups)[i].batch < Flatten(groups)[j].batch ||
            (Flatten(groups)[i].batch == Flatten(groups)[j].batch && Flatten(groups)[i].begin < Flatten(groups)[j].begin)
  {
    var bi, ki := FlattenAt(groups, count, i);
    var bj, kj := FlattenAt(groups, count, j);
    if bj < bi {
      assert (bj + 1) * count == bj * count + count;
      MulMonotone(bj + 1, bi, count);
      assert false;
    }
    assert Flatten(groups)[i] == Frame(bi, ki * frameStep, ki * frameStep + frameLength);
    assert Flatten(groups)[j] == Frame(bj, kj * frameStep, kj * frameStep + frameLength);
    if bi == bj {
      MulMonotone(ki + 1, kj, frameStep);
      assert (ki + 1) * frameStep == ki * frameStep + frameStep;
    }
  }

  lemma MulMonotone(a: int, b: int, c: int)
    requires a <= b && 0 <= c
    ensures a * c <= b * c
  {
    assert b * c - a * c == (b - a) * c;
  }
}
