/**
 * Lowering of the ONNX operator Scan (versions 8 and 9 of the ONNX operator
 * specification) to a TensorIterator loop construct, as the ONNX frontend
 * builds it (src/frontends/onnx/frontend/src/op/scan.cpp).
 *
 * The model keeps the bookkeeping the frontend does and not the graph
 * objects: the body graph is a `ScanBody` whose parameter list, result list
 * and consumer wiring the lowering updates in place, and the TensorIterator
 * it configures is a `TensorIteratorPlan` listing which body parameter is
 * sliced or merged from which node input, and how each output is produced.
 */
module Scan {
  import opened Shapes

  /** Element type of a tensor, as an opaque code. */
  type ElementType = nat

  /** A node input as the frontend reads it: null or not, element type, partial shape. */
  datatype Port = Port(isNull: bool, elemType: ElementType, shape: PartialShape)

  /** A parameter of the body graph. */
  datatype Param = Param(elemType: ElementType, shape: PartialShape)

  /** What one consumer input inside the body reads. */
  datatype Source =
    | FromParam(param: nat)                 // the body parameter with that index
    | FromSqueeze(param: nat, axis: int)    // a Squeeze of that parameter along `axis`
    | FromNode(id: nat)                     // any other node of the body

  /** A body result: an output produced in the body, possibly wrapped in an Unsqueeze. */
  datatype BodyValue =
    | Produced(id: nat, rank: Rank)
    | Unsqueezed(inner: BodyValue, axis: int)

  /** Rank of a body result; an Unsqueeze adds one dimension (the runtime's shape rule). */
  function ValueRank(v: BodyValue): Rank
  {
    match v
    case Produced(_, rank) => rank
    case Unsqueezed(inner, _) =>
      match ValueRank(inner)
      case UnknownRank => UnknownRank
      case KnownRank(n) => KnownRank(n + 1)
  }

  /** The TensorIterator slicing quadruple (start, stride, part size, end) along an axis. */
  datatype Slicing = Slicing(start: int, stride: int, partSize: int, end: int, axis: int)

  /** Body parameter `param` receives one slice per iteration of node input `input`. */
  datatype SlicedInput = SlicedInput(param: nat, input: nat, slicing: Slicing)

  /** Body parameter `param` starts as node input `input` and then takes body result `backEdge`. */
  datatype MergedInput = MergedInput(param: nat, input: nat, backEdge: nat)

  /** An output of the TensorIterator. */
  datatype IteratorOutput =
    | LastIteration(result: nat)                       // the body result's value after the last iteration
    | Concatenated(result: nat, slicing: Slicing)      // the body result's values of all iterations, concatenated

  datatype TensorIteratorPlan = TensorIteratorPlan(
    sliced: seq<SlicedInput>,
    merged: seq<MergedInput>,
    outputs: seq<IteratorOutput>)

  datatype ScanError =
    | MissingInput(index: nat)
    | SequenceLensUnsupported
    | MissingBody
    | MissingAttribute(name: string)
    | InvalidCounts
    | AxisOutOfRange(axis: int)

  /** The slicing a 0/1 scan direction flag selects: any nonzero flag is the reverse direction. */
  function DirectionSlicing(direction: int, axis: int): (s: Slicing)
    ensures s.axis == axis && s.partSize == 1
    ensures direction == 0 ==> s.stride == 1 && s.start == 0 && s.end == -1
    ensures direction != 0 ==> s.stride == -1 && s.start == -1 && s.end == 0
  {
    if direction != 0 then Slicing(-1, -1, 1, 0, axis) else Slicing(0, 1, 1, -1, axis)
  }

  /** Position a slicing bound denotes on an axis of length n: a negative bound counts from the end. */
  function Resolve(bound: int, n: nat): int
  {
    if bound < 0 then n + bound else bound
  }

  /**
   * Positions a TensorIterator visits, in iteration order, for a slicing with
   * part size 1 and unit stride on an axis of length n: from the start
   * position to the end position inclusive (the runtime's convention).
   */
  function Visited(s: Slicing, n: nat): seq<int>
  {
    var first, last := Resolve(s.start, n), Resolve(s.end, n);
    if s.stride == 1 && first <= last then seq(last - first + 1, k => first + k)
    else if s.stride == -1 && last <= first then seq(first - last + 1, k => first - k)
    else []
  }

  /** A forward scan visits every position in increasing order, a reverse scan in decreasing order. */
  lemma DirectionVisitOrder(direction: int, axis: int, n: nat)
    ensures var v := Visited(DirectionSlicing(direction, axis), n);
      |v| == n && forall k :: 0 <= k < n ==> v[k] == if direction == 0 then k else n - 1 - k
  {
  }

  /**
   * Shape given to the body parameter of a scan input whose node input has
   * shape `input`: with a known rank, the scan axis is normalised and its
   * dimension set to 1; with an unknown rank the shape is kept.
   */
  function ScanParamShape(input: PartialShape, axis: int): (r: Option<PartialShape>)
    ensures r.Some? <==> NormalizeAxis(axis, RankOf(input)).Some?
    ensures input.DynamicRank? ==> r == Some(input)
    ensures input.Ranked? && r.Some? ==>
      var a := NormalizeAxis(axis, RankOf(input)).value;
      r.value.Ranked? && |r.value.dims| == |input.dims| && r.value.dims[a] == Static(1) &&
      forall j :: 0 <= j < |input.dims| && j != a ==> r.value.dims[j] == input.dims[j]
  {
    match input
    case DynamicRank => Some(input)
    case Ranked(dims) =>
      match NormalizeAxis(axis, KnownRank(|dims|))
      case None => None
      case Some(a) => Some(Ranked(dims[a := Static(1)]))
  }

  /** Source `s` reads one of the scan-input parameters numInitial .. upTo - 1 directly. */
  predicate ReadsScanParam(s: Source, numInitial: nat, upTo: nat)
  {
    s.FromParam? && numInitial <= s.param < upTo
  }

  /**
   * What a consumer reading `s` reads once the Squeezes of the scan-input
   * parameters numInitial .. upTo - 1 are inserted.
   */
  function Rewired(s: Source, numInitial: nat, upTo: nat, inAxes: seq<int>): (r: Source)
    requires upTo <= numInitial + |inAxes|
    ensures !ReadsScanParam(r, numInitial, upTo)
    ensures !ReadsScanParam(s, numInitial, upTo) ==> r == s
    ensures ReadsScanParam(s, numInitial, upTo) ==>
      r.FromSqueeze? && r.param == s.param && r.axis == inAxes[s.param - numInitial]
  {
    if ReadsScanParam(s, numInitial, upTo) then FromSqueeze(s.param, inAxes[s.param - numInitial]) else s
  }

  /** Body results once every scan output (those after the first numInitial) is unsqueezed along its axis. */
  function UnsqueezeScanOutputs(results: seq<BodyValue>, numInitial: nat, outAxes: seq<int>): (r: seq<BodyValue>)
    requires numInitial <= |results| <= numInitial + |outAxes|
    ensures |r| == |results|
    ensures forall i :: 0 <= i < numInitial ==> r[i] == results[i]
    ensures forall i :: numInitial <= i < |results| ==>
      r[i].Unsqueezed? && r[i].inner == results[i] && r[i].axis == outAxes[i - numInitial]
  {
    seq(|results|, i requires 0 <= i < |results| =>
      if i < numInitial then results[i] else Unsqueezed(results[i], outAxes[i - numInitial]))
  }

  /**
   * The counts the lowering indexes with: the scan inputs are the last
   * numScanInputs body parameters, the state values the first ones; there
   * are at least as many body results as state values; and the node has an
   * input for every body parameter after the first inOffset inputs.
   */
  predicate ScanArity(numParams: nat, numResults: nat, numScanInputs: int, numNodeInputs: nat, inOffset: nat)
  {
    0 <= numScanInputs <= numParams && numParams - numScanInputs <= numResults &&
    inOffset + numParams <= numNodeInputs
  }

  /** Every scan-input axis is valid for the rank of its node input. */
  predicate ScanInputAxesValid(nodeInputs: seq<Port>, numInitial: nat, numScanInputs: nat, inAxes: seq<int>, inOffset: nat)
    requires inOffset + numInitial + numScanInputs <= |nodeInputs| && numScanInputs <= |inAxes|
  {
    forall i :: 0 <= i < numScanInputs ==>
      NormalizeAxis(inAxes[i], RankOf(nodeInputs[numInitial + i + inOffset].shape)).Some?
  }

  /** Every scan-output axis is valid for the rank of its (unsqueezed) body result. */
  predicate ScanOutputAxesValid(results: seq<BodyValue>, numInitial: nat, outAxes: seq<int>)
    requires numInitial <= |results| <= numInitial + |outAxes|
  {
    forall i :: 0 <= i < |results| - numInitial ==>
      NormalizeAxis(outAxes[i], ValueRank(results[numInitial + i])).Some?
  }

  /** The body parameters after alignment: state values copied from the node inputs, scan inputs reshaped. */
  predicate ParamsAligned(before: seq<Param>, after: seq<Param>, nodeInputs: seq<Port>, numInitial: nat, inAxes: seq<int>, inOffset: nat)
    requires numInitial <= |before| <= numInitial + |inAxes| && inOffset + |before| <= |nodeInputs|
  {
    |after| == |before| &&
    (forall i :: 0 <= i < numInitial ==>
      after[i] == Param(nodeInputs[i + inOffset].elemType, nodeInputs[i + inOffset].shape)) &&
    (forall i :: numInitial <= i < |before| ==>
      after[i].elemType == before[i].elemType &&
      Some(after[i].shape) == ScanParamShape(nodeInputs[i + inOffset].shape, inAxes[i - numInitial]))
  }

  /** Every consumer reads what it read before, with the scan-input parameters replaced by their Squeezes. */
  predicate ConsumersRewired(before: seq<Source>, after: seq<Source>, numInitial: nat, upTo: nat, inAxes: seq<int>)
    requires upTo <= numInitial + |inAxes|
  {
    |after| == |before| &&
    forall k :: 0 <= k < |before| ==> after[k] == Rewired(before[k], numInitial, upTo, inAxes)
  }

  /** The TensorIterator's sliced inputs: scan input i, in order, with the slicing its direction selects. */
  predicate SlicingPlanned(sliced: seq<SlicedInput>, nodeInputs: seq<Port>, numInitial: nat, numScanInputs: nat,
                           inAxes: seq<int>, inDirs: seq<int>, inOffset: nat)
    requires inOffset + numInitial + numScanInputs <= |nodeInputs|
    requires numScanInputs <= |inAxes| && numScanInputs <= |inDirs|
    requires ScanInputAxesValid(nodeInputs, numInitial, numScanInputs, inAxes, inOffset)
  {
    |sliced| == numScanInputs &&
    forall i :: 0 <= i < numScanInputs ==>
      var input := numInitial + i + inOffset;
      sliced[i] == SlicedInput(numInitial + i, input,
        DirectionSlicing(inDirs[i], NormalizeAxis(inAxes[i], RankOf(nodeInputs[input].shape)).value))
  }

  /**
   * The TensorIterator's back edges and outputs: state value i is merged
   * from node input i + inOffset with back edge body result i; the outputs
   * are all state values' last iterations first, then all scan outputs'
   * concatenations, each group in body order.
   */
  predicate OutputsPlanned(merged: seq<MergedInput>, outputs: seq<IteratorOutput>, results: seq<BodyValue>,
                           numInitial: nat, outAxes: seq<int>, outDirs: seq<int>, inOffset: nat)
    requires numInitial <= |results| <= numInitial + |outAxes| && |results| <= numInitial + |outDirs|
    requires ScanOutputAxesValid(results, numInitial, outAxes)
  {
    |merged| == numInitial &&
    (forall i :: 0 <= i < numInitial ==> merged[i] == MergedInput(i, i + inOffset, i)) &&
    |outputs| == |results| &&
    (forall i :: 0 <= i < numInitial ==> outputs[i] == LastIteration(i)) &&
    (forall i :: 0 <= i < |results| - numInitial ==>
      outputs[numInitial + i] == Concatenated(numInitial + i,
        DirectionSlicing(outDirs[i], NormalizeAxis(outAxes[i], ValueRank(results[numInitial + i])).value)))
  }

  /**
   * The outcome of lowering a Scan whose body had parameters p0, results r0
   * and consumers c0 and has p1, r1, c1 afterwards.
   */
  ghost predicate Lowered(r: Result<TensorIteratorPlan, ScanError>,
                          p0: seq<Param>, r0: seq<BodyValue>, c0: seq<Source>,
                          p1: seq<Param>, r1: seq<BodyValue>, c1: seq<Source>,
                          nodeInputs: seq<Port>, numScanInputs: nat,
                          inAxes: seq<int>, inDirs: seq<int>, outAxes: seq<int>, outDirs: seq<int>, inOffset: nat)
    requires ScanArity(|p0|, |r0|, numScanInputs, |nodeInputs|, inOffset)
    requires numScanInputs <= |inAxes| && numScanInputs <= |inDirs|
    requires |r0| - (|p0| - numScanInputs) <= |outAxes| && |r0| - (|p0| - numScanInputs) <= |outDirs|
  {
    var numInitial := |p0| - numScanInputs;
    var unsqueezed := UnsqueezeScanOutputs(r0, numInitial, outAxes);
    (r.Ok? <==>
      ScanInputAxesValid(nodeInputs, numInitial, numScanInputs, inAxes, inOffset) &&
      ScanOutputAxesValid(unsqueezed, numInitial, outAxes)) &&
    (r.Err? ==> r.error.AxisOutOfRange?) &&
    (r.Ok? ==>
      ParamsAligned(p0, p1, nodeInputs, numInitial, inAxes, inOffset) &&
      ConsumersRewired(c0, c1, numInitial, |p0|, inAxes) &&
      r1 == unsqueezed &&
      SlicingPlanned(r.value.sliced, nodeInputs, numInitial, numScanInputs, inAxes, inDirs, inOffset) &&
      OutputsPlanned(r.value.merged, r.value.outputs, r1, numInitial, outAxes, outDirs, inOffset))
  }

  /** Sets up the sliced inputs of the TensorIterator, scan input by scan input. */
  method SlicedInputs(nodeInputs: seq<Port>, numInitial: nat, numScanInputs: nat,
                      inAxes: seq<int>, inDirs: seq<int>, inOffset: nat)
    returns (r: Result<seq<SlicedInput>, ScanError>)
    requires inOffset + numInitial + numScanInputs <= |nodeInputs|
    requires numScanInputs <= |inAxes| && numScanInputs <= |inDirs|
    ensures r.Ok? <==> ScanInputAxesValid(nodeInputs, numInitial, numScanInputs, inAxes, inOffset)
    ensures r.Err? ==> r.error.AxisOutOfRange?
    ensures r.Ok? ==> SlicingPlanned(r.value, nodeInputs, numInitial, numScanInputs, inAxes, inDirs, inOffset)
  {
    var sliced: seq<SlicedInput> := [];
    for i := 0 to numScanInputs
      invariant |sliced| == i
      invariant forall j :: 0 <= j < i ==>
        NormalizeAxis(inAxes[j], RankOf(nodeInputs[numInitial + j + inOffset].shape)).Some? &&
        sliced[j] == SlicedInput(numInitial + j, numInitial + j + inOffset,
          DirectionSlicing(inDirs[j], NormalizeAxis(inAxes[j], RankOf(nodeInputs[numInitial + j + inOffset].shape)).value))
    {
      var input := numInitial + i + inOffset;
      var axis := NormalizeAxis(inAxes[i], RankOf(nodeInputs[input].shape));
      if axis.None? {
        return Err(AxisOutOfRange(inAxes[i]));
      }
      sliced := sliced + [SlicedInput(numInitial + i, input, DirectionSlicing(inDirs[i], axis.value))];
    }
    return Ok(sliced);
  }

  /** Sets up the back edges and the outputs of the TensorIterator. */
  method IteratorOutputs(results: seq<BodyValue>, numInitial: nat, outAxes: seq<int>, outDirs: seq<int>, inOffset: nat)
    returns (r: Result<(seq<MergedInput>, seq<IteratorOutput>), ScanError>)
    requires numInitial <= |results| <= numInitial + |outAxes| && |results| <= numInitial + |outDirs|
    ensures r.Ok? <==> ScanOutputAxesValid(results, numInitial, outAxes)
    ensures r.Err? ==> r.error.AxisOutOfRange?
    ensures r.Ok? ==> OutputsPlanned(r.value.0, r.value.1, results, numInitial, outAxes, outDirs, inOffset)
  {
    var merged: seq<MergedInput> := [];
    var outputs: seq<IteratorOutput> := [];
    for i := 0 to numInitial
      invariant |merged| == i && |outputs| == i
      invariant forall j :: 0 <= j < i ==> merged[j] == MergedInput(j, j + inOffset, j)
      invariant forall j :: 0 <= j < i ==> outputs[j] == LastIteration(j)
    {
      merged := merged + [MergedInput(i, i + inOffset, i)];
      outputs := outputs + [LastIteration(i)];
    }
    for i := 0 to |results| - numInitial
      invariant |outputs| == numInitial + i
      invariant forall j :: 0 <= j < numInitial ==> outputs[j] == LastIteration(j)
      invariant forall j :: 0 <= j < i ==>
        NormalizeAxis(outAxes[j], ValueRank(results[numInitial + j])).Some? &&
        outputs[numInitial + j] == Concatenated(numInitial + j,
          DirectionSlicing(outDirs[j], NormalizeAxis(outAxes[j], ValueRank(results[numInitial + j])).value))
    {
      var index := numInitial + i;
      var axis := NormalizeAxis(outAxes[i], ValueRank(results[index]));
      if axis.None? {
        return Err(AxisOutOfRange(outAxes[i]));
      }
      outputs := outputs + [Concatenated(index, DirectionSlicing(outDirs[i], axis.value))];
    }
    return Ok((merged, outputs));
  }

  /** The body graph of a Scan node, which the lowering rewrites in place. */
  class ScanBody {
    var params: seq<Param>
    var results: seq<BodyValue>
    var consumers: seq<Source>

    constructor (params: seq<Param>, results: seq<BodyValue>, consumers: seq<Source>)
      ensures this.params == params && this.results == results && this.consumers == consumers
    {
      this.params := params;
      this.results := results;
      this.consumers := consumers;
    }

    /** Gives each state-value parameter the element type and shape of its node input. */
    method AlignStateInputs(nodeInputs: seq<Port>, numInitial: nat, inOffset: nat)
      requires numInitial <= |params| && inOffset + numInitial <= |nodeInputs|
      modifies this
      ensures |params| == |old(params)|
      ensures forall i :: 0 <= i < numInitial ==>
        params[i] == Param(nodeInputs[i + inOffset].elemType, nodeInputs[i + inOffset].shape)
      ensures forall i :: numInitial <= i < |params| ==> params[i] == old(params[i])
      ensures results == old(results) && consumers == old(consumers)
    {
      for i := 0 to numInitial
        invariant |params| == |old(params)|
        invariant forall j :: 0 <= j < i ==>
          params[j] == Param(nodeInputs[j + inOffset].elemType, nodeInputs[j + inOffset].shape)
        invariant forall j :: i <= j < |params| ==> params[j] == old(params[j])
        invariant results == old(results) && consumers == old(consumers)
      {
        params := params[i := Param(nodeInputs[i + inOffset].elemType, nodeInputs[i + inOffset].shape)];
      }
    }

    /** Makes every consumer of parameter `index` read its Squeeze along `axis` instead. */
    method RedirectConsumers(index: nat, axis: int)
      modifies this
      ensures |consumers| == |old(consumers)|
      ensures forall k :: 0 <= k < |consumers| ==>
        consumers[k] == if old(consumers[k]) == FromParam(index) then FromSqueeze(index, axis) else old(consumers[k])
      ensures params == old(params) && results == old(results)
    {
      for k := 0 to |consumers|
        invariant |consumers| == |old(consumers)|
        invariant forall m :: 0 <= m < k ==>
          consumers[m] == if old(consumers[m]) == FromParam(index) then FromSqueeze(index, axis) else old(consumers[m])
        invariant forall m :: k <= m < |consumers| ==> consumers[m] == old(consumers[m])
        invariant params == old(params) && results == old(results)
      {
        if consumers[k] == FromParam(index) {
          consumers := consumers[k := FromSqueeze(index, axis)];
        }
      }
    }

    /**
     * Gives each scan-input parameter its node input's shape with the scan
     * axis set to 1, and puts a Squeeze between it and its consumers.
     * Fails at the first scan axis that is out of range for its input.
     */
    method AlignScanInputs(nodeInputs: seq<Port>, numInitial: nat, inAxes: seq<int>, inOffset: nat)
      returns (r: Result<(), ScanError>)
      requires numInitial <= |params| <= numInitial + |inAxes| && inOffset + |params| <= |nodeInputs|
      modifies this
      ensures r.Ok? == ScanInputAxesValid(nodeInputs, numInitial, |old(params)| - numInitial, inAxes, inOffset)
      ensures r.Err? ==> r.error.AxisOutOfRange?
      ensures r.Ok? ==> |params| == |old(params)| && results == old(results)
      ensures r.Ok? ==> forall i :: 0 <= i < numInitial ==> params[i] == old(params[i])
      ensures r.Ok? ==> forall i :: numInitial <= i < |params| ==>
        params[i].elemType == old(params[i].elemType) &&
        Some(params[i].shape) == ScanParamShape(nodeInputs[i + inOffset].shape, inAxes[i - numInitial])
      ensures r.Ok? ==> ConsumersRewired(old(consumers), consumers, numInitial, |params|, inAxes)
    {
      var n := |params|;
      for i := 0 to n - numInitial
        invariant |params| == n && results == old(results)
        invariant forall j :: 0 <= j < numInitial ==> params[j] == old(params[j])
        invariant forall j :: 0 <= j < i ==>
          NormalizeAxis(inAxes[j], RankOf(nodeInputs[numInitial + j + inOffset].shape)).Some?
        invariant forall j :: numInitial <= j < numInitial + i ==>
          params[j].elemType == old(params[j].elemType) &&
          Some(params[j].shape) == ScanParamShape(nodeInputs[j + inOffset].shape, inAxes[j - numInitial])
        invariant forall j :: numInitial + i <= j < n ==> params[j] == old(params[j])
        invariant ConsumersRewired(old(consumers), consumers, numInitial, numInitial + i, inAxes)
      {
        var index := numInitial + i;
        var shape := ScanParamShape(nodeInputs[index + inOffset].shape, inAxes[i]);
        if shape.None? {
          return Err(AxisOutOfRange(inAxes[i]));
        }
        params := params[index := params[index].(shape := shape.value)];
        RedirectConsumers(index, inAxes[i]);
      }
      return Ok(());
    }

    /** Wraps every scan-output result in an Unsqueeze along its output axis. */
    method AlignScanOutputs(numInitial: nat, outAxes: seq<int>)
      requires numInitial <= |results| <= numInitial + |outAxes|
      modifies this
      ensures results == UnsqueezeScanOutputs(old(results), numInitial, outAxes)
      ensures params == old(params) && consumers == old(consumers)
    {
      for i := 0 to |results| - numInitial
        invariant |results| == |old(results)|
        invariant forall j :: 0 <= j < numInitial ==> results[j] == old(results[j])
        invariant forall j :: numInitial <= j < numInitial + i ==>
          results[j] == Unsqueezed(old(results[j]), outAxes[j - numInitial])
        invariant forall j :: numInitial + i <= j < |results| ==> results[j] == old(results[j])
        invariant params == old(params) && consumers == old(consumers)
      {
        var index := numInitial + i;
        results := results[index := Unsqueezed(results[index], outAxes[i])];
      }
    }

    /**
     * Lowers a Scan with this body: aligns the body's parameters and
     * results, then plans the TensorIterator's sliced inputs, back edges and
     * outputs.
     */
    method ScanToTensorIterator(nodeInputs: seq<Port>, numScanInputs: nat,
                                inAxes: seq<int>, inDirs: seq<int>, outAxes: seq<int>, outDirs: seq<int>,
                                inOffset: nat)
      returns (r: Result<TensorIteratorPlan, ScanError>)
      requires ScanArity(|params|, |results|, numScanInputs, |nodeInputs|, inOffset)
      requires numScanInputs <= |inAxes| && numScanInputs <= |inDirs|
      requires |results| - (|params| - numScanInputs) <= |outAxes|
      requires |results| - (|params| - numScanInputs) <= |outDirs|
      modifies this
      ensures Lowered(r, old(params), old(results), old(consumers), params, results, consumers,
                      nodeInputs, numScanInputs, inAxes, inDirs, outAxes, outDirs, inOffset)
    {
      ghost var p0, r0, c0 := params, results, consumers;
      var numInitial := |params| - numScanInputs;
      AlignStateInputs(nodeInputs, numInitial, inOffset);
      var aligned := AlignScanInputs(nodeInputs, numInitial, inAxes, inOffset);
      if aligned.Err? {
        assert !ScanInputAxesValid(nodeInputs, numInitial, numScanInputs, inAxes, inOffset);
        return Err(aligned.error);
      }
      assert ParamsAligned(p0, params, nodeInputs, numInitial, inAxes, inOffset);
      assert ConsumersRewired(c0, consumers, numInitial, |p0|, inAxes);
      AlignScanOutputs(numInitial, outAxes);
      var sliced := SlicedInputs(nodeInputs, numInitial, numScanInputs, inAxes, inDirs, inOffset);
      if sliced.Err? {
        // AlignScanInputs has already checked every scan-input axis.
        assert false;
      }
      var wiring := IteratorOutputs(results, numInitial, outAxes, outDirs, inOffset);
      if wiring.Err? {
        assert !ScanOutputAxesValid(results, numInitial, outAxes);
        return Err(wiring.error);
      }
      r := Ok(TensorIteratorPlan(sliced.value, wiring.value.0, wiring.value.1));
      assert SlicingPlanned(r.value.sliced, nodeInputs, numInitial, numScanInputs, inAxes, inDirs, inOffset);
      assert OutputsPlanned(r.value.merged, r.value.outputs, results, numInitial, outAxes, outDirs, inOffset);
    }
  }

  /** A Scan node: its inputs and its integer and integer-list attributes. */
  datatype ScanNode = ScanNode(inputs: seq<Port>, ints: map<string, int>, intLists: map<string, seq<int>>)

  /** The attribute values the lowering uses. */
  datatype ScanAttributes = ScanAttributes(
    numScanInputs: int,
    inputAxes: seq<int>,
    inputDirections: seq<int>,
    outputAxes: seq<int>,
    outputDirections: seq<int>)

  /** An integer-list attribute, or `count` copies of `default` when the node does not set it. */
  function ListAttributeOr(node: ScanNode, name: string, count: nat, default: int): (v: seq<int>)
    ensures name in node.intLists ==> v == node.intLists[name]
    ensures name !in node.intLists ==> |v| == count && forall k :: 0 <= k < count ==> v[k] == default
  {
    if name in node.intLists then node.intLists[name] else seq(count, _ => default)
  }

  /**
   * Reads num_scan_inputs and the four axis and direction lists; the input
   * directions are read under `directionsName`, which differs between
   * versions of the operator. The default lists are built even when the
   * attribute is set, so a negative num_scan_inputs, or a body with fewer
   * results than state values (the count of scan outputs wraps around),
   * asks for an impossibly long list and fails.
   */
  function ReadScanAttributes(node: ScanNode, numParams: nat, numResults: nat, defaultAxis: int, directionsName: string)
    : (r: Result<ScanAttributes, ScanError>)
    ensures "num_scan_inputs" !in node.ints ==> r == Err(MissingAttribute("num_scan_inputs"))
    ensures "num_scan_inputs" in node.ints ==>
      var numScanInputs := node.ints["num_scan_inputs"];
      (r == Err(InvalidCounts) <==> numScanInputs < 0 || numResults < numParams - numScanInputs)
    ensures r.Err? ==> r.error == MissingAttribute("num_scan_inputs") || r.error == InvalidCounts
    ensures r.Ok? ==>
      var numScanInputs := node.ints["num_scan_inputs"];
      var numScanOutputs := numResults - (numParams - numScanInputs);
      0 <= numScanInputs && 0 <= numScanOutputs &&
      r.value.numScanInputs == numScanInputs &&
      r.value.inputAxes == ListAttributeOr(node, "scan_input_axes", numScanInputs, defaultAxis) &&
      r.value.inputDirections == ListAttributeOr(node, directionsName, numScanInputs, 0) &&
      r.value.outputAxes == ListAttributeOr(node, "scan_output_axes", numScanOutputs, defaultAxis) &&
      r.value.outputDirections == ListAttributeOr(node, "scan_output_directions", numScanOutputs, 0)
  {
    if "num_scan_inputs" !in node.ints then Err(MissingAttribute("num_scan_inputs"))
    else
      var numScanInputs := node.ints["num_scan_inputs"];
      var numScanOutputs := numResults - (numParams - numScanInputs);
      if numScanInputs < 0 || numScanOutputs < 0 then Err(InvalidCounts)
      else
        Ok(ScanAttributes(
          numScanInputs,
          ListAttributeOr(node, "scan_input_axes", numScanInputs, defaultAxis),
          ListAttributeOr(node, directionsName, numScanInputs, 0),
          ListAttributeOr(node, "scan_output_axes", numScanOutputs, defaultAxis),
          ListAttributeOr(node, "scan_output_directions", numScanOutputs, 0)))
  }

  /**
   * What the lowering indexes without checking, once the attributes have
   * been read: no more scan inputs than body parameters, a node input per
   * body parameter after the first inOffset, and axis and direction lists at
   * least as long as the counts.
   */
  predicate ImportArity(node: ScanNode, numParams: nat, numResults: nat, defaultAxis: int, inOffset: nat,
                        directionsName: string)
  {
    var attributes := ReadScanAttributes(node, numParams, numResults, defaultAxis, directionsName);
    attributes.Ok? ==>
      var a := attributes.value;
      var numScanOutputs := numResults - (numParams - a.numScanInputs);
      ScanArity(numParams, numResults, a.numScanInputs, |node.inputs|, inOffset) &&
      a.numScanInputs <= |a.inputAxes| && a.numScanInputs <= |a.inputDirections| &&
      numScanOutputs <= |a.outputAxes| && numScanOutputs <= |a.outputDirections|
  }

  /** The outcome of importing a Scan node whose body went from (p0, r0, c0) to (p1, r1, c1). */
  ghost predicate Imported(r: Result<TensorIteratorPlan, ScanError>, node: ScanNode,
                           p0: seq<Param>, r0: seq<BodyValue>, c0: seq<Source>,
                           p1: seq<Param>, r1: seq<BodyValue>, c1: seq<Source>,
                           defaultAxis: int, inOffset: nat, directionsName: string)
  {
    var attributes := ReadScanAttributes(node, |p0|, |r0|, defaultAxis, directionsName);
    if attributes.Err? then
      r == Err(attributes.error) && p1 == p0 && r1 == r0 && c1 == c0
    else
      ImportArity(node, |p0|, |r0|, defaultAxis, inOffset, directionsName) &&
      var a := attributes.value;
      Lowered(r, p0, r0, c0, p1, r1, c1, node.inputs, a.numScanInputs,
              a.inputAxes, a.inputDirections, a.outputAxes, a.outputDirections, inOffset)
  }

  /**
   * Imports a Scan node whose "body" subgraph is `body` (null when the node
   * has none), with the version's default axis, input offset and name of
   * the input-directions attribute.
   */
  method ImportOnnxScan(node: ScanNode, body: ScanBody?, defaultAxis: int, inOffset: nat, directionsName: string)
    returns (r: Result<TensorIteratorPlan, ScanError>)
    requires body != null ==> ImportArity(node, |body.params|, |body.results|, defaultAxis, inOffset, directionsName)
    modifies body
    ensures body == null ==> r == Err(MissingBody)
    ensures body != null ==>
      Imported(r, node, old(body.params), old(body.results), old(body.consumers),
               body.params, body.results, body.consumers, defaultAxis, inOffset, directionsName)
  {
    if body == null {
      return Err(MissingBody);
    }
    var attributes := ReadScanAttributes(node, |body.params|, |body.results|, defaultAxis, directionsName);
    if attributes.Err? {
      return Err(attributes.error);
    }
    var a := attributes.value;
    r := body.ScanToTensorIterator(node.inputs, a.numScanInputs, a.inputAxes, a.inputDirections,
                                   a.outputAxes, a.outputDirections, inOffset);
  }

  /**
   * Scan, version 8: the first input is the unsupported sequence_lens and
   * must be absent; the scan axis defaults to 1 and the body parameters
   * match the node inputs from the second on.
   */
  method ScanOpset8(node: ScanNode, body: ScanBody?) returns (r: Result<TensorIteratorPlan, ScanError>)
    requires |node.inputs| > 0 && node.inputs[0].isNull && body != null ==>
      ImportArity(node, |body.params|, |body.results|, 1, 1, "directions")
    modifies body
    ensures |node.inputs| == 0 ==> r == Err(MissingInput(0))
    ensures |node.inputs| > 0 && !node.inputs[0].isNull ==> r == Err(SequenceLensUnsupported)
    ensures (|node.inputs| == 0 || !node.inputs[0].isNull) && body != null ==> unchanged(body)
    ensures |node.inputs| > 0 && node.inputs[0].isNull && body == null ==> r == Err(MissingBody)
    ensures |node.inputs| > 0 && node.inputs[0].isNull && body != null ==>
      Imported(r, node, old(body.params), old(body.results), old(body.consumers),
               body.params, body.results, body.consumers, 1, 1, "directions")
  {
    if |node.inputs| == 0 {
      return Err(MissingInput(0));
    }
    if !node.inputs[0].isNull {
      return Err(SequenceLensUnsupported);
    }
    r := ImportOnnxScan(node, body, 1, 1, "directions");
  }

  /**
   * Scan, version 9: no sequence_lens input; the scan axis defaults to 0 and
   * the body parameters match the node inputs from the first on.
   */
  method ScanOpset9(node: ScanNode, body: ScanBody?) returns (r: Result<TensorIteratorPlan, ScanError>)
    requires body != null ==> ImportArity(node, |body.params|, |body.results|, 0, 0, "scan_input_directions")
    modifies body
    ensures body == null ==> r == Err(MissingBody)
    ensures body != null ==>
      Imported(r, node, old(body.params), old(body.results), old(body.consumers),
               body.params, body.results, body.consumers, 0, 0, "scan_input_directions")
  {
    r := ImportOnnxScan(node, body, 0, 0, "scan_input_directions");
  }
}
