/**
 * Shared vocabulary of the ONNX frontend model: partial shapes as the graph
 * runtime describes them, the axis normalisation helper the frontend calls,
 * and the Option/Result wrappers used for the translators' error paths.
 */
module Shapes {

  datatype Option<+T> = None | Some(value: T)

  /** Outcome of a translator: a value, or the error it reports (an exception in the frontend). */
  datatype Result<+T, +E> = Ok(value: T) | Err(error: E)

  /** One dimension of a partial shape: its length when statically known, or dynamic. */
  datatype Dim = Dynamic | Static(length: nat)

  /** A partial shape: of dynamic rank, or a list of (possibly dynamic) dimensions. */
  datatype PartialShape = DynamicRank | Ranked(dims: seq<Dim>)
  {
    /** Rank and every dimension statically known. */
    predicate IsStatic()
    {
      Ranked? && forall i :: 0 <= i < |dims| ==> dims[i].Static?
    }
  }

  /** The rank of a partial shape, when it is known. */
  datatype Rank = UnknownRank | KnownRank(n: nat)

  function RankOf(s: PartialShape): Rank
  {
    match s
    case DynamicRank => UnknownRank
    case Ranked(dims) => KnownRank(|dims|)
  }

  /**
   * The runtime's axis normalisation, whose body is not part of this model.
   * Assumed contract: against a known rank n, an axis in [-n, n) is accepted
   * and a negative one counts from the end; any other axis is an error
   * (None). Against an unknown rank the axis is returned unchanged.
   */
  function NormalizeAxis(axis: int, rank: Rank): (r: Option<int>)
    ensures rank.KnownRank? ==> (r.Some? <==> -(rank.n as int) <= axis < rank.n)
    ensures rank.KnownRank? && r.Some? ==> 0 <= r.value < rank.n && (r.value == axis || r.value == axis + rank.n)
    ensures rank.UnknownRank? ==> r == Some(axis)
  {
    match rank
    case UnknownRank => Some(axis)
    case KnownRank(n) =>
      if -(n as int) <= axis < n then Some(if axis < 0 then axis + n else axis) else None
  }
}
