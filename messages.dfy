/**
 * The protocol-buffer messages exchanged between broker and worker
 * (trustworthy_search.proto), reduced to the fields the modelled code reads.
 * Floating-point parameters and objectives are modelled as `real`.
 */
module Messages {
  import opened Base

  /** One simulation task streamed by the search server (`SimParams`). */
  datatype SimParams = SimParams(jobid: int, simid: int, params: seq<real>)

  /** A task tagged with the port of the broker that dispatched it (`BrokerSimParams`). */
  datatype BrokerSimParams = BrokerSimParams(simparams: SimParams, port: int)

  /** The outcome of one simulation (`SimResult`). */
  datatype SimResult = SimResult(jobid: int, simid: int, objective: real)

  /** Every element of `xs` is at least `m`. */
  predicate IsLowerBound(m: real, xs: seq<real>)
  {
    forall k :: 0 <= k < |xs| ==> m <= xs[k]
  }

  /**
   * `np.amin`: the smallest element of the parameter vector, or `None`
   * where numpy raises `ValueError` because the vector is empty.
   */
  function Amin(xs: seq<real>): (r: Option<real>)
    ensures r.None? <==> xs == []
    ensures r.Some? ==> r.value in xs && IsLowerBound(r.value, xs)
  {
    if xs == [] then None
    else
      match Amin(xs[1..])
      case None => Some(xs[0])
      case Some(m) => Some(if xs[0] <= m then xs[0] else m)
  }
}
