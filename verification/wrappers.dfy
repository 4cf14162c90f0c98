/** Failure-carrying datatypes shared by the rest of the model, and the
    "first failure in list order" aggregation that the updater applies to the
    results of its joined tasks.
 */
module Wrappers {

  /** A value that may be absent. */
  datatype Option<+T> = None | Some(value: T)

  /** Either a value or an error. */
  datatype Result<+T, +E> = Success(value: T) | Failure(error: E) {

    /** Forgets the value, keeping only whether an error happened. */
    function ToOutcome(): (o: Outcome<E>)
      ensures o.Pass? <==> Success?
      ensures o.Fail? ==> o.error == error
    {
      match this
      case Success(_) => Pass
      case Failure(e) => Fail(e)
    }
  }

  /** Success without a value, or an error. */
  datatype Outcome<+E> = Pass | Fail(error: E)

  /** Consumes a list of results in order, the way a loop of `?` over joined
      tasks does: every value when all succeeded, otherwise the error of the
      first failure met. */
  function Collect<T, E>(rs: seq<Result<T, E>>): (r: Result<seq<T>, E>)
    ensures r.Success? <==> forall i :: 0 <= i < |rs| ==> rs[i].Success?
    ensures r.Success? ==> |r.value| == |rs|
    ensures r.Success? ==> forall i :: 0 <= i < |rs| ==> rs[i].value == r.value[i]
    ensures r.Failure? ==> Failure(r.error) in rs
  {
    if |rs| == 0 then Success([])
    else
      match rs[0]
      case Failure(e) => Failure(e)
      case Success(v) =>
        match Collect(rs[1..])
        case Failure(e) => Failure(e)
        case Success(vs) => Success([v] + vs)
  }

  /** The error Collect reports is the one of the earliest failing entry. */
  lemma {:induction false} CollectEarliestFailure<T, E>(rs: seq<Result<T, E>>, i: nat)
    requires i < |rs| && rs[i].Failure?
    requires forall j :: 0 <= j < i ==> rs[j].Success?
    ensures Collect(rs) == Failure(rs[i].error)
  {
    if i > 0 {
      assert rs[1..][i - 1] == rs[i];
      CollectEarliestFailure(rs[1..], i - 1);
    }
  }
}
