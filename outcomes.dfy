/**
 * Results and errors shared by the whole model. Python exceptions raised by
 * the library become `Failure` values carrying the exception's class.
 */
module Outcomes {

  datatype Option<+T> = None | Some(value: T)

  /** The Python exception classes the modelled code can raise. */
  datatype Error =
    | TypeError
    | ValueError
    | IndexError
    | KeyError
    | NotImplementedError
    | ZeroDivisionError

  datatype Result<+T> = Success(value: T) | Failure(error: Error) {

    predicate IsFailure() {
      Failure?
    }

    function PropagateFailure<U>(): Result<U>
      requires Failure?
    {
      Failure(error)
    }

    function Extract(): T
      requires Success?
    {
      value
    }
  }

  /**
   * Applies `f` to every element in order and collects the results, stopping
   * at the first failure: the shape of `list(generator)` and of
   * `Pool.map`/`Pool.starmap` gathering their results in input order.
   */
  function MapResults<T, U>(xs: seq<T>, f: T -> Result<U>): (r: Result<seq<U>>)
    ensures r.Success? <==> forall i :: 0 <= i < |xs| ==> f(xs[i]).Success?
    ensures r.Success? ==> |r.value| == |xs|
    ensures r.Success? ==> forall i :: 0 <= i < |xs| ==> r.value[i] == f(xs[i]).value
    ensures r.Failure? ==> exists i :: 0 <= i < |xs| && f(xs[i]) == Failure(r.error)
    decreases |xs|
  {
    if |xs| == 0 then
      Success([])
    else
      var head :- f(xs[0]);
      var tail :- MapResults(xs[1..], f);
      assert forall i :: 1 <= i < |xs| ==> xs[i] == xs[1..][i - 1];
      Success([head] + tail)
  }

  function Min(a: int, b: int): int {
    if a <= b then a else b
  }
}
