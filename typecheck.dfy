/**
 * The `check_types` decorator: before an operation between two objects runs,
 * the exact (concrete) types of its first two arguments are compared. Only
 * those two are looked at; any further arguments are handed on unchecked.
 */
module TypeCheck {
  import opened Outcomes

  /**
   * `typeOf` gives the concrete type of a value (`type(x)` in Python); two
   * values pass only when their types are identical, so a subtype does not
   * match its parent type.
   */
  function CheckTypes<T, K(==), A, R>(typeOf: T -> K, f: (T, T, A) -> Result<R>,
                                      owner: T, other: T, args: A): (r: Result<R>)
    ensures typeOf(owner) == typeOf(other) ==> r == f(owner, other, args)
    ensures typeOf(owner) != typeOf(other) ==> r == Failure(TypeError)
  {
    if typeOf(owner) != typeOf(other) then
      Failure(TypeError)
    else
      f(owner, other, args)
  }

  /**
   * On a mismatch the wrapped operation is never consulted: replacing it by
   * any other operation does not change the outcome.
   */
  lemma MismatchNeverCallsOperation<T, K, A, R>(typeOf: T -> K, f: (T, T, A) -> Result<R>,
                                                    g: (T, T, A) -> Result<R>,
                                                    owner: T, other: T, args: A)
    requires typeOf(owner) != typeOf(other)
    ensures CheckTypes(typeOf, f, owner, other, args) == CheckTypes(typeOf, g, owner, other, args)
    ensures CheckTypes(typeOf, f, owner, other, args) == Failure(TypeError)
  {
  }

  /**
   * The extra arguments play no part in the check: running the check with
   * any other extra arguments, on the operation with `args` built into it,
   * gives the same outcome, match or mismatch.
   */
  lemma ExtraArgumentsNotInspected<T, K, A, R>(typeOf: T -> K, f: (T, T, A) -> Result<R>,
                                                   owner: T, other: T, args: A, otherArgs: A)
    ensures CheckTypes(typeOf, f, owner, other, args)
            == CheckTypes(typeOf, (a: T, b: T, z: A) => f(a, b, args), owner, other, otherArgs)
  {
  }
}
