/** The `@ExceptionHandler` that every controller declares: it walks at most
    five links of an exception's cause chain looking for a constraint
    violation and answers 400 if it finds one, 500 otherwise. */
module ErrorHandling {
  import opened Common

  /** The exception classes the model distinguishes. */
  datatype ExceptionKind =
    | JavaxConstraintViolation
    | HibernateConstraintViolation
    | DataIntegrityViolation
    | TransactionSystem
    | OtherException

  /** A thrown exception and its successive causes (`ex.cause`,
      `ex.cause.cause`, ...). A chain that loops back on itself is given by
      unrolling it at least five links deep. */
  datatype Thrown = Thrown(ex: ExceptionKind, causes: seq<ExceptionKind>)

  predicate IsConstraintViolation(k: ExceptionKind)
  {
    k == JavaxConstraintViolation || k == HibernateConstraintViolation
  }

  /** The exception classes listed in the handler's annotation; any other
      exception is not routed to it. */
  predicate Handled(k: ExceptionKind)
  {
    k != OtherException
  }

  /** Link `i` of the chain: 0 is the exception itself; `None` once the causes run out. */
  function Link(t: Thrown, i: nat): Option<ExceptionKind>
  {
    if i == 0 then Some(t.ex)
    else if i <= |t.causes| then Some(t.causes[i - 1])
    else None
  }

  predicate ViolationAt(t: Thrown, i: nat)
  {
    Link(t, i).Some? && IsConstraintViolation(Link(t, i).value)
  }

  /** `handleValidationFailure`: the loop `for (i in 0..4)` over `cause`. */
  method HandleValidationFailure(t: Thrown) returns (status: int)
    ensures status == 400 || status == 500
    ensures status == 400 <==> exists i :: 0 <= i < 5 && ViolationAt(t, i)
  {
    var cause := Some(t.ex);
    var i := 0;
    while i < 5
      invariant 0 <= i <= 5
      invariant cause == Link(t, i)
      invariant forall j :: 0 <= j < i ==> !ViolationAt(t, j)
    {
      if cause.Some? && IsConstraintViolation(cause.value) {
        assert ViolationAt(t, i);
        return 400;
      }
      cause := if i < |t.causes| then Some(t.causes[i]) else None;
      i := i + 1;
    }
    return 500;
  }

  /** The response to an exception that escapes a request handler: the
      handler's verdict for the classes it is declared for, the framework's
      500 for anything else. */
  method ErrorResponse(t: Thrown) returns (status: int)
    ensures status == 400 || status == 500
    ensures status == 400 <==> Handled(t.ex) && exists i :: 0 <= i < 5 && ViolationAt(t, i)
  {
    if Handled(t.ex) {
      status := HandleValidationFailure(t);
    } else {
      status := 500;
    }
  }

  /** A constraint violation six links deep is out of the handler's reach. */
  method DeepViolationScenario() returns (status: int)
    ensures status == 500
  {
    var t := Thrown(TransactionSystem, [OtherException, OtherException, OtherException, OtherException, JavaxConstraintViolation]);
    assert Link(t, 5) == Some(JavaxConstraintViolation);
    status := HandleValidationFailure(t);
  }
}
