/**
  The failure normalizer: `InspectionException`, Columbo's unchecked
  exception (a `RuntimeException`) for unexpected failures during class
  loading or bytecode reading, its three constructors, and `asRuntimeException`, which passes runtime exceptions
  through and wraps checked ones.
 */
module Inspection {
  import opened Wrappers

  const ClassNotFound: string := "java.lang.ClassNotFoundException"

  /** A Java exception, distinguished by where it sits in the hierarchy. A
      value stands for one exception object: the same value is the same
      instance. `message` is the message given explicitly, if any.
      `typeName` is the Java class name for information only: which variant
      a value is, not its name, decides whether it is a runtime exception. */
  datatype Exn =
    | Checked(typeName: string, message: Option<string>, cause: Option<Exn>)    // an Exception that is not a RuntimeException
    | Unchecked(typeName: string, message: Option<string>, cause: Option<Exn>)  // a RuntimeException other than InspectionException
    | InspectionException(message: Option<string>, cause: Option<Exn>)

  /** `InspectionException` extends `RuntimeException`. */
  predicate IsRuntimeException(e: Exn) {
    e.Unchecked? || e.InspectionException?
  }

  /** The one checked exception the message-and-cause constructor accepts.
      Only `ClassNotFoundException` itself is represented here; its
      subclasses, which Java would accept as well, are not. */
  type ClassNotFoundException = e: Exn | e.Checked? && e.typeName == ClassNotFound
    witness Checked(ClassNotFound, None, None)

  /** `new InspectionException(exc)`: an unchecked exception whose cause is `exc`. */
  function FromCause(exc: Exn): (r: Exn)
    ensures IsRuntimeException(r) && r.InspectionException?
    ensures r.cause == Some(exc) && r.message == None
  {
    InspectionException(None, Some(exc))
  }

  /** `new InspectionException(message)`: that message, no cause. */
  function WithMessage(message: string): (r: Exn)
    ensures IsRuntimeException(r) && r.InspectionException?
    ensures r.message == Some(message) && r.cause == None
  {
    InspectionException(Some(message), None)
  }

  /** `new InspectionException(message, exc)` for a class that cannot be
      resolved: both the message and the cause are kept. */
  function WithMessageAndCause(message: string, exc: ClassNotFoundException): (r: Exn)
    ensures IsRuntimeException(r) && r.InspectionException?
    ensures r.message == Some(message) && r.cause == Some(exc)
    ensures r.cause.value.typeName == ClassNotFound
  {
    InspectionException(Some(message), Some(exc))
  }

  /** Every runtime exception (not only an `InspectionException`) is
      returned itself; a checked one is wrapped as the cause of a new
      `InspectionException`. The result is always a runtime exception. */
  function AsRuntimeException(exc: Exn): (r: Exn)
    ensures IsRuntimeException(r)
    ensures IsRuntimeException(exc) ==> r == exc
    ensures !IsRuntimeException(exc) ==> r.InspectionException? && r.cause == Some(exc) && r == FromCause(exc)
  {
    if IsRuntimeException(exc) then exc else FromCause(exc)
  }

  /** Normalizing twice is normalizing once: a result is never wrapped again. */
  lemma AsRuntimeExceptionIdempotent(exc: Exn)
    ensures AsRuntimeException(AsRuntimeException(exc)) == AsRuntimeException(exc)
  {
  }

  /** Nothing is lost: the argument is the result itself, or the result's cause. */
  lemma AsRuntimeExceptionKeepsOriginal(exc: Exn)
    ensures var r := AsRuntimeException(exc);
      r == exc || (r.cause == Some(exc) && !IsRuntimeException(exc))
  {
  }

  /** A new exception is made exactly when the argument is checked; the
      wrapper then holds the argument one level deep, never a runtime
      exception. */
  lemma AsRuntimeExceptionWrapsOnlyChecked(exc: Exn)
    ensures AsRuntimeException(exc) != exc <==> !IsRuntimeException(exc)
    ensures AsRuntimeException(exc) != exc ==> AsRuntimeException(exc).cause.value.Checked?
  {
  }
}
