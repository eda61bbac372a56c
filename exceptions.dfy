/**
 * The client's exception hierarchy: FMPError, FMPAPIError derived from it,
 * FMPAuthError derived from FMPAPIError. An exception is a value carrying the
 * message it was built with and, from FMPAPIError down, its status code.
 */
module Exceptions {
  import opened Wrappers
  import opened Values

  /** The three exception classes. */
  datatype ErrorClass = FMPErrorClass | FMPAPIErrorClass | FMPAuthErrorClass

  /** The class each one is derived from, inside the hierarchy. */
  function Base(c: ErrorClass): Option<ErrorClass> {
    match c
    case FMPErrorClass => None
    case FMPAPIErrorClass => Some(FMPErrorClass)
    case FMPAuthErrorClass => Some(FMPAPIErrorClass)
  }

  function Depth(c: ErrorClass): nat {
    match c
    case FMPErrorClass => 0
    case FMPAPIErrorClass => 1
    case FMPAuthErrorClass => 2
  }

  /** `issubclass(c, d)`: d is c or one of the classes c derives from. */
  predicate IsSubclass(c: ErrorClass, d: ErrorClass)
    decreases Depth(c)
  {
    c == d || (Base(c).Some? && IsSubclass(Base(c).value, d))
  }

  /**
   * A raised exception. The message is whatever object was passed to the
   * constructor (a string, or the JSON value of an in-band error); the
   * status code defaults to None as in `FMPAPIError(message, status_code=None)`,
   * and FMPAuthError inherits that constructor.
   */
  datatype FMPError =
    | BaseError(message: Value)
    | APIError(message: Value, statusCode: Option<int> := None)
    | AuthError(message: Value, statusCode: Option<int> := None)

  function ClassOf(e: FMPError): ErrorClass {
    match e
    case BaseError(_) => FMPErrorClass
    case APIError(_, _) => FMPAPIErrorClass
    case AuthError(_, _) => FMPAuthErrorClass
  }

  /** `isinstance(e, c)`: which `except c` clauses catch e. */
  predicate IsInstance(e: FMPError, c: ErrorClass) {
    IsSubclass(ClassOf(e), c)
  }

  /** The hierarchy is a chain: FMPAuthError < FMPAPIError < FMPError, and no class is below its own subclass. */
  lemma Hierarchy()
    ensures IsSubclass(FMPAuthErrorClass, FMPAPIErrorClass) && IsSubclass(FMPAPIErrorClass, FMPErrorClass)
    ensures !IsSubclass(FMPAPIErrorClass, FMPAuthErrorClass) && !IsSubclass(FMPErrorClass, FMPAPIErrorClass)
  {
  }

  lemma {:induction false} SubclassTransitive(a: ErrorClass, b: ErrorClass, c: ErrorClass)
    requires IsSubclass(a, b) && IsSubclass(b, c)
    ensures IsSubclass(a, c)
    decreases Depth(a)
  {
    if a != b {
      SubclassTransitive(Base(a).value, b, c);
    }
  }

  /** An instance of a class is an instance of every class it derives from: `except FMPAPIError` also catches FMPAuthError. */
  lemma InstanceUpward(e: FMPError, c: ErrorClass, d: ErrorClass)
    requires IsInstance(e, c) && IsSubclass(c, d)
    ensures IsInstance(e, d)
  {
    SubclassTransitive(ClassOf(e), c, d);
  }

  /** Every exception of the client is an FMPError, and it has a status code exactly when it is an FMPAPIError. */
  lemma RootAndStatus(e: FMPError)
    ensures IsInstance(e, FMPErrorClass)
    ensures IsInstance(e, FMPAPIErrorClass) <==> (e.APIError? || e.AuthError?)
  {
  }
}
