/** Result types shared by every module.

    A reducer either returns a value, raises a protocol rejection (which the stores record), or dies on an
    uncaught lookup error (which no store records): the last is `Fault`. */
module Base {
  datatype Option<+T> = None | Some(value: T)

  datatype ErrorCode =
    | InvalidCommand
    | UnsupportedProtocolVersion
    | ResourceLimitExceeded
    | InvalidUtf8
    | ControlFieldInjection
    | InvalidAuthority
    | AuthorityExpired
    | AuthorityScopeMismatch
    | StaleLoopRevision
    | StaleSubjectRevision
    | IdempotencyConflict
    | ForeignReference
    | WrongReferenceKind
    | InvalidTransition
    | ReceiptRequired
    | ReceiptIssuerUntrusted
    | ReceiptExpired
    | ReceiptIdentityMismatch
    | FinalizationPreconditionFailed
    | InternalInvariantViolation
    | UserConfirmationRequired
    | UserConfirmationStale
    | AttemptAlreadyConsumed

  datatype Failure = Rejected(code: ErrorCode) | Fault

  datatype Result<+T> = Ok(value: T) | Err(failure: Failure) {
    predicate IsFailure() { Err? }
    function PropagateFailure<U>(): Result<U> requires Err? { Err(failure) }
    function Extract(): T requires Ok? { value }
  }

  /** A check that carries no value, for use with `:-`. */
  datatype Check = Pass | Stop(failure: Failure) {
    predicate IsFailure() { Stop? }
    function PropagateFailure<U>(): Result<U> requires Stop? { Err(failure) }
  }

  function Need(condition: bool, code: ErrorCode): Check {
    if condition then Pass else Stop(Rejected(code))
  }

  /** Dictionary access that raises when the key is absent. */
  function Get<K, V>(m: map<K, V>, k: K): Result<V> {
    if k in m then Ok(m[k]) else Err(Fault)
  }

  /** `dict.get` */
  function Find<K, V>(m: map<K, V>, k: K): Option<V> {
    if k in m then Some(m[k]) else None
  }

  predicate NoRepeats<T(==)>(items: seq<T>) { forall i, j :: 0 <= i < j < |items| ==> items[i] != items[j] }

  lemma SingletonMembers<T>(s: set<T>, a: T, b: T)
    requires |s| == 1 && a in s && b in s
    ensures a == b
  {
    var rest := s - {a};
    assert |rest| == 0;
    assert b !in rest;
  }

  /** The only member of a set, when there is exactly one. */
  function Only<T>(s: set<T>): (r: Option<T>)
    ensures r.Some? <==> |s| == 1
    ensures r.Some? ==> s == {r.value}
  {
    if |s| == 1 then
      assert exists x :: x in s by { var x :| x in s; }
      assert forall a, b | a in s && b in s :: a == b by {
        forall a, b | a in s && b in s ensures a == b { SingletonMembers(s, a, b); }
      }
      var x :| x in s;
      Some(x)
    else None
  }
}
