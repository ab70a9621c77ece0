/**
 * The daemon's exception hierarchy (src/Exceptions).
 *
 * Every class extends DaemonException and only redeclares the constants
 * MESSAGE and CODE.  The one piece of behaviour is the base constructor,
 * `parent::__construct($message ?: static::MESSAGE, $code, $previous)`:
 * `static::` is late static binding, so the default message is the one of the
 * class actually being constructed.
 */
module Exceptions {

  import opened Wrappers

  /** The concrete classes; the value stands for what `static::` resolves to. */
  datatype ExceptionClass =
    | DaemonException
    | DaemonOperationNotSupportedException
    | CriticalException
    | ErrorException

  /** The constructed exception: its class, its message and its code. */
  datatype Throwable = Throwable(cls: ExceptionClass, message: string, code: int)

  /** PHP truthiness of a string: exactly "" and "0" are falsy. */
  predicate Truthy(s: string) {
    s != "" && s != "0"
  }

  /** The class constant MESSAGE of each class. */
  function ClassMessage(cls: ExceptionClass): (m: string)
    ensures Truthy(m)
  {
    match cls
    case DaemonException => "Daemon error."
    case DaemonOperationNotSupportedException => "Daemon operation not supported."
    case CriticalException => "Daemon critical error."
    case ErrorException => "Daemon error. Restart."
  }

  /** The class constant CODE, where the class declares one (the base class does not). */
  function DeclaredCode(cls: ExceptionClass): (c: Option<int>)
    ensures c.Some? <==> cls != DaemonException
  {
    match cls
    case DaemonException => None
    case DaemonOperationNotSupportedException => Some(406)
    case CriticalException => Some(500)
    case ErrorException => Some(500)
  }

  /**
   * `new cls($message, $code)`: a falsy message is replaced by the MESSAGE
   * of `cls`, a truthy one is kept verbatim; the code is the argument as
   * given, whatever CODE the class declares.
   */
  function New(cls: ExceptionClass, message: string, code: int): (e: Throwable)
    ensures e.cls == cls && e.code == code
    ensures Truthy(message) ==> e.message == message
    ensures !Truthy(message) ==> e.message == ClassMessage(cls)
    ensures Truthy(e.message)
  {
    Throwable(cls, if Truthy(message) then message else ClassMessage(cls), code)
  }

  /** `new cls()`: both arguments take their defaults, '' and 0. */
  function NewDefault(cls: ExceptionClass): (e: Throwable)
    ensures e == New(cls, "", 0)
    ensures e.message == ClassMessage(cls) && e.code == 0
  {
    New(cls, "", 0)
  }

  /** With no message, DaemonException carries 'Daemon error.'. */
  lemma DaemonExceptionDefault()
    ensures NewDefault(DaemonException).message == "Daemon error."
  {
  }

  /**
   * With no message, DaemonOperationNotSupportedException carries
   * 'Daemon operation not supported.' and code 0, not its CODE 406.
   */
  lemma OperationNotSupportedDefault()
    ensures NewDefault(DaemonOperationNotSupportedException).message == "Daemon operation not supported."
    ensures NewDefault(DaemonOperationNotSupportedException).code == 0
    ensures DeclaredCode(DaemonOperationNotSupportedException) == Some(406)
  {
  }

  /** With no message, CriticalException carries 'Daemon critical error.' and code 0, not 500. */
  lemma CriticalDefault()
    ensures NewDefault(CriticalException).message == "Daemon critical error."
    ensures NewDefault(CriticalException).code == 0
    ensures DeclaredCode(CriticalException) == Some(500)
  {
  }

  /** With no message, ErrorException carries 'Daemon error. Restart.' and code 0, not 500. */
  lemma ErrorDefault()
    ensures NewDefault(ErrorException).message == "Daemon error. Restart."
    ensures NewDefault(ErrorException).code == 0
    ensures DeclaredCode(ErrorException) == Some(500)
  {
  }

  /** The default messages tell the classes apart. */
  lemma ClassMessageInjective(a: ExceptionClass, b: ExceptionClass)
    ensures ClassMessage(a) == ClassMessage(b) ==> a == b
  {
  }

  /**
   * Re-raising with the message of an exception gives the same exception:
   * the stored message is always truthy, so the default rule never fires twice.
   */
  lemma NewIdempotent(cls: ExceptionClass, message: string, code: int)
    ensures New(cls, New(cls, message, code).message, code) == New(cls, message, code)
  {
  }

  /**
   * An exception ends up with its class's default message exactly when it was
   * given a falsy message or that very default text.
   */
  lemma DefaultMessageExactly(cls: ExceptionClass, message: string, code: int)
    ensures New(cls, message, code).message == ClassMessage(cls) <==> !Truthy(message) || message == ClassMessage(cls)
  {
  }
}
