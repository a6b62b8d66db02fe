/**
 * The error helper of the service: plain errors, wrapped errors and errors
 * that carry an HTTP status code, and the classifier that reads the code back.
 */
module ErrorHelper {

  import opened Wrappers

  const StatusOK := 200
  const StatusBadRequest := 400
  const StatusNotFound := 404
  const StatusInternalServerError := 500

  /** A non-nil Go `error` as this package builds them; nil is `None` of `Option<Error>`. */
  datatype Error =
    | Plain(text: string)               // errors.New(text)
    | Joined(head: Error, tail: Error)  // fmt.Errorf("%w: %w", head, tail)
    | Coded(code: int, cause: Error)    // &Error{code: code, err: cause}

  /** `err.Error()`: the text an error prints. A coded error prints its cause. */
  function Message(e: Error): (m: string)
    ensures e.Joined? ==> Message(e.head) + ": " <= m
    ensures e.Coded? ==> m == Message(e.cause)
  {
    match e
    case Plain(t) => t
    case Joined(h, t) => Message(h) + ": " + Message(t)
    case Coded(_, c) => Message(c)
  }

  /** `(*Error).Error()`: the code is not part of the text. */
  lemma CodedMessage(code: int, cause: Error)
    ensures Message(Coded(code, cause)) == Message(cause)
    ensures GetCode(Some(Coded(code, cause))) == code
  {
  }

  /** `New(msg)`: an uncoded error whose text is `msg`. */
  function New(msg: string): (e: Error)
    ensures Message(e) == msg
    ensures GetCode(Some(e)) == StatusOK
  {
    Plain(msg)
  }

  /**
   * `Wrap(err, msg)`: `New(msg)` when `err` is nil, otherwise `msg` joined
   * before `err`. The result never carries a code, even around a coded error.
   */
  function Wrap(err: Option<Error>, msg: string): (e: Error)
    ensures err.None? ==> e == New(msg)
    ensures err.Some? ==> Message(e) == msg + ": " + Message(err.value)
    ensures GetCode(Some(e)) == StatusOK
  {
    if err.None? then New(msg) else Joined(New(msg), err.value)
  }

  /** `NewWithCode(msg, code)`: text `msg`, classified as `code`. */
  function NewWithCode(msg: string, code: int): (e: Error)
    ensures Message(e) == msg
    ensures GetCode(Some(e)) == code
  {
    Coded(code, Plain(msg))
  }

  /**
   * `WrapWithCode(err, msg, code)`: `NewWithCode(msg, code)` when `err` is nil,
   * otherwise a coded error whose text is `msg` joined before `err`'s text.
   */
  function WrapWithCode(err: Option<Error>, msg: string, code: int): (e: Error)
    ensures err.None? ==> e == NewWithCode(msg, code)
    ensures err.Some? ==> Message(e) == msg + ": " + Message(err.value)
    ensures GetCode(Some(e)) == code
  {
    if err.None? then NewWithCode(msg, code)
    else Coded(code, Joined(NewWithCode(msg, code), err.value))
  }

  /**
   * `GetCode(err)`: the code of the outermost error when that is a coded
   * error, and 200 for nil and for every other error. A code other than 200
   * therefore always comes from the outermost value.
   */
  function GetCode(err: Option<Error>): (code: int)
    ensures err.None? ==> code == StatusOK
    ensures code != StatusOK ==> err.Some? && err.value.Coded? && err.value.code == code
  {
    match err
    case Some(Coded(c, _)) => c
    case _ => StatusOK
  }

  /** A code is only read from the outermost value: re-wrapping with a new code hides the inner one. */
  lemma OuterCodeWins(inner: Error, msg: string, code: int)
    ensures GetCode(Some(WrapWithCode(Some(inner), msg, code))) == code
    ensures Message(WrapWithCode(Some(inner), msg, code)) == msg + ": " + Message(inner)
  {
  }

  /** Plain wrapping hides the code of a coded error: the result classifies as 200. */
  lemma WrapHidesCode(inner: Error, msg: string)
    requires inner.Coded? && inner.code != StatusOK
    ensures GetCode(Some(Wrap(Some(inner), msg))) == StatusOK != GetCode(Some(inner))
  {
  }
}
