/** What the three request wrappers share: the header map they send, what
    `fetch` can do (resolve with a response or reject with a thrown value),
    the shape of a thrown JavaScript value, and the catch-block chain that
    turns any thrown value into a wrapper error. */
module Fetch {
  import opened Wrappers

  /** A header object literal; names are compared exactly as written. */
  type Headers = map<string, string>

  const ContentType := "Content-Type"
  const Authorization := "Authorization"
  const JsonMediaType := "application/json"

  /** The value of an `Authorization` header for a bearer token. */
  function Bearer(token: string): string {
    "Bearer " + token
  }

  /** `{ ...defaults, ...caller }`: every name of either object, with the
      caller's value winning where both have one. */
  function Merge(defaults: Headers, caller: Headers): (h: Headers)
    ensures h.Keys == defaults.Keys + caller.Keys
    ensures forall k :: k in caller ==> h[k] == caller[k]
    ensures forall k :: k in defaults && k !in caller ==> h[k] == defaults[k]
  {
    defaults + caller
  }

  /** What `instanceof` can tell about a thrown value. */
  datatype ErrorKind =
    | NotAnError             // a thrown value that is not an Error object
    | PlainError             // an Error (DOMException, SyntaxError, ...) that is no TypeError
    | TypeError              // an instance of TypeError
    | WrapperError(status: int)  // an instance of the wrapper's own error class

  /** A thrown value: its class, its `name` and its message (`String(e)` when
      it is not an Error). */
  datatype Thrown = Thrown(kind: ErrorKind, name: string, message: string)

  predicate IsErrorInstance(e: Thrown) {
    !e.kind.NotAnError?
  }

  const AbortErrorName := "AbortError"

  /** What `fetch` does with the request: reject, or resolve with a response
      whose `text()` is `body`. */
  datatype Transport =
    | Threw(error: Thrown)
    | Responded(status: int, body: string, statusText: string)

  /** `response.ok`. */
  predicate IsOk(status: int) {
    200 <= status <= 299
  }

  /** What the wrappers hand back on success: `{}` for an empty body, or the
      parsed value. */
  datatype Payload<V> = EmptyObject | Parsed(value: V)

  /** A wrapper error object as the caller sees it. */
  datatype HttpError = HttpError(status: int, message: string)

  /** The URL and headers a wrapper passes to `fetch`. */
  datatype Request = Request(url: string, headers: Headers)

  /** What `JSON.parse` (or `response.json()`) throws on malformed text. */
  function ParseFailure(message: string): Thrown {
    Thrown(PlainError, "SyntaxError", message)
  }

  const UnknownPrefix := "알 수 없는 오류가 발생했습니다: "

  /** The catch block shared by the three wrappers, in its fixed order: an
      Error named AbortError becomes 408, then a TypeError becomes 0, then the
      wrapper's own error is rethrown as it is, and anything else becomes 500
      with its message after a fixed prefix. Only these three statuses are
      invented here; every other status comes from a wrapper error unchanged. */
  function Classify(e: Thrown, timeoutMessage: string, networkMessage: string): (r: HttpError)
    ensures r.status in {408, 0, 500} || (e.kind.WrapperError? && r == HttpError(e.kind.status, e.message))
  {
    if IsErrorInstance(e) && e.name == AbortErrorName then HttpError(408, timeoutMessage)
    else if e.kind.TypeError? then HttpError(0, networkMessage)
    else if e.kind.WrapperError? then HttpError(e.kind.status, e.message)
    else HttpError(500, UnknownPrefix + e.message)
  }

  /** An error the wrapper itself threw (its `name` is its class name, never
      "AbortError") comes out of the catch block unchanged. */
  lemma ClassifyKeepsWrapperError(status: int, className: string, message: string, timeoutMessage: string, networkMessage: string)
    requires className != AbortErrorName
    ensures Classify(Thrown(WrapperError(status), className, message), timeoutMessage, networkMessage)
            == HttpError(status, message)
  {
  }

  /** The abort test comes first: even a TypeError named "AbortError" is a timeout. */
  lemma ClassifyAbortFirst(e: Thrown, timeoutMessage: string, networkMessage: string)
    requires IsErrorInstance(e) && e.name == AbortErrorName
    ensures Classify(e, timeoutMessage, networkMessage).status == 408
  {
  }

  /** The second step: a TypeError (how `fetch` reports an unreachable
      server) that is not named "AbortError" is a network failure, status 0. */
  lemma ClassifyTypeError(e: Thrown, timeoutMessage: string, networkMessage: string)
    requires !(IsErrorInstance(e) && e.name == AbortErrorName)
    requires e.kind.TypeError?
    ensures Classify(e, timeoutMessage, networkMessage) == HttpError(0, networkMessage)
  {
  }

  /** A value that is neither an abort, a TypeError nor a wrapper error always
      becomes a 500 whose message starts with the fixed prefix. */
  lemma ClassifyUnknown(e: Thrown, timeoutMessage: string, networkMessage: string)
    requires !(IsErrorInstance(e) && e.name == AbortErrorName)
    requires !e.kind.TypeError? && !e.kind.WrapperError?
    ensures var r := Classify(e, timeoutMessage, networkMessage);
      r.status == 500 && r.message[..|UnknownPrefix|] == UnknownPrefix
  {
  }
}
