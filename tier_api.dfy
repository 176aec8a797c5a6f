/** The tier API client: a request wrapper that refuses to send an
    authenticated request without a stored token, and the current-month
    tier endpoint. */
module TierApi {
  import opened Wrappers
  import opened Fetch

  const ClassName := "TierApiError"
  const MissingTokenMessage := "인증 토큰이 없습니다."
  const ReloginMessage := "인증이 필요합니다. 로그인을 다시 해주세요."
  const TimeoutMessage := "요청 시간이 초과되었습니다."
  const NetworkMessage := "네트워크 연결을 확인해주세요."

  /** The wrapper's options; an omitted `requireAuth` is `None`. */
  datatype Options = Options(requireAuth: Option<bool>, headers: Headers)

  function RequireAuth(o: Options): bool {
    o.requireAuth.GetOr(true)
  }

  /** A stored token that `if (!token)` does not reject. */
  predicate HasToken(token: Option<string>) {
    token.Some? && token.value != ""
  }

  /** The request is refused before anything is sent. */
  predicate FailsFast(o: Options, token: Option<string>) {
    RequireAuth(o) && !HasToken(token)
  }

  /** The URL: the configured base with no fallback; an unset variable is
      rendered by the template literal as the text "undefined". */
  function Url(env: Option<string>, endpoint: string): (url: string)
    ensures |url| >= |endpoint| && url[|url| - |endpoint|..] == endpoint
    ensures env.Some? ==> |url| >= |env.value| && url[..|env.value|] == env.value
    ensures env.None? ==> |url| >= 9 && url[..9] == "undefined"
  {
    env.GetOr("undefined") + endpoint
  }

  /** The default headers of a request that is sent: always the JSON content
      type, and the bearer token whenever authentication is wanted. */
  function DefaultHeaders(o: Options, token: Option<string>): (h: Headers)
    requires !FailsFast(o, token)
    ensures ContentType in h && h[ContentType] == JsonMediaType
    ensures Authorization in h <==> RequireAuth(o)
    ensures Authorization in h ==> h[Authorization] == Bearer(token.value)
    ensures h.Keys <= {ContentType, Authorization}
  {
    var base: Headers := map[ContentType := JsonMediaType];
    if RequireAuth(o) then base[Authorization := Bearer(token.value)] else base
  }

  /** The body of the `try` block: a thrown value, or what is returned. */
  function Attempt<V>(t: Transport, parse: string -> Result<V, string>): (r: Result<Payload<V>, Thrown>)
    ensures t.Threw? ==> r == Failure(t.error)
    ensures t.Responded? && !IsOk(t.status) ==>
              r.Failure? && r.error.kind == WrapperError(t.status) && r.error.name == ClassName
    ensures t.Responded? && IsOk(t.status) ==> (r.Failure? <==> t.body != "" && parse(t.body).Failure?)
  {
    match t
    case Threw(e) => Failure(e)
    case Responded(status, body, statusText) =>
      if !IsOk(status) then
        if status == 401 then Failure(Thrown(WrapperError(401), ClassName, ReloginMessage))
        else Failure(Thrown(WrapperError(status), ClassName, if body != "" then body else statusText))
      else if body == "" then Success(EmptyObject)
      else
        match parse(body)
        case Success(v) => Success(Parsed(v))
        case Failure(m) => Failure(ParseFailure(m))
  }

  /** What the caller gets once a request has been sent. */
  function Outcome<V>(t: Transport, parse: string -> Result<V, string>): (r: Result<Payload<V>, HttpError>)
    ensures r.Success? <==> t.Responded? && IsOk(t.status) && (t.body == "" || parse(t.body).Success?)
  {
    match Attempt(t, parse)
    case Success(p) => Success(p)
    case Failure(e) => Failure(Classify(e, TimeoutMessage, NetworkMessage))
  }

  /** The request wrapper. Without a token an authenticated request throws
      before the `try` block: nothing is sent and the error reaches the
      caller as thrown. Otherwise the headers are built in place, the
      caller's headers are merged over them and the `try`/`catch` sequence
      runs on what the transport did. */
  method TierApiRequest<V>(endpoint: string, o: Options, env: Option<string>, token: Option<string>,
                           transport: Transport, parse: string -> Result<V, string>)
    returns (sent: Option<Request>, result: Result<Payload<V>, HttpError>)
    ensures FailsFast(o, token) ==> sent == None && result == Failure(HttpError(401, MissingTokenMessage))
    ensures !FailsFast(o, token) ==>
              && sent == Some(Request(Url(env, endpoint), Merge(DefaultHeaders(o, token), o.headers)))
              && result == Outcome(transport, parse)
  {
    var requireAuth := o.requireAuth.GetOr(true);
    var defaultHeaders: Headers := map[ContentType := JsonMediaType];
    if requireAuth {
      if token.None? || token.value == "" {
        sent := None;
        result := Failure(HttpError(401, MissingTokenMessage));
        return;
      }
      defaultHeaders := defaultHeaders[Authorization := Bearer(token.value)];
    }
    var url := env.GetOr("undefined") + endpoint;
    sent := Some(Request(url, Merge(defaultHeaders, o.headers)));

    var thrown: Option<Thrown> := None;
    var payload: Payload<V> := EmptyObject;
    match transport {
      case Threw(e) =>
        thrown := Some(e);
      case Responded(status, body, statusText) =>
        if !IsOk(status) {
          var errorText := body;
          if status == 401 {
            thrown := Some(Thrown(WrapperError(401), ClassName, ReloginMessage));
          } else {
            thrown := Some(Thrown(WrapperError(status), ClassName, if errorText != "" then errorText else statusText));
          }
        } else if body == "" {
          payload := EmptyObject;
        } else {
          match parse(body) {
            case Success(v) => payload := Parsed(v);
            case Failure(m) => thrown := Some(ParseFailure(m));
          }
        }
    }

    if thrown.Some? {
      result := Failure(Classify(thrown.value, TimeoutMessage, NetworkMessage));
    } else {
      result := Success(payload);
    }
  }

  /** An omitted `requireAuth` means "authenticate", so with no options and no
      token the call fails fast; an empty stored token counts as none. */
  lemma DefaultRequiresToken(headers: Headers)
    ensures FailsFast(Options(None, headers), None)
    ensures FailsFast(Options(None, headers), Some(""))
    ensures !FailsFast(Options(Some(false), headers), None)
  {
  }

  /** A 401 response gives the fixed re-login message, which differs from the
      missing-token message: the caller can tell the two apart. */
  lemma UnauthorizedIsRelogin<V>(body: string, statusText: string, parse: string -> Result<V, string>)
    ensures Outcome(Responded(401, body, statusText), parse) == Failure(HttpError(401, ReloginMessage))
    ensures ReloginMessage != MissingTokenMessage
  {
    assert ReloginMessage[2] != MissingTokenMessage[2];
  }

  /** Any other failing status keeps its status and carries the body, or the
      status text when the body is empty. */
  lemma FailingStatusCarriesBody<V>(status: int, body: string, statusText: string, parse: string -> Result<V, string>)
    requires !IsOk(status) && status != 401
    ensures Outcome(Responded(status, body, statusText), parse)
            == Failure(HttpError(status, if body == "" then statusText else body))
  {
    ClassifyKeepsWrapperError(status, ClassName, if body == "" then statusText else body, TimeoutMessage, NetworkMessage);
  }

  /** A successful response with an empty body yields `{}`; otherwise the
      parsed body, or a 500 when it does not parse. */
  lemma SuccessBody<V>(status: int, body: string, statusText: string, parse: string -> Result<V, string>)
    requires IsOk(status)
    ensures body == "" ==> Outcome(Responded(status, body, statusText), parse) == Success(EmptyObject)
    ensures body != "" && parse(body).Success? ==>
              Outcome(Responded(status, body, statusText), parse) == Success(Parsed(parse(body).value))
    ensures body != "" && parse(body).Failure? ==>
              Outcome(Responded(status, body, statusText), parse) == Failure(HttpError(500, UnknownPrefix + parse(body).error))
  {
  }

  /** The catch chain: abort 408, then network 0, then a tier error as it is,
      then 500. */
  lemma CatchChain<V>(e: Thrown, parse: string -> Result<V, string>)
    ensures IsErrorInstance(e) && e.name == AbortErrorName ==>
              Outcome(Threw(e), parse) == Failure(HttpError(408, TimeoutMessage))
    ensures !(IsErrorInstance(e) && e.name == AbortErrorName) && e.kind.TypeError? ==>
              Outcome(Threw(e), parse) == Failure(HttpError(0, NetworkMessage))
    ensures !(IsErrorInstance(e) && e.name == AbortErrorName) && !e.kind.TypeError? && !e.kind.WrapperError? ==>
              Outcome(Threw(e), parse) == Failure(HttpError(500, UnknownPrefix + e.message))
  {
  }

  const CurrentTierEndpoint := "/tier/current"

  /** `getCurrentMonthTier`: the default options at `/tier/current`. */
  lemma CurrentMonthTierUrl(env: Option<string>)
    ensures env.Some? ==> Url(env, CurrentTierEndpoint) == env.value + "/tier/current"
    ensures env.None? ==> Url(env, CurrentTierEndpoint) == "undefined/tier/current"
  {
  }
}
