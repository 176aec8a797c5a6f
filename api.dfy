/** The account API client: a request wrapper with no 401 special case and
    no empty-body fallback, and the four account endpoints built on it. */
module Api {
  import opened Wrappers
  import opened Fetch
  import UriEncoding

  const ClassName := "ApiError"
  const DefaultBaseUrl := "http://planet.myunghyun.me"
  const TimeoutMessage := "요청 시간이 초과되었습니다. 네트워크 연결을 확인해주세요."
  const NetworkMessage :=
    "네트워크 연결을 확인해주세요. 인터넷 연결을 확인하거나 서버가 정상적으로 작동하는지 확인해주세요."

  /** What an endpoint function passes to the wrapper: its path, its method
      and the headers it adds. The JSON body is not part of this model. */
  datatype Call = Call(endpoint: string, verb: string, headers: Headers)

  /** The base URL, fixed when the module loads: the configured one unless it
      is missing or empty. */
  function BaseUrl(env: Option<string>): (base: string)
    ensures base != ""
    ensures env.Some? && env.value != "" ==> base == env.value
    ensures env.None? || env.value == "" ==> base == DefaultBaseUrl
  {
    if env.Some? && env.value != "" then env.value else DefaultBaseUrl
  }

  const DefaultHeaders: Headers := map[ContentType := JsonMediaType]

  /** The body of the `try` block. The success body always goes through the
      parser, the empty one included. */
  function Attempt<V>(t: Transport, parse: string -> Result<V, string>): (r: Result<V, Thrown>)
    ensures t.Threw? ==> r == Failure(t.error)
    ensures t.Responded? && !IsOk(t.status) ==>
              r.Failure? && r.error.kind == WrapperError(t.status) && r.error.name == ClassName
    ensures t.Responded? && IsOk(t.status) ==> (r.Success? <==> parse(t.body).Success?)
  {
    match t
    case Threw(e) => Failure(e)
    case Responded(status, body, statusText) =>
      if !IsOk(status) then Failure(Thrown(WrapperError(status), ClassName, if body != "" then body else statusText))
      else
        match parse(body)
        case Success(v) => Success(v)
        case Failure(m) => Failure(ParseFailure(m))
  }

  /** `apiRequest`: the request it sends and what its caller gets. */
  function ApiRequest<V>(c: Call, env: Option<string>, transport: Transport, parse: string -> Result<V, string>)
    : (r: (Request, Result<V, HttpError>))
    ensures r.0.url == BaseUrl(env) + c.endpoint
    ensures r.0.headers.Keys == c.headers.Keys + {ContentType}
    ensures ContentType !in c.headers ==> r.0.headers[ContentType] == JsonMediaType
    ensures forall k :: k in c.headers ==> r.0.headers[k] == c.headers[k]
    ensures r.1.Failure? ==>
              r.1.error.status in {408, 0, 500}
              || (transport.Responded? && !IsOk(transport.status) && r.1.error.status == transport.status)
              || (transport.Threw? && transport.error.kind.WrapperError?)
  {
    var sent := Request(BaseUrl(env) + c.endpoint, Merge(DefaultHeaders, c.headers));
    match Attempt(transport, parse)
    case Success(v) => (sent, Success(v))
    case Failure(e) => (sent, Failure(Classify(e, TimeoutMessage, NetworkMessage)))
  }

  /** Every failing status, 401 included, keeps its status and carries the
      body, or the status text when the body is empty. */
  lemma FailingStatusCarriesBody<V>(c: Call, env: Option<string>, status: int, body: string, statusText: string,
                                    parse: string -> Result<V, string>)
    requires !IsOk(status)
    ensures ApiRequest(c, env, Responded(status, body, statusText), parse).1
            == Failure(HttpError(status, if body == "" then statusText else body))
  {
    ClassifyKeepsWrapperError(status, ClassName, if body == "" then statusText else body, TimeoutMessage, NetworkMessage);
  }

  /** A success body is whatever the parser makes of it; an empty body that
      the parser rejects is reported as an unknown error (500). */
  lemma SuccessBody<V>(c: Call, env: Option<string>, status: int, body: string, statusText: string,
                       parse: string -> Result<V, string>)
    requires IsOk(status)
    ensures parse(body).Success? ==>
              ApiRequest(c, env, Responded(status, body, statusText), parse).1 == Success(parse(body).value)
    ensures parse(body).Failure? ==>
              ApiRequest(c, env, Responded(status, body, statusText), parse).1
              == Failure(HttpError(500, UnknownPrefix + parse(body).error))
  {
  }

  /** The catch chain: abort 408, then network 0, then an `ApiError` as it
      is, then 500. */
  lemma CatchChain<V>(c: Call, env: Option<string>, e: Thrown, parse: string -> Result<V, string>)
    ensures IsErrorInstance(e) && e.name == AbortErrorName ==>
              ApiRequest(c, env, Threw(e), parse).1 == Failure(HttpError(408, TimeoutMessage))
    ensures !(IsErrorInstance(e) && e.name == AbortErrorName) && e.kind.TypeError? ==>
              ApiRequest(c, env, Threw(e), parse).1 == Failure(HttpError(0, NetworkMessage))
    ensures !(IsErrorInstance(e) && e.name == AbortErrorName) && e.kind.WrapperError? ==>
              ApiRequest(c, env, Threw(e), parse).1 == Failure(HttpError(e.kind.status, e.message))
    ensures !(IsErrorInstance(e) && e.name == AbortErrorName) && !e.kind.TypeError? && !e.kind.WrapperError? ==>
              ApiRequest(c, env, Threw(e), parse).1 == Failure(HttpError(500, UnknownPrefix + e.message))
  {
  }

  /** `signUp` and `signIn`: POSTs that add no header. */
  const SignUpCall := Call("/auth/register", "POST", map[])
  const SignInCall := Call("/auth/login", "POST", map[])

  /** `getMe(token)`: the token from the argument, as a bearer header. */
  function GetMeCall(token: string): (c: Call)
    ensures c.headers == map[Authorization := Bearer(token)]
    ensures c.endpoint == "/auth/me" && c.verb == "GET"
  {
    Call("/auth/me", "GET", map[Authorization := Bearer(token)])
  }

  /** `updateUser(email, data, token)`: a PATCH to the user's path segment,
      the email percent-encoded, with the bearer header. */
  function UpdateUserCall(email: string, token: string): (c: Call)
    ensures c.headers == map[Authorization := Bearer(token)]
    ensures c.verb == "PATCH"
    ensures |c.endpoint| >= 7 && c.endpoint[..7] == "/users/" && c.endpoint[7..] == UriEncoding.EncodeUriComponent(email)
  {
    Call("/users/" + UriEncoding.EncodeUriComponent(email), "PATCH", map[Authorization := Bearer(token)])
  }

  /** The requests of `getMe` and `updateUser` carry exactly the JSON content
      type and the bearer token of the argument. */
  lemma AuthenticatedCallsSendBearer<V>(email: string, token: string, env: Option<string>, t: Transport,
                                        parse: string -> Result<V, string>)
    ensures ApiRequest(GetMeCall(token), env, t, parse).0.headers
            == map[ContentType := JsonMediaType, Authorization := Bearer(token)]
    ensures ApiRequest(UpdateUserCall(email, token), env, t, parse).0.headers
            == map[ContentType := JsonMediaType, Authorization := Bearer(token)]
  {
  }

  /** `signUp` and `signIn` POST to `/auth/register` and `/auth/login`, and
      their requests carry the content type only. */
  lemma AnonymousCallsSendNoAuth<V>(env: Option<string>, t: Transport, parse: string -> Result<V, string>)
    ensures SignUpCall.verb == "POST" && SignInCall.verb == "POST"
    ensures ApiRequest(SignUpCall, env, t, parse).0.url == BaseUrl(env) + "/auth/register"
    ensures ApiRequest(SignInCall, env, t, parse).0.url == BaseUrl(env) + "/auth/login"
    ensures ApiRequest(SignUpCall, env, t, parse).0.headers == map[ContentType := JsonMediaType]
    ensures ApiRequest(SignInCall, env, t, parse).0.headers == map[ContentType := JsonMediaType]
  {
  }

  /** The email stays one path segment: after `/users/` no '/', '?' or '#'
      can appear, and two emails share a path only when they have the same
      UTF-8 bytes. */
  lemma UpdateUserPathIsOneSegment(email: string, token: string)
    ensures var p := UpdateUserCall(email, token).endpoint[7..];
      '/' !in p && '?' !in p && '#' !in p
  {
    UriEncoding.EncodeUriComponentChars(email);
  }

  lemma UpdateUserPathInjective(a: string, b: string, token: string)
    requires UpdateUserCall(a, token).endpoint == UpdateUserCall(b, token).endpoint
    ensures UriEncoding.Utf8String(a) == UriEncoding.Utf8String(b)
  {
    UriEncoding.EncodeUriComponentRoundTrip(a);
    UriEncoding.EncodeUriComponentRoundTrip(b);
    assert UpdateUserCall(a, token).endpoint[7..] == UpdateUserCall(b, token).endpoint[7..];
  }

  /** The '@' of an email address is escaped. */
  lemma UpdateUserExample(token: string)
    ensures UpdateUserCall("a@b.com", token).endpoint == "/users/a%40b.com"
  {
    EncodeEmailExample();
  }

  lemma EncodeEmailExample()
    ensures UriEncoding.EncodeUriComponent("a@b.com") == "a%40b.com"
  {
    assert UriEncoding.HexDigit(4) == '4' && UriEncoding.HexDigit(0) == '0';
    assert UriEncoding.PercentByte(64) == "%40";
    assert UriEncoding.PercentBytes([64]) == "%40" by {
      assert [64][1..] == [];
    }
    assert UriEncoding.Utf8('@') == [64];
    UriEncoding.EncodeUriComponentIdentity("b.com");
    var tail := "@b.com";
    assert tail[0] == '@' && tail[1..] == "b.com";
    assert UriEncoding.EncodeUriComponent(tail) == "%40" + "b.com";
    var whole := "a@b.com";
    assert whole[0] == 'a' && whole[1..] == tail;
    assert UriEncoding.EncodeUriComponent(whole) == "a" + UriEncoding.EncodeUriComponent(tail);
  }
}
