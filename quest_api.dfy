/** The quest API client: its request wrapper, the endpoints built on it,
    the null mapping of today's quest and the history query's guard. */
module QuestApi {
  import opened Wrappers
  import opened Fetch
  import JsText
  import UriEncoding
  import QueryKeys

  const ClassName := "QuestApiError"
  const DefaultBaseUrl := "http://planet.myunghyun.me"
  const ReloginMessage := "인증이 필요합니다. 로그인을 다시 해주세요."
  const TimeoutMessage := "요청 시간이 초과되었습니다."
  const NetworkMessage := "네트워크 연결을 확인해주세요."
  const ImageFailureMessage := "이미지 처리에 실패했습니다."

  /** The wrapper's options; an omitted flag is `None`. */
  datatype Options = Options(requireAuth: Option<bool>, isMultipart: Option<bool>, headers: Headers)

  /** What an endpoint function passes to the wrapper. */
  datatype Call = Call(endpoint: string, verb: string, options: Options)

  function RequireAuth(o: Options): bool {
    o.requireAuth.GetOr(true)
  }

  function IsMultipart(o: Options): bool {
    o.isMultipart.GetOr(false)
  }

  /** The base URL: the configured one unless it is missing or empty, so
      never empty itself. */
  function BaseUrl(env: Option<string>): (base: string)
    ensures base != ""
    ensures env.Some? && env.value != "" ==> base == env.value
    ensures env.None? || env.value == "" ==> base == DefaultBaseUrl
  {
    if env.Some? && env.value != "" then env.value else DefaultBaseUrl
  }

  /** A stored token that `if (authToken)` accepts. */
  predicate HasToken(token: Option<string>) {
    token.Some? && token.value != ""
  }

  /** The default headers: JSON content type unless multipart, and the
      bearer token when authentication is wanted and a token is stored. A
      missing token (or a failed read, which arrives here as `None`) only
      leaves the header out. */
  function DefaultHeaders(o: Options, token: Option<string>): (h: Headers)
    ensures ContentType in h <==> !IsMultipart(o)
    ensures ContentType in h ==> h[ContentType] == JsonMediaType
    ensures Authorization in h <==> RequireAuth(o) && HasToken(token)
    ensures Authorization in h ==> h[Authorization] == Bearer(token.value)
    ensures h.Keys <= {ContentType, Authorization}
  {
    var base: Headers := if IsMultipart(o) then map[] else map[ContentType := JsonMediaType];
    if RequireAuth(o) && HasToken(token) then base[Authorization := Bearer(token.value)] else base
  }

  /** The body of the `try` block: a thrown value, or what is returned. */
  function Attempt<V>(t: Transport, parse: string -> Result<V, string>): (r: Result<Payload<V>, Thrown>)
    ensures t.Threw? ==> r == Failure(t.error)
    ensures t.Responded? && !IsOk(t.status) ==>
              r.Failure? && r.error.kind == WrapperError(t.status) && r.error.name == ClassName
    ensures t.Responded? && IsOk(t.status) ==> (r.Failure? <==> t.body != "" && parse(t.body).Failure?)
  {
    match t
    case Threw(e) => Failure(e)
    case Responded(status, body, statusText) =>
      if !IsOk(status) then
        if status == 401 then Failure(Thrown(WrapperError(401), ClassName, ReloginMessage))
        else Failure(Thrown(WrapperError(status), ClassName, if body != "" then body else statusText))
      else if body == "" then Success(EmptyObject)
      else
        match parse(body)
        case Success(v) => Success(Parsed(v))
        case Failure(m) => Failure(ParseFailure(m))
  }

  /** What the caller of the wrapper gets: the `try` result, with anything
      thrown passed through the catch block. */
  function Outcome<V>(t: Transport, parse: string -> Result<V, string>): (r: Result<Payload<V>, HttpError>)
    ensures r.Success? <==> t.Responded? && IsOk(t.status) && (t.body == "" || parse(t.body).Success?)
  {
    match Attempt(t, parse)
    case Success(p) => Success(p)
    case Failure(e) => Failure(Classify(e, TimeoutMessage, NetworkMessage))
  }

  /** The request wrapper: builds the default headers in place, merges the
      caller's headers over them, and runs the `try`/`catch` sequence on what
      the transport did. The timer that aborts after ten seconds is the
      transport's business: its firing is the `AbortError` outcome. */
  method QuestApiRequest<V>(endpoint: string, o: Options, env: Option<string>, token: Option<string>,
                            transport: Transport, parse: string -> Result<V, string>)
    returns (sent: Request, result: Result<Payload<V>, HttpError>)
    ensures sent == Request(BaseUrl(env) + endpoint, Merge(DefaultHeaders(o, token), o.headers))
    ensures result == Outcome(transport, parse)
  {
    var requireAuth := o.requireAuth.GetOr(true);
    var isMultipart := o.isMultipart.GetOr(false);
    var url := BaseUrl(env) + endpoint;

    var defaultHeaders: Headers := map[];
    if !isMultipart {
      defaultHeaders := defaultHeaders[ContentType := JsonMediaType];
    }
    if requireAuth {
      if token.Some? && token.value != "" {
        defaultHeaders := defaultHeaders[Authorization := Bearer(token.value)];
      }
    }
    sent := Request(url, Merge(defaultHeaders, o.headers));

    var thrown: Option<Thrown> := None;
    var payload: Payload<V> := EmptyObject;
    match transport {
      case Threw(e) =>
        thrown := Some(e);
      case Responded(status, body, statusText) =>
        if !IsOk(status) {
          var errorText := body;
          if status == 401 {
            thrown := Some(Thrown(WrapperError(401), ClassName, ReloginMessage));
          } else {
            thrown := Some(Thrown(WrapperError(status), ClassName, if errorText != "" then errorText else statusText));
          }
        } else if body == "" {
          payload := EmptyObject;
        } else {
          match parse(body) {
            case Success(v) => payload := Parsed(v);
            case Failure(m) => thrown := Some(ParseFailure(m));
          }
        }
    }

    if thrown.Some? {
      result := Failure(Classify(thrown.value, TimeoutMessage, NetworkMessage));
    } else {
      result := Success(payload);
    }
  }

  /** Omitted flags mean "authenticate" and "not multipart". */
  lemma OptionDefaults(headers: Headers)
    ensures RequireAuth(Options(None, None, headers)) && !IsMultipart(Options(None, None, headers))
  {
  }

  /** A header the caller passes replaces the default of the same name;
      defaults the caller does not mention are kept. */
  lemma CallerHeadersWin(o: Options, token: Option<string>, name: string)
    ensures name in o.headers ==> Merge(DefaultHeaders(o, token), o.headers)[name] == o.headers[name]
    ensures name !in o.headers && name in DefaultHeaders(o, token) ==>
              Merge(DefaultHeaders(o, token), o.headers)[name] == DefaultHeaders(o, token)[name]
  {
  }

  /** A 401 always gives the fixed re-login message, whatever the body. */
  lemma UnauthorizedIsRelogin<V>(body: string, statusText: string, parse: string -> Result<V, string>)
    ensures Outcome(Responded(401, body, statusText), parse) == Failure(HttpError(401, ReloginMessage))
  {
  }

  /** Any other failing status keeps its status and carries the body, or the
      status text when the body is empty. */
  lemma FailingStatusCarriesBody<V>(status: int, body: string, statusText: string, parse: string -> Result<V, string>)
    requires !IsOk(status) && status != 401
    ensures Outcome(Responded(status, body, statusText), parse)
            == Failure(HttpError(status, if body == "" then statusText else body))
  {
    ClassifyKeepsWrapperError(status, ClassName, if body == "" then statusText else body, TimeoutMessage, NetworkMessage);
  }

  /** A successful response with an empty body yields `{}`; otherwise the
      parsed body, or a 500 when it does not parse. */
  lemma SuccessBody<V>(status: int, body: string, statusText: string, parse: string -> Result<V, string>)
    requires IsOk(status)
    ensures body == "" ==> Outcome(Responded(status, body, statusText), parse) == Success(EmptyObject)
    ensures body != "" && parse(body).Success? ==>
              Outcome(Responded(status, body, statusText), parse) == Success(Parsed(parse(body).value))
    ensures body != "" && parse(body).Failure? ==>
              Outcome(Responded(status, body, statusText), parse) == Failure(HttpError(500, UnknownPrefix + parse(body).error))
  {
  }

  /** The catch chain in its order: abort 408, then network 0, then a quest
      error as it is, then 500. */
  lemma CatchChain<V>(e: Thrown, parse: string -> Result<V, string>)
    ensures IsErrorInstance(e) && e.name == AbortErrorName ==>
              Outcome(Threw(e), parse) == Failure(HttpError(408, TimeoutMessage))
    ensures !(IsErrorInstance(e) && e.name == AbortErrorName) && e.kind.TypeError? ==>
              Outcome(Threw(e), parse) == Failure(HttpError(0, NetworkMessage))
    ensures !(IsErrorInstance(e) && e.name == AbortErrorName) && e.kind.WrapperError? ==>
              Outcome(Threw(e), parse) == Failure(HttpError(e.kind.status, e.message))
    ensures !(IsErrorInstance(e) && e.name == AbortErrorName) && !e.kind.TypeError? && !e.kind.WrapperError? ==>
              Outcome(Threw(e), parse) == Failure(HttpError(500, UnknownPrefix + e.message))
  {
    if !(IsErrorInstance(e) && e.name == AbortErrorName) && e.kind.TypeError? {
      ClassifyTypeError(e, TimeoutMessage, NetworkMessage);
    }
  }

  /** Every failure the wrapper reports has a status from the transport's
      response or one of 408, 0 and 500. */
  lemma FailureStatuses<V>(t: Transport, parse: string -> Result<V, string>)
    requires t.Threw? ==> !t.error.kind.WrapperError?  // fetch never throws this wrapper's class
    requires Outcome(t, parse).Failure?
    ensures var s := Outcome(t, parse).error.status;
      s in {408, 0, 500} || (t.Responded? && !IsOk(t.status) && s == t.status)
  {
  }

  /** `getTodayQuest`: a 404 or 400 means "no quest today" (null); any other
      error goes on to the caller and a success passes through. */
  function TodayQuest<V>(r: Result<Payload<V>, HttpError>): (t: Result<Option<Payload<V>>, HttpError>)
    ensures t == Success(None) <==> r.Failure? && r.error.status in {404, 400}
    ensures r.Success? ==> t == Success(Some(r.value))
    ensures r.Failure? && r.error.status !in {404, 400} ==> t == Failure(r.error)
  {
    match r
    case Success(p) => Success(Some(p))
    case Failure(e) => if e.status == 404 || e.status == 400 then Success(None) else Failure(e)
  }

  /** Today's quest on a 404 or 400 response is null whatever the body; a 401
      still fails with the re-login message. */
  lemma TodayQuestOnMissing<V>(body: string, statusText: string, parse: string -> Result<V, string>)
    ensures TodayQuest(Outcome(Responded(404, body, statusText), parse)) == Success(None)
    ensures TodayQuest(Outcome(Responded(400, body, statusText), parse)) == Success(None)
    ensures TodayQuest(Outcome(Responded(401, body, statusText), parse)) == Failure(HttpError(401, ReloginMessage))
  {
    FailingStatusCarriesBody(404, body, statusText, parse);
    FailingStatusCarriesBody(400, body, statusText, parse);
  }

  const NoOptions := Options(None, None, map[])

  const TodayCall := Call("/quest/today", "GET", NoOptions)
  const SuggestionsCall := Call("/quest/suggestions", "GET", NoOptions)
  const GenerateCall := Call("/quest/suggestions/generate", "POST", NoOptions)

  /** `approveQuestSuggestion(uuid)`: the uuid goes into the path as it is. */
  function ApproveCall(uuid: string): (c: Call)
    ensures |c.endpoint| == |uuid| + 27
    ensures c.endpoint[..19] == "/quest/suggestions/" && c.endpoint[|c.endpoint| - 8..] == "/approve"
    ensures c.endpoint[19..|c.endpoint| - 8] == uuid
    ensures c.verb == "POST" && c.options == NoOptions
  {
    Call("/quest/suggestions/" + uuid + "/approve", "POST", NoOptions)
  }

  /** `completeQuest(questId, ...)`: a multipart PUT, so no JSON content type
      is set and the transport writes the multipart one. */
  function CompleteCall(questId: int): (c: Call)
    ensures IsMultipart(c.options) && RequireAuth(c.options)
    ensures c.verb == "PUT"
    ensures c.endpoint == "/quest/" + JsText.IntToString(questId) + "/complete"
  {
    Call("/quest/" + JsText.IntToString(questId) + "/complete", "PUT", Options(None, Some(true), map[]))
  }

  /** The form fields `completeQuest` sends: the evidence image when one is
      given and its blob loads, none when no image is given; a failed load
      is a 400 thrown before any request, outside the wrapper's catch. */
  function CompleteFormFields(evidenceImage: Option<string>, blobLoads: bool): Result<seq<string>, HttpError> {
    if evidenceImage.Some? && evidenceImage.value != "" then
      if blobLoads then Success(["evidenceImage"]) else Failure(HttpError(400, ImageFailureMessage))
    else Success([])
  }

  /** `completeQuest(questId, evidenceImage)`: a given image is loaded
      first, and a failed load throws a 400 before any request is made (and
      outside the wrapper's catch). Otherwise the form carries the image
      field when there is one, and the multipart PUT goes through the
      wrapper. */
  method CompleteQuest<V>(questId: int, evidenceImage: Option<string>, blobLoads: bool, env: Option<string>,
                          token: Option<string>, transport: Transport, parse: string -> Result<V, string>)
    returns (sent: Option<Request>, fields: seq<string>, result: Result<Payload<V>, HttpError>)
    ensures evidenceImage.Some? && evidenceImage.value != "" && !blobLoads ==>
              sent == None && result == Failure(HttpError(400, ImageFailureMessage))
    ensures !(evidenceImage.Some? && evidenceImage.value != "" && !blobLoads) ==>
              && sent.Some?
              && sent.value.url == BaseUrl(env) + "/quest/" + JsText.IntToString(questId) + "/complete"
              && ContentType !in sent.value.headers
              && (Authorization in sent.value.headers <==> HasToken(token))
              && sent.value.headers.Keys <= {Authorization}
              && sent.value.headers == DefaultHeaders(CompleteCall(questId).options, token)
              && (HasToken(token) ==> sent.value.headers[Authorization] == Bearer(token.value))
              && fields == (if evidenceImage.Some? && evidenceImage.value != "" then ["evidenceImage"] else [])
              && result == Outcome(transport, parse)
  {
    var form := CompleteFormFields(evidenceImage, blobLoads);
    if form.Failure? {
      return None, [], Failure(form.error);
    }
    fields := form.value;
    var c := CompleteCall(questId);
    var request;
    request, result := QuestApiRequest(c.endpoint, c.options, env, token, transport, parse);
    sent := Some(request);
  }

  /** `getMyQuestsBetween(startDate, endDate)`: the dates go through the
      form serializer into the query string. */
  function HistoryCall(startDate: string, endDate: string): (c: Call)
    ensures c.verb == "GET" && c.options == NoOptions
    ensures |c.endpoint| >= 10 && c.endpoint[..10] == "/quest/my?"
  {
    Call("/quest/my?" + UriEncoding.SearchParams([("startDate", startDate), ("endDate", endDate)]), "GET", NoOptions)
  }

  /** Dates made of digits and dashes appear in the query string as they are. */
  lemma HistoryCallPlainDates(startDate: string, endDate: string)
    requires UriEncoding.AllFormSafe(startDate) && UriEncoding.AllFormSafe(endDate)
    ensures HistoryCall(startDate, endDate).endpoint
            == "/quest/my?" + (("startDate=" + startDate) + "&" + ("endDate=" + endDate))
  {
    HistoryCallShape(startDate, endDate);
    HistoryPairsPlain(startDate, endDate);
  }

  lemma HistoryPairsPlain(startDate: string, endDate: string)
    requires UriEncoding.AllFormSafe(startDate) && UriEncoding.AllFormSafe(endDate)
    ensures UriEncoding.PairText(("startDate", startDate)) == "startDate=" + startDate
    ensures UriEncoding.PairText(("endDate", endDate)) == "endDate=" + endDate
  {
    ParameterNamesFormSafe();
    UriEncoding.PlainPair("startDate", startDate);
    UriEncoding.PlainPair("endDate", endDate);
  }

  /** The two parameter names need no encoding. */
  lemma ParameterNamesFormSafe()
    ensures UriEncoding.AllFormSafe("startDate") && UriEncoding.AllFormSafe("endDate")
  {
    var names := ["startDate", "endDate"];
    forall k | 0 <= k < 2
      ensures UriEncoding.AllFormSafe(names[k])
    {
      forall i | 0 <= i < |names[k]|
        ensures 'A' <= names[k][i] <= 'Z' || 'a' <= names[k][i] <= 'z'
      {
      }
    }
    assert names[0] == "startDate" && names[1] == "endDate";
  }

  lemma HistoryCallShape(startDate: string, endDate: string)
    ensures HistoryCall(startDate, endDate).endpoint
            == "/quest/my?" + (UriEncoding.PairText(("startDate", startDate)) + "&" + UriEncoding.PairText(("endDate", endDate)))
  {
    UriEncoding.SearchParamsOfTwo("startDate", startDate, "endDate", endDate);
  }

  /** The request the history query sends: each date right after its
      parameter name, form-encoded; when the query is enabled both encoded
      dates are non-empty, and when it is not, one of them is missing. */
  lemma EnabledHistoryCallHasDates(startDate: string, endDate: string)
    ensures HistoryCall(startDate, endDate).endpoint
            == "/quest/my?" + (("startDate=" + UriEncoding.FormEncode(startDate))
                               + "&" + ("endDate=" + UriEncoding.FormEncode(endDate)))
    ensures HistoryEnabled(startDate, endDate)
            <==> UriEncoding.FormEncode(startDate) != [] && UriEncoding.FormEncode(endDate) != []
  {
    HistoryCallShape(startDate, endDate);
    ParameterNamesEncodePlain();
    DatePairText("startDate", startDate);
    DatePairText("endDate", endDate);
    assert "startDate" + "=" == "startDate=";
    assert "endDate" + "=" == "endDate=";
    UriEncoding.FormEncodeEmpty(startDate);
    UriEncoding.FormEncodeEmpty(endDate);
  }

  lemma ParameterNamesEncodePlain()
    ensures UriEncoding.FormEncode("startDate") == "startDate"
    ensures UriEncoding.FormEncode("endDate") == "endDate"
  {
    ParameterNamesFormSafe();
    UriEncoding.FormEncodeIdentity("startDate");
    UriEncoding.FormEncodeIdentity("endDate");
  }

  lemma DatePairText(name: string, date: string)
    requires UriEncoding.FormEncode(name) == name
    ensures UriEncoding.PairText((name, date)) == (name + "=") + UriEncoding.FormEncode(date)
  {
  }

  /** The history query runs only when both dates are non-empty. */
  function HistoryEnabled(startDate: string, endDate: string): bool {
    !(startDate == "") && !(endDate == "")
  }

  /** The history query's key lies under the prefix that quest completion
      invalidates. */
  lemma HistoryKeyInvalidatedOnComplete(startDate: string, endDate: string)
    ensures QueryKeys.Matches(QueryKeys.HistoryPrefix, QueryKeys.QuestMyHistory(startDate, endDate))
  {
  }

  /** The completion request sends the token but no JSON content type. */
  lemma CompleteHeaders(questId: int, token: Option<string>)
    ensures ContentType !in DefaultHeaders(CompleteCall(questId).options, token)
    ensures Authorization in DefaultHeaders(CompleteCall(questId).options, token) <==> HasToken(token)
  {
  }
}
