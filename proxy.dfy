/** The `angel-one-proxy` request handler: it validates an action-tagged JSON
    request, forwards it to one of two Angel One SmartAPI endpoints with a fixed
    header set, and normalises the upstream reply into one response envelope.
    Reading the request, `JSON.parse` and `fetch` are parameters, so the handler
    is a total function of what they return. */
module AngelOneProxy {
  import opened Wrappers
  import opened JsText
  import opened Json

  /** The status of a final reply `fetch` resolves with: three digits, and
      not an informational 1xx. */
  type UpstreamStatus = s: int | 200 <= s <= 999 witness 200

  /** The statuses `new Response(body, {status})` accepts; any other throws a
      `RangeError`. */
  predicate IsResponseStatus(status: int) {
    200 <= status <= 599
  }

  predicate IsOk(status: int) {
    200 <= status <= 299
  }

  const LoginUrl: string := "https://apiconnect.angelone.in/rest/auth/angelbroking/user/v1/loginByMpin"
  const LtpUrl: string := "https://apiconnect.angelone.in/rest/secure/angelbroking/order/v1/getLTP"

  /** The headers every upstream call carries, whatever its inputs. */
  const FixedHeaders: map<string, string> := map[
    "Content-Type" := "application/json",
    "Accept" := "application/json",
    "User-Agent" := "Mozilla/5.0 (Windows NT 10.0; Win64; x64) AppleWebKit/537.36 (KHTML, like Gecko) Chrome/120.0.0.0 Safari/537.36",
    "Origin" := "https://smartapi.angelone.in",
    "Referer" := "https://smartapi.angelone.in/",
    "X-UserType" := "USER",
    "X-SourceID" := "WEB",
    "X-ClientLocalIP" := "CLIENT_IP",
    "X-ClientPublicIP" := "CLIENT_IP",
    "X-MACAddress" := "MAC_ADDRESS"
  ]

  /** `buildHeaders(apiKey, jwtToken?)`: the fixed headers, the API key under
      `X-PrivateKey`, and a bearer `Authorization` exactly when a non-empty
      token is given. */
  function BuildHeaders(apiKey: string, jwtToken: Option<string>): (h: map<string, string>)
    ensures "X-PrivateKey" in h && h["X-PrivateKey"] == apiKey
    ensures "Authorization" in h <==> jwtToken.Some? && jwtToken.value != ""
    ensures "Authorization" in h ==> h["Authorization"] == "Bearer " + jwtToken.value
    ensures forall k :: k in FixedHeaders ==> k in h && h[k] == FixedHeaders[k]
    ensures forall k :: k in h ==> k in FixedHeaders || k == "X-PrivateKey" || k == "Authorization"
  {
    FixedHeaders["X-PrivateKey" := apiKey]
      + (if jwtToken.Some? && jwtToken.value != "" then map["Authorization" := "Bearer " + jwtToken.value] else map[])
  }

  /** A POST the proxy sends upstream: the URL, the headers and the JSON body's
      members in the order `JSON.stringify` writes them. */
  datatype OutboundRequest = OutboundRequest(url: string, headers: map<string, string>, body: seq<(string, string)>)

  /** What awaiting `fetch` and `resp.text()` gives: a reply, or a rejection. */
  datatype Exchange = Reply(status: UpstreamStatus, text: string) | Unreachable

  /** The kind of response the handler produces, with the values its JSON body
      carries. */
  datatype Outcome =
    | EmptyRequestBody
    | InvalidJson
    | MissingAction
    | MissingFields(required: string)
    | InvalidMpinFormat
    | InvalidTotpFormat
    | UnknownAction
    | UpstreamEmptyBody(endpoint: string, upstreamStatus: int)
    | UpstreamNonJson(upstreamStatus: int, rawResponse: string)
    | UpstreamError(details: Json, upstreamStatus: int, upstreamBody: Json)
    | Success(message: Json, data: Json)
    | InternalError
  {
    /** The request was refused before anything was sent upstream. */
    predicate IsInputError() {
      EmptyRequestBody? || InvalidJson? || MissingAction? || MissingFields?
      || InvalidMpinFormat? || InvalidTotpFormat? || UnknownAction?
    }
  }

  /** The HTTP status, the outcome, and the upstream call made, if any. */
  datatype ProxyResponse = ProxyResponse(httpStatus: int, outcome: Outcome, sent: Option<OutboundRequest>)

  function Str(s: string): Json {
    JStr(s)
  }

  function Num(n: int): Json {
    if n < 0 then JNum("-" + Decimal(-n)) else JNum(Decimal(n))
  }

  /** The JSON body sent back to the client for an outcome. `thrown` is the
      `message` of the runtime error the outer `catch` receives; every error
      the handler can throw is an `Error`, so that message is what it sends. */
  function Render(o: Outcome, thrown: string): (j: Json)
    ensures j.JObj?
    ensures "error" in j.fields <==> !o.Success?
    ensures "data" in j.fields <==> o.Success?
    ensures o.InternalError? ==> j.fields == map["error" := JStr(thrown)]
    ensures o.Success? ==> j.fields == map["status" := JBool(true), "message" := o.message, "data" := o.data]
  {
    match o
    case EmptyRequestBody =>
      JObj(map["error" := Str("Empty request body"), "hint" := Str("Send JSON with action field")])
    case InvalidJson =>
      JObj(map["error" := Str("Invalid JSON"), "hint" := Str("Ensure Content-Type: application/json and valid JSON")])
    case MissingAction =>
      JObj(map["error" := Str("Missing action")])
    case MissingFields(required) =>
      JObj(map["error" := Str("Missing required fields"), "details" := Str(required)])
    case InvalidMpinFormat =>
      JObj(map["error" := Str("Invalid MPIN format"), "details" := Str("MPIN must be exactly 4 digits")])
    case InvalidTotpFormat =>
      JObj(map["error" := Str("Invalid TOTP format"), "details" := Str("TOTP must be exactly 6 digits")])
    case UnknownAction =>
      JObj(map["error" := Str("Unknown action")])
    case UpstreamEmptyBody(endpoint, status) =>
      JObj(map["error" := Str("Empty response from Angel One API"), "code" := Str("ANGEL_EMPTY_BODY"),
               "status" := Num(status), "details" := JObj(map["endpoint" := Str(endpoint)])])
    case UpstreamNonJson(status, raw) =>
      JObj(map["error" := Str("Invalid response from Angel One API"), "code" := Str("ANGEL_NON_JSON"),
               "details" := Str("API returned non-JSON response"), "status" := Num(status),
               "rawResponse" := Str(raw)])
    case UpstreamError(details, status, upstream) =>
      JObj(map["error" := Str("Angel One API error"), "details" := details, "status" := Num(status),
               "angelOneResponse" := upstream])
    case Success(message, data) =>
      JObj(map["status" := JBool(true), "message" := message, "data" := data])
    case InternalError =>
      JObj(map["error" := Str(thrown)])
  }

  /** Each failure body carries the values of its outcome: the upstream
      status, the raw prefix, the upstream details and body, the endpoint, and
      the list of required fields; `code` marks exactly the two upstream
      shape failures. */
  lemma RenderCarriesOutcome(o: Outcome, thrown: string)
    ensures var j := Render(o, thrown);
      && ("code" in j.fields <==> o.UpstreamEmptyBody? || o.UpstreamNonJson?)
      && (!o.Success? ==> j.fields["error"].JStr?)
      && (o.MissingFields? ==> "details" in j.fields && j.fields["details"] == JStr(o.required))
      && (o.UpstreamEmptyBody? ==>
           && "status" in j.fields && j.fields["status"] == Num(o.upstreamStatus)
           && "details" in j.fields && j.fields["details"] == JObj(map["endpoint" := JStr(o.endpoint)]))
      && (o.UpstreamNonJson? ==>
           && "status" in j.fields && j.fields["status"] == Num(o.upstreamStatus)
           && "rawResponse" in j.fields && j.fields["rawResponse"] == JStr(o.rawResponse))
      && (o.UpstreamError? ==>
           && "details" in j.fields && j.fields["details"] == o.details
           && "status" in j.fields && j.fields["status"] == Num(o.upstreamStatus)
           && "angelOneResponse" in j.fields && j.fields["angelOneResponse"] == o.upstreamBody)
  {
    match o
    case UpstreamEmptyBody(_, _) =>
    case UpstreamNonJson(_, _) =>
    case UpstreamError(_, _, _) =>
    case MissingFields(_) =>
    case _ =>
  }

  /** The four request-level input errors render to fixed bodies: the
      `error` text, with a `hint` for an empty or unparseable body. */
  lemma RenderRequestErrorTexts(o: Outcome, thrown: string)
    ensures var j := Render(o, thrown);
      && (o.EmptyRequestBody? ==>
           j.fields == map["error" := JStr("Empty request body"), "hint" := JStr("Send JSON with action field")])
      && (o.InvalidJson? ==>
           j.fields == map["error" := JStr("Invalid JSON"),
                           "hint" := JStr("Ensure Content-Type: application/json and valid JSON")])
      && (o.MissingAction? ==> j.fields == map["error" := JStr("Missing action")])
      && (o.UnknownAction? ==> j.fields == map["error" := JStr("Unknown action")])
  {
    match o
    case EmptyRequestBody =>
    case InvalidJson =>
    case MissingAction =>
    case UnknownAction =>
    case _ =>
  }

  /** The three field-level input errors render to fixed bodies: the
      `error` text and the `details` that say what is required. */
  lemma RenderFieldErrorTexts(o: Outcome, thrown: string)
    ensures var j := Render(o, thrown);
      && (o.MissingFields? ==>
           j.fields == map["error" := JStr("Missing required fields"), "details" := JStr(o.required)])
      && (o.InvalidMpinFormat? ==>
           j.fields == map["error" := JStr("Invalid MPIN format"), "details" := JStr("MPIN must be exactly 4 digits")])
      && (o.InvalidTotpFormat? ==>
           j.fields == map["error" := JStr("Invalid TOTP format"), "details" := JStr("TOTP must be exactly 6 digits")])
  {
    match o
    case MissingFields(_) =>
    case InvalidMpinFormat =>
    case InvalidTotpFormat =>
    case _ =>
  }

  /** The three upstream failures carry their fixed `error` texts, and the
      two shape failures their own `code` values. */
  lemma RenderUpstreamTexts(o: Outcome, thrown: string)
    ensures var j := Render(o, thrown);
      && (o.UpstreamEmptyBody? ==>
           && j.fields["error"] == JStr("Empty response from Angel One API")
           && j.fields["code"] == JStr("ANGEL_EMPTY_BODY"))
      && (o.UpstreamNonJson? ==>
           && j.fields["error"] == JStr("Invalid response from Angel One API")
           && j.fields["code"] == JStr("ANGEL_NON_JSON")
           && j.fields["details"] == JStr("API returned non-JSON response"))
      && (o.UpstreamError? ==> j.fields["error"] == JStr("Angel One API error"))
  {
    match o
    case UpstreamEmptyBody(_, _) =>
    case UpstreamNonJson(_, _) =>
    case UpstreamError(_, _, _) =>
    case _ =>
  }

  /** A client can tell an empty upstream reply from a non-JSON one, by its
      `code` and by its `error` text alike. */
  lemma UpstreamShapeFailuresDistinct(o: Outcome, o': Outcome, thrown: string)
    requires o.UpstreamEmptyBody? && o'.UpstreamNonJson?
    ensures Render(o, thrown).fields["code"] != Render(o', thrown).fields["code"]
    ensures Render(o, thrown).fields["error"] != Render(o', thrown).fields["error"]
  {
    RenderUpstreamTexts(o, thrown);
    RenderUpstreamTexts(o', thrown);
    assert "ANGEL_EMPTY_BODY"[6] != "ANGEL_NON_JSON"[6];
    assert "Empty response from Angel One API"[0] != "Invalid response from Angel One API"[0];
  }

  /** What tells the seven input-error texts apart: their lengths, and one
      character within each of the two pairs of equal length. */
  lemma InputErrorTextShape(o: Outcome, thrown: string)
    requires o.IsInputError()
    ensures var e := Render(o, thrown).fields["error"];
      && e.JStr? && |e.s| >= 12
      && (o.EmptyRequestBody? ==> |e.s| == 18)
      && (o.InvalidJson? ==> |e.s| == 12)
      && (o.MissingAction? ==> |e.s| == 14 && e.s[0] == 'M')
      && (o.MissingFields? ==> |e.s| == 23)
      && (o.InvalidMpinFormat? ==> |e.s| == 19 && e.s[8] == 'M')
      && (o.InvalidTotpFormat? ==> |e.s| == 19 && e.s[8] == 'T')
      && (o.UnknownAction? ==> |e.s| == 14 && e.s[0] == 'U')
  {
    match o
    case EmptyRequestBody =>
    case InvalidJson =>
    case MissingAction =>
    case MissingFields(_) =>
    case InvalidMpinFormat =>
    case InvalidTotpFormat =>
    case UnknownAction =>
  }

  /** Every kind of input error has its own `error` text: two input errors
      render the same text only when both are "Missing required fields". */
  lemma InputErrorTextsDistinct(o: Outcome, o': Outcome, thrown: string)
    requires o.IsInputError() && o'.IsInputError()
    requires !(o.MissingFields? && o'.MissingFields?) && o != o'
    ensures Render(o, thrown).fields["error"] != Render(o', thrown).fields["error"]
  {
    InputErrorTextShape(o, thrown);
    InputErrorTextShape(o', thrown);
  }

  // ---------------------------------------------------------------------------
  // Field sanitising and validation

  /** The value of `body[key]?.toString().trim()`: undefined, a string, or the
      TypeError that `toString` throws. */
  datatype Field = Undefined | Text(s: string) | Throws

  function Sanitize(body: Json, key: string): (f: Field)
    ensures f.Text? ==> Trim(f.s) == f.s
    ensures f.Undefined? <==> Prop(body, key).None? || Prop(body, key) == Some(JNull)
    ensures Prop(body, key).Some? && Prop(body, key).value.JStr? ==> f == Text(Trim(Prop(body, key).value.s))
    ensures Prop(body, key).Some? && !Prop(body, key).value.JNull? ==>
      && (f.Throws? <==> ToText(Prop(body, key).value).None?)
      && (f.Text? ==> f.s == Trim(ToText(Prop(body, key).value).value))
  {
    match Prop(body, key)
    case None => Undefined
    case Some(v) =>
      if v.JNull? then Undefined
      else match ToText(v)
        case None => Throws
        case Some(t) => TrimIdempotent(t); Text(Trim(t))
  }

  /** Fields that are not strings: a number gives its own rendering,
      trimmed, so `1234` is the MPIN "1234"; a boolean gives "true" or
      "false"; an object gives "[object Object]", or throws when it has its own
      `toString` key. */
  lemma SanitizeNonStrings(body: Json, key: string)
    ensures Prop(body, key).Some? && Prop(body, key).value.JNum? ==>
      Sanitize(body, key) == Text(Trim(Prop(body, key).value.text))
    ensures Prop(body, key).Some? && Prop(body, key).value.JBool? ==>
      Sanitize(body, key) == Text(if Prop(body, key).value.b then "true" else "false")
    ensures Prop(body, key).Some? && Prop(body, key).value.JObj? ==>
      (Sanitize(body, key).Throws? <==> "toString" in Prop(body, key).value.fields)
    ensures Prop(body, key).Some? && Prop(body, key).value.JObj? && "toString" !in Prop(body, key).value.fields ==>
      Sanitize(body, key) == Text("[object Object]")
  {
    if Prop(body, key).Some? {
      var v := Prop(body, key).value;
      ToTextScalars(v);
      TrimKeepsTrimmed("true");
      TrimKeepsTrimmed("false");
      TrimKeepsTrimmed("[object Object]");
    }
  }

  /** The field is truthy: present and non-empty after trimming. */
  predicate Given(f: Field) {
    f.Text? && f.s != ""
  }

  datatype LoginFields = LoginFields(apiKey: string, clientId: string, mpin: string, totp: string)

  datatype QuoteFields = QuoteFields(apiKey: string, jwtToken: string, exchange: string, tradingSymbol: string, symbolToken: string)

  /** The validated fields, or the response that refuses the request. */
  datatype Checked<T> = Accepted(fields: T) | Refused(httpStatus: int, outcome: Outcome)

  const LoginFieldsRequired: string := "apiKey, clientId, mpin, and totp are all required"
  const QuoteFieldsRequired: string := "apiKey, jwtToken, exchange, tradingsymbol, and symboltoken are all required"

  /** The `loginByMpin` checks on the sanitised fields, in the source's order:
      a `toString` that threw, presence of all four fields, then the MPIN
      format, then the TOTP format. */
  function CheckLogin(apiKey: Field, clientId: Field, mpin: Field, totp: Field): (c: Checked<LoginFields>)
    ensures c.Accepted? <==>
      Given(apiKey) && Given(clientId) && Given(mpin) && Given(totp)
      && MatchesDigits(mpin.s, 4) && MatchesDigits(totp.s, 6)
    ensures c.Accepted? ==> c.fields == LoginFields(apiKey.s, clientId.s, mpin.s, totp.s)
    ensures c.Refused? && c.httpStatus != 500 ==> c.httpStatus == 400 && c.outcome.IsInputError()
    ensures c.Refused? && c.httpStatus == 500 <==> apiKey.Throws? || clientId.Throws? || mpin.Throws? || totp.Throws?
    ensures c.Refused? && c.httpStatus == 500 ==> c.outcome == InternalError
  {
    if apiKey.Throws? || clientId.Throws? || mpin.Throws? || totp.Throws? then Refused(500, InternalError)
    else if !Given(apiKey) || !Given(clientId) || !Given(mpin) || !Given(totp) then
      Refused(400, MissingFields(LoginFieldsRequired))
    else if !MatchesDigits(mpin.s, 4) then Refused(400, InvalidMpinFormat)
    else if !MatchesDigits(totp.s, 6) then Refused(400, InvalidTotpFormat)
    else Accepted(LoginFields(apiKey.s, clientId.s, mpin.s, totp.s))
  }

  /** The `getLTP` checks on the sanitised fields: a `toString` that threw,
      then presence of all five fields; no format is checked. */
  function CheckQuote(apiKey: Field, jwtToken: Field, exchange: Field, tradingSymbol: Field, symbolToken: Field): (c: Checked<QuoteFields>)
    ensures c.Accepted? <==>
      Given(apiKey) && Given(jwtToken) && Given(exchange) && Given(tradingSymbol) && Given(symbolToken)
    ensures c.Accepted? ==> c.fields == QuoteFields(apiKey.s, jwtToken.s, exchange.s, tradingSymbol.s, symbolToken.s)
    ensures c.Refused? && c.httpStatus != 500 ==> c.httpStatus == 400 && c.outcome == MissingFields(QuoteFieldsRequired)
    ensures c.Refused? && c.httpStatus == 500 <==>
      apiKey.Throws? || jwtToken.Throws? || exchange.Throws? || tradingSymbol.Throws? || symbolToken.Throws?
    ensures c.Refused? && c.httpStatus == 500 ==> c.outcome == InternalError
  {
    if apiKey.Throws? || jwtToken.Throws? || exchange.Throws? || tradingSymbol.Throws? || symbolToken.Throws? then
      Refused(500, InternalError)
    else if !Given(apiKey) || !Given(jwtToken) || !Given(exchange) || !Given(tradingSymbol) || !Given(symbolToken) then
      Refused(400, MissingFields(QuoteFieldsRequired))
    else Accepted(QuoteFields(apiKey.s, jwtToken.s, exchange.s, tradingSymbol.s, symbolToken.s))
  }

  /** The login request's fields, sanitised. */
  function CheckLoginBody(body: Json): Checked<LoginFields> {
    CheckLogin(Sanitize(body, "apiKey"), Sanitize(body, "clientId"), Sanitize(body, "mpin"), Sanitize(body, "totp"))
  }

  /** The quote request's fields, sanitised. */
  function CheckQuoteBody(body: Json): Checked<QuoteFields> {
    CheckQuote(Sanitize(body, "apiKey"), Sanitize(body, "jwtToken"), Sanitize(body, "exchange"),
               Sanitize(body, "tradingsymbol"), Sanitize(body, "symboltoken"))
  }

  /** The login call: no bearer token, body `{clientcode, mpin, totp}`. */
  function LoginRequest(f: LoginFields): OutboundRequest {
    OutboundRequest(LoginUrl, BuildHeaders(f.apiKey, None), [("clientcode", f.clientId), ("mpin", f.mpin), ("totp", f.totp)])
  }

  /** The quote call: bearer token, body `{exchange, tradingsymbol, symboltoken}`. */
  function QuoteRequest(f: QuoteFields): OutboundRequest {
    OutboundRequest(LtpUrl, BuildHeaders(f.apiKey, Some(f.jwtToken)),
                    [("exchange", f.exchange), ("tradingsymbol", f.tradingSymbol), ("symboltoken", f.symbolToken)])
  }

  // ---------------------------------------------------------------------------
  // Upstream reply classification, shared by both actions

  /** The success envelope's `data`: the upstream `data` member when the reply
      is an object that has one, otherwise the whole reply. */
  function Unwrap(d: Json): Json {
    if d.JObj? && "data" in d.fields then d.fields["data"] else d
  }

  /** Classifies the reply to `out`, in the source's order: a rejected call,
      an empty body (whatever the status), a body that does not parse, a
      status outside 200-299 (passed through, unless `new Response` rejects
      it with a `RangeError` that the outer `catch` turns into a 500), and
      success. `endpoint` names the call in the
      empty-body details and `fallback` is the error text used when the reply
      carries neither `message` nor `errorMessage`. */
  function Classify(endpoint: string, fallback: string, out: OutboundRequest, exchange: Exchange,
                    parse: string -> Option<Json>): (r: ProxyResponse)
    ensures r.sent == Some(out) && !r.outcome.IsInputError()
    ensures exchange.Unreachable? ==> r.httpStatus == 500 && r.outcome == InternalError
    ensures exchange.Reply? && IsBlank(exchange.text) ==>
      r.httpStatus == 502 && r.outcome == UpstreamEmptyBody(endpoint, exchange.status)
    ensures exchange.Reply? && !IsBlank(exchange.text) && parse(exchange.text).None? ==>
      && r.httpStatus == 502 && r.outcome.UpstreamNonJson? && r.outcome.upstreamStatus == exchange.status
      && |r.outcome.rawResponse| == (if |exchange.text| < 200 then |exchange.text| else 200)
      && r.outcome.rawResponse <= exchange.text
    ensures exchange.Reply? && !IsBlank(exchange.text) && parse(exchange.text).Some? && !IsResponseStatus(exchange.status) ==>
      r.httpStatus == 500 && r.outcome == InternalError
    ensures r.outcome.UpstreamError? <==>
      && exchange.Reply? && !IsBlank(exchange.text) && parse(exchange.text).Some?
      && !IsOk(exchange.status) && IsResponseStatus(exchange.status)
    ensures r.outcome.UpstreamError? ==>
      var d := parse(exchange.text).value;
      && r.httpStatus == exchange.status == r.outcome.upstreamStatus && r.outcome.upstreamBody == d
      && (Prop(d, "message").Some? && Truthy(Prop(d, "message").value) ==> r.outcome.details == Prop(d, "message").value)
      && (!(Prop(d, "message").Some? && Truthy(Prop(d, "message").value))
            && Prop(d, "errorMessage").Some? && Truthy(Prop(d, "errorMessage").value) ==>
          r.outcome.details == Prop(d, "errorMessage").value)
      && (!(Prop(d, "message").Some? && Truthy(Prop(d, "message").value))
            && !(Prop(d, "errorMessage").Some? && Truthy(Prop(d, "errorMessage").value)) ==>
          r.outcome.details == JStr(fallback))
    ensures r.outcome.Success? <==>
      exchange.Reply? && !IsBlank(exchange.text) && parse(exchange.text).Some? && IsOk(exchange.status)
    ensures r.outcome.Success? ==>
      var d := parse(exchange.text).value;
      && r.httpStatus == 200
      && (d.JObj? && "data" in d.fields ==> r.outcome.data == d.fields["data"])
      && (!(d.JObj? && "data" in d.fields) ==> r.outcome.data == d)
      && (Prop(d, "message").Some? && Truthy(Prop(d, "message").value) ==> r.outcome.message == Prop(d, "message").value)
      && (!(Prop(d, "message").Some? && Truthy(Prop(d, "message").value)) ==> r.outcome.message == JStr("OK"))
  {
    match exchange
    case Unreachable => ProxyResponse(500, InternalError, Some(out))
    case Reply(status, text) =>
      TrimEmptyIffBlank(text);
      if Trim(text) == "" then ProxyResponse(502, UpstreamEmptyBody(endpoint, status), Some(out))
      else match parse(text)
        case None => ProxyResponse(502, UpstreamNonJson(status, Slice(text, 200)), Some(out))
        case Some(d) =>
          if !IsOk(status) && !IsResponseStatus(status) then ProxyResponse(500, InternalError, Some(out))
          else if !IsOk(status) then
            var details := Or(Prop(d, "message"), Or(Prop(d, "errorMessage"), JStr(fallback)));
            ProxyResponse(status, UpstreamError(details, status, d), Some(out))
          else
            ProxyResponse(200, Success(Or(Prop(d, "message"), JStr("OK")), Unwrap(d)), Some(out))
  }

  // ---------------------------------------------------------------------------
  // The handler

  /** The endpoint name and fallback error text of each action's branch. */
  const LoginEndpoint: string := "loginByMpin"
  const LoginFallback: string := "Authentication failed"
  const QuoteEndpoint: string := "getLTP"
  const QuoteFallback: string := "Failed to fetch market data"

  /** The request body text: a failed read leaves it empty. */
  function BodyText(read: Option<string>): string {
    if read.Some? then read.value else ""
  }

  /** The `loginByMpin` branch, after the action has been read. */
  function LoginBranch(checked: Checked<LoginFields>, parse: string -> Option<Json>, fetch: OutboundRequest -> Exchange): (r: ProxyResponse)
    requires checked.Refused? ==> (checked.httpStatus == 400 && checked.outcome.IsInputError()) || (checked.httpStatus == 500 && checked.outcome == InternalError)
    ensures checked.Refused? ==> r == ProxyResponse(checked.httpStatus, checked.outcome, None)
    ensures checked.Accepted? ==> r.sent == Some(LoginRequest(checked.fields)) && !r.outcome.IsInputError()
    ensures r.sent.None? ==> r.outcome.IsInputError() || (r.httpStatus == 500 && r.outcome == InternalError)
    ensures r.outcome.IsInputError() ==> r.httpStatus == 400 && r.sent.None?
    ensures r.outcome.Success? ==> r.httpStatus == 200 && r.sent.Some?
  {
    match checked
    case Refused(status, o) => ProxyResponse(status, o, None)
    case Accepted(f) =>
      var out := LoginRequest(f);
      Classify(LoginEndpoint, LoginFallback, out, fetch(out), parse)
  }

  /** The `getLTP` branch, after the action has been read. */
  function QuoteBranch(checked: Checked<QuoteFields>, parse: string -> Option<Json>, fetch: OutboundRequest -> Exchange): (r: ProxyResponse)
    requires checked.Refused? ==> (checked.httpStatus == 400 && checked.outcome.IsInputError()) || (checked.httpStatus == 500 && checked.outcome == InternalError)
    ensures checked.Refused? ==> r == ProxyResponse(checked.httpStatus, checked.outcome, None)
    ensures checked.Accepted? ==> r.sent == Some(QuoteRequest(checked.fields)) && !r.outcome.IsInputError()
    ensures r.sent.None? ==> r.outcome.IsInputError() || (r.httpStatus == 500 && r.outcome == InternalError)
    ensures r.outcome.IsInputError() ==> r.httpStatus == 400 && r.sent.None?
    ensures r.outcome.Success? ==> r.httpStatus == 200 && r.sent.Some?
  {
    match checked
    case Refused(status, o) => ProxyResponse(status, o, None)
    case Accepted(f) =>
      var out := QuoteRequest(f);
      Classify(QuoteEndpoint, QuoteFallback, out, fetch(out), parse)
  }

  /** One POST to the proxy. `read` is the result of `req.text()`, `parse` is
      `JSON.parse` and `fetch` gives the upstream exchange for a request. An
      input error is exactly a 400 that sent nothing upstream. */
  function Handle(read: Option<string>, parse: string -> Option<Json>, fetch: OutboundRequest -> Exchange): (r: ProxyResponse)
    ensures r.outcome.IsInputError() <==> r.httpStatus == 400 && r.sent.None?
    ensures r.sent.None? ==> r.outcome.IsInputError() || (r.httpStatus == 500 && r.outcome == InternalError)
    ensures r.outcome.Success? ==> r.httpStatus == 200 && r.sent.Some?
  {
    var bodyText := BodyText(read);
    if Trim(bodyText) == "" then ProxyResponse(400, EmptyRequestBody, None)
    else match parse(bodyText)
      case None => ProxyResponse(400, InvalidJson, None)
      case Some(body) =>
        var action := Prop(body, "action");
        if action.None? || !Truthy(action.value) then ProxyResponse(400, MissingAction, None)
        else if action.value == JStr("loginByMpin") then LoginBranch(CheckLoginBody(body), parse, fetch)
        else if action.value == JStr("getLTP") then QuoteBranch(CheckQuoteBody(body), parse, fetch)
        else ProxyResponse(400, UnknownAction, None)
  }
}
