/** What the proxy handler guarantees, stated over all request bodies, all
    parsers and all upstream behaviours. */
module ProxyProperties {
  import opened Wrappers
  import opened JsText
  import opened Json
  import opened AngelOneProxy

  /** The request body is not blank, parsed to `body`, and carries the
      action `action`. */
  predicate Requests(read: Option<string>, parse: string -> Option<Json>, body: Json, action: string) {
    Trim(BodyText(read)) != "" && parse(BodyText(read)) == Some(body) && Prop(body, "action") == Some(JStr(action))
  }

  /** A login request is handled by the login branch on its sanitised fields. */
  lemma HandleLogin(read: Option<string>, parse: string -> Option<Json>, fetch: OutboundRequest -> Exchange, body: Json)
    requires Requests(read, parse, body, "loginByMpin")
    ensures Handle(read, parse, fetch) == LoginBranch(CheckLoginBody(body), parse, fetch)
  {
  }

  /** A quote request is handled by the quote branch on its sanitised fields. */
  lemma HandleQuote(read: Option<string>, parse: string -> Option<Json>, fetch: OutboundRequest -> Exchange, body: Json)
    requires Requests(read, parse, body, "getLTP")
    ensures Handle(read, parse, fetch) == QuoteBranch(CheckQuoteBody(body), parse, fetch)
  {
    assert JStr("getLTP") != JStr("loginByMpin") by {
      assert "getLTP"[0] != "loginByMpin"[0];
    }
  }

  /** Any other request is answered without calling the branches. */
  lemma HandleOther(read: Option<string>, parse: string -> Option<Json>, fetch: OutboundRequest -> Exchange)
    requires forall body :: !Requests(read, parse, body, "loginByMpin") && !Requests(read, parse, body, "getLTP")
    ensures Handle(read, parse, fetch).sent.None?
    ensures Handle(read, parse, fetch).outcome.IsInputError()
  {
    var bodyText := BodyText(read);
    if Trim(bodyText) != "" && parse(bodyText).Some? {
      var body := parse(bodyText).value;
      assert !Requests(read, parse, body, "loginByMpin") && !Requests(read, parse, body, "getLTP");
    }
  }

  /** A blank or unreadable request body is refused with 400 "Empty request
      body" without parsing it: the response is the same whatever `JSON.parse`
      and the upstream would do. */
  lemma EmptyBodyRefused(read: Option<string>, parse: string -> Option<Json>, fetch: OutboundRequest -> Exchange,
                         parse': string -> Option<Json>, fetch': OutboundRequest -> Exchange)
    requires IsBlank(BodyText(read))
    ensures Handle(read, parse, fetch) == ProxyResponse(400, EmptyRequestBody, None)
    ensures Handle(read, parse, fetch) == Handle(read, parse', fetch')
  {
    TrimEmptyIffBlank(BodyText(read));
  }

  /** A body that does not parse is refused with 400 "Invalid JSON". */
  lemma InvalidJsonRefused(read: Option<string>, parse: string -> Option<Json>, fetch: OutboundRequest -> Exchange)
    requires !IsBlank(BodyText(read)) && parse(BodyText(read)).None?
    ensures Handle(read, parse, fetch) == ProxyResponse(400, InvalidJson, None)
  {
    TrimEmptyIffBlank(BodyText(read));
  }

  /** A body whose `action` is falsy or absent, which includes every body
      that is not a JSON object, is refused with 400 "Missing action". */
  lemma MissingActionRefused(read: Option<string>, parse: string -> Option<Json>, fetch: OutboundRequest -> Exchange, body: Json)
    requires !IsBlank(BodyText(read)) && parse(BodyText(read)) == Some(body)
    requires !body.JObj? || "action" !in body.fields || !Truthy(body.fields["action"])
    ensures Handle(read, parse, fetch) == ProxyResponse(400, MissingAction, None)
  {
    TrimEmptyIffBlank(BodyText(read));
  }

  /** Any truthy `action` other than the strings "loginByMpin" and "getLTP"
      is refused with 400 "Unknown action"; the action is compared exactly,
      without trimming. */
  lemma UnknownActionRefused(read: Option<string>, parse: string -> Option<Json>, fetch: OutboundRequest -> Exchange, body: Json)
    requires !IsBlank(BodyText(read)) && parse(BodyText(read)) == Some(body)
    requires Prop(body, "action").Some? && Truthy(Prop(body, "action").value)
    requires Prop(body, "action").value != JStr("loginByMpin") && Prop(body, "action").value != JStr("getLTP")
    ensures Handle(read, parse, fetch) == ProxyResponse(400, UnknownAction, None)
  {
    TrimEmptyIffBlank(BodyText(read));
  }

  /** When nothing is sent upstream, the upstream plays no part: every
      `fetch` gives the same response. */
  lemma NothingSentNothingAsked(read: Option<string>, parse: string -> Option<Json>,
                                fetch: OutboundRequest -> Exchange, fetch': OutboundRequest -> Exchange)
    requires Handle(read, parse, fetch).sent.None?
    ensures Handle(read, parse, fetch) == Handle(read, parse, fetch')
  {
    if body :| Requests(read, parse, body, "loginByMpin") {
      HandleLogin(read, parse, fetch, body);
      HandleLogin(read, parse, fetch', body);
    } else if body :| Requests(read, parse, body, "getLTP") {
      HandleQuote(read, parse, fetch, body);
      HandleQuote(read, parse, fetch', body);
    } else {
      HandleOther(read, parse, fetch);
      HandleOther(read, parse, fetch');
    }
  }

  /** Whatever was sent upstream, the response is the shared classification
      of the reply to it, with the login endpoint's name and fallback text
      for a login and the quote endpoint's for a quote. */
  lemma BranchesShareClassification(read: Option<string>, parse: string -> Option<Json>, fetch: OutboundRequest -> Exchange)
    ensures var r := Handle(read, parse, fetch);
      r.sent.Some? ==>
        || (r.sent.value.url == LoginUrl && r == Classify(LoginEndpoint, LoginFallback, r.sent.value, fetch(r.sent.value), parse))
        || (r.sent.value.url == LtpUrl && r == Classify(QuoteEndpoint, QuoteFallback, r.sent.value, fetch(r.sent.value), parse))
  {
    if body :| Requests(read, parse, body, "loginByMpin") {
      HandleLogin(read, parse, fetch, body);
    } else if body :| Requests(read, parse, body, "getLTP") {
      HandleQuote(read, parse, fetch, body);
    } else {
      HandleOther(read, parse, fetch);
    }
  }

  /** An empty upstream body is never a success, even with status 200. */
  lemma EmptyReplyNeverSuccess(read: Option<string>, parse: string -> Option<Json>, fetch: OutboundRequest -> Exchange)
    ensures var r := Handle(read, parse, fetch);
      r.sent.Some? && fetch(r.sent.value).Reply? && IsBlank(fetch(r.sent.value).text) ==>
        r.httpStatus == 502 && r.outcome.UpstreamEmptyBody? && r.outcome.upstreamStatus == fetch(r.sent.value).status
  {
    BranchesShareClassification(read, parse, fetch);
  }

  /** A success envelope always comes from a 2xx reply whose body parsed, and
      its `data` is the reply's `data` member when it has one, otherwise the
      whole reply. */
  lemma SuccessUnwrapsData(read: Option<string>, parse: string -> Option<Json>, fetch: OutboundRequest -> Exchange)
    ensures var r := Handle(read, parse, fetch);
      r.outcome.Success? ==>
        && r.sent.Some? && fetch(r.sent.value).Reply?
        && IsOk(fetch(r.sent.value).status) && parse(fetch(r.sent.value).text).Some?
        && var d := parse(fetch(r.sent.value).text).value;
           && (d.JObj? && "data" in d.fields ==> r.outcome.data == d.fields["data"])
           && (!(d.JObj? && "data" in d.fields) ==> r.outcome.data == d)
  {
    BranchesShareClassification(read, parse, fetch);
  }

  /** The login gate: the order of the checks and what reaches upstream. */
  lemma LoginGate(read: Option<string>, parse: string -> Option<Json>, fetch: OutboundRequest -> Exchange, body: Json)
    requires Requests(read, parse, body, "loginByMpin")
    ensures
      var apiKey, clientId, mpin, totp :=
        Sanitize(body, "apiKey"), Sanitize(body, "clientId"), Sanitize(body, "mpin"), Sanitize(body, "totp");
      var thrown := apiKey.Throws? || clientId.Throws? || mpin.Throws? || totp.Throws?;
      var given := Given(apiKey) && Given(clientId) && Given(mpin) && Given(totp);
      var r := Handle(read, parse, fetch);
      && (thrown ==> r == ProxyResponse(500, InternalError, None))
      && (!thrown && !given ==> r == ProxyResponse(400, MissingFields(LoginFieldsRequired), None))
      && (given && !MatchesDigits(mpin.s, 4) ==> r == ProxyResponse(400, InvalidMpinFormat, None))
      && (given && MatchesDigits(mpin.s, 4) && !MatchesDigits(totp.s, 6) ==> r == ProxyResponse(400, InvalidTotpFormat, None))
      && (r.sent.Some? <==> given && MatchesDigits(mpin.s, 4) && MatchesDigits(totp.s, 6))
  {
    HandleLogin(read, parse, fetch, body);
  }

  /** What a login sends: the trimmed client id, MPIN and TOTP, and headers
      carrying the trimmed API key and no `Authorization`. */
  lemma LoginRequestContents(read: Option<string>, parse: string -> Option<Json>, fetch: OutboundRequest -> Exchange, body: Json)
    requires Requests(read, parse, body, "loginByMpin")
    ensures
      var r := Handle(read, parse, fetch);
      r.sent.Some? ==>
        && r.sent.value.url == LoginUrl
        && r.sent.value.body == [("clientcode", Sanitize(body, "clientId").s), ("mpin", Sanitize(body, "mpin").s),
                                 ("totp", Sanitize(body, "totp").s)]
        && r.sent.value.headers["X-PrivateKey"] == Sanitize(body, "apiKey").s
        && "Authorization" !in r.sent.value.headers
  {
    HandleLogin(read, parse, fetch, body);
  }

  /** The quote gate: only presence is checked, after sanitising. */
  lemma QuoteGate(read: Option<string>, parse: string -> Option<Json>, fetch: OutboundRequest -> Exchange, body: Json)
    requires Requests(read, parse, body, "getLTP")
    ensures
      var apiKey, jwtToken, exchange, tradingSymbol, symbolToken :=
        Sanitize(body, "apiKey"), Sanitize(body, "jwtToken"), Sanitize(body, "exchange"),
        Sanitize(body, "tradingsymbol"), Sanitize(body, "symboltoken");
      var thrown := apiKey.Throws? || jwtToken.Throws? || exchange.Throws? || tradingSymbol.Throws? || symbolToken.Throws?;
      var given := Given(apiKey) && Given(jwtToken) && Given(exchange) && Given(tradingSymbol) && Given(symbolToken);
      var r := Handle(read, parse, fetch);
      && (thrown ==> r == ProxyResponse(500, InternalError, None))
      && (!thrown && !given ==> r == ProxyResponse(400, MissingFields(QuoteFieldsRequired), None))
      && (r.sent.Some? <==> given)
  {
    HandleQuote(read, parse, fetch, body);
  }

  /** What a quote request sends: the trimmed exchange, trading symbol and
      symbol token, and headers carrying the trimmed API key and the bearer
      token built from the trimmed JWT. */
  lemma QuoteRequestContents(read: Option<string>, parse: string -> Option<Json>, fetch: OutboundRequest -> Exchange, body: Json)
    requires Requests(read, parse, body, "getLTP")
    ensures
      var r := Handle(read, parse, fetch);
      r.sent.Some? ==>
        && r.sent.value.url == LtpUrl
        && r.sent.value.body == [("exchange", Sanitize(body, "exchange").s), ("tradingsymbol", Sanitize(body, "tradingsymbol").s),
                                 ("symboltoken", Sanitize(body, "symboltoken").s)]
        && r.sent.value.headers["X-PrivateKey"] == Sanitize(body, "apiKey").s
        && r.sent.value.headers["Authorization"] == "Bearer " + Sanitize(body, "jwtToken").s
  {
    HandleQuote(read, parse, fetch, body);
  }

  /** The response body has an `error` member exactly when it is not a
      success envelope, and a `data` member exactly when it is one. */
  lemma EnvelopeOrError(read: Option<string>, parse: string -> Option<Json>, fetch: OutboundRequest -> Exchange, thrown: string)
    ensures var j := Render(Handle(read, parse, fetch).outcome, thrown);
      j.JObj? && ("error" in j.fields <==> "data" !in j.fields)
  {
  }

  // ---------------------------------------------------------------------------
  // Concrete scenarios

  /** MPINs of the wrong length or with a non-digit are refused, and
      surrounding whitespace is trimmed away before the check. */
  lemma MpinExamples()
    ensures !MatchesDigits(Trim("123"), 4) && !MatchesDigits(Trim("12345"), 4) && !MatchesDigits(Trim("12a4"), 4)
    ensures MatchesDigits(Trim(" 1234\n"), 4)
  {
    TrimKeepsTrimmed("123");
    TrimKeepsTrimmed("12345");
    TrimKeepsTrimmed("12a4");
    assert !IsDigit("12a4"[2]);
    assert Trim(" 1234\n") == Trim("1234\n") == Trim("1234");
    TrimKeepsTrimmed("1234");
  }

  /** A string member without surrounding whitespace is sanitised to
      itself. */
  lemma StringKept(body: Json, key: string, v: string)
    requires Prop(body, key) == Some(JStr(v))
    requires v == [] || (!IsSpace(v[0]) && !IsSpace(v[|v| - 1]))
    ensures Sanitize(body, key) == Text(v)
  {
    TrimKeepsTrimmed(v);
  }

  /** A quote request, as text, as the value it parses to, and as the
      fields the checks accept from it. */
  const LtpRequestText: string :=
    "{" + "\"action\":\"getLTP\",\"apiKey\":\"key\",\"jwtToken\":\"jwt\",\"exchange\":\"NSE\",\"tradingsymbol\":\"RELIANCE-EQ\",\"symboltoken\":\"2885\"}"
  const LtpRequestBody: Json := JObj(map[
    "action" := JStr("getLTP"), "apiKey" := JStr("key"), "jwtToken" := JStr("jwt"), "exchange" := JStr("NSE"),
    "tradingsymbol" := JStr("RELIANCE-EQ"), "symboltoken" := JStr("2885")])
  const LtpFields: QuoteFields := QuoteFields("key", "jwt", "NSE", "RELIANCE-EQ", "2885")
  const LtpReplyText: string := "{\"status\":true,\"data\":{\"ltp\":2847.65}}"
  const LtpReplyBody: Json := JObj(map["status" := JBool(true), "data" := JObj(map["ltp" := JNum("2847.65")])])

  /** The members the quote checks read. */
  lemma LtpRequestMembers()
    ensures Prop(LtpRequestBody, "action") == Some(JStr("getLTP"))
    ensures Prop(LtpRequestBody, "apiKey") == Some(JStr("key")) && Prop(LtpRequestBody, "jwtToken") == Some(JStr("jwt"))
    ensures Prop(LtpRequestBody, "exchange") == Some(JStr("NSE"))
    ensures Prop(LtpRequestBody, "tradingsymbol") == Some(JStr("RELIANCE-EQ"))
    ensures Prop(LtpRequestBody, "symboltoken") == Some(JStr("2885"))
  {
  }

  /** The quote request passes the checks with its fields unchanged. */
  lemma LtpRequestAccepted()
    ensures CheckQuoteBody(LtpRequestBody) == Accepted(LtpFields)
  {
    var body := LtpRequestBody;
    LtpRequestMembers();
    StringKept(body, "apiKey", "key");
    StringKept(body, "jwtToken", "jwt");
    StringKept(body, "exchange", "NSE");
    StringKept(body, "tradingsymbol", "RELIANCE-EQ");
    StringKept(body, "symboltoken", "2885");
    assert CheckQuoteBody(body) == CheckQuote(Text("key"), Text("jwt"), Text("NSE"), Text("RELIANCE-EQ"), Text("2885"));
  }

  /** The quote call for it carries the bearer token. */
  lemma LtpBearer()
    ensures "Authorization" in QuoteRequest(LtpFields).headers
    ensures QuoteRequest(LtpFields).headers["Authorization"] == "Bearer jwt"
  {
    assert "Bearer " + "jwt" == "Bearer jwt";
  }

  /** A 200 reply `{"status":true,"data":{"ltp":2847.65}}` to a quote call
      is answered 200 with `{"status":true,"message":"OK","data":{"ltp":2847.65}}`. */
  lemma LtpReplyClassified(out: OutboundRequest, parse: string -> Option<Json>, thrown: string)
    requires parse(LtpReplyText) == Some(LtpReplyBody)
    ensures
      var r := Classify(QuoteEndpoint, QuoteFallback, out, Reply(200, LtpReplyText), parse);
      && r.httpStatus == 200
      && Render(r.outcome, thrown)
         == JObj(map["status" := JBool(true), "message" := JStr("OK"), "data" := JObj(map["ltp" := JNum("2847.65")])])
  {
    assert !IsSpace(LtpReplyText[0]);
  }

  /** The whole exchange: the quote request sends one call, with the bearer
      token, and the 200 reply is passed on as above. */
  lemma LtpSuccessExample(parse: string -> Option<Json>, fetch: OutboundRequest -> Exchange, thrown: string)
    requires parse(LtpRequestText) == Some(LtpRequestBody) && parse(LtpReplyText) == Some(LtpReplyBody)
    requires fetch(QuoteRequest(LtpFields)) == Reply(200, LtpReplyText)
    ensures
      var r := Handle(Some(LtpRequestText), parse, fetch);
      && r.httpStatus == 200
      && r.sent == Some(QuoteRequest(LtpFields))
      && r.sent.value.headers["Authorization"] == "Bearer jwt"
      && Render(r.outcome, thrown)
         == JObj(map["status" := JBool(true), "message" := JStr("OK"), "data" := JObj(map["ltp" := JNum("2847.65")])])
  {
    assert LtpRequestText[0] == '{';
    TrimEmptyIffBlank(LtpRequestText);
    LtpRequestMembers();
    HandleQuote(Some(LtpRequestText), parse, fetch, LtpRequestBody);
    LtpRequestAccepted();
    var out := QuoteRequest(LtpFields);
    LtpBearer();
    assert Handle(Some(LtpRequestText), parse, fetch) == Classify(QuoteEndpoint, QuoteFallback, out, Reply(200, LtpReplyText), parse);
    LtpReplyClassified(out, parse, thrown);
  }

  /** A login request, as text, as the value it parses to, and as the
      fields the checks accept from it. */
  const LoginRequestText: string :=
    "{" + "\"action\":\"loginByMpin\",\"apiKey\":\"key\",\"clientId\":\"A123\",\"mpin\":\"1234\",\"totp\":\"123456\"}"
  const LoginRequestBody: Json := JObj(map[
    "action" := JStr("loginByMpin"), "apiKey" := JStr("key"), "clientId" := JStr("A123"), "mpin" := JStr("1234"),
    "totp" := JStr("123456")])
  const LoginExampleFields: LoginFields := LoginFields("key", "A123", "1234", "123456")
  const UnauthorizedText: string := "{\"message\":\"Invalid apikey\"}"
  const UnauthorizedBody: Json := JObj(map["message" := JStr("Invalid apikey")])

  /** The members the login checks read. */
  lemma LoginRequestMembers()
    ensures Prop(LoginRequestBody, "action") == Some(JStr("loginByMpin"))
    ensures Prop(LoginRequestBody, "apiKey") == Some(JStr("key")) && Prop(LoginRequestBody, "clientId") == Some(JStr("A123"))
    ensures Prop(LoginRequestBody, "mpin") == Some(JStr("1234")) && Prop(LoginRequestBody, "totp") == Some(JStr("123456"))
  {
  }

  /** The login request passes the checks with its fields unchanged. */
  lemma LoginRequestAccepted()
    ensures CheckLoginBody(LoginRequestBody) == Accepted(LoginExampleFields)
  {
    var body := LoginRequestBody;
    LoginRequestMembers();
    StringKept(body, "apiKey", "key");
    StringKept(body, "clientId", "A123");
    StringKept(body, "mpin", "1234");
    StringKept(body, "totp", "123456");
    assert CheckLoginBody(body) == CheckLogin(Text("key"), Text("A123"), Text("1234"), Text("123456"));
  }

  /** A 401 reply `{"message":"Invalid apikey"}` to a login call is answered
      401 with that message as `details`, the status, and the upstream body. */
  lemma UnauthorizedReplyClassified(out: OutboundRequest, parse: string -> Option<Json>, thrown: string)
    requires parse(UnauthorizedText) == Some(UnauthorizedBody)
    ensures
      var r := Classify(LoginEndpoint, LoginFallback, out, Reply(401, UnauthorizedText), parse);
      && r.httpStatus == 401
      && Render(r.outcome, thrown)
         == JObj(map["error" := JStr("Angel One API error"), "details" := JStr("Invalid apikey"), "status" := JNum("401"),
                     "angelOneResponse" := UnauthorizedBody])
  {
    assert !IsSpace(UnauthorizedText[0]);
    assert Decimal(401) == "401" by {
      assert Decimal(4) == "4";
      assert Decimal(40) == "40";
    }
  }

  /** The whole exchange: the login request sends one call, and the 401
      reply is passed on as above. */
  lemma LoginUnauthorizedExample(parse: string -> Option<Json>, fetch: OutboundRequest -> Exchange, thrown: string)
    requires parse(LoginRequestText) == Some(LoginRequestBody) && parse(UnauthorizedText) == Some(UnauthorizedBody)
    requires fetch(LoginRequest(LoginExampleFields)) == Reply(401, UnauthorizedText)
    ensures
      var r := Handle(Some(LoginRequestText), parse, fetch);
      && r.httpStatus == 401
      && r.sent == Some(LoginRequest(LoginExampleFields))
      && Render(r.outcome, thrown)
         == JObj(map["error" := JStr("Angel One API error"), "details" := JStr("Invalid apikey"), "status" := JNum("401"),
                     "angelOneResponse" := UnauthorizedBody])
  {
    assert LoginRequestText[0] == '{';
    TrimEmptyIffBlank(LoginRequestText);
    LoginRequestMembers();
    HandleLogin(Some(LoginRequestText), parse, fetch, LoginRequestBody);
    LoginRequestAccepted();
    UnauthorizedReplyClassified(LoginRequest(LoginExampleFields), parse, thrown);
  }
}
