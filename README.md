# Angel One SmartAPI proxy and trading front-end, in Dafny

This project models the logic of a small trading front-end built on the Angel One SmartAPI:

- **The `angel-one-proxy` edge function.** It accepts a JSON request tagged with an `action`, either `loginByMpin` or `getLTP`.
  - It trims and validates the request fields.
  - It builds the broker's fixed header set, sends exactly one POST to the matching SmartAPI endpoint, and classifies the reply.
  - The reply falls into one of these classes: unreachable, empty body, non-JSON body, upstream error, or success.
  - The handler answers with one JSON envelope.
- **The TOTP entry form.** It keeps only digits, at most six of them, and hands the code on only when it has exactly six.
- **The stock picker.** It filters a fixed list of ten NSE stocks by a case-insensitive substring of the symbol or the name.

The handler is a total function, `AngelOneProxy.Handle`, of three inputs:

- what reading the request body gave;
- `JSON.parse`, passed in as a partial function `string -> Option<Json>`;
- `fetch`, passed in as a function from the outbound request to what the upstream exchange yielded.

The response records the upstream call that was made, if any. "No upstream call" is therefore provable: `sent == None`, and the response is the same for every `fetch`.

Files:

| file | module | contents |
|---|---|---|
| `wrappers.dfy` | `Wrappers` | `Option` |
| `seqs.dfy` | `Seqs` | order-preserving `Filter` and subsequences, with soundness and completeness |
| `js_text.dfy` | `JsText` | `String.prototype.trim`, `/^\d{n}$/`, `toLowerCase`, `includes`, `slice` |
| `json.dfy` | `Json` | parsed JSON values, JavaScript truthiness, `?.`, `\|\|` and `toString()` |
| `proxy.dfy` | `AngelOneProxy` | headers, field validation, reply classification, the handler, response bodies |
| `proxy_properties.dfy` | `ProxyProperties` | handler-level guarantees over all requests, parsers and upstream behaviours |
| `totp_form.dfy` | `TotpTestForm` | the form state as a class, the digit filter and its lemmas |
| `stock_search.dfy` | `StockSearch` | the stock list, the filter, the no-results condition and the token keys |

Behaviour worth noting:

- **Field values need not be strings.** Each request field is converted with `toString()` and then trimmed, whatever JSON value it holds. A number such as `1234` is a valid MPIN, and `null` counts as missing. An object that has its own `toString` key makes the call throw, and the outer `catch` turns that into a 500.
- **Only text that does not parse is "Invalid JSON".** A body that parses to something other than an object has no `action`, so it is refused with "Missing action".
- **An unreachable upstream gives a 500 carrying the runtime's message.** A rejected `fetch` or `resp.text()` falls into the outer `catch`. That `catch` answers 500 with the thrown error's own message as `error`, since every such rejection is an `Error`.
- **An upstream status the proxy cannot repeat gives a 500.** An upstream error passes the upstream status on as the response status. For a status of 600 or more, constructing that response throws a `RangeError`, which the outer `catch` turns into a 500.
- **A 2xx reply whose text parses is a success, whatever JSON it holds.** A blank 2xx reply is still the 502 empty-body failure, and a 2xx reply that does not parse is still the 502 non-JSON failure. A parsed 2xx reply whose JSON lacks `data` (or a token) is a success whose `data` is the whole reply.
- **A login call never carries an `Authorization` header.** The header is added exactly when a token is passed and, once trimmed, is non-empty. Only the quote call passes one.

## Model

| member | source | states |
|---|---|---|
| AngelOneProxy.BuildHeaders | supabase/functions/angel-one-proxy/index.ts:56-69 | `X-PrivateKey` is the API key; `Authorization` is present exactly when the token is given and non-empty, and is then `"Bearer " + token`; all ten fixed headers keep their constant values; there are no other keys |
| AngelOneProxy.Render | supabase/functions/angel-one-proxy/index.ts:24-310 | the response body is an object; it has `error` exactly when it is not a success and `data` exactly when it is; the success body is exactly `{status: true, message, data}`; the internal-error body is exactly `{error}` with the thrown message |
| AngelOneProxy.RenderCarriesOutcome | supabase/functions/angel-one-proxy/index.ts:138-182 | `code` appears exactly for the empty-body and non-JSON upstream failures; every error body's `error` is a string; "Missing required fields" carries the required-field text as `details`; the empty-body failure carries the upstream `status` and `details: {endpoint}`; the non-JSON failure carries the upstream `status` and the `rawResponse` prefix; an upstream error carries `details`, the upstream `status` and the parsed reply as `angelOneResponse` |
| AngelOneProxy.RenderUpstreamTexts | supabase/functions/angel-one-proxy/index.ts:138-181 | the empty-body failure carries `error` "Empty response from Angel One API" and `code` "ANGEL_EMPTY_BODY"; the non-JSON failure carries "Invalid response from Angel One API", `code` "ANGEL_NON_JSON" and `details` "API returned non-JSON response"; an upstream error carries "Angel One API error" |
| AngelOneProxy.UpstreamShapeFailuresDistinct | supabase/functions/angel-one-proxy/index.ts:138-167 | an empty upstream reply and a non-JSON one are told apart by both their `code` and their `error` text |
| AngelOneProxy.RenderRequestErrorTexts | supabase/functions/angel-one-proxy/index.ts:24-53 | the empty-body refusal is exactly `{error: "Empty request body", hint: "Send JSON with action field"}`; the unparseable-body refusal is exactly `{error: "Invalid JSON", hint: "Ensure Content-Type: application/json and valid JSON"}`; the action refusals are exactly `{error: "Missing action"}` and `{error: "Unknown action"}` (the latter at index.ts:297) |
| AngelOneProxy.RenderFieldErrorTexts | supabase/functions/angel-one-proxy/index.ts:80-108 | the field refusals are exactly `{error: "Missing required fields", details}` with the action's required-field text, `{error: "Invalid MPIN format", details: "MPIN must be exactly 4 digits"}` and `{error: "Invalid TOTP format", details: "TOTP must be exactly 6 digits"}` |
| AngelOneProxy.InputErrorTextsDistinct | supabase/functions/angel-one-proxy/index.ts:24-300 | two different kinds of input error never carry the same `error` text, so a client can tell every 400 apart by its text |
| AngelOneProxy.Sanitize | supabase/functions/angel-one-proxy/index.ts:72-78 | `x?.toString().trim()`: undefined exactly when the key is absent (or the body is not an object) or the value is `null`; a string gives its trimmed value; any other value throws exactly when its `toString()` throws, and otherwise gives its text, trimmed; any text produced is already trimmed |
| AngelOneProxy.SanitizeNonStrings | supabase/functions/angel-one-proxy/index.ts:72-78 | a numeric member sanitises to its own rendering, trimmed, so `1234` is the MPIN "1234"; a boolean to "true" or "false"; an object to "[object Object]", except that it throws exactly when it has its own `toString` key |
| Json.JoinItemsThrows | supabase/functions/angel-one-proxy/index.ts:75-78 | an array's `toString()` throws exactly when one of its items that is not `null` throws |
| AngelOneProxy.CheckLogin | supabase/functions/angel-one-proxy/index.ts:75-109 | accepted exactly when all four trimmed fields are non-empty, the MPIN is 4 digits and the TOTP is 6 digits; accepted fields are the trimmed values; otherwise a 400 input error, or 500 exactly when a `toString` threw |
| AngelOneProxy.CheckQuote | supabase/functions/angel-one-proxy/index.ts:199-213 | accepted exactly when all five trimmed fields are non-empty, with the trimmed values; otherwise 400 "Missing required fields" with the five-field text, or 500 exactly when a `toString` threw |
| AngelOneProxy.Classify | supabase/functions/angel-one-proxy/index.ts:133-192 | the call is recorded as sent. A rejected call gives 500. A blank reply gives 502 empty-body with the upstream status, whatever that status is. Unparseable text gives 502 non-JSON with a raw prefix of min(200, length) characters. An upstream error happens exactly for a parsed non-2xx reply whose status is at most 599: status passed through, `details` = `message` ‖ `errorMessage` ‖ fallback. A parsed reply with a status of 600 or more gives 500. A success happens exactly for a parsed 2xx reply: 200, `data` unwrapped in both branches, `message` or "OK" |
| AngelOneProxy.LoginBranch | supabase/functions/angel-one-proxy/index.ts:118-192 | a refusal is answered with its own status and outcome and nothing sent; an accepted login sends exactly the login call for its fields and is not an input error; an input error is a 400 with nothing sent; a success is a 200 with a call sent |
| AngelOneProxy.QuoteBranch | supabase/functions/angel-one-proxy/index.ts:221-294 | the same for the quote branch, whose accepted request sends exactly the quote call for its fields |
| AngelOneProxy.Handle | supabase/functions/angel-one-proxy/index.ts:17-300 | an input error happens exactly when the response is a 400 with nothing sent upstream; a response that sent nothing is an input error or an internal 500; a success is a 200 with a call sent |
| ProxyProperties.HandleLogin | supabase/functions/angel-one-proxy/index.ts:71-78 | a non-blank body that parses with action `"loginByMpin"` is handled by the login branch on its sanitised fields |
| ProxyProperties.HandleQuote | supabase/functions/angel-one-proxy/index.ts:195-203 | the same for `"getLTP"` and the quote branch |
| ProxyProperties.HandleOther | supabase/functions/angel-one-proxy/index.ts:24-53 | any request that is neither a login nor a quote is an input error with nothing sent |
| ProxyProperties.EmptyBodyRefused | supabase/functions/angel-one-proxy/index.ts:17-30 | a blank or unreadable body gives 400 "Empty request body", nothing sent, and the same response whatever the parser and upstream do |
| ProxyProperties.InvalidJsonRefused | supabase/functions/angel-one-proxy/index.ts:35-44 | a non-blank body that does not parse gives 400 "Invalid JSON" with nothing sent |
| ProxyProperties.MissingActionRefused | supabase/functions/angel-one-proxy/index.ts:46-53 | a parsed body that is not an object, or whose `action` is absent or falsy, gives 400 "Missing action" with nothing sent |
| ProxyProperties.UnknownActionRefused | supabase/functions/angel-one-proxy/index.ts:297-300 | any truthy action other than the two exact strings gives 400 "Unknown action" with nothing sent |
| ProxyProperties.NothingSentNothingAsked | supabase/functions/angel-one-proxy/index.ts:24-300 | when nothing was sent upstream, the response is the same for every `fetch` |
| ProxyProperties.BranchesShareClassification | supabase/functions/angel-one-proxy/index.ts:118-294 | whatever was sent went to the login URL or the LTP URL, and the response is the shared classification of its reply with that endpoint's name and fallback text |
| ProxyProperties.EmptyReplyNeverSuccess | supabase/functions/angel-one-proxy/index.ts:137-151 | a blank upstream reply always gives 502 empty-body carrying the upstream status, even when that status is 200 |
| ProxyProperties.SuccessUnwrapsData | supabase/functions/angel-one-proxy/index.ts:183-192 | a success comes from a parsed 2xx reply; its `data` is the reply's `data` member when the reply is an object with one, otherwise the whole reply |
| ProxyProperties.LoginGate | supabase/functions/angel-one-proxy/index.ts:75-109 | the login checks run in order: a throwing `toString` gives 500; a missing field gives 400 before any format check; a bad MPIN is reported before a bad TOTP; a call is sent exactly when all fields are present and both formats hold |
| ProxyProperties.LoginRequestContents | supabase/functions/angel-one-proxy/index.ts:118-128 | a login sends to the login URL the body `{clientcode, mpin, totp}` of trimmed values, with `X-PrivateKey` set to the trimmed API key and no `Authorization` |
| ProxyProperties.QuoteGate | supabase/functions/angel-one-proxy/index.ts:199-213 | a throwing `toString` gives 500; a missing field gives 400 "Missing required fields"; a call is sent exactly when all five fields are present |
| ProxyProperties.QuoteRequestContents | supabase/functions/angel-one-proxy/index.ts:221-231 | a quote sends to the LTP URL the body `{exchange, tradingsymbol, symboltoken}` of trimmed values, with the trimmed API key and `Authorization: Bearer` followed by the trimmed JWT |
| ProxyProperties.EnvelopeOrError | supabase/functions/angel-one-proxy/index.ts:183-192 | no response body carries both a success `data` and an `error` |
| ProxyProperties.MpinExamples | supabase/functions/angel-one-proxy/index.ts:91 | "123", "12345" and "12a4" fail the MPIN check; " 1234\n" passes once trimmed |
| ProxyProperties.StringKept | supabase/functions/angel-one-proxy/index.ts:75-78 | a string member without whitespace at either end is sanitised to itself |
| ProxyProperties.LtpRequestMembers | supabase/functions/angel-one-proxy/index.ts:195-203 | the example quote request's `action` is "getLTP" and its five fields hold the given strings |
| ProxyProperties.LtpRequestAccepted | supabase/functions/angel-one-proxy/index.ts:195-213 | the example quote request passes the checks with its fields unchanged |
| ProxyProperties.LtpBearer | supabase/functions/angel-one-proxy/index.ts:221-226 | the example quote call carries `Authorization: Bearer jwt` |
| ProxyProperties.LtpReplyClassified | supabase/functions/angel-one-proxy/index.ts:285-294 | a 200 reply `{"status":true,"data":{"ltp":2847.65}}` is answered 200 with `{"status":true,"message":"OK","data":{"ltp":2847.65}}` |
| ProxyProperties.LtpSuccessExample | supabase/functions/angel-one-proxy/index.ts:17-294 | the example quote request, answered upstream with that 200 reply, sends exactly one quote call with the bearer token and is answered 200 with that envelope |
| ProxyProperties.LoginRequestMembers | supabase/functions/angel-one-proxy/index.ts:71-78 | the example login request's `action` is "loginByMpin" and its four fields hold the given strings |
| ProxyProperties.LoginRequestAccepted | supabase/functions/angel-one-proxy/index.ts:75-109 | the example login request, with a four-digit MPIN and a six-digit TOTP, passes the checks with its fields unchanged |
| ProxyProperties.UnauthorizedReplyClassified | supabase/functions/angel-one-proxy/index.ts:171-181 | a 401 reply `{"message":"Invalid apikey"}` is answered 401 with error "Angel One API error", details "Invalid apikey", status 401 and the upstream body |
| ProxyProperties.LoginUnauthorizedExample | supabase/functions/angel-one-proxy/index.ts:17-192 | the example login request, answered upstream with that 401 reply, sends exactly one login call and is answered 401 with that error body |
| JsText.Trim | supabase/functions/angel-one-proxy/index.ts:24 | trimming never lengthens the text |
| JsText.TrimmedEnds | supabase/functions/angel-one-proxy/index.ts:75-78 | a trimmed text is empty or starts and ends with a non-whitespace character |
| JsText.TrimIsSlice | supabase/functions/angel-one-proxy/index.ts:75-78 | the trimmed text is a contiguous slice of the original: its k-th character is the one just after the dropped prefix, plus k |
| JsText.TrimDropsOnlySpace | supabase/functions/angel-one-proxy/index.ts:75-78 | what trimming removes before and after that slice is all whitespace |
| JsText.TrimEmptyIffBlank | supabase/functions/angel-one-proxy/index.ts:24 | the trimmed text is empty exactly when the text is all whitespace |
| JsText.TrimKeepsTrimmed | supabase/functions/angel-one-proxy/index.ts:75-78 | a text without whitespace at either end is its own trim |
| JsText.TrimIdempotent | supabase/functions/angel-one-proxy/index.ts:75-78 | trimming twice is trimming once |
| Seqs.FilterIsSubsequence | src/components/StockSearch.tsx:36-39 | `filter` keeps a subsequence of its input, in order |
| Seqs.FilterSound | src/components/StockSearch.tsx:36-39 | every kept element is from the input and satisfies the predicate |
| Seqs.FilterComplete | src/components/StockSearch.tsx:36-39 | every input element that satisfies the predicate is kept |
| Seqs.FilterCount | src/components/TotpTestForm.tsx:26 | each kept value occurs as often as in the input; other values do not occur |
| Seqs.FilterAppend | src/components/TotpTestForm.tsx:26 | filtering distributes over concatenation |
| Seqs.FilterKeepsAll | src/components/StockSearch.tsx:36-39 | a predicate true of every element keeps the whole input |
| Seqs.FilterCongruent | src/components/StockSearch.tsx:36-39 | predicates that agree on the input keep the same elements |
| TotpTestForm.CleanTotp | src/components/TotpTestForm.tsx:26 | the cleaned code has only the digits 0-9, at most six of them, and is a subsequence of the input |
| TotpTestForm.PrefixIsSubsequence | src/components/TotpTestForm.tsx:26 | cutting a subsequence to a prefix keeps it a subsequence |
| TotpTestForm.DigitsOfCounts | src/components/TotpTestForm.tsx:26 | `replace(/\D/g, "")` keeps every digit as often as it occurs and nothing else |
| TotpTestForm.CleanIsDigitPrefix | src/components/TotpTestForm.tsx:26 | the cleaned code is the first min(6, n) characters of the input's digit subsequence, where n is its length |
| TotpTestForm.CleanIdempotent | src/components/TotpTestForm.tsx:26 | cleaning a cleaned code changes nothing |
| TotpTestForm.TypeCharacter | src/components/TotpTestForm.tsx:24-28 | typing one more character appends it exactly when it is a digit and fewer than six are held |
| TotpTestForm.SubmittedCodePassesTotpTest | supabase/functions/angel-one-proxy/index.ts:101 | a six-digit code the form hands on passes the proxy's trimmed `/^\d{6}$/` check |
| TotpTestForm.TotpForm.constructor | src/components/TotpTestForm.tsx:14 | the form starts with the empty code, which is clean |
| TotpTestForm.TotpForm.Change | src/components/TotpTestForm.tsx:24-28 | `handleTotpChange`: the code becomes the cleaned input, and the form stays clean |
| TotpTestForm.TotpForm.Submit | src/components/TotpTestForm.tsx:16-22 | with exactly six characters, the code is handed on and reset to ""; otherwise nothing is handed on and the code is unchanged; whatever is handed on is six digits; a code is handed on exactly when the button would be enabled on a form that is neither disabled nor loading |
| TotpTestForm.TotpForm.SubmitEnabled | src/components/TotpTestForm.tsx:63-67 | an enabled button means the form is neither disabled nor loading; on a form holding a cleaned code, the button is enabled exactly when the form is neither disabled nor loading and the code is six digits, the format the proxy's TOTP check accepts |
| StockSearch.FilteredStocks | src/components/StockSearch.tsx:36-39 | the result is a subsequence of the list, in order; every stock returned matches; every matching stock is returned |
| StockSearch.NoResultsShownExactly | src/components/StockSearch.tsx:95 | "No stocks found" shows exactly when the term is non-empty and no stock in the list matches it |
| StockSearch.EmptyTermListsAll | src/components/StockSearch.tsx:20-39 | the empty term lists the whole list, all ten stocks |
| StockSearch.CaseDoesNotMatter | src/components/StockSearch.tsx:37-38 | terms equal up to the case of their letters give the same list |
| StockSearch.UpperCaseTermSameList | src/components/StockSearch.tsx:37-38 | upper-casing the term gives the same list |
| StockSearch.TokensDistinct | src/components/StockSearch.tsx:20-31 | the ten tokens are pairwise distinct |
| StockSearch.FilterKeepsTokensDistinct | src/components/StockSearch.tsx:72-74 | filtering a list with distinct tokens keeps them distinct |
| StockSearch.FilteredTokensDistinct | src/components/StockSearch.tsx:72-74 | the listed cards have distinct `key` tokens |
| StockSearch.AtMostOneHighlighted | src/components/StockSearch.tsx:76 | at most one listed card is highlighted as the selected stock |

## Left out

- CORS preflight (`OPTIONS`), CORS response headers, the `Content-Type` response header and all `console` logging: they are I/O and do not affect the response body or status.
- Reading the request, `JSON.parse`, `JSON.stringify` and `fetch` are parameters, not reimplemented. The parser is any partial function from text to a JSON value. The outbound body is recorded as its ordered list of members rather than as serialised text.
- The `headers` member of the empty-body `details`, a dump of the upstream response headers, is left out. Those headers are not part of the model's upstream exchange.
- AngelOneProxy.Render: the internal-error message is a parameter. Its text comes from the JavaScript runtime's exception.
- AngelOneProxy.Render: the numeric `status` members are rendered as decimal text, and JSON numbers in general are kept as the text JavaScript prints for them. There is no floating point.
- JsText.Trim: whitespace is the ASCII set (space, tab, line feed, vertical tab, form feed, carriage return). The Unicode spaces and line terminators that JavaScript also trims are not modelled. `toLowerCase` is ASCII-only in the same way.
- AngelOneProxy.Classify: `rawResponse` is cut at 200 characters, not 200 UTF-16 code units.
- Exchange: upstream statuses start at 200. An informational (1xx) reply is interim and is never the response `fetch` resolves to.
- Exchange: a 304 reply always has an empty body in `fetch`, so it always takes the empty-body path. The model also admits a 304 with non-blank, parseable text, and would pass the 304 through as an upstream error. In JavaScript, building a response with a body and status 304 throws, which gives a 500. That input cannot come from a real `fetch`, so it is not excluded.
- Timeouts, cancellation and concurrent invocations are host-runtime behaviour and are not modelled.
- The rest of the front-end is not part of this model. That covers the page (`Index.tsx`), the credentials form and its local-storage cache, the market data panel and the credential status badge.
- TotpTestForm.TotpForm.Submit: `e.preventDefault()` and the `onSubmit` callback are not modelled. The code handed to the callback is returned instead.
- TotpTestForm.TotpForm: the input's `maxLength` and `disabled` attributes are not modelled. The model covers only the change and submit handlers, plus the button's `disabled` condition.
- StockSearch: selecting a stock (`onSelectStock`) and all rendering are left out. The model keeps only the filter, the no-results condition, the card keys and the highlight condition.
