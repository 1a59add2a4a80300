/**
 * The background worker's request handling: the guard chain of
 * `polishText` (missing key before blank text), the call to the completion
 * endpoint, the mapping of HTTP statuses to messages (status classes of
 * section 15 of RFC 9110; 429 from section 4 of RFC 6585), the conversion
 * of whatever was thrown into the `PolishError` taxonomy, and the response
 * sent back to the content script.
 *
 * `fetch`, `response.text()`/`response.json()`, `JSON.parse` and the reads
 * of the settings store are oracles: their outcomes are parameters.
 */
module Background {
  import opened Wrappers
  import opened Text
  import opened SharedTypes

  const NoApiKeyMessage: string := "请先配置 API Key"
  const EmptyTextMessage: string := "请先输入文本"
  const InvalidKeyMessage: string := "API Key 无效，请检查配置"
  const RateLimitMessage: string := "API 请求过于频繁，请稍后重试"
  const ServiceUnavailableMessage: string := "OpenAI 服务暂时不可用，请稍后重试"
  const EmptyResultMessage: string := "API 返回结果为空"
  const TimeoutMessage: string := "请求超时，请重试"
  const NetworkErrorPrefix: string := "网络错误: "
  const UnknownMessage: string := "未知错误"
  /** What V8 says when `styleConfig.systemPrompt` is read from `undefined`. */
  const StyleLookupTypeError: string := "Cannot read properties of undefined (reading 'systemPrompt')"

  /** A JavaScript value as `isPolishError` sees it: its `typeof`/null class
      and, for an object, the property names `in` finds on it. */
  datatype JsValue = JsNull | JsPrimitive | JsObject(props: set<string>)

  /** Something thrown inside `polishText`: an object made by
      `createPolishError`, an `Error` instance (with its `name` and
      `message`), or any other value that is neither. */
  datatype Thrown =
    | PolishErrorValue(err: PolishError)
    | ErrorValue(name: string, message: string)
    | NonErrorValue

  function ThrownToJs(t: Thrown): JsValue {
    match t
    case PolishErrorValue(_) => JsObject({"code", "message", "statusCode"})
    case ErrorValue(_, _) => JsObject({"name", "message", "stack"})
    case NonErrorValue => JsPrimitive
  }

  /** `isPolishError`: a non-null object that has both `code` and
      `message`. */
  predicate IsPolishError(v: JsValue)
    ensures IsPolishError(v) ==> v.JsObject? && "code" in v.props && "message" in v.props
    ensures v.JsObject? && "code" in v.props && "message" in v.props ==> IsPolishError(v)
  {
    match v
    case JsObject(props) => "code" in props && "message" in props
    case _ => false
  }

  /** The structural test recognises exactly the objects `createPolishError`
      made: never an `Error`, never a primitive or null. */
  lemma PolishErrorRecognition(t: Thrown)
    ensures IsPolishError(ThrownToJs(t)) <==> t.PolishErrorValue?
  {
    if t.ErrorValue? {
      assert "code" !in ThrownToJs(t).props;
    }
  }

  /** `createPolishError`. */
  function CreatePolishError(code: ErrorCode, message: string, statusCode: Option<nat>): PolishError
  {
    PolishError(code, message, statusCode)
  }

  /** The result of `JSON.parse` on an error body, reduced to what
      `getApiErrorMessage` reads: `parsed.error?.message`. */
  datatype ParsedBody = Unparsable | Parsed(errorMessage: Option<string>)

  function StatusFallbackMessage(statusCode: nat): string {
    "API 错误 (" + NatToDecimal(statusCode) + ")"
  }

  /** `getApiErrorMessage`: fixed messages for 401, 429 and 500/502/503;
      otherwise the upstream's own non-empty `error.message`, falling back to
      a message naming the status. Never empty. */
  function GetApiErrorMessage(statusCode: nat, body: ParsedBody): (m: string)
    ensures m != ""
    ensures statusCode == 401 ==> m == InvalidKeyMessage
    ensures statusCode == 429 ==> m == RateLimitMessage
    ensures statusCode in {500, 502, 503} ==> m == ServiceUnavailableMessage
    ensures statusCode !in {401, 429, 500, 502, 503} ==>
      m == (if body.Parsed? && body.errorMessage.Some? && body.errorMessage.value != ""
            then body.errorMessage.value else StatusFallbackMessage(statusCode))
  {
    if statusCode == 401 then InvalidKeyMessage
    else if statusCode == 429 then RateLimitMessage
    else if statusCode == 500 || statusCode == 502 || statusCode == 503 then ServiceUnavailableMessage
    else
      match body
      case Unparsable => StatusFallbackMessage(statusCode)
      case Parsed(msg) => if msg.Some? && msg.value != "" then msg.value else StatusFallbackMessage(statusCode)
  }

  /** The fallback message names the status: its digits read back as the
      status code. */
  lemma FallbackNamesStatus(statusCode: nat)
    ensures exists digits: string ::
      && StatusFallbackMessage(statusCode) == "API 错误 (" + digits + ")"
      && (forall i :: 0 <= i < |digits| ==> '0' <= digits[i] <= '9')
      && DecimalValue(digits) == statusCode
  {
    DecimalRoundTrip(statusCode);
    var digits := NatToDecimal(statusCode);
    assert StatusFallbackMessage(statusCode) == "API 错误 (" + digits + ")";
  }

  /** The three status classes the user is told apart get three different
      messages. */
  lemma StatusClassesAreDistinguished(body: ParsedBody)
    ensures GetApiErrorMessage(401, body) != GetApiErrorMessage(429, body)
    ensures GetApiErrorMessage(401, body) != GetApiErrorMessage(503, body)
    ensures GetApiErrorMessage(429, body) != GetApiErrorMessage(500, body)
  {
    assert InvalidKeyMessage[0] != RateLimitMessage[1];
    assert InvalidKeyMessage[5] != ServiceUnavailableMessage[5];
    assert RateLimitMessage[0] != ServiceUnavailableMessage[0];
  }

  /** The catch block of `polishText`: an abort becomes `TIMEOUT`, a
      `PolishError` passes unchanged, anything else becomes
      `NETWORK_ERROR` carrying the error's message. */
  function CatchPolishFailure(t: Thrown): (r: Thrown)
    ensures r.PolishErrorValue?
    ensures t.ErrorValue? && t.name == "AbortError" ==> r.err == PolishError(Timeout, TimeoutMessage, None)
    ensures t.PolishErrorValue? ==> r == t
    ensures t.ErrorValue? && t.name != "AbortError" ==>
      r.err == PolishError(NetworkError, NetworkErrorPrefix + t.message, None)
    ensures t.NonErrorValue? ==> r.err == PolishError(NetworkError, NetworkErrorPrefix + UnknownMessage, None)
  {
    PolishErrorRecognition(t);
    if t.ErrorValue? && t.name == "AbortError" then
      PolishErrorValue(CreatePolishError(Timeout, TimeoutMessage, None))
    else if IsPolishError(ThrownToJs(t)) then
      t
    else
      PolishErrorValue(CreatePolishError(NetworkError,
        NetworkErrorPrefix + (if t.ErrorValue? then t.message else UnknownMessage), None))
  }

  /** What `response.json()` gives on a 2xx response, reduced to
      `data.choices?.[0]?.message?.content`. */
  datatype ChatJson = JsonRejected(detail: string) | JsonOk(firstContent: Option<string>)

  /** The outcome of `fetch`: it throws (a network failure, or the
      `AbortError` of the 15 s timer), or a response arrives with its status,
      its parsed error body and its parsed success body. */
  datatype FetchOutcome =
    | FetchThrew(thrown: Thrown)
    | Responded(status: nat, errorBody: ParsedBody, json: ChatJson)

  /** A message of the posted body. `content` is `None` when its value was
      `undefined`, which `JSON.stringify` leaves out of the object. */
  datatype ChatMessage = ChatMessage(role: string, content: Option<string>)

  /** The JSON body posted to the endpoint (temperature left out). */
  datatype ChatBody = ChatBody(model: string, messages: seq<ChatMessage>, maxTokens: nat)

  /** The request `fetch` was asked to make: its URL, its `Authorization`
      header and its body. */
  datatype ChatRequest = ChatRequest(url: string, authorization: string, body: ChatBody)

  /** What one `polishText` call did: the request it made, if any, and its
      result or what it threw. */
  datatype PolishCall = PolishCall(sent: Option<ChatRequest>, result: Result<string, Thrown>)

  /** The property names an object literal inherits from `Object.prototype`,
      which a bracket lookup finds as well as its own keys. */
  const ObjectPrototypeNames: set<string> := {
    "constructor", "__proto__", "toString", "toLocaleString", "valueOf", "hasOwnProperty",
    "isPrototypeOf", "propertyIsEnumerable", "__defineGetter__", "__defineSetter__",
    "__lookupGetter__", "__lookupSetter__"}

  /** What `POLISH_STYLES[style]` evaluates to: an own entry of the
      catalogue, an inherited member of `Object.prototype` (a function, or
      the prototype itself, neither of which has a `systemPrompt`), or
      `undefined`. */
  datatype StyleLookup = OwnEntry(config: StyleConfig) | InheritedMember | Undefined

  function LookupStyle(style: string): (r: StyleLookup)
    ensures r.OwnEntry? <==> PolishStyles(style).Some?
    ensures r.OwnEntry? ==> r.config == PolishStyles(style).value
    ensures r.InheritedMember? <==> style in ObjectPrototypeNames
    ensures r.Undefined? <==> PolishStyles(style).None? && style !in ObjectPrototypeNames
  {
    match PolishStyles(style)
    case Some(config) => OwnEntry(config)
    case None => if style in ObjectPrototypeNames then InheritedMember else Undefined
  }

  predicate IsOkStatus(status: nat) {
    200 <= status <= 299
  }

  /** The part of the `try` block after the request went out: a non-2xx
      status is an `API_ERROR` carrying the status, a 2xx response yields
      its first choice's trimmed content, or an `API_ERROR` without status
      when that is missing or blank. */
  function ReadResponse(fetch: FetchOutcome): (r: Result<string, Thrown>)
    ensures fetch.FetchThrew? ==> r == Err(fetch.thrown)
    ensures fetch.Responded? && !IsOkStatus(fetch.status) ==>
      r == Err(PolishErrorValue(PolishError(ApiError, GetApiErrorMessage(fetch.status, fetch.errorBody),
                                            Some(fetch.status))))
    ensures fetch.Responded? && IsOkStatus(fetch.status) && fetch.json.JsonRejected? ==>
      r == Err(ErrorValue("SyntaxError", fetch.json.detail))
    ensures fetch.Responded? && IsOkStatus(fetch.status) && fetch.json.JsonOk? ==>
      var content := fetch.json.firstContent;
      && (r.Ok? <==> content.Some? && !IsBlank(Js, content.value))
      && (r.Ok? ==> r.value == Trim(Js, content.value))
      && (r.Err? ==> r == Err(PolishErrorValue(PolishError(ApiError, EmptyResultMessage, None))))
    ensures r.Ok? ==> !IsBlank(Js, r.value)
  {
    match fetch
    case FetchThrew(t) => Err(t)
    case Responded(status, errorBody, json) =>
      if !IsOkStatus(status) then
        Err(PolishErrorValue(CreatePolishError(ApiError, GetApiErrorMessage(status, errorBody), Some(status))))
      else
        match json
        case JsonRejected(detail) => Err(ErrorValue("SyntaxError", detail))
        case JsonOk(content) =>
          var resultText := if content.Some? then Trim(Js, content.value) else "";
          if content.Some? then
            TrimEmptyIffBlank(Js, content.value);
            TrimEmptyIffBlank(Js, resultText);
            if resultText == "" then Err(PolishErrorValue(CreatePolishError(ApiError, EmptyResultMessage, None)))
            else Ok(resultText)
          else
            Err(PolishErrorValue(CreatePolishError(ApiError, EmptyResultMessage, None)))
  }

  /** The request of `polishText` once the guards passed: it goes to the
      stored endpoint with the stored key as bearer token, its body holds
      the system prompt the lookup produced (none for an inherited member)
      and the text as it is, and every failure after it went out passes
      through the catch block. */
  function PostChat(text: string, systemPrompt: Option<string>, apiKey: string, endpoint: string,
                    fetch: FetchOutcome): (c: PolishCall)
    ensures c.sent.Some? && c.sent.value.url == endpoint && c.sent.value.authorization == "Bearer " + apiKey
    ensures c.sent.value.body.model == OpenAiModel && c.sent.value.body.maxTokens == DefaultMaxTokens
    ensures c.sent.value.body.messages == [ChatMessage("system", systemPrompt), ChatMessage("user", Some(text))]
    ensures c.result.Err? ==> c.result.error.PolishErrorValue?
    ensures fetch.FetchThrew? ==> c.result == Err(CatchPolishFailure(fetch.thrown))
    ensures fetch.Responded? && !IsOkStatus(fetch.status) ==>
      c.result == Err(PolishErrorValue(PolishError(ApiError, GetApiErrorMessage(fetch.status, fetch.errorBody),
                                                   Some(fetch.status))))
    ensures fetch.Responded? && IsOkStatus(fetch.status) && fetch.json.JsonOk? ==>
      var content := fetch.json.firstContent;
      && (c.result.Ok? <==> content.Some? && !IsBlank(Js, content.value))
      && (c.result.Ok? ==> c.result.value == Trim(Js, content.value))
      && (c.result.Err? ==> c.result == Err(PolishErrorValue(PolishError(ApiError, EmptyResultMessage, None))))
    // a 2xx body that is not JSON: the parser's SyntaxError is caught as a network error
    ensures fetch.Responded? && IsOkStatus(fetch.status) && fetch.json.JsonRejected? ==>
      c.result == Err(PolishErrorValue(PolishError(NetworkError, NetworkErrorPrefix + fetch.json.detail, None)))
    ensures c.result.Ok? ==> !IsBlank(Js, c.result.value)
  {
    var body := ChatBody(OpenAiModel,
                         [ChatMessage("system", systemPrompt), ChatMessage("user", Some(text))],
                         DefaultMaxTokens);
    var request := ChatRequest(endpoint, "Bearer " + apiKey, body);
    match ReadResponse(fetch)
    case Ok(resultText) => PolishCall(Some(request), Ok(resultText))
    case Err(thrown) => PolishCall(Some(request), Err(CatchPolishFailure(thrown)))
  }

  /** `polishText`. `settings` is the outcome of reading the API key and
      endpoint from storage (a rejection propagates as it is, outside the
      `try`). */
  function PolishText(text: string, style: string, settings: Result<(string, string), Thrown>,
                      fetch: FetchOutcome): (c: PolishCall)
    // a storage failure propagates raw
    ensures settings.Err? ==> c == PolishCall(None, Err(settings.error))
    // the guard chain: missing key first, then blank text; neither sends anything
    ensures settings.Ok? && settings.value.0 == "" ==>
      c == PolishCall(None, Err(PolishErrorValue(PolishError(NoApiKey, NoApiKeyMessage, None))))
    ensures settings.Ok? && settings.value.0 != "" && IsBlank(Js, text) ==>
      c == PolishCall(None, Err(PolishErrorValue(PolishError(EmptyText, EmptyTextMessage, None))))
    // a request goes out exactly when the guards pass and the lookup finds something
    ensures c.sent.Some? <==>
      && settings.Ok? && settings.value.0 != "" && !IsBlank(Js, text)
      && (PolishStyles(style).Some? || style in ObjectPrototypeNames)
    // it goes to the stored endpoint, with the stored key as it is
    ensures c.sent.Some? ==>
      c.sent.value.url == settings.value.1 && c.sent.value.authorization == "Bearer " + settings.value.0
    ensures c.sent.Some? && PolishStyles(style).Some? ==>
      c.sent.value.body.messages == [ChatMessage("system", Some(PolishStyles(style).value.systemPrompt)),
                                     ChatMessage("user", Some(text))]
    // an inherited member has no `systemPrompt`: the system message goes out without content
    ensures c.sent.Some? && style in ObjectPrototypeNames ==>
      c.sent.value.body.messages == [ChatMessage("system", None), ChatMessage("user", Some(text))]
    // a style found neither in the catalogue nor on the prototype fails as a network error
    ensures && settings.Ok? && settings.value.0 != "" && !IsBlank(Js, text)
            && PolishStyles(style).None? && style !in ObjectPrototypeNames ==>
      c.result == Err(PolishErrorValue(PolishError(NetworkError, NetworkErrorPrefix + StyleLookupTypeError, None)))
    // once the storage read succeeded, every failure is a PolishError
    ensures settings.Ok? && c.result.Err? ==> c.result.error.PolishErrorValue?
    // the classification of the response
    ensures c.sent.Some? && fetch.Responded? && !IsOkStatus(fetch.status) ==>
      c.result == Err(PolishErrorValue(PolishError(ApiError, GetApiErrorMessage(fetch.status, fetch.errorBody),
                                                   Some(fetch.status))))
    ensures c.sent.Some? && fetch.Responded? && IsOkStatus(fetch.status) && fetch.json.JsonOk? ==>
      var content := fetch.json.firstContent;
      && (c.result.Ok? <==> content.Some? && !IsBlank(Js, content.value))
      && (c.result.Ok? ==> c.result.value == Trim(Js, content.value))
      && (c.result.Err? ==> c.result == Err(PolishErrorValue(PolishError(ApiError, EmptyResultMessage, None))))
    ensures c.sent.Some? && fetch.Responded? && IsOkStatus(fetch.status) && fetch.json.JsonRejected? ==>
      c.result == Err(PolishErrorValue(PolishError(NetworkError, NetworkErrorPrefix + fetch.json.detail, None)))
    ensures c.sent.Some? && fetch.FetchThrew? ==> c.result == Err(CatchPolishFailure(fetch.thrown))
    // a result is never blank
    ensures c.result.Ok? ==> !IsBlank(Js, c.result.value)
  {
    match settings
    case Err(t) => PolishCall(None, Err(t))
    case Ok(pair) =>
      var apiKey := pair.0;
      TrimEmptyIffBlank(Js, text);
      if apiKey == "" then
        PolishCall(None, Err(PolishErrorValue(CreatePolishError(NoApiKey, NoApiKeyMessage, None))))
      else if Trim(Js, text) == [] then
        PolishCall(None, Err(PolishErrorValue(CreatePolishError(EmptyText, EmptyTextMessage, None))))
      else
        match LookupStyle(style)
        case Undefined =>
          // building the body reads `undefined.systemPrompt` inside the `try`
          PolishCall(None, Err(CatchPolishFailure(ErrorValue("TypeError", StyleLookupTypeError))))
        case InheritedMember => PostChat(text, None, apiKey, pair.1, fetch)
        case OwnEntry(styleConfig) => PostChat(text, Some(styleConfig.systemPrompt), apiKey, pair.1, fetch)
  }

  /** `handlePolishRequest`: the response is either a success carrying a
      non-empty result, or a failure carrying an error; anything thrown that
      is not a `PolishError` is reported as `UNKNOWN`. */
  function HandlePolishRequest(request: PolishRequest, settings: Result<(string, string), Thrown>,
                               fetch: FetchOutcome): (r: PolishResponse)
    ensures r.success <==> PolishText(request.text, request.style, settings, fetch).result.Ok?
    ensures r.success ==> r.error.None? && r.result.Some? && r.result.value != ""
                          && r.result == Some(PolishText(request.text, request.style, settings, fetch).result.value)
    ensures !r.success ==> r.result.None? && r.error.Some?
    ensures !r.success && PolishText(request.text, request.style, settings, fetch).result.error.PolishErrorValue? ==>
      r.error == Some(PolishText(request.text, request.style, settings, fetch).result.error.err)
    ensures !r.success && !PolishText(request.text, request.style, settings, fetch).result.error.PolishErrorValue? ==>
      r.error == Some(PolishError(Unknown, UnknownMessage, None))
  {
    var call := PolishText(request.text, request.style, settings, fetch);
    match call.result
    case Ok(result) =>
      TrimEmptyIffBlank(Js, result);
      PolishResponse(true, Some(result), None)
    case Err(thrown) =>
      PolishErrorRecognition(thrown);
      var polishError :=
        if IsPolishError(ThrownToJs(thrown)) then thrown.err
        else CreatePolishError(Unknown, UnknownMessage, None);
      PolishResponse(false, None, Some(polishError))
  }

  /** A request whose key is missing never reports a blank text: the key
      check comes first. */
  lemma MissingKeyBeatsBlankText(text: string, style: string, endpoint: string, fetch: FetchOutcome)
    requires IsBlank(Js, text)
    ensures PolishText(text, style, Ok(("", endpoint)), fetch).result.error.err.code == NoApiKey
  {
  }

  /** The key is not trimmed here: a non-empty key of spaces passes the
      guard and is sent as it is in the bearer header. */
  lemma WhitespaceKeyIsSent(text: string, apiKey: string, endpoint: string, fetch: FetchOutcome)
    requires !IsBlank(Js, text) && apiKey != "" && IsBlank(Js, apiKey)
    ensures var c := PolishText(text, "formal", Ok((apiKey, endpoint)), fetch);
      && c.sent.Some?
      && c.sent.value.url == endpoint
      && c.sent.value.authorization == "Bearer " + apiKey
  {
  }

  /** The three outcomes of the style lookup: `commit`, a declared style
      without a catalogue entry, fails before anything is sent; `constructor`,
      inherited from `Object.prototype`, sends a system message without
      content; a catalogue style sends its prompt. */
  lemma StyleLookupOutcomes(text: string, apiKey: string, endpoint: string, fetch: FetchOutcome)
    requires !IsBlank(Js, text) && apiKey != ""
    ensures var c := PolishText(text, "commit", Ok((apiKey, endpoint)), fetch);
      c.sent.None? && c.result.error.err.code == NetworkError
    ensures var c := PolishText(text, "constructor", Ok((apiKey, endpoint)), fetch);
      c.sent.Some? && c.sent.value.body.messages[0] == ChatMessage("system", None)
    ensures var c := PolishText(text, "concise", Ok((apiKey, endpoint)), fetch);
      c.sent.Some? && c.sent.value.body.messages[0] == ChatMessage("system", Some(ConciseStyle.systemPrompt))
  {
    assert "commit" !in ObjectPrototypeNames;
    assert "constructor" in ObjectPrototypeNames;
  }
}
