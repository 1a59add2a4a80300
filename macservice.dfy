/**
 * The macOS companion's polishing service: the three style presets and
 * `PolishService.polish`, a guard chain (blank text, blank key, unparsable
 * endpoint) followed by one chat-completion request whose outcome is
 * classified into a result or an `NSError` of domain "Polish".
 *
 * `URL(string:)`, `URLSession` and `JSONDecoder` are parameters: whether the
 * endpoint parses, and what the exchange produced.
 */
module MacPolishService {
  import opened Wrappers
  import opened Text

  /** `PolishStyle`. */
  datatype PolishStyle = PolishStyle(id: string, name: string, prompt: string)

  /** `PolishStyle.presets`, in display order. */
  const Presets: seq<PolishStyle> := [
    PolishStyle("formal", "正式",
      "你是一个专业文本润色专家。请将用户提供的内容改写为正式、得体、逻辑清晰的表达。只返回润色后的文本。"),
    PolishStyle("concise", "简洁",
      "你是一个精简文案专家。请将用户提供的内容精简为更简洁有力的表达，保留核心意思。只返回润色后的文本。"),
    PolishStyle("commit", "Commit 优化",
      "你是一个 Git 提交信息优化专家。请改写为简洁清晰的 commit message。只返回单行 commit message。")
  ]

  /** The preset ids tell the presets apart. */
  predicate DistinctIds(styles: seq<PolishStyle>) {
    forall i, j :: 0 <= i < j < |styles| ==> styles[i].id != styles[j].id
  }

  /** There are exactly three presets, formal, concise and commit, and no two
      share an id. */
  lemma PresetsAreDistinct()
    ensures |Presets| == 3
    ensures Presets[0].id == "formal" && Presets[1].id == "concise" && Presets[2].id == "commit"
    ensures DistinctIds(Presets)
  {
    assert Presets[0].id != Presets[1].id;
    assert Presets[0].id != Presets[2].id;
    assert Presets[1].id != Presets[2].id;
  }

  const ChatModel: string := "gpt-4.1"
  const MaxTokens: nat := 600

  const EmptySelectionDescription: string := "选中文本为空"
  const MissingKeyDescription: string := "请先在设置中填写 OpenAI API Key"
  const BadEndpointDescription: string := "API Endpoint 格式不合法"
  const NotHttpDescription: string := "网络响应异常"
  const RequestFailedPrefix: string := "请求失败："
  const NoContentDescription: string := "模型未返回有效内容"

  /** What `polish` throws: an `NSError` of domain "Polish" with its code and
      localized description, or an error raised by `URLSession` or
      `JSONDecoder`, known here only by its localized description. */
  datatype Failure =
    | PolishFailure(code: int, description: string)
    | SystemFailure(systemDescription: string)
  {
    /** `error.localizedDescription`. */
    function LocalizedDescription(): string {
      match this
      case PolishFailure(_, d) => d
      case SystemFailure(d) => d
    }
  }

  /** `ChatRequest.Message` and `ChatRequest` (the temperature is left out). */
  datatype Message = Message(role: string, content: string)
  datatype ChatRequest = ChatRequest(model: string, maxTokens: nat, messages: seq<Message>)

  /** What `JSONDecoder` made of a 2xx body: it threw, or it decoded and
      `choices.first?.message.content` is the optional first content. */
  datatype Decoding = DecodeThrew(description: string) | Decoded(firstContent: Option<string>)

  /** How `URLSession.shared.data(for:)` ended: it threw, it returned a
      response that is not an `HTTPURLResponse`, or an HTTP response with its
      status, the body as UTF-8 text (`None` when it is not valid UTF-8) and
      the decoding of that body. */
  datatype Exchange =
    | TransportThrew(description: string)
    | NotHttp
    | Http(status: nat, bodyText: Option<string>, decoding: Decoding)

  /** The request that went out: its URL, its `Authorization` header and its
      payload. */
  datatype Sent = Sent(url: string, authorization: string, payload: ChatRequest)

  /** One call of `polish`: the request it sent, if any, and its result. */
  datatype PolishRun = PolishRun(sent: Option<Sent>, result: Result<string, Failure>)

  predicate IsSuccessStatus(status: nat) {
    200 <= status < 300
  }

  /** The description of a non-2xx failure: the status, then the body. */
  function RequestFailedDescription(status: nat, bodyText: Option<string>): string {
    RequestFailedPrefix + NatToDecimal(status) + " " + bodyText.GetOr("")
  }

  /** The part of `polish` after the request went out. */
  function ClassifyExchange(exchange: Exchange): (r: Result<string, Failure>)
    ensures exchange.TransportThrew? ==> r == Err(SystemFailure(exchange.description))
    ensures exchange.NotHttp? ==> r == Err(PolishFailure(4, NotHttpDescription))
    ensures exchange.Http? && !IsSuccessStatus(exchange.status) ==>
      r == Err(PolishFailure(exchange.status, RequestFailedDescription(exchange.status, exchange.bodyText)))
    ensures exchange.Http? && IsSuccessStatus(exchange.status) && exchange.decoding.DecodeThrew? ==>
      r == Err(SystemFailure(exchange.decoding.description))
    ensures exchange.Http? && IsSuccessStatus(exchange.status) && exchange.decoding.Decoded? ==>
      var content := exchange.decoding.firstContent;
      && (r.Ok? <==> content.Some? && !IsBlank(Swift, content.value))
      && (r.Ok? ==> r.value == Trim(Swift, content.value))
      && (r.Err? ==> r == Err(PolishFailure(5, NoContentDescription)))
    ensures r.Ok? ==> !IsBlank(Swift, r.value)
  {
    match exchange
    case TransportThrew(d) => Err(SystemFailure(d))
    case NotHttp => Err(PolishFailure(4, NotHttpDescription))
    case Http(status, bodyText, decoding) =>
      if !IsSuccessStatus(status) then
        Err(PolishFailure(status, RequestFailedDescription(status, bodyText)))
      else
        match decoding
        case DecodeThrew(d) => Err(SystemFailure(d))
        case Decoded(content) =>
          if content.Some? then
            var trimmed := Trim(Swift, content.value);
            TrimEmptyIffBlank(Swift, content.value);
            TrimEmptyIffBlank(Swift, trimmed);
            if trimmed != [] then Ok(trimmed) else Err(PolishFailure(5, NoContentDescription))
          else
            Err(PolishFailure(5, NoContentDescription))
  }

  /** `PolishService.polish`. `urlParses` is whether `URL(string: endpoint)`
      produced a URL; `exchange` is what the request came back with. */
  function Polish(text: string, apiKey: string, endpoint: string, stylePrompt: string,
                  urlParses: bool, exchange: Exchange): (run: PolishRun)
    // the guard chain, text first; none of its failures sends anything
    ensures IsBlank(Swift, text) ==> run == PolishRun(None, Err(PolishFailure(1, EmptySelectionDescription)))
    ensures !IsBlank(Swift, text) && IsBlank(Swift, apiKey) ==>
      run == PolishRun(None, Err(PolishFailure(2, MissingKeyDescription)))
    ensures !IsBlank(Swift, text) && !IsBlank(Swift, apiKey) && !urlParses ==>
      run == PolishRun(None, Err(PolishFailure(3, BadEndpointDescription)))
    ensures run.sent.Some? <==> !IsBlank(Swift, text) && !IsBlank(Swift, apiKey) && urlParses
    // the request: the key as it is, the style prompt, then the trimmed text
    ensures run.sent.Some? ==>
      && run.sent.value.url == endpoint
      && run.sent.value.authorization == "Bearer " + apiKey
      && run.sent.value.payload == ChatRequest(ChatModel, MaxTokens,
                                               [Message("system", stylePrompt), Message("user", Trim(Swift, text))])
    // once sent, the result is the classification of the exchange
    ensures run.sent.Some? ==> run.result == ClassifyExchange(exchange)
    ensures run.result.Ok? ==> run.sent.Some? && !IsBlank(Swift, run.result.value)
  {
    var trimmed := Trim(Swift, text);
    TrimEmptyIffBlank(Swift, text);
    TrimEmptyIffBlank(Swift, apiKey);
    if trimmed == [] then
      PolishRun(None, Err(PolishFailure(1, EmptySelectionDescription)))
    else if Trim(Swift, apiKey) == [] then
      PolishRun(None, Err(PolishFailure(2, MissingKeyDescription)))
    else if !urlParses then
      PolishRun(None, Err(PolishFailure(3, BadEndpointDescription)))
    else
      var payload := ChatRequest(ChatModel, MaxTokens, [Message("system", stylePrompt), Message("user", trimmed)]);
      PolishRun(Some(Sent(endpoint, "Bearer " + apiKey, payload)), ClassifyExchange(exchange))
  }

  /** `URLRequest`, as far as `polish` fills it in. */
  class URLRequest {
    const url: string
    var httpMethod: string
    var headers: map<string, string>
    var httpBody: Option<ChatRequest>

    /** `URLRequest(url:)`: a GET with no header and no body. */
    constructor (url: string)
      ensures this.url == url && httpMethod == "GET" && headers == map[] && httpBody == None
    {
      this.url := url;
      httpMethod := "GET";
      headers := map[];
      httpBody := None;
    }

    /** `setValue(_:forHTTPHeaderField:)`. */
    method SetValue(value: string, field: string)
      modifies this
      ensures headers == old(headers)[field := value]
      ensures httpMethod == old(httpMethod) && httpBody == old(httpBody)
    {
      headers := headers[field := value];
    }
  }

  /** The headers `polish` sets. */
  function RequestHeaders(apiKey: string): map<string, string> {
    map["Content-Type" := "application/json", "Authorization" := "Bearer " + apiKey]
  }

  /** The request as `polish` builds it, one field at a time, for a sent
      call. */
  method BuildRequest(sent: Sent) returns (request: URLRequest)
    ensures fresh(request)
    ensures request.url == sent.url && request.httpMethod == "POST"
    ensures request.headers == map["Content-Type" := "application/json", "Authorization" := sent.authorization]
    ensures request.httpBody == Some(sent.payload)
  {
    request := new URLRequest(sent.url);
    request.httpMethod := "POST";
    request.SetValue("application/json", "Content-Type");
    request.SetValue(sent.authorization, "Authorization");
    request.httpBody := Some(sent.payload);
  }

  /** The request built for a sent call carries the headers of its key. */
  lemma SentRequestHeaders(text: string, apiKey: string, endpoint: string, stylePrompt: string,
                           urlParses: bool, exchange: Exchange)
    requires Polish(text, apiKey, endpoint, stylePrompt, urlParses, exchange).sent.Some?
    ensures var sent := Polish(text, apiKey, endpoint, stylePrompt, urlParses, exchange).sent.value;
      map["Content-Type" := "application/json", "Authorization" := sent.authorization] == RequestHeaders(apiKey)
  {
  }

  /** Blank text is reported even when the key is missing too: the text is
      checked first (the extension's background worker checks the key
      first). */
  lemma BlankTextBeatsMissingKey(text: string, endpoint: string, stylePrompt: string,
                                 urlParses: bool, exchange: Exchange)
    requires IsBlank(Swift, text)
    ensures Polish(text, "", endpoint, stylePrompt, urlParses, exchange).result == Err(PolishFailure(1, EmptySelectionDescription))
  {
  }

  /** A key of spaces and newlines counts as missing here, unlike in the
      extension, which sends any non-empty key. */
  lemma BlankKeyIsMissing(text: string, endpoint: string, stylePrompt: string, exchange: Exchange)
    requires !IsBlank(Swift, text)
    ensures Polish(text, " \n", endpoint, stylePrompt, true, exchange).result == Err(PolishFailure(2, MissingKeyDescription))
  {
    assert IsBlank(Swift, " \n") by {
      assert IsSpace(Swift, " \n"[0]) && IsSpace(Swift, " \n"[1]);
    }
  }

  /** The key is checked trimmed but sent as it is: a key with surrounding
      whitespace reaches the `Authorization` header with that whitespace. */
  lemma PaddedKeyIsSentRaw(text: string, apiKey: string, endpoint: string, stylePrompt: string, exchange: Exchange)
    requires !IsBlank(Swift, text) && !IsBlank(Swift, apiKey)
    requires Trim(Swift, apiKey) != apiKey
    ensures var sent := Polish(text, apiKey, endpoint, stylePrompt, true, exchange).sent;
      && sent.Some?
      && sent.value.authorization == "Bearer " + apiKey
      && sent.value.authorization != "Bearer " + Trim(Swift, apiKey)
  {
    var bearer := "Bearer ";
    assert (bearer + apiKey)[|bearer|..] == apiKey;
    assert (bearer + Trim(Swift, apiKey))[|bearer|..] == Trim(Swift, apiKey);
  }

  /** A failing HTTP status becomes the error code itself, and its
      description names it in decimal. */
  lemma StatusBecomesErrorCode(status: nat, bodyText: Option<string>, decoding: Decoding)
    requires !IsSuccessStatus(status)
    ensures var r := ClassifyExchange(Http(status, bodyText, decoding));
      && r.Err? && r.error.PolishFailure? && r.error.code == status
      && r.error.description[..|RequestFailedPrefix|] == RequestFailedPrefix
      && DecimalValue(r.error.description[|RequestFailedPrefix|..|RequestFailedPrefix| + |NatToDecimal(status)|]) == status
  {
    var d := RequestFailedDescription(status, bodyText);
    assert d[|RequestFailedPrefix|..|RequestFailedPrefix| + |NatToDecimal(status)|] == NatToDecimal(status);
    DecimalRoundTrip(status);
  }
}
