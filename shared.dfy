/**
 * The extension's shared vocabulary: the error taxonomy, the panel states,
 * the messages exchanged between content script and background worker, and
 * the constants (default endpoint, storage keys, the style catalogue).
 */
module SharedTypes {
  import opened Wrappers

  /** `PolishError['code']`. */
  datatype ErrorCode = NoApiKey | ApiError | Timeout | EmptyText | NetworkError | Unknown

  /** `PolishError`: a code, a human-readable message and, for upstream
      failures, the HTTP status. */
  datatype PolishError = PolishError(code: ErrorCode, message: string, statusCode: Option<nat>)

  /** `FloatingPanelState`. */
  datatype PanelState = Idle | Loading | Success | Error

  /** `PolishRequest` (the `type` tag is implicit). The style is kept as the
      string that was read from storage: nothing validates it. */
  datatype PolishRequest = PolishRequest(text: string, style: string)

  /** `PolishResponse` (the `type` tag is implicit). */
  datatype PolishResponse = PolishResponse(success: bool, result: Option<string>, error: Option<PolishError>)

  /** `StyleConfig`. */
  datatype StyleConfig = StyleConfig(id: string, displayLabel: string, labelEn: string, systemPrompt: string)

  const DefaultApiEndpoint: string := "https://api.openai.com/v1/chat/completions"
  const OpenAiModel: string := "gpt-4.1"
  const DefaultMaxTokens: nat := 600
  const RequestTimeoutMs: nat := 15000
  const DefaultStyle: string := "formal"

  const ApiKeyStorageKey: string := "polish_api_key"
  const ApiEndpointStorageKey: string := "polish_api_endpoint"
  const DefaultStyleStorageKey: string := "polish_default_style"

  const FormalStyle: StyleConfig := StyleConfig("formal", "正式", "Formal",
    "你是一个专业文本润色专家。请将用户提供的内容改写为正式、得体、逻辑清晰的表达，适合商务或学术场景。只返回润色后的文本，不要添加任何解释或说明。")
  const CasualStyle: StyleConfig := StyleConfig("casual", "口语", "Casual",
    "你是一个文案专家。请将用户提供的内容改写为轻松自然、通俗易懂的口语化表达，保持亲切感。只返回润色后的文本，不要添加任何解释或说明。")
  const ConciseStyle: StyleConfig := StyleConfig("concise", "简洁", "Concise",
    "你是一个精简文案专家。请将用户提供的内容精简为更简洁有力的表达，去除冗余，保留核心意思。只返回润色后的文本，不要添加任何解释或说明。")

  /** `POLISH_STYLES[style]`: the catalogue holds formal, casual and concise.
      It is a partial lookup: `commit`, although a `PolishStyle`, has no
      entry, and neither has any unvalidated string read from storage. */
  function PolishStyles(style: string): (r: Option<StyleConfig>)
    ensures r.Some? <==> style in {"formal", "casual", "concise"}
    ensures r.Some? ==> r.value.id == style
  {
    if style == "formal" then Some(FormalStyle)
    else if style == "casual" then Some(CasualStyle)
    else if style == "concise" then Some(ConciseStyle)
    else None
  }

  /** The catalogue does not cover every declared style: `commit` is missing
      while `casual`, which no `PolishStyle` names, is present. */
  lemma CatalogIsPartial()
    ensures PolishStyles("commit").None?
    ensures PolishStyles(DefaultStyle).Some?
  {
  }
}
