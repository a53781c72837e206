/**
 * AI dispatch: a closed four-way switch from a model id to one provider
 * handler, the three provider handlers with their result normalisation, and
 * the start-up check for the three API keys.
 *
 * The provider SDKs are remote services: `Upstream` gives each one as a total
 * function from the request the handler builds to the reply or the error the
 * service produces. A handler receives only its own provider's function, so
 * which provider a handler can consult is fixed by its signature.
 */
module AI {
  import opened Common
  import opened ChatTypes
  import Registry

  // ---------------------------------------------------------------- start-up

  const MISSING_KEYS_MESSAGE := "Missing required API keys in environment variables."

  /** The three credentials as read from the process environment (None when unset). */
  datatype Env = Env(openaiKey: Option<string>, anthropicKey: Option<string>, googleKey: Option<string>)

  /** The credentials the three provider clients are built with. */
  datatype ApiKeys = ApiKeys(openai: string, anthropic: string, google: string)

  /** JavaScript truthiness of an environment value: set and not the empty string. */
  predicate KeyPresent(k: Option<string>) {
    k.Some? && k.value != ""
  }

  /**
   * Module initialisation: throws unless all three keys are present; otherwise
   * the clients are built from exactly those keys.
   */
  function Initialise(env: Env): (r: Result<ApiKeys, string>)
    ensures r.Ok? <==> KeyPresent(env.openaiKey) && KeyPresent(env.anthropicKey) && KeyPresent(env.googleKey)
    ensures r.Err? ==> r.error == MISSING_KEYS_MESSAGE
    ensures r.Ok? ==> r.value.openai == env.openaiKey.value && r.value.anthropic == env.anthropicKey.value
                      && r.value.google == env.googleKey.value
    ensures r.Ok? ==> r.value.openai != "" && r.value.anthropic != "" && r.value.google != ""
  {
    if !KeyPresent(env.openaiKey) || !KeyPresent(env.anthropicKey) || !KeyPresent(env.googleKey) then
      Err(MISSING_KEYS_MESSAGE)
    else
      Ok(ApiKeys(env.openaiKey.value, env.anthropicKey.value, env.googleKey.value))
  }

  // ------------------------------------------------------------ upstreams

  /** A chat-completion request: upstream model name and one user-role message. */
  datatype OpenAIRequest = OpenAIRequest(model: string, userContent: string)

  /** A messages request with its fixed model, token ceiling and system prompt. */
  datatype ClaudeRequest = ClaudeRequest(model: string, maxTokens: nat, system: string, userContent: string)

  /** A generate-content request on a named generative model. */
  datatype GeminiRequest = GeminiRequest(model: string, prompt: string)

  /** One content block of an Anthropic reply: its `type` tag and its text. */
  datatype ContentBlock = ContentBlock(kind: string, text: string)

  /**
   * The three remote services. An OpenAI reply is the list of choices, each
   * with a possibly null message content; an Anthropic reply is its list of
   * content blocks; a Google reply is the response text. `Err` carries the
   * error the SDK throws (transport, authentication, rate limit, refusal).
   */
  datatype Upstream = Upstream(
    openai: OpenAIRequest -> Result<seq<Option<string>>, string>,
    anthropic: ClaudeRequest -> Result<seq<ContentBlock>, string>,
    google: GeminiRequest -> Result<string, string>)

  /** What a handler or the dispatch can throw. */
  datatype AIError =
    | InvalidModel             // the dispatch default branch: 'Invalid model selected'
    | ProviderError(detail: string)  // an error thrown by a provider SDK, passed on unchanged
    | MissingFirstEntry(property: string)  // a property of choices[0] / content[0] read on an empty list (a TypeError)

  const INVALID_MODEL_MESSAGE := "Invalid model selected"
  const GPT4_UPSTREAM := "gpt-4-turbo-preview"
  const GPT35_UPSTREAM := "gpt-3.5-turbo"
  const CLAUDE_MODEL := "claude-3-opus-20240229"
  const CLAUDE_MAX_TOKENS := 1024
  const CLAUDE_SYSTEM_PROMPT := "You are an AI assistant for Roger Jeasy. Answer questions based on his profile and experience."
  const GEMINI_MODEL := "gemini-1.0-pro"

  /** The message text each error carries. */
  function ErrorMessage(e: AIError): string {
    match e
    case InvalidModel => INVALID_MODEL_MESSAGE
    case ProviderError(d) => d
    case MissingFirstEntry(property) => "Cannot read properties of undefined (reading '" + property + "')"
  }

  // ------------------------------------------------------------- handlers

  /** The upstream OpenAI model for a dispatch id. */
  function OpenAIModelName(modelId: string): (m: string)
    ensures m == GPT4_UPSTREAM <==> modelId == "gpt-4"
    ensures m == GPT35_UPSTREAM <==> modelId != "gpt-4"
  {
    if modelId == "gpt-4" then GPT4_UPSTREAM else GPT35_UPSTREAM
  }

  /** The request the OpenAI handler sends for a message and a model id. */
  function OpenAIRequestFor(content: string, modelId: string): OpenAIRequest {
    OpenAIRequest(OpenAIModelName(modelId), content)
  }

  /**
   * The OpenAI handler: the first choice's content, with a null or empty
   * content read as the empty string; an SDK error is passed on, and an empty
   * choice list makes the read of `choices[0]` throw.
   */
  function HandleOpenAI(content: string, modelId: string,
                        openai: OpenAIRequest -> Result<seq<Option<string>>, string>): (r: Result<string, AIError>)
    ensures var reply := openai(OpenAIRequestFor(content, modelId));
      && (reply.Err? ==> r == Err(ProviderError(reply.error)))
      && (reply.Ok? && reply.value == [] ==> r == Err(MissingFirstEntry("message")))
      && (reply.Ok? && reply.value != [] ==>
            r.Ok? && (r.value == "" <==> reply.value[0] == None || reply.value[0] == Some(""))
                  && (reply.value[0].Some? ==> r.value == reply.value[0].value))
  {
    match openai(OpenAIRequestFor(content, modelId))
    case Err(e) => Err(ProviderError(e))
    case Ok(choices) =>
      if |choices| == 0 then Err(MissingFirstEntry("message"))
      else
        match choices[0]
        case None => Ok("")          // `null || ''`
        case Some(text) => Ok(text)  // `text || ''` is `text`, also when it is ''
  }

  /** The request the Anthropic handler sends: fixed model, ceiling and system prompt. */
  function ClaudeRequestFor(content: string): ClaudeRequest {
    ClaudeRequest(CLAUDE_MODEL, CLAUDE_MAX_TOKENS, CLAUDE_SYSTEM_PROMPT, content)
  }

  /**
   * The Anthropic handler: the first content block's text when its type is
   * 'text', otherwise the empty string.
   */
  function HandleClaude(content: string,
                        anthropic: ClaudeRequest -> Result<seq<ContentBlock>, string>): (r: Result<string, AIError>)
    ensures var reply := anthropic(ClaudeRequestFor(content));
      && (reply.Err? ==> r == Err(ProviderError(reply.error)))
      && (reply.Ok? && reply.value == [] ==> r == Err(MissingFirstEntry("type")))
      && (reply.Ok? && reply.value != [] && reply.value[0].kind == "text" ==> r == Ok(reply.value[0].text))
      && (reply.Ok? && reply.value != [] && reply.value[0].kind != "text" ==> r == Ok(""))
  {
    match anthropic(ClaudeRequestFor(content))
    case Err(e) => Err(ProviderError(e))
    case Ok(blocks) =>
      if |blocks| == 0 then Err(MissingFirstEntry("type"))
      else Ok(if blocks[0].kind == "text" then blocks[0].text else "")
  }

  /** The Google handler: the response text, unchanged. */
  function HandleGemini(content: string,
                        google: GeminiRequest -> Result<string, string>): (r: Result<string, AIError>)
    ensures var reply := google(GeminiRequest(GEMINI_MODEL, content));
      && (reply.Ok? <==> r.Ok?)
      && (reply.Ok? ==> r.value == reply.value)
      && (reply.Err? ==> r.error == ProviderError(reply.error))
  {
    match google(GeminiRequest(GEMINI_MODEL, content))
    case Err(e) => Err(ProviderError(e))
    case Ok(text) => Ok(text)
  }

  // ------------------------------------------------------------- dispatch

  /** The handler a recognised model id selects; the OpenAI one keeps the id. */
  datatype Handler = OpenAIHandler(modelId: string) | ClaudeHandler | GeminiHandler

  /** The provider name each handler talks to, as the registry spells it. */
  function ProviderOf(h: Handler): string {
    match h
    case OpenAIHandler(_) => "openai"
    case ClaudeHandler => "anthropic"
    case GeminiHandler => "google"
  }

  /**
   * The switch: a recognised id selects exactly one handler, and the ids it
   * recognises are exactly the registry's, each sent to the handler of the
   * provider the registry lists for it.
   */
  function SelectHandler(modelId: string): (h: Option<Handler>)
    ensures h.Some? <==> Registry.Lookup(modelId).Some?
    ensures h.Some? ==> ProviderOf(h.value) == Registry.Lookup(modelId).value.provider
    ensures h.Some? && h.value.OpenAIHandler? ==> h.value.modelId == modelId
  {
    Registry.LookupDefinedOn(modelId);
    Registry.LookupTable();
    if modelId == "gpt-4" || modelId == "gpt-3.5" then Some(OpenAIHandler(modelId))
    else if modelId == "claude" then Some(ClaudeHandler)
    else if modelId == "gemini" then Some(GeminiHandler)
    else None
  }

  /** Runs one handler against its own provider only. */
  function RunHandler(h: Handler, content: string, up: Upstream): Result<string, AIError> {
    match h
    case OpenAIHandler(id) => HandleOpenAI(content, id, up.openai)
    case ClaudeHandler => HandleClaude(content, up.anthropic)
    case GeminiHandler => HandleGemini(content, up.google)
  }

  /**
   * generateAIResponse: select the handler and return what it produces; an id
   * outside the switch throws InvalidModel. The surrounding catch rethrows,
   * so every failure reaches the caller unchanged.
   */
  function Dispatch(content: string, modelId: string, up: Upstream): (r: Result<string, AIError>)
    ensures Registry.Lookup(modelId).None? ==> r == Err(InvalidModel)
    ensures r == Err(InvalidModel) ==> Registry.Lookup(modelId).None?
  {
    match SelectHandler(modelId)
    case None => Err(InvalidModel)
    case Some(h) => RunHandler(h, content, up)
  }

  /** 'gpt-4' and 'gpt-3.5' go to the OpenAI handler with the id passed through. */
  lemma OpenAIRouting(content: string, up: Upstream)
    ensures Dispatch(content, "gpt-4", up) == HandleOpenAI(content, "gpt-4", up.openai)
    ensures Dispatch(content, "gpt-3.5", up) == HandleOpenAI(content, "gpt-3.5", up.openai)
    ensures OpenAIRequestFor(content, "gpt-4") == OpenAIRequest(GPT4_UPSTREAM, content)
    ensures OpenAIRequestFor(content, "gpt-3.5") == OpenAIRequest(GPT35_UPSTREAM, content)
  {
  }

  /**
   * 'claude' depends on the Anthropic service alone and 'gemini' on the
   * Google service alone: two upstreams that agree on that one service give
   * the same dispatch result.
   */
  lemma SingleProviderRouting(content: string, up: Upstream, other: Upstream)
    ensures up.anthropic == other.anthropic ==>
              Dispatch(content, "claude", up) == Dispatch(content, "claude", other) == HandleClaude(content, up.anthropic)
    ensures up.google == other.google ==>
              Dispatch(content, "gemini", up) == Dispatch(content, "gemini", other) == HandleGemini(content, up.google)
    ensures up.openai == other.openai ==>
              Dispatch(content, "gpt-4", up) == Dispatch(content, "gpt-4", other)
  {
  }

  /**
   * An unrecognised id fails with InvalidModel whatever the providers would
   * answer: no provider is consulted.
   */
  lemma InvalidModelConsultsNoProvider(content: string, modelId: string, up: Upstream, other: Upstream)
    requires modelId !in {"gpt-4", "gpt-3.5", "claude", "gemini"}
    ensures Dispatch(content, modelId, up) == Dispatch(content, modelId, other) == Err(InvalidModel)
    ensures ErrorMessage(Dispatch(content, modelId, up).error) == INVALID_MODEL_MESSAGE
  {
    Registry.RegistryShape();
  }

  /**
   * Failures propagate: for a recognised id the dispatch result is exactly
   * the selected handler's result, so an error is never turned into a value
   * and a value is never turned into an error.
   */
  lemma DispatchPropagates(content: string, modelId: string, up: Upstream)
    requires Registry.Lookup(modelId).Some?
    ensures SelectHandler(modelId).Some?
    ensures Dispatch(content, modelId, up) == RunHandler(SelectHandler(modelId).value, content, up)
  {
  }

  /** Every registry id is accepted and reaches the handler of its listed provider. */
  lemma RegistryIdsRouted(i: nat)
    requires i < |Registry.AI_MODELS|
    ensures SelectHandler(Registry.AI_MODELS[i].id).Some?
    ensures ProviderOf(SelectHandler(Registry.AI_MODELS[i].id).value) == Registry.AI_MODELS[i].provider
  {
    Registry.LookupEveryEntry(i);
  }

  /** A null first-choice content from OpenAI is the successful empty reply, not a failure. */
  lemma OpenAIEmptyFallback(content: string, modelId: string,
                            openai: OpenAIRequest -> Result<seq<Option<string>>, string>)
    requires openai(OpenAIRequestFor(content, modelId)) == Ok([None])
    ensures HandleOpenAI(content, modelId, openai) == Ok("")
  {
  }

  /**
   * A first Anthropic content block that is not text (a tool call, say) is
   * the successful empty reply, whatever follows it.
   */
  lemma ClaudeNonTextFallback(content: string, first: ContentBlock, rest: seq<ContentBlock>,
                              anthropic: ClaudeRequest -> Result<seq<ContentBlock>, string>)
    requires first.kind != "text"
    requires anthropic(ClaudeRequestFor(content)) == Ok([first] + rest)
    ensures HandleClaude(content, anthropic) == Ok("")
  {
  }
}
