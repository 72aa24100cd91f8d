/**
 * The LLM service of the backend: the model alias table, `selectModel`, the
 * assembly of the message list in `chat`, the choice of provider by substring
 * tests on the model id, and the request/response/error shaping of the three
 * provider calls (OpenRouter, OpenAI, a local Ollama).
 *
 * The HTTP exchange itself is not modelled: the provider's answer is an input
 * (`HttpOutcome`), and the request that would be posted is part of the result,
 * so that "no request is made" can be stated.
 */
module LlmService {
  import opened Wrappers
  import opened Strings

  // ---------------------------------------------------------------------------
  // Model table and selectModel
  // ---------------------------------------------------------------------------

  const OpenAiPrefix := "openai/"
  const OpenRouterPrefix := "openrouter/"

  // The ids of `modelConfig`, each written as its provider prefix and the provider's own name.
  const Gpt4oId := OpenAiPrefix + "gpt-4o"
  const Gpt4TurboId := OpenAiPrefix + "gpt-4-turbo"
  const Gpt35Id := OpenAiPrefix + "gpt-3.5-turbo"
  const HaikuId := OpenRouterPrefix + "anthropic/claude-haiku-4.5"
  const GeminiId := OpenRouterPrefix + "google/gemini-flash-1.5"
  const OpusId := OpenRouterPrefix + "anthropic/claude-opus-4"
  const SonnetId := OpenRouterPrefix + "anthropic/claude-sonnet-4.5"
  const DeepseekId := OpenRouterPrefix + "deepseek/deepseek-r1-distill-qwen-32b"
  const OllamaUrl := "http://localhost:11434/api/chat"

  /** `modelConfig`: short aliases to provider-prefixed model ids. */
  const ModelConfig: map<string, string> := map[
    "gpt4o" := Gpt4oId,
    "gpt4-turbo" := Gpt4TurboId,
    "gpt35" := Gpt35Id,
    "haiku" := HaikuId,
    "gemini" := GeminiId,
    "opus" := OpusId,
    "sonnet" := SonnetId,
    "deepseek" := DeepseekId,
    "ollama" := OllamaUrl
  ]

  /** `modelConfig[alias]`, `None` standing for `undefined`. */
  function Configured(alias: string): Option<string>
  {
    if alias in ModelConfig then Some(ModelConfig[alias]) else None
  }

  /**
   * `selectModel(userModel, complexity)`. `userModel == ""` stands for every
   * falsy id (null, undefined, the empty string); `None` is the `undefined`
   * that a lookup of a missing alias yields.
   */
  function SelectModel(userModel: string, complexity: string): (r: Option<string>)
    ensures userModel != "" ==> r == Some(userModel)
    ensures userModel == "" ==> (r.None? <==> complexity == "coding")
    ensures r.Some? && userModel == "" ==> r.value in ModelConfig.Values
  {
    if userModel != "" then Some(userModel)
    else if complexity == "simple" then Configured("haiku")
    else if complexity == "coding" then Configured("kimi")
    else if complexity == "frontend" then Configured("gemini")
    else if complexity == "hard" then Configured("sonnet")
    else Configured("haiku")
  }

  /** The hints that pick a model: every other hint falls back to the one for `"simple"`. */
  lemma AutomaticSelection(complexity: string)
    ensures complexity != "coding" && complexity != "frontend" && complexity != "hard" ==>
      SelectModel("", complexity) == SelectModel("", "simple") == Some(HaikuId)
    ensures SelectModel("", "frontend") == Some(GeminiId)
    ensures SelectModel("", "hard") == Some(SonnetId)
    ensures "kimi" !in ModelConfig && SelectModel("", "coding") == None
  {
  }

  // ---------------------------------------------------------------------------
  // Provider dispatch
  // ---------------------------------------------------------------------------

  datatype Provider = OpenAI | OpenRouter | Ollama

  /**
   * The provider `chat` calls for a selected model id: the tests run in source
   * order, so an id containing `"openai/"` goes to OpenAI even when it also
   * contains `"openrouter"`; `None` is the branch where no call is made.
   */
  function Dispatch(modelId: string): (r: Option<Provider>)
    ensures r == Some(OpenAI) <==> Contains(modelId, "openai/")
    ensures r == Some(OpenRouter) <==> !Contains(modelId, "openai/") && Contains(modelId, "openrouter")
    ensures r == Some(Ollama) <==>
      !Contains(modelId, "openai/") && !Contains(modelId, "openrouter") &&
      (modelId == "ollama" || Contains(modelId, "localhost:11434"))
  {
    if Contains(modelId, "openai/") then Some(OpenAI)
    else if Contains(modelId, "openrouter") then Some(OpenRouter)
    else if modelId == "ollama" || Contains(modelId, "localhost:11434") then Some(Ollama)
    else None
  }

  /** No `/` of `path` follows an `i`, so `path` has no `"openai/"` in it. */
  predicate NoSlashAfterI(path: string)
  {
    forall i | 1 <= i < |path| :: path[i] != '/' || path[i - 1] != 'i'
  }

  /** An OpenRouter model id, `openrouter/` then a path with no `i/` in it, goes to OpenRouter. */
  lemma OpenRouterIdDispatch(path: string)
    requires NoSlashAfterI(path)
    ensures StartsWith(OpenRouterPrefix + path, OpenRouterPrefix)
    ensures Dispatch(OpenRouterPrefix + path) == Some(OpenRouter)
  {
    var id := OpenRouterPrefix + path;
    assert id[..11] == "openrouter/";
    forall i | 0 <= i <= |id| - |"openai/"|
      ensures DisagreesAt(id, "openai/", i, 5, 6)
    {
      if i + 6 < 11 {
        assert id[i + 5] == "openrouter/"[i + 5];
      } else if i + 6 == 11 {
        assert id[i + 5] == '/';
      } else {
        assert id[i + 6] == path[i + 6 - 11] && id[i + 5] == path[i + 5 - 11];
      }
    }
    NotContainsByTwo(id, "openai/", 5, 6);
    PrefixIsContained(id, "openrouter");
  }

  /** An OpenAI model id, `openai/` then a name, goes to OpenAI. */
  lemma OpenAiIdDispatch(name: string)
    ensures !StartsWith(OpenAiPrefix + name, OpenRouterPrefix)
    ensures Dispatch(OpenAiPrefix + name) == Some(OpenAI)
  {
    var id := OpenAiPrefix + name;
    assert id[4] == 'a';
    assert id[..7] == "openai/";
    PrefixIsContained(id, "openai/");
  }

  /** The local Ollama endpoint goes to Ollama. */
  lemma OllamaUrlDispatch()
    ensures Dispatch(OllamaUrl) == Some(Ollama)
  {
    var id := OllamaUrl;
    NotContainsByTwo(id, "openai/", 2, 2);
    NotContainsByTwo(id, "openrouter", 4, 4);
    assert id == "http://" + "localhost:11434" + "/api/chat";
    assert id[7..22] == "localhost:11434";
    assert MatchesAt(id, "localhost:11434", 7);
  }

  /** The three OpenAI entries of the table go to OpenAI. */
  lemma OpenAiModelsDispatch()
    ensures forall alias | alias in {"gpt4o", "gpt4-turbo", "gpt35"} :: Dispatch(ModelConfig[alias]) == Some(OpenAI)
  {
    OpenAiIdDispatch("gpt-4o");
    OpenAiIdDispatch("gpt-4-turbo");
    OpenAiIdDispatch("gpt-3.5-turbo");
  }

  lemma HaikuDispatch()
    ensures Dispatch(HaikuId) == Some(OpenRouter)
  {
    assert NoSlashAfterI("anthropic/claude-haiku-4.5");
    OpenRouterIdDispatch("anthropic/claude-haiku-4.5");
  }

  lemma GeminiDispatch()
    ensures Dispatch(GeminiId) == Some(OpenRouter)
  {
    assert NoSlashAfterI("google/gemini-flash-1.5");
    OpenRouterIdDispatch("google/gemini-flash-1.5");
  }

  lemma OpusDispatch()
    ensures Dispatch(OpusId) == Some(OpenRouter)
  {
    assert NoSlashAfterI("anthropic/claude-opus-4");
    OpenRouterIdDispatch("anthropic/claude-opus-4");
  }

  lemma SonnetDispatch()
    ensures Dispatch(SonnetId) == Some(OpenRouter)
  {
    assert NoSlashAfterI("anthropic/claude-sonnet-4.5");
    OpenRouterIdDispatch("anthropic/claude-sonnet-4.5");
  }

  lemma DeepseekDispatch()
    ensures Dispatch(DeepseekId) == Some(OpenRouter)
  {
    assert NoSlashAfterI("deepseek/deepseek-r1-distill-qwen-32b");
    OpenRouterIdDispatch("deepseek/deepseek-r1-distill-qwen-32b");
  }

  /** The five OpenRouter entries of the table go to OpenRouter. */
  lemma OpenRouterModelsDispatch()
    ensures forall alias | alias in {"haiku", "gemini", "opus", "sonnet", "deepseek"} ::
      Dispatch(ModelConfig[alias]) == Some(OpenRouter)
  {
    HaikuDispatch();
    GeminiDispatch();
    OpusDispatch();
    SonnetDispatch();
    DeepseekDispatch();
  }

  /** Each configured model id is routed to the provider its prefix names, so no entry falls through. */
  lemma ConfiguredModelsDispatch(alias: string)
    requires alias in ModelConfig
    ensures alias in {"gpt4o", "gpt4-turbo", "gpt35"} ==> Dispatch(ModelConfig[alias]) == Some(OpenAI)
    ensures alias in {"haiku", "gemini", "opus", "sonnet", "deepseek"} ==> Dispatch(ModelConfig[alias]) == Some(OpenRouter)
    ensures alias == "ollama" ==> Dispatch(ModelConfig[alias]) == Some(Ollama)
    ensures Dispatch(ModelConfig[alias]).Some?
  {
    OpenAiModelsDispatch();
    OpenRouterModelsDispatch();
    OllamaUrlDispatch();
  }

  /** An automatically chosen model is always served by OpenRouter. */
  lemma AutomaticSelectionUsesOpenRouter(complexity: string)
    requires SelectModel("", complexity).Some?
    ensures Dispatch(SelectModel("", complexity).value) == Some(OpenRouter)
  {
    var alias := if complexity == "frontend" then "gemini" else if complexity == "hard" then "sonnet" else "haiku";
    assert SelectModel("", complexity).value == ModelConfig[alias];
    ConfiguredModelsDispatch(alias);
  }

  /** The local model offered by the chat window's menu matches none of the three tests. */
  lemma MenuOllamaIdIsNotDispatched()
    ensures Dispatch("ollama/llama2") == None
  {
    NotContainsByTwo("ollama/llama2", "openai/", 1, 1);
    NotContainsByTwo("ollama/llama2", "openrouter", 1, 1);
    NotContainsByTwo("ollama/llama2", "localhost:11434", 9, 9);
  }

  // ---------------------------------------------------------------------------
  // Message assembly
  // ---------------------------------------------------------------------------

  datatype Role = System | User | Assistant

  /** One role-tagged message of the list sent to a provider. */
  datatype Turn = Turn(role: Role, content: string)

  /** A stored message's content: a string, or another JSON value given by its `JSON.stringify` text. */
  datatype StoredContent = Text(text: string) | Structured(json: string)

  /** A row of the conversation history, with the role as stored. */
  datatype HistoryEntry = HistoryEntry(role: string, content: StoredContent)

  function ContentText(c: StoredContent): string
  {
    match c
    case Text(t) => t
    case Structured(json) => json
  }

  /** The turn a history entry becomes, if its role is `user` or `assistant`. */
  function AsTurn(e: HistoryEntry): Option<Turn>
  {
    if e.role == "user" then Some(Turn(User, ContentText(e.content)))
    else if e.role == "assistant" then Some(Turn(Assistant, ContentText(e.content)))
    else None
  }

  predicate Forwarded(e: HistoryEntry)
  {
    e.role == "user" || e.role == "assistant"
  }

  /** The history `chat` forwards: the user and assistant entries, in stored order. */
  function ForwardedHistory(history: seq<HistoryEntry>): seq<Turn>
  {
    if history == [] then []
    else
      var last := history[|history| - 1];
      ForwardedHistory(history[..|history| - 1]) + (if Forwarded(last) then [AsTurn(last).value] else [])
  }

  /** The number of entries of a history that `chat` forwards. */
  function ForwardedCount(history: seq<HistoryEntry>): nat
  {
    if history == [] then 0
    else (if Forwarded(history[0]) then 1 else 0) + ForwardedCount(history[1..])
  }

  lemma ForwardedHistorySnoc(history: seq<HistoryEntry>, e: HistoryEntry)
    ensures ForwardedHistory(history + [e]) == ForwardedHistory(history) + (if Forwarded(e) then [AsTurn(e).value] else [])
  {
    assert (history + [e])[..|history|] == history;
  }

  /** Forwarding distributes over concatenation, so the relative order of entries is kept. */
  lemma {:induction false} ForwardedHistoryAppend(a: seq<HistoryEntry>, b: seq<HistoryEntry>)
    ensures ForwardedHistory(a + b) == ForwardedHistory(a) + ForwardedHistory(b)
    decreases |b|
  {
    if b == [] {
      assert a + b == a;
    } else {
      var init, last := b[..|b| - 1], b[|b| - 1];
      assert b == init + [last];
      assert a + b == (a + init) + [last];
      ForwardedHistorySnoc(a + init, last);
      ForwardedHistorySnoc(init, last);
      ForwardedHistoryAppend(a, init);
    }
  }

  /** Exactly the user and assistant entries are forwarded, as turns with the same role and text. */
  lemma {:induction false} ForwardedHistoryExact(history: seq<HistoryEntry>)
    ensures |ForwardedHistory(history)| == ForwardedCount(history)
    ensures forall t | t in ForwardedHistory(history) :: t.role != System
    ensures forall e | e in history && Forwarded(e) :: AsTurn(e).value in ForwardedHistory(history)
    decreases |history|
  {
    if history != [] {
      assert history == [history[0]] + history[1..];
      ForwardedHistoryAppend([history[0]], history[1..]);
      ForwardedHistoryExact(history[1..]);
      assert [history[0]][..0] == [];
    }
  }

  /** The text of the final user turn: the document context block, then the message. */
  function UserPrompt(fileContext: string, message: string): (r: string)
    ensures fileContext == "" ==> r == message
    ensures fileContext != "" ==> StartsWith(r, "Document Context:\n" + fileContext + "\n\n")
    ensures |r| >= |message| && r[|r| - |message|..] == message
  {
    (if fileContext != "" then "Document Context:\n" + fileContext + "\n\n" else "") + message
  }

  /** The message list `chat` builds: forwarded history, then one user turn. */
  function PromptTurns(history: seq<HistoryEntry>, fileContext: string, message: string): seq<Turn>
  {
    ForwardedHistory(history) + [Turn(User, UserPrompt(fileContext, message))]
  }

  /** The list ends with the single new user turn, and no turn of it is a system turn. */
  lemma PromptTurnsShape(history: seq<HistoryEntry>, fileContext: string, message: string)
    ensures var turns := PromptTurns(history, fileContext, message);
      && |turns| == ForwardedCount(history) + 1
      && turns[|turns| - 1] == Turn(User, UserPrompt(fileContext, message))
      && forall i | 0 <= i < |turns| :: turns[i].role != System
  {
    ForwardedHistoryExact(history);
    var turns := PromptTurns(history, fileContext, message);
    forall i | 0 <= i < |turns| ensures turns[i].role != System {
      if i < |ForwardedHistory(history)| {
        assert turns[i] in ForwardedHistory(history);
      }
    }
  }

  /** The message list with the system prompt, when truthy, as one leading system turn. */
  function WithSystemPrompt(systemPrompt: string, messages: seq<Turn>): (r: seq<Turn>)
    ensures systemPrompt == "" ==> r == messages
    ensures systemPrompt != "" ==> |r| == |messages| + 1 && r[0] == Turn(System, systemPrompt) && r[1..] == messages
  {
    if systemPrompt != "" then [Turn(System, systemPrompt)] + messages else messages
  }

  /** What a provider receives carries a system turn only at its head, and only for a truthy system prompt. */
  lemma SystemTurnOnlyAtHead(systemPrompt: string, history: seq<HistoryEntry>, fileContext: string, message: string)
    ensures var sent := WithSystemPrompt(systemPrompt, PromptTurns(history, fileContext, message));
      forall i | 0 <= i < |sent| :: sent[i].role == System <==> (i == 0 && systemPrompt != "")
  {
    PromptTurnsShape(history, fileContext, message);
    var turns := PromptTurns(history, fileContext, message);
    var sent := WithSystemPrompt(systemPrompt, turns);
    if systemPrompt != "" {
      forall i | 1 <= i < |sent| ensures sent[i].role != System {
        assert sent[i] == turns[i - 1];
      }
    }
  }

  // ---------------------------------------------------------------------------
  // Provider calls
  // ---------------------------------------------------------------------------

  /** The process environment the calls read; `""` is an unset variable. */
  datatype Env = Env(openRouterKey: string, openAiKey: string, ollamaModel: string)

  /** The POST a provider call would make. */
  datatype Request = Request(
    url: string,
    authorization: Option<string>,
    model: string,
    messages: seq<Turn>,
    temperature: Option<real>,
    maxTokens: Option<nat>,
    stream: Option<bool>)

  /**
   * What the HTTP client gives back: a completion (the first choice's text and
   * `usage.total_tokens`, if reported), or a failure with the response status
   * (if there was a response), the error code, the error message and the
   * provider's own error message (`""` if none).
   */
  datatype HttpOutcome =
    | Completed(content: string, totalTokens: Option<nat>)
    | Failed(status: Option<int>, code: string, message: string, providerMessage: string)

  /** The normalised result `{content, model, tokens}`. */
  datatype ChatReply = ChatReply(content: string, model: string, tokens: nat)

  /** A provider call: the request posted, if any, and what the call returned or threw. */
  datatype Call = Call(request: Option<Request>, result: Result<ChatReply>)

  const OpenRouterUrl := "https://openrouter.ai/api/v1/chat/completions"
  const OpenAiUrl := "https://api.openai.com/v1/chat/completions"

  /** `usage?.total_tokens || 0`. */
  function TokensOrZero(totalTokens: Option<nat>): nat
  {
    match totalTokens
    case Some(n) => n
    case None => 0
  }

  /** `callOpenRouter(model, messages, system_prompt)`. */
  function CallOpenRouter(model: string, messages: seq<Turn>, systemPrompt: string, env: Env, http: HttpOutcome): (c: Call)
    ensures env.openRouterKey == "" <==> c.request.None?
    ensures env.openRouterKey == "" ==> c.result == Err("OPENROUTER_API_KEY not configured")
    ensures c.request.Some? ==>
      && c.request.value.url == OpenRouterUrl
      && c.request.value.messages == WithSystemPrompt(systemPrompt, messages)
      && c.request.value.temperature == Some(0.7) && c.request.value.maxTokens == Some(2000)
      && (StartsWith(model, "openrouter/") ==> c.request.value.model == model[11..])
    ensures c.request.Some? && http.Completed? ==>
      c.result == Ok(ChatReply(http.content, model, TokensOrZero(http.totalTokens)))
    ensures c.request.Some? && http.Failed? ==> c.result == Err("OpenRouter error: " + http.message)
  {
    if env.openRouterKey == "" then Call(None, Err("OPENROUTER_API_KEY not configured"))
    else
      var request := Request(OpenRouterUrl, Some("Bearer " + env.openRouterKey),
                             ReplaceFirst(model, "openrouter/", ""),
                             WithSystemPrompt(systemPrompt, messages), Some(0.7), Some(2000), None);
      match http
      case Completed(content, totalTokens) => Call(Some(request), Ok(ChatReply(content, model, TokensOrZero(totalTokens))))
      case Failed(_, _, message, _) => Call(Some(request), Err("OpenRouter error: " + message))
  }

  /** The message an OpenAI failure is rethrown with. */
  function OpenAiError(status: Option<int>, message: string, providerMessage: string): (m: string)
    ensures status == Some(429) ==> m == "OpenAI rate limit exceeded. Please wait a moment and try again."
    ensures status == Some(401) ==> m == "OpenAI API key is invalid. Please check your configuration."
    ensures status != Some(429) && status != Some(401) ==>
      m == "OpenAI error: " + (if providerMessage != "" then providerMessage else message)
  {
    var errorMsg := if providerMessage != "" then providerMessage else message;
    if status == Some(429) then "OpenAI rate limit exceeded. Please wait a moment and try again."
    else if status == Some(401) then "OpenAI API key is invalid. Please check your configuration."
    else "OpenAI error: " + errorMsg
  }

  /** `callOpenAI(model, messages, system_prompt)`. */
  function CallOpenAi(model: string, messages: seq<Turn>, systemPrompt: string, env: Env, http: HttpOutcome): (c: Call)
    ensures env.openAiKey == "" <==> c.request.None?
    ensures env.openAiKey == "" ==> c.result == Err("OPENAI_API_KEY not configured")
    ensures c.request.Some? ==>
      && c.request.value.url == OpenAiUrl
      && c.request.value.messages == WithSystemPrompt(systemPrompt, messages)
      && c.request.value.temperature == Some(0.7) && c.request.value.maxTokens == Some(2000)
      && (StartsWith(model, "openai/") ==> c.request.value.model == model[7..])
    ensures c.request.Some? && http.Completed? ==>
      c.result == Ok(ChatReply(http.content, model, TokensOrZero(http.totalTokens)))
    ensures c.request.Some? && http.Failed? ==>
      c.result == Err(OpenAiError(http.status, http.message, http.providerMessage))
  {
    if env.openAiKey == "" then Call(None, Err("OPENAI_API_KEY not configured"))
    else
      var request := Request(OpenAiUrl, Some("Bearer " + env.openAiKey),
                             ReplaceFirst(model, "openai/", ""),
                             WithSystemPrompt(systemPrompt, messages), Some(0.7), Some(2000), None);
      match http
      case Completed(content, totalTokens) => Call(Some(request), Ok(ChatReply(content, model, TokensOrZero(totalTokens))))
      case Failed(status, _, message, providerMessage) =>
        Call(Some(request), Err(OpenAiError(status, message, providerMessage)))
  }

  /** `process.env.OLLAMA_MODEL || 'mistral:latest'`. */
  function OllamaModel(env: Env): string
  {
    if env.ollamaModel != "" then env.ollamaModel else "mistral:latest"
  }

  /** The message an Ollama failure is rethrown with. */
  function OllamaError(code: string, message: string): (m: string)
    ensures code == "ECONNREFUSED" ==> m == "Ollama is not running. Make sure OLLAMA is started on port 11434."
    ensures code != "ECONNREFUSED" && Contains(message, "404") ==> m == "Ollama model not found. Make sure mistral:latest is loaded."
    ensures code != "ECONNREFUSED" && !Contains(message, "404") ==> m == "Ollama error: " + message
  {
    if code == "ECONNREFUSED" then "Ollama is not running. Make sure OLLAMA is started on port 11434."
    else if Contains(message, "404") then "Ollama model not found. Make sure mistral:latest is loaded."
    else "Ollama error: " + message
  }

  /** `callOllama(messages, system_prompt)`: no credential, no token count, the model named by the environment. */
  function CallOllama(messages: seq<Turn>, systemPrompt: string, env: Env, http: HttpOutcome): (c: Call)
    ensures c.request == Some(Request(OllamaUrl, None, OllamaModel(env), WithSystemPrompt(systemPrompt, messages), None, None, Some(false)))
    ensures http.Completed? ==> c.result == Ok(ChatReply(http.content, "ollama/" + OllamaModel(env), 0))
    ensures http.Failed? ==> c.result == Err(OllamaError(http.code, http.message))
  {
    var request := Request(OllamaUrl, None, OllamaModel(env), WithSystemPrompt(systemPrompt, messages), None, None, Some(false));
    match http
    case Completed(content, _) => Call(Some(request), Ok(ChatReply(content, "ollama/" + OllamaModel(env), 0)))
    case Failed(_, code, message, _) => Call(Some(request), Err(OllamaError(code, message)))
  }

  // ---------------------------------------------------------------------------
  // chat
  // ---------------------------------------------------------------------------

  /** What `chat` does: resolve with a reply, throw, or fall through and resolve to `undefined`. */
  datatype ChatOutcome = Replied(reply: ChatReply) | Threw(message: string) | ReturnedUndefined

  /** The provider call `chat` makes for a selected model id and a message list. */
  function Route(selectedModel: string, messages: seq<Turn>, systemPrompt: string, env: Env, http: HttpOutcome): (r: (Option<Request>, ChatOutcome))
    ensures Dispatch(selectedModel) == None ==> r == (None, ReturnedUndefined)
  {
    var call :=
      match Dispatch(selectedModel)
      case Some(OpenAI) => Some(CallOpenAi(selectedModel, messages, systemPrompt, env, http))
      case Some(OpenRouter) => Some(CallOpenRouter(selectedModel, messages, systemPrompt, env, http))
      case Some(Ollama) => Some(CallOllama(messages, systemPrompt, env, http))
      case None => None;
    if call.None? then (None, ReturnedUndefined)
    else if call.value.result.Ok? then (call.value.request, Replied(call.value.result.value))
    else (call.value.request, Threw(call.value.result.message))
  }

  /**
   * `chat({system_prompt, message, file_context, message_history, model})`:
   * the history loop pushes the forwarded turns, then the new user turn, and
   * the selected model decides which provider is called.
   */
  method Chat(systemPrompt: string, message: string, fileContext: string, history: seq<HistoryEntry>,
              model: string, env: Env, http: HttpOutcome)
    returns (request: Option<Request>, outcome: ChatOutcome)
    ensures SelectModel(model, "simple").Some?
    ensures (request, outcome) ==
      Route(SelectModel(model, "simple").value, PromptTurns(history, fileContext, message), systemPrompt, env, http)
  {
    var selectedModel := SelectModel(model, "simple").value;

    var context := "";
    if fileContext != "" {
      context := "Document Context:\n" + fileContext + "\n\n";
    }

    var messages: seq<Turn> := [];
    var i := 0;
    while i < |history|
      invariant 0 <= i <= |history|
      invariant messages == ForwardedHistory(history[..i])
    {
      var entry := history[i];
      if entry.role == "user" || entry.role == "assistant" {
        var content := match entry.content case Text(t) => t case Structured(json) => json;
        messages := messages + [Turn(if entry.role == "user" then User else Assistant, content)];
      }
      assert history[..i + 1][..i] == history[..i];
      i := i + 1;
    }
    assert history[..i] == history;

    messages := messages + [Turn(User, context + message)];

    request, outcome := Route(selectedModel, messages, systemPrompt, env, http).0,
                        Route(selectedModel, messages, systemPrompt, env, http).1;
  }

  /** A missing OpenRouter key fails before any request is made. */
  lemma MissingOpenRouterKeyFailsFirst(selectedModel: string, messages: seq<Turn>, systemPrompt: string, env: Env, http: HttpOutcome)
    requires Dispatch(selectedModel) == Some(OpenRouter) && env.openRouterKey == ""
    ensures Route(selectedModel, messages, systemPrompt, env, http) == (None, Threw("OPENROUTER_API_KEY not configured"))
  {
  }

  /**
   * A terse system prompt, no document, no history and the message "hi" to the
   * default model: one OpenRouter request whose turns are the system turn and
   * the user turn, and a reply that names the requested model.
   */
  lemma DefaultModelScenario(env: Env, content: string, totalTokens: Option<nat>)
    requires env.openRouterKey != ""
    ensures var (request, outcome) := Route(HaikuId, PromptTurns([], "", "hi"), "You are terse.", env, Completed(content, totalTokens));
      && SelectModel("", "simple") == Some(HaikuId)
      && request.Some?
      && request.value.url == OpenRouterUrl
      && request.value.model == "anthropic/claude-haiku-4.5"
      && request.value.messages == [Turn(System, "You are terse."), Turn(User, "hi")]
      && outcome == Replied(ChatReply(content, HaikuId, TokensOrZero(totalTokens)))
  {
    var http := Completed(content, totalTokens);
    var turns := PromptTurns([], "", "hi");
    assert turns == [Turn(User, "hi")] by {
      assert ForwardedHistory([]) == [];
    }
    assert WithSystemPrompt("You are terse.", turns) == [Turn(System, "You are terse."), Turn(User, "hi")];
    assert StartsWith(HaikuId, "openrouter/") && HaikuId[11..] == "anthropic/claude-haiku-4.5" by {
      OpenRouterIdDispatch("anthropic/claude-haiku-4.5");
    }
    HaikuDispatch();
    var call := CallOpenRouter(HaikuId, turns, "You are terse.", env, http);
    assert Route(HaikuId, turns, "You are terse.", env, http) == (call.request, Replied(call.result.value));
  }
}
