/** The LLM provider layer of the platform API: three clients (OpenAI, Vertex
    AI, Anthropic) built from explicit arguments or the environment, a
    factory that picks one, and the two places where a client reshapes the
    OpenAI-style message list before its network call: Vertex AI flattens it
    into one prompt, Anthropic pulls the system message out. The clients hold
    their settings unchanged after construction, so they are values here.
    The environment is a parameter; the network calls are not modelled. */
module LlmProviders {
  import opened Wrappers
  import opened Text
  import opened Dicts
  import opened Seqs

  // ---------------------------------------------------------------------------
  // Clients and their construction
  // ---------------------------------------------------------------------------

  /** The three environment variables the clients read. */
  datatype Env = Env(
    openAiApiKey: Option<string>,
    anthropicApiKey: Option<string>,
    googleCloudProject: Option<string>)

  /** A temperature is a float the model only carries along. */
  type Temperature = real

  datatype LlmClient =
    | OpenAiClient(apiKey: string, model: string, temperature: Temperature)
    | VertexAiClient(projectId: string, location: string, model: string)
    | AnthropicClient(apiKey: string, model: string, temperature: Temperature)

  /** `explicit or os.getenv(name)`: an empty explicit value counts as
      missing. The result is usable only when non-empty. */
  function Credential(explicit: Option<string>, fromEnv: Option<string>): Option<string> {
    if explicit.Some? && explicit.value != "" then explicit else fromEnv
  }

  predicate Usable(c: Option<string>) {
    c.Some? && c.value != ""
  }

  const OpenAiKeyRequired := "OPENAI_API_KEY is required"
  const ProjectRequired := "GOOGLE_CLOUD_PROJECT is required"
  const AnthropicKeyRequired := "ANTHROPIC_API_KEY is required"

  const DefaultOpenAiModel := "gpt-4o-mini"
  const DefaultVertexLocation := "us-central1"
  const DefaultVertexModel := "gemini-1.5-flash"
  const DefaultAnthropicModel := "claude-3-5-sonnet-20241022"

  /** `OpenAIClient(api_key, model, temperature)`: fails exactly when neither
      the argument nor the environment gives a key. */
  function NewOpenAi(apiKey: Option<string>, model: string, temperature: Temperature, env: Env): (r: Result<LlmClient, string>)
    ensures r.Err? <==> !Usable(Credential(apiKey, env.openAiApiKey))
    ensures r.Err? ==> r.error == OpenAiKeyRequired
    ensures r.Ok? ==> r.value.OpenAiClient? && r.value.model == model && r.value.apiKey != ""
    ensures r.Ok? && apiKey.Some? && apiKey.value != "" ==> r.value.apiKey == apiKey.value
  {
    var key := Credential(apiKey, env.openAiApiKey);
    if !Usable(key) then Err(OpenAiKeyRequired) else Ok(OpenAiClient(key.value, model, temperature))
  }

  /** `VertexAIClient(project_id, location, model)`. */
  function NewVertexAi(projectId: Option<string>, location: string, model: string, env: Env): (r: Result<LlmClient, string>)
    ensures r.Err? <==> !Usable(Credential(projectId, env.googleCloudProject))
    ensures r.Err? ==> r.error == ProjectRequired
    ensures r.Ok? ==> r.value.VertexAiClient? && r.value.location == location && r.value.projectId != ""
    ensures r.Ok? && projectId.Some? && projectId.value != "" ==> r.value.projectId == projectId.value
  {
    var project := Credential(projectId, env.googleCloudProject);
    if !Usable(project) then Err(ProjectRequired) else Ok(VertexAiClient(project.value, location, model))
  }

  /** `AnthropicClient(api_key, model, temperature)`. */
  function NewAnthropic(apiKey: Option<string>, model: string, temperature: Temperature, env: Env): (r: Result<LlmClient, string>)
    ensures r.Err? <==> !Usable(Credential(apiKey, env.anthropicApiKey))
    ensures r.Err? ==> r.error == AnthropicKeyRequired
    ensures r.Ok? ==> r.value.AnthropicClient? && r.value.model == model && r.value.apiKey != ""
    ensures r.Ok? && apiKey.Some? && apiKey.value != "" ==> r.value.apiKey == apiKey.value
  {
    var key := Credential(apiKey, env.anthropicApiKey);
    if !Usable(key) then Err(AnthropicKeyRequired) else Ok(AnthropicClient(key.value, model, temperature))
  }

  // ---------------------------------------------------------------------------
  // LLMFactory
  // ---------------------------------------------------------------------------

  /** The keyword arguments `create` forwards; `None` is an argument not
      given. */
  datatype ClientArgs = ClientArgs(
    apiKey: Option<string>,
    projectId: Option<string>,
    location: Option<string>,
    model: Option<string>,
    temperature: Option<Temperature>)

  function Unexpected(cls: string, arg: string): string {
    cls + ".__init__() got an unexpected keyword argument '" + arg + "'"
  }

  function UnknownProvider(provider: string): string {
    "Unknown provider: " + provider
  }

  /** `LLMFactory.create(provider, **kwargs)`, with the provider as its enum
      value. A keyword the chosen constructor does not take is a `TypeError`. */
  function Create(provider: string, args: ClientArgs, env: Env): (r: Result<LlmClient, string>)
    ensures provider !in ["openai", "vertex_ai", "anthropic"] ==> r == Err(UnknownProvider(provider))
    ensures r.Ok? && provider == "openai" ==> r.value.OpenAiClient?
    ensures r.Ok? && provider == "vertex_ai" ==> r.value.VertexAiClient?
    ensures r.Ok? && provider == "anthropic" ==> r.value.AnthropicClient?
  {
    if provider == "openai" then
      if args.projectId.Some? then Err(Unexpected("OpenAIClient", "project_id"))
      else if args.location.Some? then Err(Unexpected("OpenAIClient", "location"))
      else NewOpenAi(args.apiKey, args.model.GetOr(DefaultOpenAiModel), args.temperature.GetOr(0.0), env)
    else if provider == "vertex_ai" then
      if args.apiKey.Some? then Err(Unexpected("VertexAIClient", "api_key"))
      else if args.temperature.Some? then Err(Unexpected("VertexAIClient", "temperature"))
      else NewVertexAi(args.projectId, args.location.GetOr(DefaultVertexLocation), args.model.GetOr(DefaultVertexModel), env)
    else if provider == "anthropic" then
      if args.projectId.Some? then Err(Unexpected("AnthropicClient", "project_id"))
      else if args.location.Some? then Err(Unexpected("AnthropicClient", "location"))
      else NewAnthropic(args.apiKey, args.model.GetOr(DefaultAnthropicModel), args.temperature.GetOr(0.0), env)
    else Err(UnknownProvider(provider))
  }

  const NoProvider := "No LLM provider configured. Set OPENAI_API_KEY, ANTHROPIC_API_KEY, or GOOGLE_CLOUD_PROJECT"

  /** `LLMFactory.create_from_env()`: the first configured provider in the
      order OpenAI, Anthropic, Vertex AI, each with its defaults. */
  function CreateFromEnv(env: Env): (r: Result<LlmClient, string>)
    ensures r.Err? <==> !Usable(env.openAiApiKey) && !Usable(env.anthropicApiKey) && !Usable(env.googleCloudProject)
    ensures r.Err? ==> r.error == NoProvider
    ensures r.Ok? && r.value.OpenAiClient? <==> Usable(env.openAiApiKey)
    ensures r.Ok? && r.value.AnthropicClient? <==> !Usable(env.openAiApiKey) && Usable(env.anthropicApiKey)
    ensures r.Ok? && r.value.VertexAiClient? <==>
              !Usable(env.openAiApiKey) && !Usable(env.anthropicApiKey) && Usable(env.googleCloudProject)
  {
    if Usable(env.openAiApiKey) then NewOpenAi(None, DefaultOpenAiModel, 0.0, env)
    else if Usable(env.anthropicApiKey) then NewAnthropic(None, DefaultAnthropicModel, 0.0, env)
    else if Usable(env.googleCloudProject) then NewVertexAi(None, DefaultVertexLocation, DefaultVertexModel, env)
    else Err(NoProvider)
  }

  /** Whatever the environment, `create_from_env` builds the client that
      `create` builds for the same provider with no arguments. */
  lemma CreateFromEnvIsCreate(env: Env)
    requires Usable(env.openAiApiKey) || Usable(env.anthropicApiKey) || Usable(env.googleCloudProject)
    ensures CreateFromEnv(env) == Create(ChosenProvider(env), ClientArgs(None, None, None, None, None), env)
  {
  }

  /** The provider `create_from_env` picks. */
  function ChosenProvider(env: Env): string {
    if Usable(env.openAiApiKey) then "openai"
    else if Usable(env.anthropicApiKey) then "anthropic"
    else "vertex_ai"
  }

  // ---------------------------------------------------------------------------
  // Messages
  // ---------------------------------------------------------------------------

  /** An OpenAI-style message: a dict with `role` and `content`. */
  type Message = Dict<string, string>

  function Role(m: Message): Option<string> {
    Get(m, "role")
  }

  // ---------------------------------------------------------------------------
  // VertexAIClient._convert_messages
  // ---------------------------------------------------------------------------

  /** The prompt line of one message, if its role is one of the three known
      ones; a missing role counts as `user`, missing content as empty. */
  function PromptPart(m: Message): Option<string> {
    var role := Role(m).GetOr("user");
    var content := Get(m, "content").GetOr("");
    if role == "system" then Some("システム指示: " + content + "\n")
    else if role == "user" then Some("ユーザー: " + content + "\n")
    else if role == "assistant" then Some("アシスタント: " + content + "\n")
    else None
  }

  predicate HasKnownRole(m: Message) {
    PromptPart(m).Some?
  }

  /** The parts the conversion loop collects, built from the end. */
  function PromptParts(msgs: seq<Message>): seq<string> {
    if |msgs| == 0 then []
    else
      var last := msgs[|msgs| - 1];
      PromptParts(msgs[..|msgs| - 1]) + match PromptPart(last) case Some(p) => [p] case None => []
  }

  /** The whole prompt. */
  function Prompt(msgs: seq<Message>): string {
    Join("\n", PromptParts(msgs))
  }

  /** One part per message, each message assumed to have a known role. */
  function PartsOf(msgs: seq<Message>): (r: seq<string>)
    ensures |r| == |msgs|
  {
    seq(|msgs|, k requires 0 <= k < |msgs| => PromptPart(msgs[k]).GetOr(""))
  }

  /** The prompt has exactly one part per message with a known role, in
      message order; the other messages leave no trace. */
  lemma {:induction false} PromptPartsKnown(msgs: seq<Message>)
    ensures PromptParts(msgs) == PartsOf(Filter(msgs, KnownRole))
    decreases |msgs|
  {
    if |msgs| > 0 {
      var init, last := msgs[..|msgs| - 1], msgs[|msgs| - 1];
      var tail := match PromptPart(last) case Some(p) => [p] case None => [];
      var a, b := Filter(init, KnownRole), Filter([last], KnownRole);
      calc {
        PromptParts(msgs);
        PromptParts(init) + tail;
        { PromptPartsKnown(init); }
        PartsOf(a) + tail;
        { FilterSingle(last, KnownRole); }
        PartsOf(a) + PartsOf(b);
        { PartsOfAppend(a, b); }
        PartsOf(a + b);
        { FilterAppend(init, [last], KnownRole); InitLast(msgs); }
        PartsOf(Filter(msgs, KnownRole));
      }
    }
  }

  lemma PartsOfAppend(a: seq<Message>, b: seq<Message>)
    ensures PartsOf(a + b) == PartsOf(a) + PartsOf(b)
  {
  }

  function KnownRole(m: Message): bool {
    HasKnownRole(m)
  }

  /** `_convert_messages(messages)`. */
  method ConvertMessages(messages: seq<Message>) returns (prompt: string)
    ensures prompt == Prompt(messages)
  {
    var parts := [];
    for i := 0 to |messages|
      invariant parts == PromptParts(messages[..i])
    {
      TakeStep(messages, i);
      var msg := messages[i];
      var role := Get(msg, "role").GetOr("user");
      var content := Get(msg, "content").GetOr("");
      if role == "system" {
        parts := parts + ["システム指示: " + content + "\n"];
      } else if role == "user" {
        parts := parts + ["ユーザー: " + content + "\n"];
      } else if role == "assistant" {
        parts := parts + ["アシスタント: " + content + "\n"];
      }
    }
    TakeAll(messages);
    prompt := Join("\n", parts);
  }

  // ---------------------------------------------------------------------------
  // AnthropicClient.chat: the system/chat split
  // ---------------------------------------------------------------------------

  predicate IsSystem(m: Message) {
    Role(m) == Some("system")
  }

  function NotSystem(m: Message): bool {
    !IsSystem(m)
  }

  /** The split loop, from the end: the last system message's content wins,
      every other message is kept in order. `msg["role"]`, and
      `msg["content"]` on a system message, fail on a missing key. */
  function SplitSystem(msgs: seq<Message>): Result<(string, seq<Message>), string> {
    if |msgs| == 0 then Ok(("", []))
    else
      var last := msgs[|msgs| - 1];
      match SplitSystem(msgs[..|msgs| - 1])
      case Err(e) => Err(e)
      case Ok((system, chat)) =>
        match Role(last)
        case None => Err("'role'")
        case Some(role) =>
          if role == "system" then
            match Get(last, "content")
            case None => Err("'content'")
            case Some(c) => Ok((c, chat))
          else Ok((system, chat + [last]))
  }

  /** A message the split fails on. */
  predicate Unsplittable(m: Message) {
    Role(m).None? || (IsSystem(m) && Get(m, "content").None?)
  }

  /** The split fails exactly when some message lacks a role, or is a system
      message without content. */
  lemma {:induction false} SplitSystemFails(msgs: seq<Message>)
    ensures SplitSystem(msgs).Err? <==> exists k :: 0 <= k < |msgs| && Unsplittable(msgs[k])
    decreases |msgs|
  {
    if |msgs| > 0 {
      var init := msgs[..|msgs| - 1];
      SplitSystemFails(init);
      assert forall k :: 0 <= k < |init| ==> init[k] == msgs[k];
      if SplitSystem(init).Err? {
        var k :| 0 <= k < |init| && Unsplittable(init[k]);
        assert Unsplittable(msgs[k]);
      }
    }
  }

  /** After a successful split the chat list is the non-system messages, in
      order. */
  lemma {:induction false} SplitSystemChat(msgs: seq<Message>)
    ensures SplitSystem(msgs).Ok? ==> SplitSystem(msgs).value.1 == Filter(msgs, NotSystem)
    decreases |msgs|
  {
    if |msgs| > 0 {
      var init, last := msgs[..|msgs| - 1], msgs[|msgs| - 1];
      SplitSystemChat(init);
      assert msgs == init + [last];
      FilterAppend(init, [last], NotSystem);
      FilterSingle(last, NotSystem);
    }
  }

  /** After a successful split the system text is the content of the last
      system message, or empty when there is none. */
  lemma {:induction false} SplitSystemText(msgs: seq<Message>)
    ensures SplitSystem(msgs).Ok? && (forall k :: 0 <= k < |msgs| ==> !IsSystem(msgs[k])) ==>
              SplitSystem(msgs).value.0 == ""
    ensures SplitSystem(msgs).Ok? ==>
              forall k :: 0 <= k < |msgs| && IsSystem(msgs[k]) && (forall j :: k < j < |msgs| ==> !IsSystem(msgs[j])) ==>
                Some(SplitSystem(msgs).value.0) == Get(msgs[k], "content")
    decreases |msgs|
  {
    if |msgs| > 0 {
      var init := msgs[..|msgs| - 1];
      SplitSystemText(init);
      assert forall k :: 0 <= k < |init| ==> init[k] == msgs[k];
    }
  }

  /** What `AnthropicClient.chat` sends. */
  datatype AnthropicRequest = AnthropicRequest(model: string, maxTokens: nat, system: string, messages: seq<Message>)

  /** The request of `AnthropicClient.chat(messages, model=...)`, before the
      network call. */
  function AnthropicRequestFor(client: LlmClient, messages: seq<Message>, model: Option<string>): Result<AnthropicRequest, string>
    requires client.AnthropicClient?
  {
    match SplitSystem(messages)
    case Err(e) => Err(e)
    case Ok((system, chat)) => Ok(AnthropicRequest(model.GetOr(client.model), 4096, system, chat))
  }

  /** The split loop of `AnthropicClient.chat`. */
  method AnthropicRequestOf(client: LlmClient, messages: seq<Message>, model: Option<string>)
    returns (r: Result<AnthropicRequest, string>)
    requires client.AnthropicClient?
    ensures r == AnthropicRequestFor(client, messages, model)
  {
    var systemMsg := "";
    var chatMessages := [];
    for i := 0 to |messages|
      invariant SplitSystem(messages[..i]) == Ok((systemMsg, chatMessages))
    {
      TakeStep(messages, i);
      var msg := messages[i];
      var role := Get(msg, "role");
      if role.None? {
        SplitStops(messages, i + 1, "'role'");
        return Err("'role'");
      }
      if role.value == "system" {
        var content := Get(msg, "content");
        if content.None? {
          SplitStops(messages, i + 1, "'content'");
          return Err("'content'");
        }
        systemMsg := content.value;
      } else {
        chatMessages := chatMessages + [msg];
      }
    }
    TakeAll(messages);
    r := Ok(AnthropicRequest(model.GetOr(client.model), 4096, systemMsg, chatMessages));
  }

  /** Once the split fails on a prefix it fails the same way on the whole
      list: later messages are never looked at. */
  lemma {:induction false} SplitStops(msgs: seq<Message>, i: nat, e: string)
    requires i <= |msgs| && SplitSystem(msgs[..i]) == Err(e)
    ensures SplitSystem(msgs) == Err(e)
    decreases |msgs| - i
  {
    if i < |msgs| {
      TakeStep(msgs, i);
      SplitStops(msgs, i + 1, e);
    } else {
      TakeAll(msgs);
    }
  }
}
