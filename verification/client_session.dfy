/** `LLMClient` of client/mcp_llm_client.py: one user query is analysed by
    the language model, which either answers directly or names one tool; the
    tool is called on that server's connection and its result interpreted by
    a second model call. Every failure along the way is turned into an error
    reply and counted, and the conversation history grows only as the
    source appends to it.

    The language model, the JSON parser and the tool call are oracles
    gathered in `Env`. */
module LlmClientSession {
  import opened Wrappers
  import opened Text
  import opened Dicts
  import opened Json
  import opened McpTypes
  import opened ToolCollection
  import opened LlmIntegrationPrep
  import opened Seqs

  /** What the client asks the language model; `Render` gives the
      chat-completion request actually sent. */
  datatype Ask =
    | Decide(history: seq<Turn>, schema: Dict<string, seq<ToolInfo>>, query: string)
    | Interpret(query: string, server: Json, tool: Json, result: string)

  /** The model answers the rendered request; it is given the `Ask` so that
      proofs about the session need not unfold the prompt text. */
  datatype Env = Env(
    llm: Ask -> Result<string, string>,
    parse: string -> Result<Json, string>,
    callTool: (string, Json, Json) -> Result<CallResult, string>)

  /** The session context: history plus the two counters of `context`. */
  datatype Session = Session(history: seq<Turn>, toolCalls: nat, errors: nat)

  /** The session after a query, and what `process_query` returns. */
  datatype Reply = Reply(session: Session, text: string)

  const ErrorPrefix := "エラーが発生しました: "
  const NoAnswer := "回答を生成できませんでした。"
  const PlainInstruction := "You are a helpful assistant."

  /** Python's type name of a decoded JSON value. */
  function TypeName(j: Json): string {
    match j
    case JNull => "NoneType"
    case JBool(_) => "bool"
    case JInt(_) => "int"
    case JFloat(_, _) => "float"
    case JStr(_) => "str"
    case JArr(_) => "list"
    case JObj(_) => "dict"
  }

  /** The `AttributeError` text of calling `.get` on a non-object. */
  function NoGetMessage(j: Json): string {
    "'" + TypeName(j) + "' object has no attribute 'get'"
  }

  function ServerNotFound(server: Json): string {
    "サーバー '" + Show(server) + "' が見つかりません"
  }

  /** `_analyze_query`: the decision request, then the completion decoded. */
  function AnalyzeQuery(history: seq<Turn>, schema: Dict<string, seq<ToolInfo>>, query: string, env: Env)
    : Result<Json, string>
  {
    match env.llm(Decide(history, schema, query))
    case Err(e) => Err(e)
    case Ok(raw) => ValidateLlmResponse(raw, env.parse)
  }

  /** Whether `_execute_tool` counted a call, and what it returned. */
  datatype Dispatch = Dispatch(counted: bool, result: Result<string, string>)

  /** `_execute_tool`: the server must name an open connection (an
      unhashable name fails the membership test itself); the call is counted
      before it is made, so a call that fails is still counted. */
  function DispatchTool(clients: Dict<string, Launch>, server: Json, tool: Json, args: Json,
                        callTool: (string, Json, Json) -> Result<CallResult, string>): (d: Dispatch)
    ensures d.counted <==> server.JStr? && server.s in Keys(clients)
    ensures d.counted ==> d.result == (match callTool(server.s, tool, args)
                                       case Ok(res) => Ok(Normalize(res))
                                       case Err(e) => Err(e))
  {
    match server
    case JArr(_) => Dispatch(false, Err("unhashable type: 'list'"))
    case JObj(_) => Dispatch(false, Err("unhashable type: 'dict'"))
    case JStr(name) =>
      if name in Keys(clients) then
        Dispatch(true, match callTool(name, tool, args)
                       case Ok(res) => Ok(Normalize(res))
                       case Err(e) => Err(e))
      else Dispatch(false, Err(ServerNotFound(server)))
    case _ => Dispatch(false, Err(ServerNotFound(server)))
  }

  /** The request `_interpret_result` sends (temperature 0.3). */
  function InterpretRequest(query: string, server: Json, tool: Json, result: string): ChatRequest {
    ChatRequest(ChatModel,
      [Message("system", PlainInstruction),
       Message("user", "\nユーザーの質問: " + query + "\n実行したツール: " + Show(server) + "." + Show(tool)
                       + "\n実行結果: " + result + "\n\n結果をユーザーが理解しやすいように日本語で説明してください。\n")],
      0.3)
  }

  function Render(a: Ask): ChatRequest {
    match a
    case Decide(h, schema, q) => DecisionRequest(h, schema, q)
    case Interpret(q, server, tool, result) => InterpretRequest(q, server, tool, result)
  }

  function Fail(s: Session, message: string): Reply {
    Reply(s.(errors := s.errors + 1), ErrorPrefix + message)
  }

  /** `process_query`: the decision is asked for, then acted on. */
  function HandleQuery(s: Session, schema: Dict<string, seq<ToolInfo>>, clients: Dict<string, Launch>,
                       query: string, env: Env): Reply
  {
    HandleDecision(s, AnalyzeQuery(s.history, schema, query, env), clients, query, env)
  }

  /** The rest of `process_query` once the decision is known. The user turn
      is recorded only once the decision has been decoded; a decision that is
      not an object fails on `.get`. */
  function HandleDecision(s: Session, decision: Result<Json, string>, clients: Dict<string, Launch>,
                          query: string, env: Env): Reply
  {
    match decision
    case Err(e) => Fail(s, e)
    case Ok(d) =>
      var s1 := s.(history := s.history + [Turn("user", query)]);
      match d
      case JObj(fields) => Act(s1, fields, clients, query, env)
      case _ => Fail(s1, NoGetMessage(d))
  }

  /** What follows a decoded decision object; the tool path reads `server`,
      `tool` and `arguments` in that order. */
  function Act(s1: Session, fields: Dict<string, Json>, clients: Dict<string, Launch>, query: string, env: Env): Reply {
    if !Truthy(Field(fields, "needs_tool").GetOr(JBool(false))) then
      var response := match Field(fields, "response") case Some(v) => Show(v) case None => NoAnswer;
      Reply(s1.(history := s1.history + [Turn("assistant", response)]), response)
    else if Field(fields, "server").None? then Fail(s1, "'server'")
    else if Field(fields, "tool").None? then Fail(s1, "'tool'")
    else if Field(fields, "arguments").None? then Fail(s1, "'arguments'")
    else
      var server := Field(fields, "server").value;
      var tool := Field(fields, "tool").value;
      var d := DispatchTool(clients, server, tool, Field(fields, "arguments").value, env.callTool);
      var s2 := if d.counted then s1.(toolCalls := s1.toolCalls + 1) else s1;
      match d.result
      case Err(e) => Fail(s2, e)
      case Ok(result) =>
        match env.llm(Interpret(query, server, tool, result))
        case Err(e) => Fail(s2, e)
        case Ok(answer) => Reply(s2.(history := s2.history + [Turn("assistant", answer)]), answer)
  }

  /** A failure counts one error and replies with the error message. */
  lemma FailShape(s: Session, message: string)
    ensures Fail(s, message).session == s.(errors := s.errors + 1)
    ensures IsPrefix(ErrorPrefix, Fail(s, message).text)
  {
    assert (ErrorPrefix + message)[..|ErrorPrefix|] == ErrorPrefix;
  }

  /** After a decoded decision object: success appends the assistant's
      reply, failure counts one error and appends nothing. */
  lemma ActOutcome(s1: Session, fields: Dict<string, Json>, clients: Dict<string, Launch>, query: string, env: Env)
    ensures var r := Act(s1, fields, clients, query, env);
            && (r.session.toolCalls == s1.toolCalls || r.session.toolCalls == s1.toolCalls + 1)
            && (r.session.errors == s1.errors || r.session.errors == s1.errors + 1)
            && (r.session.errors == s1.errors ==> r.session.history == s1.history + [Turn("assistant", r.text)])
            && (r.session.errors == s1.errors + 1 ==> IsPrefix(ErrorPrefix, r.text) && r.session.history == s1.history)
  {
    if !Truthy(Field(fields, "needs_tool").GetOr(JBool(false))) {
    } else if Field(fields, "server").None? {
      FailShape(s1, "'server'");
    } else if Field(fields, "tool").None? {
      FailShape(s1, "'tool'");
    } else if Field(fields, "arguments").None? {
      FailShape(s1, "'arguments'");
    } else {
      var server := Field(fields, "server").value;
      var tool := Field(fields, "tool").value;
      var d := DispatchTool(clients, server, tool, Field(fields, "arguments").value, env.callTool);
      var s2 := if d.counted then s1.(toolCalls := s1.toolCalls + 1) else s1;
      match d.result
      case Err(e) => FailShape(s2, e);
      case Ok(result) =>
        match env.llm(Interpret(query, server, tool, result))
        case Err(e) => FailShape(s2, e);
        case Ok(answer) =>
    }
  }

  /** Every query ends in exactly one of two ways. Either it succeeds: no
      error is counted and the history grows by the user's turn followed by
      an assistant turn holding the reply. Or it fails: one error is counted,
      the reply is an error message, and the history grows by at most the
      user's turn, which is there iff the decision was decoded. The tool
      counter grows by at most one, and never when the decision failed. */
  lemma QueryOutcome(s: Session, decision: Result<Json, string>, clients: Dict<string, Launch>,
                     query: string, env: Env)
    ensures var r := HandleDecision(s, decision, clients, query, env);
            && (r.session.toolCalls == s.toolCalls || r.session.toolCalls == s.toolCalls + 1)
            && (r.session.errors == s.errors || r.session.errors == s.errors + 1)
            && (r.session.errors == s.errors ==>
                  r.session.history == s.history + [Turn("user", query), Turn("assistant", r.text)])
            && (r.session.errors == s.errors + 1 ==>
                  && IsPrefix(ErrorPrefix, r.text)
                  && r.session.history == s.history + (if decision.Ok? then [Turn("user", query)] else []))
            && (decision.Err? ==> r.session.toolCalls == s.toolCalls && r.session.errors == s.errors + 1)
  {
    match decision
    case Err(e) => FailShape(s, e);
    case Ok(d) =>
      var s1 := s.(history := s.history + [Turn("user", query)]);
      match d
      case JObj(fields) =>
        ActOutcome(s1, fields, clients, query, env);
        var text := HandleDecision(s, decision, clients, query, env).text;
        assert s.history + [Turn("user", query)] + [Turn("assistant", text)]
            == s.history + [Turn("user", query), Turn("assistant", text)];
      case _ => FailShape(s1, NoGetMessage(d));
  }

  /** A tool the model names on a server that has no open connection is
      never called and not counted; the query fails with "server not
      found". */
  lemma UnknownServerNotCalled(s: Session, clients: Dict<string, Launch>,
                               query: string, env: Env, fields: Dict<string, Json>, name: string)
    requires Field(fields, "needs_tool") == Some(JBool(true))
    requires Field(fields, "server") == Some(JStr(name)) && name !in Keys(clients)
    requires Field(fields, "tool").Some? && Field(fields, "arguments").Some?
    ensures var r := HandleDecision(s, Ok(JObj(fields)), clients, query, env);
            && r.session.toolCalls == s.toolCalls
            && r.session.errors == s.errors + 1
            && r.text == ErrorPrefix + ServerNotFound(JStr(name))
  {
  }

  /** A call on a known server is counted even when the call itself
      fails. */
  lemma FailedCallStillCounted(s: Session, clients: Dict<string, Launch>,
                               query: string, env: Env, fields: Dict<string, Json>, name: string)
    requires Field(fields, "needs_tool") == Some(JBool(true))
    requires Field(fields, "server") == Some(JStr(name)) && name in Keys(clients)
    requires Field(fields, "tool").Some? && Field(fields, "arguments").Some?
    requires env.callTool(name, Field(fields, "tool").value, Field(fields, "arguments").value).Err?
    ensures var r := HandleDecision(s, Ok(JObj(fields)), clients, query, env);
            r.session.toolCalls == s.toolCalls + 1 && r.session.errors == s.errors + 1
  {
  }

  /** A successful tool round: exactly the named tool is called with the
      model's arguments on the named server, its normalised result goes into
      the interpretation request, and the interpretation is the reply. */
  lemma ToolRound(s: Session, clients: Dict<string, Launch>,
                  query: string, env: Env, fields: Dict<string, Json>, name: string)
    requires Truthy(Field(fields, "needs_tool").GetOr(JBool(false)))
    requires Field(fields, "server") == Some(JStr(name)) && name in Keys(clients)
    requires Field(fields, "tool").Some? && Field(fields, "arguments").Some?
    requires env.callTool(name, Field(fields, "tool").value, Field(fields, "arguments").value).Ok?
    ensures var tool := Field(fields, "tool").value;
            var res := env.callTool(name, tool, Field(fields, "arguments").value).value;
            var answer := env.llm(Interpret(query, JStr(name), tool, Normalize(res)));
            var r := HandleDecision(s, Ok(JObj(fields)), clients, query, env);
            && r.session.toolCalls == s.toolCalls + 1
            && (answer.Ok? ==> r.text == answer.value && r.session.errors == s.errors)
            && (answer.Err? ==> r.session.errors == s.errors + 1)
  {
  }

  /** A direct answer without a `response` key falls back to the stock
      sentence. */
  lemma DirectAnswerDefault(s: Session, clients: Dict<string, Launch>,
                            query: string, env: Env, fields: Dict<string, Json>)
    requires !Truthy(Field(fields, "needs_tool").GetOr(JBool(false)))
    requires Field(fields, "response").None?
    ensures HandleDecision(s, Ok(JObj(fields)), clients, query, env).text == NoAnswer
  {
  }

  // ---------------------------------------------------------------------------
  // Interactive loop
  // ---------------------------------------------------------------------------

  /** One read of the prompt: a line, or Ctrl-C. */
  datatype InputEvent = Line(text: string) | Interrupt

  /** What one read of the prompt amounts to. */
  datatype Command = Skip | Quit | Help | Status | Ask(query: string) | CtrlC

  /** A line is stripped, and compared case-insensitively with the commands;
      anything else is a query. */
  function Classify(line: string): (c: Command)
    ensures c.Skip? <==> Strip(line) == ""
    ensures c.Quit? <==> Lower(Strip(line)) in {"quit", "exit", "q"}
    ensures c.Help? <==> Lower(Strip(line)) in {"help", "?"}
    ensures c.Status? <==> Lower(Strip(line)) == "status"
    ensures c.Ask? <==> Strip(line) != ""
                        && Lower(Strip(line)) !in {"quit", "exit", "q", "help", "?", "status"}
    ensures c.Ask? ==> c.query == Strip(line)
    ensures !c.CtrlC?
  {
    var t := Strip(line);
    var l := Lower(t);
    if t == "" then Skip
    else if l == "quit" || l == "exit" || l == "q" then Quit
    else if l == "help" || l == "?" then Help
    else if l == "status" then Status
    else Ask(t)
  }

  function Read(e: InputEvent): Command {
    match e
    case Interrupt => CtrlC
    case Line(text) => Classify(text)
  }

  function Commands(events: seq<InputEvent>): (r: seq<Command>)
    ensures |r| == |events|
    ensures forall i :: 0 <= i < |events| ==> r[i] == Read(events[i])
  {
    seq(|events|, i requires 0 <= i < |events| => Read(events[i]))
  }

  /** What the loop shows; the elapsed time of the status display is not
      modelled. */
  datatype Output = ToolsShown(lines: seq<string>) | StatusShown(toolCalls: nat, errors: nat)
                  | Answer(text: string) | Goodbye | Interrupted

  /** `_show_available_tools`: the total, one line per server, a blank
      line. */
  function AvailableTools(schema: Dict<string, seq<ToolInfo>>): (r: seq<string>)
    ensures |r| == |schema| + 2
  {
    ["[ツール] 利用可能なツール: " + NatToString(GroupTotal(schema)) + "個"]
    + seq(|schema|, i requires 0 <= i < |schema| => "  - " + schema[i].0 + ": " + NatToString(|schema[i].1|) + "個")
    + [""]
  }

  datatype Transcript = Transcript(session: Session, outputs: seq<Output>)

  function Then(shown: seq<Output>, t: Transcript): Transcript {
    Transcript(t.session, shown + t.outputs)
  }

  lemma ThenThen(a: seq<Output>, b: seq<Output>, t: Transcript)
    ensures Then(a, Then(b, t)) == Then(a + b, t)
  {
    assert a + (b + t.outputs) == (a + b) + t.outputs;
  }

  /** `interactive_mode` over a finite input. The loop ends on a quit
      command or Ctrl-C at the prompt; running out of input makes `input`
      raise, which ends it without a farewell. */
  function Conversation(s: Session, schema: Dict<string, seq<ToolInfo>>, clients: Dict<string, Launch>,
                        events: seq<InputEvent>, env: Env): Transcript
  {
    Run(s, schema, clients, Commands(events), env)
  }

  /** The loop over already classified input. */
  function Run(s: Session, schema: Dict<string, seq<ToolInfo>>, clients: Dict<string, Launch>,
               cmds: seq<Command>, env: Env): Transcript
    decreases |cmds|
  {
    if |cmds| == 0 then Transcript(s, [])
    else
      match cmds[0]
      case CtrlC => Transcript(s, [Interrupted])
      case Skip => Run(s, schema, clients, cmds[1..], env)
      case Quit => Transcript(s, [Goodbye])
      case Help => Then([ToolsShown(AvailableTools(schema))], Run(s, schema, clients, cmds[1..], env))
      case Status => Then([StatusShown(s.toolCalls, s.errors)], Run(s, schema, clients, cmds[1..], env))
      case Ask(q) =>
        var r := HandleQuery(s, schema, clients, q, env);
        Then([Answer(r.text)], Run(r.session, schema, clients, cmds[1..], env))
  }

  /** Queries the loop reaches before it stops. */
  function QueriesBeforeStop(cmds: seq<Command>): nat
    decreases |cmds|
  {
    if |cmds| == 0 then 0
    else
      match cmds[0]
      case CtrlC => 0
      case Quit => 0
      case Ask(_) => 1 + QueriesBeforeStop(cmds[1..])
      case _ => QueriesBeforeStop(cmds[1..])
  }

  function Answers(outputs: seq<Output>): nat
    decreases |outputs|
  {
    if |outputs| == 0 then 0 else (if outputs[0].Answer? then 1 else 0) + Answers(outputs[1..])
  }

  lemma AnswersAppend(a: seq<Output>, b: seq<Output>)
    ensures Answers(a + b) == Answers(a) + Answers(b)
    decreases |a|
  {
    if |a| > 0 {
      assert (a + b)[0] == a[0];
      assert (a + b)[1..] == a[1..] + b;
      AnswersAppend(a[1..], b);
    } else {
      assert a + b == b;
    }
  }

  /** Over a whole conversation: every query reached gets exactly one answer
      shown; commands (help, status, blank lines) never touch the session;
      the counters only grow and the history only grows at its end, by at
      most two turns per query. */
  lemma {:induction false} ConversationInvariant(s: Session, schema: Dict<string, seq<ToolInfo>>,
                                                 clients: Dict<string, Launch>, cmds: seq<Command>, env: Env)
    ensures var t := Run(s, schema, clients, cmds, env);
            && Answers(t.outputs) == QueriesBeforeStop(cmds)
            && (QueriesBeforeStop(cmds) == 0 ==> t.session == s)
            && s.toolCalls <= t.session.toolCalls <= s.toolCalls + QueriesBeforeStop(cmds)
            && s.errors <= t.session.errors <= s.errors + QueriesBeforeStop(cmds)
            && s.history <= t.session.history
            && |t.session.history| <= |s.history| + 2 * QueriesBeforeStop(cmds)
    decreases |cmds|
  {
    if |cmds| > 0 {
      var rest := Run(s, schema, clients, cmds[1..], env);
      match cmds[0]
      case CtrlC =>
      case Quit =>
      case Skip =>
        ConversationInvariant(s, schema, clients, cmds[1..], env);
      case Help =>
        ConversationInvariant(s, schema, clients, cmds[1..], env);
        AnswersAppend([ToolsShown(AvailableTools(schema))], rest.outputs);
      case Status =>
        ConversationInvariant(s, schema, clients, cmds[1..], env);
        AnswersAppend([StatusShown(s.toolCalls, s.errors)], rest.outputs);
      case Ask(q) =>
        var r := HandleQuery(s, schema, clients, q, env);
        QueryOutcome(s, AnalyzeQuery(s.history, schema, q, env), clients, q, env);
        ConversationInvariant(r.session, schema, clients, cmds[1..], env);
        var t := Run(r.session, schema, clients, cmds[1..], env);
        AnswersAppend([Answer(r.text)], t.outputs);
        assert s.history <= r.session.history;
        assert t.session.history[..|s.history|] == r.session.history[..|s.history|];
    }
  }

  class LlmClient {
    const collector: ToolCollector
    var clients: Dict<string, Launch>
    var history: seq<Turn>
    var toolCalls: nat
    var errors: nat

    function State(): Session
      reads this
    {
      Session(history, toolCalls, errors)
    }

    /** The collector is built (and its configuration loaded) by the
        caller. */
    constructor (collector: ToolCollector)
      ensures this.collector == collector
      ensures clients == [] && State() == Session([], 0, 0)
    {
      this.collector := collector;
      clients, history, toolCalls, errors := [], [], 0, 0;
    }

    /** `initialize`: the catalogue is collected, then a long-lived
        connection is opened to every configured server, a server whose
        connection fails being skipped. Connecting is collection with an
        outcome that stops after the connection step, so `CollectIsolation`
        covers it too. Returns the tool summary it shows. */
    method Initialize(probe: Launch -> Probe, connect: Launch -> bool) returns (shown: seq<string>)
      modifies this`clients, collector
      ensures collector.servers == old(collector.servers)
      ensures (collector.clients, collector.toolsSchema)
           == CollectFrom(collector.servers, old(collector.clients), old(collector.toolsSchema), probe)
      ensures clients == CollectFrom(collector.servers, old(clients), [], ConnectOnly(connect)).0
      ensures shown == AvailableTools(collector.toolsSchema)
    {
      collector.CollectAllTools(probe);
      var servers := collector.servers;
      ghost var collected := (collector.clients, collector.toolsSchema);
      ghost var noSchema: Dict<string, seq<ToolInfo>> := [];
      var i := 0;
      while i < |servers|
        invariant 0 <= i <= |servers|
        invariant collector.servers == servers
        invariant (collector.clients, collector.toolsSchema) == collected
        invariant CollectFrom(servers, old(clients), [], ConnectOnly(connect))
               == CollectFrom(servers[i..], clients, noSchema, ConnectOnly(connect))
      {
        assert servers[i..][1..] == servers[i + 1..];
        match LaunchOf(servers[i].1) {
          case None =>
          case Some(l) =>
            assert ConnectOnly(connect)(l).ListFailed? == connect(l);
            if connect(l) {
              clients := Put(clients, servers[i].0, l);
            }
        }
        i := i + 1;
      }
      shown := AvailableTools(collector.toolsSchema);
    }

    /** `_execute_tool`. */
    method ExecuteTool(server: Json, tool: Json, args: Json,
                       callTool: (string, Json, Json) -> Result<CallResult, string>)
      returns (r: Result<string, string>)
      modifies this`toolCalls
      ensures var d := DispatchTool(clients, server, tool, args, callTool);
              r == d.result && toolCalls == old(toolCalls) + (if d.counted then 1 else 0)
    {
      if !server.JStr? {
        r := DispatchTool(clients, server, tool, args, callTool).result;
        return;
      }
      if server.s !in Keys(clients) {
        r := Err(ServerNotFound(server));
        return;
      }
      toolCalls := toolCalls + 1;
      match callTool(server.s, tool, args) {
        case Err(e) => r := Err(e);
        case Ok(res) => r := Ok(Normalize(res));
      }
    }

    /** `_interpret_result`: a successful interpretation is recorded as the
        assistant's turn. */
    method InterpretResult(query: string, server: Json, tool: Json, result: string,
                           llm: Ask -> Result<string, string>)
      returns (r: Result<string, string>)
      modifies this`history
      ensures r == llm(Interpret(query, server, tool, result))
      ensures history == old(history) + (if r.Ok? then [Turn("assistant", r.value)] else [])
    {
      r := llm(Interpret(query, server, tool, result));
      if r.Ok? {
        history := history + [Turn("assistant", r.value)];
      }
    }

    /** `process_query`. */
    method ProcessQuery(query: string, env: Env) returns (reply: string)
      modifies this`history, this`toolCalls, this`errors
      ensures Reply(State(), reply) == HandleQuery(old(State()), collector.toolsSchema, clients, query, env)
    {
      var decision := AnalyzeQuery(history, collector.toolsSchema, query, env);
      if decision.Err? {
        errors := errors + 1;
        return ErrorPrefix + decision.error;
      }
      history := history + [Turn("user", query)];
      if !decision.value.JObj? {
        errors := errors + 1;
        return ErrorPrefix + NoGetMessage(decision.value);
      }
      var fields := decision.value.fields;
      if !Truthy(Field(fields, "needs_tool").GetOr(JBool(false))) {
        reply := match Field(fields, "response") case Some(v) => Show(v) case None => NoAnswer;
        history := history + [Turn("assistant", reply)];
        return;
      }
      var missing := if Field(fields, "server").None? then Some("'server'")
                     else if Field(fields, "tool").None? then Some("'tool'")
                     else if Field(fields, "arguments").None? then Some("'arguments'")
                     else None;
      if missing.Some? {
        errors := errors + 1;
        return ErrorPrefix + missing.value;
      }
      var server := Field(fields, "server").value;
      var tool := Field(fields, "tool").value;
      var result := ExecuteTool(server, tool, Field(fields, "arguments").value, env.callTool);
      if result.Err? {
        errors := errors + 1;
        return ErrorPrefix + result.error;
      }
      var answer := InterpretResult(query, server, tool, result.value, env.llm);
      if answer.Err? {
        errors := errors + 1;
        return ErrorPrefix + answer.error;
      }
      reply := answer.value;
    }

    /** `interactive_mode` over the given input. */
    method InteractiveMode(events: seq<InputEvent>, env: Env) returns (outputs: seq<Output>)
      modifies this`history, this`toolCalls, this`errors
      ensures Transcript(State(), outputs) == Conversation(old(State()), collector.toolsSchema, clients, events, env)
    {
      ghost var cmds := Commands(events);
      outputs := [];
      var i := 0;
      assert cmds[0..] == cmds;
      assert Then([], Run(State(), collector.toolsSchema, clients, cmds, env))
          == Run(State(), collector.toolsSchema, clients, cmds, env);
      while i < |events|
        invariant 0 <= i <= |events|
        invariant Run(old(State()), collector.toolsSchema, clients, cmds, env)
               == Then(outputs, Run(State(), collector.toolsSchema, clients, cmds[i..], env))
      {
        assert cmds[i..][1..] == cmds[i + 1..];
        var command := Read(events[i]);
        assert command == cmds[i..][0];
        match command {
          case CtrlC =>
            outputs := outputs + [Interrupted];
            return;
          case Skip =>
          case Quit =>
            outputs := outputs + [Goodbye];
            return;
          case Help =>
            ThenThen(outputs, [ToolsShown(AvailableTools(collector.toolsSchema))],
                     Run(State(), collector.toolsSchema, clients, cmds[i + 1..], env));
            outputs := outputs + [ToolsShown(AvailableTools(collector.toolsSchema))];
          case Status =>
            ThenThen(outputs, [StatusShown(toolCalls, errors)],
                     Run(State(), collector.toolsSchema, clients, cmds[i + 1..], env));
            outputs := outputs + [StatusShown(toolCalls, errors)];
          case Ask(q) =>
            var reply := ProcessQuery(q, env);
            ThenThen(outputs, [Answer(reply)], Run(State(), collector.toolsSchema, clients, cmds[i + 1..], env));
            outputs := outputs + [Answer(reply)];
        }
        i := i + 1;
      }
    }

    /** `cleanup`: every open connection is closed in turn, a failure to
        close one being ignored, so each is attempted. Returns, per server
        in table order, its name and whether closing it succeeded. */
    method Cleanup(close: Launch -> bool) returns (results: seq<(string, bool)>)
      ensures |results| == |clients|
      ensures forall k :: 0 <= k < |clients| ==>
                results[k] == (clients[k].0, close(clients[k].1))
      ensures Keys(results) == Keys(clients)
    {
      results := [];
      var i := 0;
      while i < |clients|
        invariant 0 <= i <= |clients|
        invariant |results| == i
        invariant forall k :: 0 <= k < i ==> results[k] == (clients[k].0, close(clients[k].1))
      {
        var closed := close(clients[i].1);
        results := results + [(clients[i].0, closed)];
        i := i + 1;
      }
    }
  }

  /** An outcome oracle that only connects: connected servers behave as if
      listing then failed, so only the connection table changes. */
  function ConnectOnly(connect: Launch -> bool): Launch -> Probe {
    l => if connect(l) then ListFailed("") else ConnectFailed("")
  }

  lemma KeysAppend<K, V>(d: Dict<K, V>, kv: (K, V))
    ensures Keys(d + [kv]) == Keys(d) + [kv.0]
  {
  }
}
