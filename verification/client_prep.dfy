/** `LLMIntegrationPrep` of client/mcp_llm_client.py, together with the
    pieces of the decision prompt `LLMClient._analyze_query` assembles: the
    text rendering of the tool catalogue, the conversation-history window,
    and the recovery of a JSON object from a chatty completion. */
module LlmIntegrationPrep {
  import opened Wrappers
  import opened Text
  import opened Dicts
  import opened Json
  import opened McpTypes
  import opened ToolCollection
  import opened Seqs

  // ---------------------------------------------------------------------------
  // Tool catalogue as prompt text
  // ---------------------------------------------------------------------------

  const NoParameters := "パラメータ: なし"
  const ParametersHeader := "パラメータ:"

  function RequiredMark(isRequired: bool): string {
    if isRequired then "必須" else "オプション"
  }

  /** The line describing one property; the type defaults to `any` and the
      description to the empty string. */
  function ParamLine(key: string, p: PropSpec, isRequired: bool): string {
    "    - " + key + " (" + p.typ.GetOr("any") + ", " + RequiredMark(isRequired) + "): "
      + p.description.GetOr("")
  }

  function ParamLines(props: Dict<string, PropSpec>, required: seq<string>): (r: seq<string>)
    ensures |r| == |props|
    ensures forall i :: 0 <= i < |props| ==> r[i] == ParamLine(props[i].0, props[i].1, props[i].0 in required)
  {
    seq(|props|, i requires 0 <= i < |props| => ParamLine(props[i].0, props[i].1, props[i].0 in required))
  }

  /** `_format_parameters`: a schema without `properties` reads "no
      parameters"; any other schema, even one whose `properties` is empty,
      gets the header followed by one line per property. */
  function FormatParameters(schema: InputSchema): (r: string)
    ensures schema.properties.None? <==> r == NoParameters
    ensures schema.properties.Some? ==> IsPrefix(ParametersHeader, r)
  {
    match schema.properties
    case None => NoParameters
    case Some(props) =>
      var lines := ParamLines(props, RequiredNames(schema));
      if |lines| == 0 then
        assert Join("\n", [ParametersHeader] + lines) == ParametersHeader;
        assert |ParametersHeader| != |NoParameters|;
        Join("\n", [ParametersHeader] + lines)
      else
        JoinCons("\n", ParametersHeader, lines);
        var r := ParametersHeader + "\n" + Join("\n", lines);
        assert r[6] == '\n' != NoParameters[6];
        assert r[..|ParametersHeader|] == ParametersHeader;
        r
  }

  predicate NoNewline(s: string) {
    '\n' !in s
  }

  /** Every key, type and description of the schema is a single line. */
  predicate SingleLineProps(props: Dict<string, PropSpec>) {
    forall i :: 0 <= i < |props| ==>
      && NoNewline(props[i].0)
      && NoNewline(props[i].1.typ.GetOr("any"))
      && NoNewline(props[i].1.description.GetOr(""))
  }

  lemma ParamLineSingle(key: string, p: PropSpec, isRequired: bool)
    requires NoNewline(key) && NoNewline(p.typ.GetOr("any")) && NoNewline(p.description.GetOr(""))
    ensures NoNewline(ParamLine(key, p, isRequired))
  {
    assert NoNewline("    - ") && NoNewline(" (") && NoNewline(", ") && NoNewline("): ");
    assert NoNewline(RequiredMark(isRequired));
  }

  /** Reading the parameter text back line by line gives the header and then
      one line per property, in declaration order, each naming the property,
      its type (`any` when absent), whether the schema's `required` list
      holds it, and its description. */
  lemma FormatParametersLines(schema: InputSchema)
    requires schema.properties.Some? && SingleLineProps(schema.properties.value)
    ensures var props := schema.properties.value;
            var lines := Split(FormatParameters(schema), '\n');
            && |lines| == |props| + 1
            && lines[0] == ParametersHeader
            && forall i :: 0 <= i < |props| ==>
                 lines[i + 1] == ParamLine(props[i].0, props[i].1, props[i].0 in RequiredNames(schema))
  {
    var props := schema.properties.value;
    var lines := ParamLines(props, RequiredNames(schema));
    var parts := [ParametersHeader] + lines;
    forall i | 0 <= i < |parts| ensures '\n' !in parts[i] {
      if i == 0 {
        assert NoNewline(ParametersHeader);
      } else {
        ParamLineSingle(props[i - 1].0, props[i - 1].1, props[i - 1].0 in RequiredNames(schema));
      }
    }
    SplitJoin(parts, '\n');
    assert FormatParameters(schema) == Join(['\n'], parts);
  }

  /** One tool's entry in the catalogue text. */
  function ToolBlock(server: string, t: ToolInfo): (r: string)
    ensures |r| > 0
  {
    "サーバー: " + server + ", ツール名: " + t.name + "\n  説明: " + t.description + "\n  "
      + FormatParameters(t.parameters)
  }

  /** The entries for all tools, server by server in catalogue order and, per
      server, in listing order; there are as many as the catalogue has tools
      (`sum(len(tools) ...)`). */
  function ToolBlocks(schema: Dict<string, seq<ToolInfo>>): (r: seq<string>)
    ensures |r| == GroupTotal(schema)
    ensures forall k :: 0 <= k < |r| ==> |r[k]| > 0
  {
    var r := FlatMapGroups(schema, ToolBlock);
    FlatMapGroupsAll(schema, ToolBlock, (b: string) => |b| > 0);
    assert forall k :: 0 <= k < |r| ==> r[k] in r;
    r
  }

  /** Tool `j` of server `i` is entry number (tools of the servers before
      `i`) + `j`. */
  lemma ToolBlockAt(schema: Dict<string, seq<ToolInfo>>, i: nat, j: nat)
    requires i < |schema| && j < |schema[i].1|
    ensures GroupTotal(schema[..i]) + j < GroupTotal(schema)
    ensures ToolBlocks(schema)[GroupTotal(schema[..i]) + j] == ToolBlock(schema[i].0, schema[i].1[j])
  {
    FlatMapGroupsAt(schema, ToolBlock, i, j);
  }

  /** `prepare_tools_for_llm`: the entries separated by blank lines. The text
      is empty exactly when no tool is known. */
  function PrepareToolsForLlm(schema: Dict<string, seq<ToolInfo>>): (r: string)
    ensures r == "" <==> GroupTotal(schema) == 0
  {
    var blocks := ToolBlocks(schema);
    if |blocks| > 0 then JoinNonEmpty("\n\n", blocks); Join("\n\n", blocks)
    else Join("\n\n", blocks)
  }

  // ---------------------------------------------------------------------------
  // Recovering JSON from a completion
  // ---------------------------------------------------------------------------

  const UnparsableResponse := "LLMの応答をパースできません"

  /** What the pattern `\{.*\}` with DOTALL finds: from the first `{` to the
      last `}`, provided the latter comes after the former. */
  function ExtractBraces(s: string): Option<string> {
    match (FirstIndexOf(s, '{'), LastIndexOf(s, '}'))
    case (Some(i), Some(j)) => if i < j then Some(s[i..j + 1]) else None
    case _ => None
  }

  /** The pattern matches iff some `{` precedes some `}`, and the match is the
      longest such span: no `{` before it and no `}` after it. */
  lemma ExtractBracesSpec(s: string)
    ensures ExtractBraces(s).Some? <==> exists i, j :: 0 <= i < j < |s| && s[i] == '{' && s[j] == '}'
    ensures ExtractBraces(s).Some? ==>
              exists i, j :: 0 <= i < j < |s| && s[i] == '{' && s[j] == '}'
                          && ExtractBraces(s).value == s[i..j + 1]
                          && '{' !in s[..i] && '}' !in s[j + 1..]
  {
    if i0, j0 :| 0 <= i0 < j0 < |s| && s[i0] == '{' && s[j0] == '}' {
      var f := FirstIndexOf(s, '{');
      var l := LastIndexOf(s, '}');
    }
  }

  /** `validate_llm_response`: the completion parsed as is, else the braced
      span parsed (its parse error passing through), else a parse error of
      its own. */
  function ValidateLlmResponse(response: string, parse: string -> Result<Json, string>): Result<Json, string> {
    match parse(response)
    case Ok(v) => Ok(v)
    case Err(_) =>
      match ExtractBraces(response)
      case Some(obj) => parse(obj)
      case None => Err(UnparsableResponse)
  }

  /** A JSON object wrapped in prose that holds no `{` before it and no `}`
      after it is recovered exactly, whatever the parser makes of the whole
      completion. */
  lemma ValidateRecoversEmbedded(before: string, obj: string, after: string, parse: string -> Result<Json, string>)
    requires '{' !in before && '}' !in after
    requires |obj| >= 2 && obj[0] == '{' && obj[|obj| - 1] == '}'
    requires parse(before + obj + after).Err?
    ensures ValidateLlmResponse(before + obj + after, parse) == parse(obj)
  {
    var s := before + obj + after;
    var f := FirstIndexOf(s, '{');
    var l := LastIndexOf(s, '}');
    assert s[|before|] == '{';
    assert s[|before| + |obj| - 1] == '}';
    assert s[|before|..|before| + |obj|] == obj;
  }

  /** A completion without any `{` that does not parse is rejected with the
      module's own message. */
  lemma ValidateNoBraces(response: string, parse: string -> Result<Json, string>)
    requires '{' !in response && parse(response).Err?
    ensures ValidateLlmResponse(response, parse) == Err(UnparsableResponse)
  {
  }

  // ---------------------------------------------------------------------------
  // Conversation history and the decision prompt
  // ---------------------------------------------------------------------------

  /** One entry of `conversation_history`. */
  datatype Turn = Turn(role: string, content: string)

  const HistoryWindow := 5
  const NewConversation := "（新しい会話）"

  function RoleLabel(role: string): string {
    if role == "user" then "ユーザー" else "アシスタント"
  }

  function HistoryLine(t: Turn): string {
    RoleLabel(t.role) + ": " + t.content
  }

  /** `history[-5:]`: the last five turns, in order. */
  function RecentTurns(h: seq<Turn>): (r: seq<Turn>)
    ensures |r| == if |h| < HistoryWindow then |h| else HistoryWindow
    ensures h == h[..|h| - |r|] + r
  {
    if |h| <= HistoryWindow then h else h[|h| - HistoryWindow..]
  }

  function HistoryLines(ts: seq<Turn>): (r: seq<string>)
    ensures |r| == |ts|
    ensures forall i :: 0 <= i < |ts| ==> r[i] == HistoryLine(ts[i])
  {
    seq(|ts|, i requires 0 <= i < |ts| => HistoryLine(ts[i]))
  }

  /** What the prompt shows under "これまでの会話". */
  function HistorySection(h: seq<Turn>): string {
    var recent := if |h| == 0 then "" else Join("\n", HistoryLines(RecentTurns(h)));
    if recent != "" then recent else NewConversation
  }

  /** An empty history is announced as a new conversation; otherwise the
      section is the last five turns' lines, oldest first, joined by line
      breaks, and begins with the oldest of them, role label first, so it is
      never the placeholder. */
  lemma HistorySectionJoin(h: seq<Turn>)
    ensures |h| == 0 ==> HistorySection(h) == NewConversation
    ensures |h| > 0 ==> HistorySection(h) == Join("\n", HistoryLines(RecentTurns(h)))
    ensures |h| > 0 ==> IsPrefix(RoleLabel(RecentTurns(h)[0].role) + ": ", HistorySection(h))
    ensures |h| > 0 ==> HistorySection(h) != NewConversation
  {
    if |h| > 0 {
      var lines := HistoryLines(RecentTurns(h));
      var lead := RoleLabel(RecentTurns(h)[0].role) + ": ";
      JoinStartsWithFirst("\n", lines);
      assert lines[0] == lead + RecentTurns(h)[0].content;
      assert lines[0][..|lead|] == lead;
      assert Join("\n", lines)[..|lead|] == lead;
      assert |lead| > 0 && lead[0] != NewConversation[0];
    }
  }

  /** When no turn's content holds a line break, the section's lines are
      exactly the recent turns' lines. */
  lemma HistorySectionLines(h: seq<Turn>)
    requires forall t :: t in h ==> NoNewline(t.content)
    ensures |h| > 0 ==> Split(HistorySection(h), '\n') == HistoryLines(RecentTurns(h))
  {
    if |h| > 0 {
      var lines := HistoryLines(RecentTurns(h));
      HistorySectionJoin(h);
      RecentLinesSingle(h);
      SplitJoin(lines, '\n');
      assert Join("\n", lines) == Join(['\n'], lines);
    }
  }

  /** The recent turns' lines hold no line break when the turns' contents
      hold none. */
  lemma RecentLinesSingle(h: seq<Turn>)
    requires forall t :: t in h ==> NoNewline(t.content)
    ensures forall i :: 0 <= i < |HistoryLines(RecentTurns(h))| ==> '\n' !in HistoryLines(RecentTurns(h))[i]
  {
    var ts := RecentTurns(h);
    var lines := HistoryLines(ts);
    forall i | 0 <= i < |lines| ensures '\n' !in lines[i] {
      RecentTurnIn(h, i);
      HistoryLineSingle(ts[i]);
    }
  }

  lemma RecentTurnIn(h: seq<Turn>, i: nat)
    requires i < |RecentTurns(h)|
    ensures RecentTurns(h)[i] in h
  {
    var ts := RecentTurns(h);
    var k := |h| - |ts|;
    assert h[k + i] == ts[i];
  }

  lemma HistoryLineSingle(t: Turn)
    requires NoNewline(t.content)
    ensures NoNewline(HistoryLine(t))
  {
    assert NoNewline(": ");
    if t.role == "user" {
      assert NoNewline("ユーザー");
    } else {
      assert NoNewline("アシスタント");
    }
  }

  const PromptIntro := "\nあなたは優秀なアシスタントです。ユーザーの質問を分析し、適切な対応を決定してください。\n\n## これまでの会話\n"
  const PromptQuestion := "\n\n## 現在のユーザーの質問\n"
  const PromptTools := "\n\n## 利用可能なツール\n"
  const PromptFormat :=
    "\n\n## 応答形式\n以下のJSON形式で必ず応答してください（JSONのみ）：\n\nneeds_tool=trueの場合:\n"
    + "{\"needs_tool\": true, \"server\": \"サーバー名\", \"tool\": \"ツール名\", \"arguments\": {}, \"reasoning\": \"理由\"}\n\n"
    + "needs_tool=falseの場合:\n{\"needs_tool\": false, \"reasoning\": \"理由\", \"response\": \"回答\"}\n"

  /** The user prompt sent to choose between a tool call and a direct
      answer. */
  function DecisionPrompt(history: seq<Turn>, query: string, toolsDesc: string): string {
    PromptIntro + HistorySection(history) + PromptQuestion + query + PromptTools + toolsDesc + PromptFormat
  }

  /** The prompt carries the history section, the question and the
      catalogue. */
  lemma DecisionPromptCarries(history: seq<Turn>, query: string, toolsDesc: string)
    ensures var p := DecisionPrompt(history, query, toolsDesc);
            Contains(p, HistorySection(history)) && Contains(p, query) && Contains(p, toolsDesc)
  {
    Interleaved(PromptIntro, HistorySection(history), PromptQuestion, query, PromptTools, toolsDesc, PromptFormat);
  }

  lemma Interleaved(a: string, x: string, b: string, y: string, c: string, z: string, d: string)
    ensures Contains(a + x + b + y + c + z + d, x)
    ensures Contains(a + x + b + y + c + z + d, y)
    ensures Contains(a + x + b + y + c + z + d, z)
  {
    ContainsTail(a, x);
    ContainsExtend(a + x, b + y + c + z + d, x);
    assert a + x + b + y + c + z + d == (a + x) + (b + y + c + z + d);
    ContainsTail(a + x + b, y);
    ContainsExtend(a + x + b + y, c + z + d, y);
    assert a + x + b + y + c + z + d == (a + x + b + y) + (c + z + d);
    ContainsTail(a + x + b + y + c, z);
    ContainsExtend(a + x + b + y + c + z, d, z);
  }

  /** A chat-completion request. */
  datatype Message = Message(role: string, content: string)
  datatype ChatRequest = ChatRequest(model: string, messages: seq<Message>, temperature: real)

  const ChatModel := "gpt-4o-mini"
  const JsonOnlyInstruction := "You are a helpful assistant. Always respond with valid JSON only."

  /** The request `_analyze_query` sends. */
  function DecisionRequest(history: seq<Turn>, schema: Dict<string, seq<ToolInfo>>, query: string): (r: ChatRequest)
    ensures r.model == ChatModel && r.temperature == 0.0 && |r.messages| == 2
    ensures r.messages[0] == Message("system", JsonOnlyInstruction) && r.messages[1].role == "user"
  {
    ChatRequest(ChatModel,
      [Message("system", JsonOnlyInstruction),
       Message("user", DecisionPrompt(history, query, PrepareToolsForLlm(schema)))],
      0.0)
  }

  /** The decision request is deterministic (temperature 0), tells the model
      to answer in JSON only, and its user message carries the question, the
      recent history and the whole tool catalogue. */
  lemma DecisionRequestShape(history: seq<Turn>, schema: Dict<string, seq<ToolInfo>>, query: string)
    ensures var r := DecisionRequest(history, schema, query);
            && r.model == ChatModel && r.temperature == 0.0 && |r.messages| == 2
            && r.messages[0] == Message("system", JsonOnlyInstruction)
            && r.messages[1].role == "user"
            && Contains(r.messages[1].content, query)
            && Contains(r.messages[1].content, HistorySection(history))
            && Contains(r.messages[1].content, PrepareToolsForLlm(schema))
  {
    DecisionPromptCarries(history, query, PrepareToolsForLlm(schema));
  }
}
