/** The LangChain adapter of ai_platform/api/mcp_adapter/mcp_to_langchain.py:
    connects to every configured tool server, turns each advertised tool into
    a LangChain tool named `"{server}__{tool}"` with an argument model built
    from its input schema, and runs such a tool by forwarding the call to the
    server's session.

    The transport is an oracle. `connect` says, for what a connection
    launches, whether starting the process failed, whether the session came
    up and then failed to initialise, or which session is ready; `listing`
    says what `list_tools` answers on a session; `call` what `call_tool`
    answers. */
module McpAdapter {
  import opened Wrappers
  import opened Dicts
  import opened Json
  import opened Seqs
  import opened McpTypes
  import opened ToolCollection

  /** A live client session; only its identity matters here. */
  datatype Session = Session(id: nat)

  // ---------------------------------------------------------------------------
  // argument models
  // ---------------------------------------------------------------------------

  /** The Python types an argument model's fields can have. */
  datatype PyType = PyStr | PyInt | PyFloat | PyBool | PyList | PyDict

  /** The JSON-Schema type names the adapter knows; anything else becomes
      `str`. */
  function TypeMap(name: string): (t: PyType)
    ensures t == PyInt <==> name == "integer"
    ensures t == PyFloat <==> name == "number"
    ensures t == PyBool <==> name == "boolean"
    ensures t == PyList <==> name == "array"
    ensures t == PyDict <==> name == "object"
    ensures t == PyStr <==> name !in ["integer", "number", "boolean", "array", "object"]
  {
    if name == "integer" then PyInt
    else if name == "number" then PyFloat
    else if name == "boolean" then PyBool
    else if name == "array" then PyList
    else if name == "object" then PyDict
    else PyStr
  }

  /** One field of a generated argument model. A required field has the
      mapped type and no default; any other is `Optional` of it with
      default `None`. */
  datatype FieldSpec = FieldSpec(typ: PyType, required: bool, description: string)

  /** The field one property yields: a missing type counts as "string", a
      missing description as "". */
  function FieldOf(p: PropSpec, required: bool): (f: FieldSpec)
    ensures p.typ.None? ==> f.typ == PyStr
    ensures p.typ.Some? ==> f.typ == TypeMap(p.typ.value)
    ensures f.required == required
    ensures f.description == p.description.GetOr("")
  {
    FieldSpec(TypeMap(p.typ.GetOr("string")), required, p.description.GetOr(""))
  }

  /** `(name, field)` for each property in declaration order. */
  function FieldEntries(props: Dict<string, PropSpec>, required: seq<string>): (r: Dict<string, FieldSpec>)
    ensures |r| == |props|
    ensures forall i :: 0 <= i < |props| ==> r[i] == (props[i].0, FieldOf(props[i].1, props[i].0 in required))
  {
    seq(|props|, i requires 0 <= i < |props| => (props[i].0, FieldOf(props[i].1, props[i].0 in required)))
  }

  /** The argument model `_create_args_schema` builds, as its dict of
      fields; `None` for a schema without `properties` and for one whose
      `properties` is empty. */
  function ArgsModel(schema: InputSchema): (r: Option<Dict<string, FieldSpec>>)
    ensures r.None? <==> schema.properties.None? || |schema.properties.value| == 0
  {
    if schema.properties.None? then None
    else
      var fields := PutAll([], FieldEntries(schema.properties.value, RequiredNames(schema)));
      PutAllNonEmpty([], FieldEntries(schema.properties.value, RequiredNames(schema)));
      if |fields| == 0 then None else Some(fields)
  }

  lemma {:induction false} PutAllNonEmpty<K, V>(d: Dict<K, V>, kvs: seq<(K, V)>)
    ensures |PutAll(d, kvs)| >= |d|
    ensures |kvs| > 0 ==> |PutAll(d, kvs)| > 0
    decreases |kvs|
  {
    if |kvs| > 0 {
      PutAllNonEmpty(Put(d, kvs[0].0, kvs[0].1), kvs[1..]);
    }
  }

  /** With distinct property names (as in any decoded JSON object) the model
      has exactly one field per property, in declaration order, required iff
      listed in `required`. */
  lemma ArgsModelFields(schema: InputSchema)
    requires schema.properties.Some? && |schema.properties.value| > 0
    requires UniqueKeys(schema.properties.value)
    ensures ArgsModel(schema) == Some(FieldEntries(schema.properties.value, RequiredNames(schema)))
  {
    var props := schema.properties.value;
    var entries := FieldEntries(props, RequiredNames(schema));
    assert UniqueKeys(entries) by {
      forall i, j | 0 <= i < j < |entries| ensures entries[i].0 != entries[j].0 {
        assert entries[i].0 == props[i].0 && entries[j].0 == props[j].0;
      }
    }
    var empty: Dict<string, FieldSpec> := [];
    assert Keys(empty) == [];
    PutAllFresh(empty, entries);
    assert empty + entries == entries;
  }

  // ---------------------------------------------------------------------------
  // wrapped tools
  // ---------------------------------------------------------------------------

  /** `MCPToolWrapper`: a LangChain tool that forwards to one server tool. */
  datatype ToolWrapper = ToolWrapper(
    name: string,
    description: string,
    argsSchema: Option<Dict<string, FieldSpec>>,
    mcpServer: string,
    mcpToolName: string,
    session: Option<Session>)

  /** `f"{server_name}__{tool.name}"` */
  function QualifiedName(server: string, tool: string): (r: string)
    ensures |r| == |server| + 2 + |tool|
    ensures r[..|server|] == server && r[|server| + 2..] == tool
    ensures r[|server|..|server| + 2] == "__"
  {
    server + "__" + tool
  }

  /** `f"Tool from {server_name}"` */
  function DefaultDescription(server: string): string {
    "Tool from " + server
  }

  /** The wrapper `collect_tools` builds for one listed tool. */
  function Wrap(server: string, tool: RemoteTool, session: Option<Session>): (w: ToolWrapper)
    ensures w.name == QualifiedName(server, tool.name)
    ensures w.mcpServer == server && w.mcpToolName == tool.name && w.session == session
    ensures tool.description.Some? && |tool.description.value| > 0 ==> w.description == tool.description.value
    ensures !(tool.description.Some? && |tool.description.value| > 0) ==> w.description == DefaultDescription(server)
    ensures tool.inputSchema.None? ==> w.argsSchema.None?
    ensures tool.inputSchema.Some? ==> w.argsSchema == ArgsModel(tool.inputSchema.value)
  {
    var description :=
      if tool.description.Some? && |tool.description.value| > 0 then tool.description.value
      else DefaultDescription(server);
    var args := match tool.inputSchema
      case Some(s) => ArgsModel(s)
      case None => None;
    ToolWrapper(QualifiedName(server, tool.name), description, args, server, tool.name, session)
  }

  function WrapAll(server: string, tools: seq<RemoteTool>, session: Option<Session>): (r: seq<ToolWrapper>)
    ensures |r| == |tools|
    ensures forall i :: 0 <= i < |tools| ==> r[i] == Wrap(server, tools[i], session)
  {
    seq(|tools|, i requires 0 <= i < |tools| => Wrap(server, tools[i], session))
  }

  lemma WrapAllSnoc(server: string, tools: seq<RemoteTool>, j: nat, session: Option<Session>)
    requires j < |tools|
    ensures WrapAll(server, tools[..j + 1], session) == WrapAll(server, tools[..j], session) + [Wrap(server, tools[j], session)]
  {
  }

  /** `f"MCP session not initialized for {server}"` */
  function NotInitialized(server: string): string {
    "MCP session not initialized for " + server
  }

  /** `f"MCP tool execution failed: {e}"` */
  function ExecutionFailed(e: string): string {
    "MCP tool execution failed: " + e
  }

  /** `_arun` (and `_run`, which awaits it): a tool without a session raises
      before calling anything; otherwise the call's failure is re-raised
      wrapped, and its result is given in its canonical text form. */
  function Run(w: ToolWrapper, kwargs: Dict<string, Json>,
               call: (Session, string, Dict<string, Json>) -> Result<CallResult, string>): (r: Result<string, string>)
    ensures w.session.None? ==> r == Err(NotInitialized(w.mcpServer))
    ensures w.session.Some? ==>
      r == match call(w.session.value, w.mcpToolName, kwargs)
           case Ok(res) => Ok(Normalize(res))
           case Err(e) => Err(ExecutionFailed(e))
  {
    match w.session
    case None => Err(NotInitialized(w.mcpServer))
    case Some(s) =>
      match call(s, w.mcpToolName, kwargs)
      case Ok(res) => Ok(Normalize(res))
      case Err(e) => Err(ExecutionFailed(e))
  }

  // ---------------------------------------------------------------------------
  // connections
  // ---------------------------------------------------------------------------

  /** How an attempt to connect ends: the process could not be started, the
      session was created but failed to enter or initialise, or it is up. */
  datatype ConnectOutcome =
    | SpawnFailed(msg: string)
    | InitFailed(session: Session, msg: string)
    | Ready(session: Session)

  /** A connection's fields as values. */
  datatype ConnState = ConnState(name: string, command: string, args: seq<string>, session: Option<Session>)

  /** `list_tools` on a connection in state `c`. */
  function ListToolsOf(c: ConnState, listing: Session -> Result<seq<RemoteTool>, string>): (r: Result<seq<RemoteTool>, string>)
    ensures c.session.None? ==> r == Err("Not connected")
    ensures c.session.Some? ==> r == listing(c.session.value)
  {
    match c.session
    case None => Err("Not connected")
    case Some(s) => listing(s)
  }

  /** `MCPServerConnection` */
  class ServerConnection {
    const name: string
    const command: string
    const args: seq<string>
    var session: Option<Session>

    function State(): ConnState
      reads this
    {
      ConnState(name, command, args, session)
    }

    constructor(name: string, command: string, args: seq<string>)
      ensures State() == ConnState(name, command, args, None)
    {
      this.name, this.command, this.args := name, command, args;
      session := None;
    }

    /** `connect`: the session is assigned as soon as it is created, so a
        failure while entering or initialising it leaves it set; the error
        is the exception's message. */
    method Connect(outcome: ConnectOutcome) returns (error: Option<string>)
      modifies this
      ensures outcome.SpawnFailed? ==> session == old(session) && error == Some(outcome.msg)
      ensures outcome.InitFailed? ==> session == Some(outcome.session) && error == Some(outcome.msg)
      ensures outcome.Ready? ==> session == Some(outcome.session) && error.None?
    {
      match outcome {
        case SpawnFailed(msg) =>
          error := Some(msg);
        case InitFailed(s, msg) =>
          session := Some(s);
          error := Some(msg);
        case Ready(s) =>
          session := Some(s);
          error := None;
      }
    }

    /** `list_tools`: refuses with "Not connected" before any session was
        assigned. */
    function ListTools(listing: Session -> Result<seq<RemoteTool>, string>): (r: Result<seq<RemoteTool>, string>)
      reads this
      ensures session.None? ==> r == Err("Not connected")
      ensures session.Some? ==> r == listing(session.value)
    {
      ListToolsOf(State(), listing)
    }
  }

  /** The connection a configuration entry yields, or the message of what
      was raised: a missing `command`, then a missing `args` (KeyError), then
      the connection attempt itself. */
  function ConnectEntry(name: string, e: ServerEntry, connect: Launch -> ConnectOutcome): (r: Result<ConnState, string>)
    ensures r.Ok? <==> WellFormed(e) && connect(Launch(e.command.value, e.args.value)).Ready?
    ensures r.Ok? ==> r.value == ConnState(name, e.command.value, e.args.value,
                                           Some(connect(Launch(e.command.value, e.args.value)).session))
  {
    if e.command.None? then Err("'command'")
    else if e.args.None? then Err("'args'")
    else match connect(Launch(e.command.value, e.args.value))
      case SpawnFailed(msg) => Err(msg)
      case InitFailed(_, msg) => Err(msg)
      case Ready(s) => Ok(ConnState(name, e.command.value, e.args.value, Some(s)))
  }

  /** `connect_all` over `rest`: a connection is stored under its server's
      name only once it is up; a failure is reported and the loop goes on. */
  function ConnectFrom(conns: Dict<string, ConnState>, rest: Dict<string, ServerEntry>,
                       connect: Launch -> ConnectOutcome): Dict<string, ConnState>
    decreases |rest|
  {
    if |rest| == 0 then conns
    else
      match ConnectEntry(rest[0].0, rest[0].1, connect)
      case Ok(c) => ConnectFrom(Put(conns, rest[0].0, c), rest[1..], connect)
      case Err(_) => ConnectFrom(conns, rest[1..], connect)
  }

  /** One more entry of the loop: `rest[i]` is tried, then the entries after
      it. */
  lemma ConnectFromStep(conns: Dict<string, ConnState>, rest: Dict<string, ServerEntry>, i: nat,
                        connect: Launch -> ConnectOutcome)
    requires i < |rest|
    ensures var e := ConnectEntry(rest[i].0, rest[i].1, connect);
            ConnectFrom(conns, rest[i..], connect)
            == if e.Ok? then ConnectFrom(Put(conns, rest[i].0, e.value), rest[i + 1..], connect)
               else ConnectFrom(conns, rest[i + 1..], connect)
  {
    assert rest[i..][1..] == rest[i + 1..];
  }

  lemma {:induction false} ConnectOther(conns: Dict<string, ConnState>, rest: Dict<string, ServerEntry>,
                                        connect: Launch -> ConnectOutcome, k: string)
    requires k !in Keys(rest)
    ensures Get(ConnectFrom(conns, rest, connect), k) == Get(conns, k)
    decreases |rest|
  {
    if |rest| > 0 {
      assert Keys(rest) == [rest[0].0] + Keys(rest[1..]);
      match ConnectEntry(rest[0].0, rest[0].1, connect) {
        case Ok(c) =>
          PutOther(conns, rest[0].0, c, k);
          ConnectOther(Put(conns, rest[0].0, c), rest[1..], connect, k);
        case Err(_) =>
          ConnectOther(conns, rest[1..], connect, k);
      }
    }
  }

  /** With distinct server names, each server's entry afterwards depends on
      its own attempt only: the connection when it came up, whatever was
      there before when it failed, however the other servers fared. */
  lemma {:induction false} ConnectIsolation(conns: Dict<string, ConnState>, rest: Dict<string, ServerEntry>,
                                            connect: Launch -> ConnectOutcome, i: nat)
    requires UniqueKeys(rest) && i < |rest|
    ensures Get(ConnectFrom(conns, rest, connect), rest[i].0) ==
      match ConnectEntry(rest[i].0, rest[i].1, connect)
      case Ok(c) => Some(c)
      case Err(_) => Get(conns, rest[i].0)
    decreases |rest|
  {
    var name := rest[0].0;
    var r := ConnectEntry(name, rest[0].1, connect);
    var c1 := if r.Ok? then Put(conns, name, r.value) else conns;
    assert ConnectFrom(conns, rest, connect) == ConnectFrom(c1, rest[1..], connect);
    if i == 0 {
      assert forall j :: 1 <= j < |rest| ==> rest[j].0 != rest[0].0;
      assert name !in Keys(rest[1..]);
      ConnectOther(c1, rest[1..], connect, name);
    } else {
      assert rest[1..][i - 1] == rest[i];
      assert rest[i].0 != name;
      ConnectIsolation(c1, rest[1..], connect, i - 1);
      if r.Ok? {
        PutOther(conns, name, r.value, rest[i].0);
      }
    }
  }

  predicate AllConnected(conns: Dict<string, ConnState>) {
    forall i :: 0 <= i < |conns| ==> conns[i].1.session.Some?
  }

  /** Only live connections are ever stored. */
  lemma {:induction false} ConnectFromConnected(conns: Dict<string, ConnState>, rest: Dict<string, ServerEntry>,
                                                connect: Launch -> ConnectOutcome)
    requires AllConnected(conns)
    ensures AllConnected(ConnectFrom(conns, rest, connect))
    decreases |rest|
  {
    if |rest| > 0 {
      match ConnectEntry(rest[0].0, rest[0].1, connect) {
        case Ok(c) =>
          PutConnected(conns, rest[0].0, c);
          ConnectFromConnected(Put(conns, rest[0].0, c), rest[1..], connect);
        case Err(_) =>
          ConnectFromConnected(conns, rest[1..], connect);
      }
    }
  }

  lemma {:induction false} PutConnected(conns: Dict<string, ConnState>, k: string, c: ConnState)
    requires AllConnected(conns) && c.session.Some?
    ensures AllConnected(Put(conns, k, c))
    decreases |conns|
  {
    if |conns| > 0 && conns[0].0 != k {
      PutConnected(conns[1..], k, c);
      var r := Put(conns, k, c);
      assert r == [conns[0]] + Put(conns[1..], k, c);
      forall i | 0 <= i < |r| ensures r[i].1.session.Some? {
        if i > 0 {
          assert r[i] == Put(conns[1..], k, c)[i - 1];
        }
      }
    }
  }

  // ---------------------------------------------------------------------------
  // collection
  // ---------------------------------------------------------------------------

  /** The wrappers one server contributes: one per listed tool, none when
      listing raised. */
  function ServerTools(entry: (string, ConnState), listing: Session -> Result<seq<RemoteTool>, string>): seq<ToolWrapper> {
    match ListToolsOf(entry.1, listing)
    case Ok(tools) => WrapAll(entry.0, tools, entry.1.session)
    case Err(_) => []
  }

  /** `collect_tools` over the connections in order. */
  function Collected(conns: Dict<string, ConnState>, listing: Session -> Result<seq<RemoteTool>, string>): seq<ToolWrapper>
    decreases |conns|
  {
    if |conns| == 0 then []
    else Collected(conns[..|conns| - 1], listing) + ServerTools(conns[|conns| - 1], listing)
  }

  lemma CollectedSnoc(conns: Dict<string, ConnState>, i: nat, listing: Session -> Result<seq<RemoteTool>, string>)
    requires i < |conns|
    ensures Collected(conns[..i + 1], listing) == Collected(conns[..i], listing) + ServerTools(conns[i], listing)
  {
    assert conns[..i + 1][..i] == conns[..i];
  }

  /** Servers contribute independently and in order: a server whose listing
      raised contributes nothing and does not stop the ones after it. */
  lemma {:induction false} CollectedAppend(a: Dict<string, ConnState>, b: Dict<string, ConnState>,
                                           listing: Session -> Result<seq<RemoteTool>, string>)
    ensures Collected(a + b, listing) == Collected(a, listing) + Collected(b, listing)
    decreases |b|
  {
    if |b| == 0 {
      assert a + b == a;
    } else {
      var init, last := b[..|b| - 1], b[|b| - 1];
      InitAppend(a, b);
      CollectedAppend(a, init, listing);
      AppendAssoc(Collected(a, listing), Collected(init, listing), ServerTools(last, listing));
    }
  }

  /** Every collected tool is named after its server and its tool and has a
      non-empty description. */
  lemma {:induction false} CollectedNames(conns: Dict<string, ConnState>, listing: Session -> Result<seq<RemoteTool>, string>)
    ensures forall w :: w in Collected(conns, listing) ==>
      w.name == QualifiedName(w.mcpServer, w.mcpToolName) && |w.description| > 0
    decreases |conns|
  {
    if |conns| > 0 {
      CollectedNames(conns[..|conns| - 1], listing);
      var own := ServerTools(conns[|conns| - 1], listing);
      forall w | w in own
        ensures w.name == QualifiedName(w.mcpServer, w.mcpToolName) && |w.description| > 0
      {
        var i :| 0 <= i < |own| && own[i] == w;
      }
    }
  }

  /** Tools collected from live connections all carry a session, so running
      them goes straight to `call_tool`. */
  lemma {:induction false} CollectedRunnable(conns: Dict<string, ConnState>, listing: Session -> Result<seq<RemoteTool>, string>)
    requires AllConnected(conns)
    ensures forall w :: w in Collected(conns, listing) ==> w.session.Some?
    decreases |conns|
  {
    if |conns| > 0 {
      var init := conns[..|conns| - 1];
      assert AllConnected(init) by {
        forall i | 0 <= i < |init| ensures init[i].1.session.Some? {
          assert init[i] == conns[i];
        }
      }
      CollectedRunnable(conns[..|conns| - 1], listing);
      var own := ServerTools(conns[|conns| - 1], listing);
      forall w | w in own ensures w.session.Some? {
        var i :| 0 <= i < |own| && own[i] == w;
      }
    }
  }

  function FromServer(server: string): ToolWrapper -> bool {
    (w: ToolWrapper) => w.mcpServer == server
  }

  /** With distinct server names, `get_tools_by_server` after a collection
      gives exactly what that server contributed, in its order. */
  lemma {:induction false} ToolsOfServer(conns: Dict<string, ConnState>, listing: Session -> Result<seq<RemoteTool>, string>, i: nat)
    requires UniqueKeys(conns) && i < |conns|
    ensures Filter(Collected(conns, listing), FromServer(conns[i].0)) == ServerTools(conns[i], listing)
    decreases |conns|
  {
    var n := |conns| - 1;
    var init := conns[..n];
    var keep := FromServer(conns[i].0);
    FilterAppend(Collected(init, listing), ServerTools(conns[n], listing), keep);
    assert UniqueKeys(init) by {
      forall a, b | 0 <= a < b < |init| ensures init[a].0 != init[b].0 {
        assert init[a] == conns[a] && init[b] == conns[b];
      }
    }
    if i == n {
      FilterNoneOf(init, listing, conns[i].0);
      FilterOwn(conns[n], listing);
    } else {
      assert init[i] == conns[i];
      ToolsOfServer(init, listing, i);
      FilterOther(conns[n], listing, conns[i].0);
    }
  }

  lemma FilterOwn(entry: (string, ConnState), listing: Session -> Result<seq<RemoteTool>, string>)
    ensures Filter(ServerTools(entry, listing), FromServer(entry.0)) == ServerTools(entry, listing)
  {
    FilterAll(ServerTools(entry, listing), FromServer(entry.0));
  }

  lemma FilterOther(entry: (string, ConnState), listing: Session -> Result<seq<RemoteTool>, string>, server: string)
    requires entry.0 != server
    ensures Filter(ServerTools(entry, listing), FromServer(server)) == []
  {
    FilterNone(ServerTools(entry, listing), FromServer(server));
  }

  /** A server whose name no earlier connection has contributes nothing to
      the earlier part of the collection. */
  lemma {:induction false} FilterNoneOf(conns: Dict<string, ConnState>, listing: Session -> Result<seq<RemoteTool>, string>, server: string)
    requires server !in Keys(conns)
    ensures Filter(Collected(conns, listing), FromServer(server)) == []
    decreases |conns|
  {
    if |conns| > 0 {
      var n := |conns| - 1;
      assert Keys(conns)[n] == conns[n].0;
      assert server !in Keys(conns[..n]) by {
        forall j | 0 <= j < n ensures Keys(conns[..n])[j] != server {
          assert Keys(conns[..n])[j] == conns[j].0 == Keys(conns)[j];
        }
      }
      FilterAppend(Collected(conns[..n], listing), ServerTools(conns[n], listing), FromServer(server));
      FilterNoneOf(conns[..n], listing, server);
      FilterOther(conns[n], listing, server);
    }
  }

  /** The connections' states, in the dict's order. */
  function States(d: Dict<string, ServerConnection>): (r: Dict<string, ConnState>)
    reads set i | 0 <= i < |d| :: d[i].1
    ensures |r| == |d|
    ensures forall i :: 0 <= i < |d| ==> r[i] == (d[i].0, d[i].1.State())
    decreases |d|
  {
    if |d| == 0 then []
    else
      assert forall i :: 0 <= i < |d| - 1 ==> d[1..][i] == d[i + 1];
      [(d[0].0, d[0].1.State())] + States(d[1..])
  }

  lemma {:induction false} StatesPut(d: Dict<string, ServerConnection>, k: string, c: ServerConnection)
    ensures States(Put(d, k, c)) == Put(States(d), k, c.State())
    decreases |d|
  {
    if |d| > 0 && d[0].0 != k {
      StatesPut(d[1..], k, c);
      assert States(d)[1..] == States(d[1..]);
      assert Put(d, k, c) == [d[0]] + Put(d[1..], k, c);
      var r := Put(d, k, c);
      assert States(r)[1..] == States(r[1..]);
      assert r[1..] == Put(d[1..], k, c);
    }
  }

  /** `MCPToolCollector` */
  class ToolCollector {
    var configPath: string
    var connections: Dict<string, ServerConnection>
    var langchainTools: seq<ToolWrapper>

    constructor(configPath: string)
      ensures this.configPath == configPath && connections == [] && langchainTools == []
    {
      this.configPath := configPath;
      connections := [];
      langchainTools := [];
    }

    /** `connect_all` on the decoded configuration file: every entry of
        `mcpServers` is tried in turn. */
    method ConnectAll(config: ConfigFile, connect: Launch -> ConnectOutcome)
      modifies this
      ensures States(connections) == ConnectFrom(old(States(connections)), config.mcpServers.GetOr([]), connect)
      ensures langchainTools == old(langchainTools) && configPath == old(configPath)
    {
      var entries := config.mcpServers.GetOr([]);
      ghost var start := States(connections);
      var i := 0;
      assert entries[0..] == entries;
      while i < |entries|
        invariant 0 <= i <= |entries|
        invariant ConnectFrom(start, entries, connect) == ConnectFrom(States(connections), entries[i..], connect)
        invariant langchainTools == old(langchainTools) && configPath == old(configPath)
      {
        ConnectFromStep(States(connections), entries, i, connect);
        TryEntry(entries[i].0, entries[i].1, connect);
        i := i + 1;
      }
    }

    /** One round of `connect_all`'s loop: the connection is stored under
        the server's name when it came up, and nothing changes otherwise. */
    method TryEntry(name: string, cfg: ServerEntry, connect: Launch -> ConnectOutcome)
      modifies this`connections
      ensures var e := ConnectEntry(name, cfg, connect);
              States(connections) == if e.Ok? then Put(old(States(connections)), name, e.value)
                                     else old(States(connections))
    {
      ghost var before := States(connections);
      if cfg.command.Some? && cfg.args.Some? {
        var conn := ConnectOne(name, cfg.command.value, cfg.args.value, connect);
        assert States(connections) == before;
        if conn.Some? {
          StatesPut(connections, name, conn.value);
          connections := Put(connections, name, conn.value);
        }
      }
    }

    /** One attempt of `connect_all`'s loop: the connection when it came
        up. */
    static method ConnectOne(name: string, command: string, args: seq<string>, connect: Launch -> ConnectOutcome)
      returns (conn: Option<ServerConnection>)
      ensures conn.None? <==> !connect(Launch(command, args)).Ready?
      ensures conn.Some? ==> fresh(conn.value)
      ensures conn.Some? ==>
        conn.value.State() == ConnState(name, command, args, Some(connect(Launch(command, args)).session))
    {
      var c := new ServerConnection(name, command, args);
      var error := c.Connect(connect(Launch(command, args)));
      conn := if error.None? then Some(c) else None;
    }

    /** `collect_tools`: the list is rebuilt from scratch, one server at a
        time, and is also what is returned. */
    method CollectTools(listing: Session -> Result<seq<RemoteTool>, string>) returns (tools: seq<ToolWrapper>)
      modifies this`langchainTools
      ensures tools == langchainTools == Collected(States(connections), listing)
    {
      ghost var states := States(connections);
      langchainTools := [];
      for i := 0 to |connections|
        invariant langchainTools == Collected(states[..i], listing)
        invariant States(connections) == states
      {
        CollectServer(states, i, connections[i].0, connections[i].1, listing);
      }
      assert states[..|connections|] == states;
      tools := langchainTools;
    }

    /** One server of `collect_tools`: its tools are wrapped and appended
        when listing them succeeds; a listing that raises adds nothing. */
    method CollectServer(ghost states: Dict<string, ConnState>, ghost i: nat, name: string, conn: ServerConnection,
                         listing: Session -> Result<seq<RemoteTool>, string>)
      requires i < |states| && states[i] == (name, conn.State())
      requires langchainTools == Collected(states[..i], listing)
      modifies this`langchainTools
      ensures langchainTools == Collected(states[..i + 1], listing)
    {
      CollectedSnoc(states, i, listing);
      var listed := conn.ListTools(listing);
      if listed.Ok? {
        AppendServerTools(name, listed.value, conn.session);
      } else {
        assert langchainTools == old(langchainTools) + [];
      }
    }

    /** The inner loop of `collect_tools`: one wrapper per listed tool,
        appended in listing order. */
    method AppendServerTools(name: string, remote: seq<RemoteTool>, session: Option<Session>)
      modifies this`langchainTools
      ensures langchainTools == old(langchainTools) + WrapAll(name, remote, session)
    {
      for j := 0 to |remote|
        invariant langchainTools == old(langchainTools) + WrapAll(name, remote[..j], session)
      {
        WrapAllSnoc(name, remote, j, session);
        var wrapper := MakeWrapper(name, remote[j], session);
        AppendAssoc(old(langchainTools), WrapAll(name, remote[..j], session), [wrapper]);
        langchainTools := langchainTools + [wrapper];
      }
      assert remote[..|remote|] == remote;
    }

    /** The `MCPToolWrapper(...)` call of `collect_tools` for one tool. */
    method MakeWrapper(name: string, tool: RemoteTool, session: Option<Session>) returns (w: ToolWrapper)
      ensures w == Wrap(name, tool, session)
    {
      var schema: Option<Dict<string, FieldSpec>> := None;
      if tool.inputSchema.Some? {
        schema := CreateArgsSchema(tool.inputSchema.value);
      }
      var description := tool.description;
      w := ToolWrapper(
        QualifiedName(name, tool.name),
        if description.Some? && |description.value| > 0 then description.value else DefaultDescription(name),
        schema, name, tool.name, session);
    }

    /** `_create_args_schema`: fills the fields dict one property at a time. */
    method CreateArgsSchema(schema: InputSchema) returns (r: Option<Dict<string, FieldSpec>>)
      ensures r == ArgsModel(schema)
    {
      if schema.properties.None? {
        return None;
      }
      var props := schema.properties.value;
      var required := RequiredNames(schema);
      ghost var entries := FieldEntries(props, required);
      var fields: Dict<string, FieldSpec> := [];
      for i := 0 to |props|
        invariant PutAll([], entries) == PutAll(fields, entries[i..])
      {
        assert entries[i..][1..] == entries[i + 1..];
        var (name, info) := props[i];
        fields := Put(fields, name, FieldSpec(TypeMap(info.typ.GetOr("string")), name in required, info.description.GetOr("")));
      }
      assert entries[|props|..] == [];
      if |fields| == 0 {
        return None;
      }
      return Some(fields);
    }

    /** `get_tools_by_server` */
    function GetToolsByServer(server: string): (r: seq<ToolWrapper>)
      reads this
      ensures |r| <= |langchainTools|
      ensures forall i :: 0 <= i < |r| ==> r[i].mcpServer == server && r[i] in langchainTools
      ensures forall i :: 0 <= i < |langchainTools| && langchainTools[i].mcpServer == server ==> langchainTools[i] in r
    {
      Filter(langchainTools, FromServer(server))
    }
  }
}
