/** `ToolCollector` of client/mcp_llm_client.py: turns the `mcpServers`
    section of the configuration file into a table of launch paths, then
    starts each server once to record its tool catalogue. A server that fails
    to start or to list its tools is left out without stopping the others.

    The transport is an oracle: `probe` says, for a launch command and its
    arguments, whether entering the client and pinging it failed, whether
    listing the tools failed after the connection was up, or which tools it
    listed. */
module ToolCollection {
  import opened Wrappers
  import opened Dicts
  import opened McpTypes

  // ---------------------------------------------------------------------------
  // Configuration
  // ---------------------------------------------------------------------------

  /** One `mcpServers` entry; a key the file leaves out is `None`. */
  datatype ServerEntry = ServerEntry(command: Option<string>, args: Option<seq<string>>)

  /** The decoded configuration file. */
  datatype ConfigFile = ConfigFile(mcpServers: Option<Dict<string, ServerEntry>>)

  /** `{"name": ..., "path": [command, *args]}` */
  datatype ServerInfo = ServerInfo(name: string, path: seq<string>)

  /** What `StdioTransport(command=path[0], args=path[1:])` launches. */
  datatype Launch = Launch(command: string, args: seq<string>)

  /** The launch a server's path describes; an empty path makes `path[0]`
      raise, which the collection loop treats like a failed connection. */
  function LaunchOf(info: ServerInfo): Option<Launch> {
    if |info.path| == 0 then None else Some(Launch(info.path[0], info.path[1..]))
  }

  /** The table entry one configuration entry yields, or the `KeyError` text
      for the first key it lacks (`command` is read before `args`). */
  function EntryInfo(name: string, e: ServerEntry): Result<ServerInfo, string> {
    if e.command.None? then Err("'command'")
    else if e.args.None? then Err("'args'")
    else Ok(ServerInfo(name, [e.command.value] + e.args.value))
  }

  /** The outcome of registering `rest` in order into `servers`: the final
      table, or the table as it stood when an entry raised and that entry's
      error. */
  datatype LoadOutcome = Loaded(servers: Dict<string, ServerInfo>)
                       | Aborted(servers: Dict<string, ServerInfo>, error: string)

  function LoadEntries(servers: Dict<string, ServerInfo>, rest: Dict<string, ServerEntry>): LoadOutcome
    decreases |rest|
  {
    if |rest| == 0 then Loaded(servers)
    else
      match EntryInfo(rest[0].0, rest[0].1)
      case Err(e) => Aborted(servers, e)
      case Ok(info) => LoadEntries(Put(servers, rest[0].0, info), rest[1..])
  }

  predicate WellFormed(e: ServerEntry) {
    e.command.Some? && e.args.Some?
  }

  /** Loading leaves the entries of keys outside `rest` as they were. */
  lemma {:induction false} LoadEntriesOther(servers: Dict<string, ServerInfo>, rest: Dict<string, ServerEntry>, k: string)
    requires k !in Keys(rest)
    requires forall i :: 0 <= i < |rest| ==> WellFormed(rest[i].1)
    ensures LoadEntries(servers, rest).Loaded?
    ensures Get(LoadEntries(servers, rest).servers, k) == Get(servers, k)
    decreases |rest|
  {
    if |rest| > 0 {
      var e := rest[0].1;
      var info := ServerInfo(rest[0].0, [e.command.value] + e.args.value);
      assert Keys(rest) == [rest[0].0] + Keys(rest[1..]);
      PutOther(servers, rest[0].0, info, k);
      LoadEntriesOther(Put(servers, rest[0].0, info), rest[1..], k);
    }
  }

  /** For a configuration whose entries all have `command` and `args`, each
      server's path is its command followed by its arguments, so the launch
      recovers exactly the configured command (`path[0]`) and arguments
      (`path[1:]`). */
  lemma {:induction false} ConfiguredLaunch(servers: Dict<string, ServerInfo>, rest: Dict<string, ServerEntry>, i: nat)
    requires UniqueKeys(rest) && i < |rest|
    requires forall j :: 0 <= j < |rest| ==> WellFormed(rest[j].1)
    requires WellFormed(rest[i].1)
    ensures LoadEntries(servers, rest).Loaded?
    ensures var name := rest[i].0;
            var info := Get(LoadEntries(servers, rest).servers, name);
            && info.Some?
            && info.value.name == name
            && info.value.path == [rest[i].1.command.value] + rest[i].1.args.value
            && LaunchOf(info.value) == Some(Launch(rest[i].1.command.value, rest[i].1.args.value))
    decreases |rest|
  {
    var e := rest[0].1;
    var info := ServerInfo(rest[0].0, [e.command.value] + e.args.value);
    if i == 0 {
      assert forall j :: 1 <= j < |rest| ==> rest[j].0 != rest[0].0;
      assert rest[0].0 !in Keys(rest[1..]);
      LoadEntriesOther(Put(servers, rest[0].0, info), rest[1..], rest[0].0);
      assert ([e.command.value] + e.args.value)[1..] == e.args.value;
    } else {
      assert rest[1..][i - 1] == rest[i];
      ConfiguredLaunch(Put(servers, rest[0].0, info), rest[1..], i - 1);
    }
  }

  // ---------------------------------------------------------------------------
  // Tool collection
  // ---------------------------------------------------------------------------

  /** A tool as the client keeps it: `description or ""`, and `{}` for a tool
      without an `inputSchema`. */
  datatype ToolInfo = ToolInfo(name: string, description: string, parameters: InputSchema)

  function ToToolInfo(t: RemoteTool): (r: ToolInfo)
    ensures r.name == t.name
    ensures t.description.None? ==> r.description == ""
    ensures t.inputSchema.None? ==> r.parameters == EmptySchema
  {
    ToolInfo(t.name, t.description.GetOr(""), t.inputSchema.GetOr(EmptySchema))
  }

  function ToolInfos(ts: seq<RemoteTool>): (r: seq<ToolInfo>)
    ensures |r| == |ts|
    ensures forall i :: 0 <= i < |ts| ==> r[i] == ToToolInfo(ts[i])
  {
    seq(|ts|, i requires 0 <= i < |ts| => ToToolInfo(ts[i]))
  }

  /** What starting one server yields. */
  datatype Probe = ConnectFailed(msg: string) | ListFailed(msg: string) | Listed(tools: seq<RemoteTool>)

  function ProbeOf(info: ServerInfo, probe: Launch -> Probe): Probe {
    match LaunchOf(info)
    case None => ConnectFailed("list index out of range")
    case Some(l) => probe(l)
  }

  /** The state after collecting from `rest` in order: a server whose
      connection came up is recorded in `clients` (before its listing is
      attempted), and its catalogue is recorded only when listing succeeded. */
  function CollectFrom(rest: Dict<string, ServerInfo>, clients: Dict<string, Launch>,
                       schema: Dict<string, seq<ToolInfo>>, probe: Launch -> Probe)
    : (Dict<string, Launch>, Dict<string, seq<ToolInfo>>)
    decreases |rest|
  {
    if |rest| == 0 then (clients, schema)
    else
      var name := rest[0].0;
      match ProbeOf(rest[0].1, probe)
      case ConnectFailed(_) => CollectFrom(rest[1..], clients, schema, probe)
      case ListFailed(_) =>
        CollectFrom(rest[1..], Put(clients, name, LaunchOf(rest[0].1).value), schema, probe)
      case Listed(ts) =>
        CollectFrom(rest[1..], Put(clients, name, LaunchOf(rest[0].1).value),
                    Put(schema, name, ToolInfos(ts)), probe)
  }

  /** Collection never touches a key that is not one of the servers. */
  lemma {:induction false} CollectOther(rest: Dict<string, ServerInfo>, clients: Dict<string, Launch>,
                                        schema: Dict<string, seq<ToolInfo>>, probe: Launch -> Probe, k: string)
    requires k !in Keys(rest)
    ensures Get(CollectFrom(rest, clients, schema, probe).0, k) == Get(clients, k)
    ensures Get(CollectFrom(rest, clients, schema, probe).1, k) == Get(schema, k)
    decreases |rest|
  {
    if |rest| > 0 {
      assert Keys(rest) == [rest[0].0] + Keys(rest[1..]);
      var name := rest[0].0;
      match ProbeOf(rest[0].1, probe)
      case ConnectFailed(_) =>
        CollectOther(rest[1..], clients, schema, probe, k);
      case ListFailed(_) =>
        PutOther(clients, name, LaunchOf(rest[0].1).value, k);
        CollectOther(rest[1..], Put(clients, name, LaunchOf(rest[0].1).value), schema, probe, k);
      case Listed(ts) =>
        PutOther(clients, name, LaunchOf(rest[0].1).value, k);
        PutOther(schema, name, ToolInfos(ts), k);
        CollectOther(rest[1..], Put(clients, name, LaunchOf(rest[0].1).value),
                     Put(schema, name, ToolInfos(ts)), probe, k);
    }
  }

  /** Failure isolation: what is recorded for a server depends on that
      server's own outcome only. Its catalogue is its listed tools when
      listing succeeded and is left as it was otherwise; its client is
      recorded iff its connection came up. */
  lemma {:induction false} CollectIsolation(rest: Dict<string, ServerInfo>, clients: Dict<string, Launch>,
                                            schema: Dict<string, seq<ToolInfo>>, probe: Launch -> Probe, i: nat)
    requires UniqueKeys(rest) && i < |rest|
    ensures var (c', s') := CollectFrom(rest, clients, schema, probe);
            var name := rest[i].0;
            && Get(s', name) == (match ProbeOf(rest[i].1, probe)
                                 case Listed(ts) => Some(ToolInfos(ts))
                                 case _ => Get(schema, name))
            && Get(c', name) == (match ProbeOf(rest[i].1, probe)
                                 case ConnectFailed(_) => Get(clients, name)
                                 case _ => Some(LaunchOf(rest[i].1).value))
    decreases |rest|
  {
    var name := rest[0].0;
    var p := ProbeOf(rest[0].1, probe);
    var c1 := if p.ConnectFailed? then clients else Put(clients, name, LaunchOf(rest[0].1).value);
    var s1 := if p.Listed? then Put(schema, name, ToolInfos(p.tools)) else schema;
    assert CollectFrom(rest, clients, schema, probe) == CollectFrom(rest[1..], c1, s1, probe);
    if i == 0 {
      assert forall j :: 1 <= j < |rest| ==> rest[j].0 != rest[0].0;
      assert name !in Keys(rest[1..]);
      CollectOther(rest[1..], c1, s1, probe, name);
    } else {
      assert rest[1..][i - 1] == rest[i];
      assert rest[i].0 != name;
      CollectIsolation(rest[1..], c1, s1, probe, i - 1);
      if !p.ConnectFailed? {
        PutOther(clients, name, LaunchOf(rest[0].1).value, rest[i].0);
      }
      if p.Listed? {
        PutOther(schema, name, ToolInfos(p.tools), rest[i].0);
      }
    }
  }

  class ToolCollector {
    var servers: Dict<string, ServerInfo>
    var clients: Dict<string, Launch>
    var toolsSchema: Dict<string, seq<ToolInfo>>

    constructor ()
      ensures servers == [] && clients == [] && toolsSchema == []
    {
      servers, clients, toolsSchema := [], [], [];
    }

    /** `load_config`. `file` is `None` when the file does not exist. A
        missing file empties the table; a file without `mcpServers` leaves it
        as it was; otherwise each entry is registered in order and the first
        entry lacking `command` or `args` raises, the entries before it
        staying registered. */
    method LoadConfig(file: Option<ConfigFile>) returns (error: Option<string>)
      modifies this
      ensures clients == old(clients) && toolsSchema == old(toolsSchema)
      ensures file.None? ==> servers == [] && error.None?
      ensures file.Some? && file.value.mcpServers.None? ==> servers == old(servers) && error.None?
      ensures file.Some? && file.value.mcpServers.Some? ==>
                match LoadEntries(old(servers), file.value.mcpServers.value)
                case Loaded(d) => servers == d && error.None?
                case Aborted(d, e) => servers == d && error == Some(e)
    {
      error := None;
      if file.None? {
        servers := [];
        return;
      }
      if file.value.mcpServers.None? {
        return;
      }
      var entries := file.value.mcpServers.value;
      var i := 0;
      while i < |entries|
        invariant 0 <= i <= |entries|
        invariant clients == old(clients) && toolsSchema == old(toolsSchema)
        invariant LoadEntries(old(servers), entries) == LoadEntries(servers, entries[i..])
      {
        assert entries[i..][1..] == entries[i + 1..];
        match EntryInfo(entries[i].0, entries[i].1) {
          case Err(e) =>
            error := Some(e);
            return;
          case Ok(info) =>
            servers := Put(servers, entries[i].0, info);
        }
        i := i + 1;
      }
    }

    /** `collect_all_tools`: every configured server is started in turn; the
        state afterwards is what `CollectFrom` gives, so each server's entry
        depends on its own outcome only (`CollectIsolation`). */
    method CollectAllTools(probe: Launch -> Probe)
      modifies this
      ensures servers == old(servers)
      ensures (clients, toolsSchema) == CollectFrom(servers, old(clients), old(toolsSchema), probe)
    {
      var i := 0;
      while i < |servers|
        invariant 0 <= i <= |servers| && servers == old(servers)
        invariant CollectFrom(servers, old(clients), old(toolsSchema), probe)
               == CollectFrom(servers[i..], clients, toolsSchema, probe)
      {
        assert servers[i..][1..] == servers[i + 1..];
        var name := servers[i].0;
        match ProbeOf(servers[i].1, probe) {
          case ConnectFailed(_) =>
          case ListFailed(_) =>
            clients := Put(clients, name, LaunchOf(servers[i].1).value);
          case Listed(ts) =>
            clients := Put(clients, name, LaunchOf(servers[i].1).value);
            toolsSchema := Put(toolsSchema, name, ToolInfos(ts));
        }
        i := i + 1;
      }
    }
  }
}
