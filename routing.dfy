/**
  The tool registry and router of the host: which backend owns each tool
  name (`Host.tool_to_client`), the schema advertised under that name
  (`Host.tools`), the connected backends (`Host.clients`), how a backend's
  tool list is folded into them, and how a call is forwarded (`_run_tool`).
*/
module Routing {
  import opened Wrappers
  import opened Json

  /**
    A connected tool backend as the host sees it: the tool descriptors it
    advertises (its `openai_tools`, empty when it has none) and the call it
    forwards a tool invocation to, which returns a value or raises.
  */
  datatype Backend = Backend(
    advertised: seq<Json>,
    execute: (string, Json) -> Result<Json, string>)

  /** The three registry fields of a `Host`. */
  datatype Registry = Registry(
    clients: map<string, Backend>,
    toolToClient: map<string, string>,
    tools: seq<(string, Json)>)

  /** A freshly constructed host. */
  const Empty: Registry := Registry(map[], map[], [])

  /** `tool.get("name")` when it is a truthy string: the name the tool is registered under. */
  function NameOf(tool: Json): Option<string> {
    if tool.Obj? then
      match Get(tool.fields, "name")
      case Some(v) => if v.Str? && v.s != "" then Some(v.s) else None
      case None => None
    else None
  }

  /**
    What registration demands of an advertised tool: it is a dict (it must
    answer `.get`), and a truthy `"name"` in it is a string (anything else
    would be unhashable or a key no call can name).
  */
  predicate Advertisable(tool: Json) {
    tool.Obj? &&
    match Get(tool.fields, "name")
    case None => true
    case Some(v) => v.Str? || !Truthy(v)
  }

  /** One iteration of the registration loop: a named tool overwrites both maps, a nameless one is skipped. */
  function RegisterOne(reg: Registry, server: string, tool: Json): Registry {
    match NameOf(tool)
    case None => reg
    case Some(n) => reg.(toolToClient := reg.toolToClient[n := server], tools := Put(reg.tools, n, tool))
  }

  /** The registration loop over a tool list, in list order. */
  function RegisterAll(reg: Registry, server: string, list: seq<Json>): Registry
    decreases |list|
  {
    if list == [] then reg
    else RegisterOne(RegisterAll(reg, server, list[..|list| - 1]), server, list[|list| - 1])
  }

  /** `add_client_stdio` / `add_client_streamablehttp` once the backend is connected. */
  function Register(reg: Registry, server: string, backend: Backend): Registry {
    RegisterAll(reg.(clients := reg.clients[server := backend]), server, backend.advertised)
  }

  /** `add_stdio_clients_from_config`: the servers of the configuration registered in order. */
  function RegisterEach(reg: Registry, servers: seq<(string, Backend)>): Registry
    decreases |servers|
  {
    if servers == [] then reg
    else
      var last := servers[|servers| - 1];
      Register(RegisterEach(reg, servers[..|servers| - 1]), last.0, last.1)
  }

  /** The last tool of the list registered under `n`, if any. */
  function LastNamed(list: seq<Json>, n: string): Option<Json>
    decreases |list|
  {
    if list == [] then None
    else if NameOf(list[|list| - 1]) == Some(n) then Some(list[|list| - 1])
    else LastNamed(list[..|list| - 1], n)
  }

  /** The backend a call to `name` is forwarded to: a truthy owner that is connected. */
  function Owner(reg: Registry, name: string): Option<string> {
    if name in reg.toolToClient && reg.toolToClient[name] != "" && reg.toolToClient[name] in reg.clients
    then Some(reg.toolToClient[name])
    else None
  }

  /** The marker returned for a call nobody owns. */
  function NotRegistered(name: string): Json {
    Str("Tool '" + name + "' not registered")
  }

  /** `_run_tool(name, args)` */
  function Dispatch(reg: Registry, name: string, args: Json): (r: Result<Json, string>)
    ensures Owner(reg, name).None? ==> r == Ok(NotRegistered(name))
    ensures name !in reg.toolToClient ==> r == Ok(NotRegistered(name))
    ensures r.Err? ==> Owner(reg, name).Some?
  {
    match Owner(reg, name)
    case None => Ok(NotRegistered(name))
    case Some(server) => reg.clients[server].execute(name, args)
  }

  /**
    After the loop over a tool list, a name carried by some tool of the list
    belongs to the registering server and reads the LAST such tool; any
    other name reads exactly as before. The backends are untouched.
  */
  lemma {:induction false} RegisterAllLastWins(reg: Registry, server: string, list: seq<Json>, n: string)
    ensures RegisterAll(reg, server, list).clients == reg.clients
    ensures LastNamed(list, n).Some? ==>
      var r := RegisterAll(reg, server, list);
      n in r.toolToClient && r.toolToClient[n] == server && Get(r.tools, n) == LastNamed(list, n)
    ensures LastNamed(list, n).None? ==>
      var r := RegisterAll(reg, server, list);
      (n in r.toolToClient <==> n in reg.toolToClient) &&
      (n in reg.toolToClient ==> r.toolToClient[n] == reg.toolToClient[n]) &&
      Get(r.tools, n) == Get(reg.tools, n)
    decreases |list|
  {
    if list != [] {
      var init := list[..|list| - 1];
      var last := list[|list| - 1];
      var before := RegisterAll(reg, server, init);
      RegisterAllLastWins(reg, server, init, n);
      match NameOf(last)
      case None =>
      case Some(m) => PutGet(before.tools, m, last, n);
    }
  }

  /** Registration only appends new names: a name already registered keeps its place in `tools`. */
  lemma {:induction false} RegisterAllKeepsOrder(reg: Registry, server: string, list: seq<Json>)
    ensures Keys(reg.tools) <= Keys(RegisterAll(reg, server, list).tools)
    decreases |list|
  {
    if list != [] {
      RegisterAllKeepsOrder(reg, server, list[..|list| - 1]);
    }
  }

  /** A list of nameless tools leaves the registry as it was. */
  lemma {:induction false} RegisterAllNameless(reg: Registry, server: string, list: seq<Json>)
    requires forall i :: 0 <= i < |list| ==> NameOf(list[i]).None?
    ensures RegisterAll(reg, server, list) == reg
    decreases |list|
  {
    if list != [] {
      RegisterAllNameless(reg, server, list[..|list| - 1]);
    }
  }

  /** A call to a name the new backend advertises goes to that backend. */
  lemma DispatchAfterRegister(reg: Registry, server: string, b: Backend, name: string, args: Json)
    requires server != ""
    requires LastNamed(b.advertised, name).Some?
    ensures Dispatch(Register(reg, server, b), name, args) == b.execute(name, args)
  {
    RegisterAllLastWins(reg.(clients := reg.clients[server := b]), server, b.advertised, name);
  }

  /**
    A call to a name the new backend does not advertise is routed as before,
    except that names already owned by the same server name now reach the
    new backend (the server entry in `clients` is replaced).
  */
  lemma DispatchAfterOtherRegister(reg: Registry, server: string, b: Backend, name: string, args: Json)
    requires LastNamed(b.advertised, name).None?
    ensures Dispatch(Register(reg, server, b), name, args) ==
      if name in reg.toolToClient && reg.toolToClient[name] == server && server != ""
      then b.execute(name, args)
      else Dispatch(reg, name, args)
  {
    RegisterAllLastWins(reg.(clients := reg.clients[server := b]), server, b.advertised, name);
  }

  /** The server names a configuration lists. */
  function ServerNames(servers: seq<(string, Backend)>): set<string> {
    set s | 0 <= s < |servers| :: servers[s].0
  }

  /**
    Loading a configuration connects every server it lists, and no other:
    afterwards the servers are those held before plus the configured ones.
  */
  lemma {:induction false} RegisterEachConnects(reg: Registry, servers: seq<(string, Backend)>)
    ensures RegisterEach(reg, servers).clients.Keys ==
      reg.clients.Keys + ServerNames(servers)
    decreases |servers|
  {
    if servers != [] {
      var init := servers[..|servers| - 1];
      var last := servers[|servers| - 1];
      var before := RegisterEach(reg, init);
      RegisterEachConnects(reg, init);
      RegisterAllLastWins(before.(clients := before.clients[last.0 := last.1]), last.0, last.1.advertised, "");
      assert ServerNames(servers) == ServerNames(init) + {last.0} by {
        forall x | x in ServerNames(servers)
          ensures x in ServerNames(init) + {last.0}
        {
          var s :| 0 <= s < |servers| && servers[s].0 == x;
          if s < |init| {
            assert init[s] == servers[s];
          }
        }
        forall x | x in ServerNames(init)
          ensures x in ServerNames(servers)
        {
          var s :| 0 <= s < |init| && init[s].0 == x;
          assert servers[s] == init[s];
        }
      }
    }
  }

  /** A tool descriptor advertising only the name `ping`. */
  function PingTool(): Json {
    Obj([("name", Str("ping"))])
  }

  /** Two backends both register `ping`: the second registration wins the route. */
  lemma SecondRegistrationWins(first: (string, Json) -> Result<Json, string>, second: (string, Json) -> Result<Json, string>, args: Json)
    ensures Dispatch(Register(Register(Empty, "one", Backend([PingTool()], first)), "two", Backend([PingTool()], second)), "ping", args)
         == second("ping", args)
  {
    var tool := PingTool();
    assert Keys(tool.fields)[0] == "name";
    assert NameOf(tool) == Some("ping");
    assert LastNamed([tool], "ping") == Some(tool);
    DispatchAfterRegister(Register(Empty, "one", Backend([tool], first)), "two", Backend([tool], second), "ping", args);
  }
}
