/**
 The tool index of the MCP manager (src/mcp/mcp-manager.ts): six maps that are
 updated by atomic segments between awaits. The steps below are those segments;
 every interleaving of concurrent calls is some sequence of steps. What a server
 lists, and whether connecting succeeds, is arbitrary.
 */
module McpManager {
  import opened Wrappers

  datatype ServerConfig = ServerConfig(name: string, toolPrefix: Option<string>)

  datatype ToolInfo = ToolInfo(name: string, description: string, schema: string)

  datatype ExecutableTool = ExecutableTool(id: string, server: string, info: ToolInfo)

  /** The six maps; of a connection only its presence matters here. */
  datatype Index = Index(connections: set<string>, tools: map<string, ExecutableTool>, toolSchemas: map<string, string>,
                         serverToolIds: map<string, set<string>>, toolInfoCache: map<string, seq<ToolInfo>>,
                         pendingConfigs: map<string, ServerConfig>)

  const EMPTY := Index({}, map[], map[], map[], map[], map[])

  datatype Step =
    | SetPending(config: ServerConfig)
    | RegisterCached(config: ServerConfig)
    | Connected(server: string)
    | Discovered(config: ServerConfig, infos: seq<ToolInfo>)
    | DropStale(server: string)
    | DisconnectBegin(server: string)
    | DisconnectEnd(server: string)
    | ClearAll

  // ---------------------------------------------------------- specification

  function PrefixOf(c: ServerConfig): string {
    if c.toolPrefix.Some? then c.toolPrefix.value else c.name
  }

  function IdWith(prefix: string, tool: string): string {
    "mcp:" + (prefix + ":" + tool)
  }

  function ToolFor(c: ServerConfig, info: ToolInfo): ExecutableTool {
    ExecutableTool(IdWith(PrefixOf(c), info.name), c.name, info)
  }

  /** The tools a list of infos registers; a repeated name keeps its last entry. */
  function ToolsFrom(c: ServerConfig, infos: seq<ToolInfo>): map<string, ExecutableTool> {
    if infos == [] then map[]
    else ToolsFrom(c, infos[..|infos| - 1])[ToolFor(c, infos[|infos| - 1]).id := ToolFor(c, infos[|infos| - 1])]
  }

  function SchemasOf(tools: map<string, ExecutableTool>): map<string, string> {
    map id | id in tools :: tools[id].info.schema
  }

  function IdsOf(s: Index, server: string): set<string> {
    if server in s.serverToolIds then s.serverToolIds[server] else {}
  }

  function Register(s: Index, c: ServerConfig, infos: seq<ToolInfo>): Index {
    var added := ToolsFrom(c, infos);
    s.(tools := s.tools + added,
       toolSchemas := s.toolSchemas + SchemasOf(added),
       serverToolIds := s.serverToolIds[c.name := IdsOf(s, c.name) + added.Keys])
  }

  function Apply(s: Index, step: Step): Index {
    match step
    case SetPending(c) => s.(pendingConfigs := s.pendingConfigs[c.name := c])
    case RegisterCached(c) => if c.name in s.toolInfoCache then Register(s, c, s.toolInfoCache[c.name]) else s
    case Connected(server) => s.(connections := s.connections + {server})
    case Discovered(c, infos) => Register(s.(toolInfoCache := s.toolInfoCache[c.name := infos]), c, infos)
    case DropStale(server) => s.(connections := s.connections - {server})
    case DisconnectBegin(server) =>
      if server !in s.connections then s
      else s.(tools := s.tools - IdsOf(s, server), toolSchemas := s.toolSchemas - IdsOf(s, server),
              serverToolIds := s.serverToolIds - {server})
    case DisconnectEnd(server) => s.(connections := s.connections - {server})
    case ClearAll => s.(connections := {}, tools := map[], toolSchemas := map[], serverToolIds := map[])
  }

  function Execute(s: Index, steps: seq<Step>): Index
    decreases |steps|
  {
    if steps == [] then s else Execute(Apply(s, steps[0]), steps[1..])
  }

  lemma {:induction false} ExecuteAppend(s: Index, a: seq<Step>, b: seq<Step>)
    ensures Execute(s, a + b) == Execute(Execute(s, a), b)
    decreases |a|
  {
    if a == [] {
      assert a + b == b;
    } else {
      assert (a + b)[1..] == a[1..] + b && (a + b)[0] == a[0];
      ExecuteAppend(Apply(s, a[0]), a[1..], b);
    }
  }

  // ------------------------------------------------ what every state keeps

  /** Every tool is filed under its id, has its schema, and is listed by the server it belongs to. */
  ghost predicate Indexed(s: Index) {
    && s.tools.Keys == s.toolSchemas.Keys
    && forall id | id in s.tools ::
         && s.tools[id].id == id
         && s.toolSchemas[id] == s.tools[id].info.schema
         && s.tools[id].server in s.serverToolIds
         && id in s.serverToolIds[s.tools[id].server]
  }

  lemma {:induction false} ToolsFromAreFiled(c: ServerConfig, infos: seq<ToolInfo>)
    ensures forall id | id in ToolsFrom(c, infos) ::
              var t := ToolsFrom(c, infos)[id];
              t.id == id && t.server == c.name && t.info in infos && id == IdWith(PrefixOf(c), t.info.name)
  {
    if infos != [] {
      ToolsFromAreFiled(c, infos[..|infos| - 1]);
    }
  }

  lemma RegisterKeepsIndexed(s: Index, c: ServerConfig, infos: seq<ToolInfo>)
    requires Indexed(s)
    ensures Indexed(Register(s, c, infos))
  {
    ToolsFromAreFiled(c, infos);
  }

  lemma StepKeepsIndexed(s: Index, step: Step)
    requires Indexed(s)
    ensures Indexed(Apply(s, step))
  {
    match step {
      case RegisterCached(c) =>
        if c.name in s.toolInfoCache {
          RegisterKeepsIndexed(s, c, s.toolInfoCache[c.name]);
        }
      case Discovered(c, infos) =>
        RegisterKeepsIndexed(s.(toolInfoCache := s.toolInfoCache[c.name := infos]), c, infos);
      case _ =>
    }
  }

  /**
   However calls interleave, each registered tool has its schema, and each is
   listed by the server that owns it.
   */
  lemma {:induction false} ReachableIsIndexed(s: Index, steps: seq<Step>)
    requires Indexed(s)
    ensures Indexed(Execute(s, steps))
    decreases |steps|
  {
    if steps != [] {
      StepKeepsIndexed(s, steps[0]);
      ReachableIsIndexed(Apply(s, steps[0]), steps[1..]);
    }
  }

  // ------------------------------------------- one owner for each prefix

  predicate ColonFree(p: string) {
    ':' !in p
  }

  /** Prefixes are colon-free and each belongs to one server. */
  predicate Owns(owner: map<string, string>, c: ServerConfig) {
    ColonFree(PrefixOf(c)) && PrefixOf(c) in owner && owner[PrefixOf(c)] == c.name
  }

  predicate StepOwns(owner: map<string, string>, step: Step) {
    match step
    case SetPending(c) => Owns(owner, c)
    case RegisterCached(c) => Owns(owner, c)
    case Discovered(c, _) => Owns(owner, c)
    case _ => true
  }

  ghost predicate IdOwnedBy(owner: map<string, string>, id: string, server: string) {
    exists p, tool :: id == IdWith(p, tool) && ColonFree(p) && p in owner && owner[p] == server
  }

  ghost predicate OwnIdsOnly(owner: map<string, string>, s: Index) {
    forall server, id | server in s.serverToolIds && id in s.serverToolIds[server] :: IdOwnedBy(owner, id, server)
  }

  /** Every listed id is registered. With `Indexed`, the listed and the registered ids are the same. */
  ghost predicate ListedAreRegistered(s: Index) {
    forall server, id | server in s.serverToolIds && id in s.serverToolIds[server] :: id in s.tools
  }

  /** The prefix and the name can be read back from an id whose prefix is colon-free. */
  lemma IdDeterminesPrefix(p: string, x: string, q: string, y: string)
    requires ColonFree(p) && ColonFree(q) && IdWith(p, x) == IdWith(q, y)
    ensures p == q && x == y
  {
    var a, b := p + ":" + x, q + ":" + y;
    assert IdWith(p, x)[4..] == a && IdWith(q, y)[4..] == b;
    assert a[|p|] == ':' && b[|q|] == ':';
    assert forall i | 0 <= i < |p| :: a[i] == p[i];
    assert forall i | 0 <= i < |q| :: b[i] == q[i];
    assert |p| == |q|;
    assert p == a[..|p|] && q == b[..|q|] && x == a[|p| + 1..] && y == b[|q| + 1..];
  }

  lemma OneOwner(owner: map<string, string>, id: string, s: string, t: string)
    requires IdOwnedBy(owner, id, s) && IdOwnedBy(owner, id, t)
    ensures s == t
  {
    var p, x :| id == IdWith(p, x) && ColonFree(p) && p in owner && owner[p] == s;
    var q, y :| id == IdWith(q, y) && ColonFree(q) && q in owner && owner[q] == t;
    IdDeterminesPrefix(p, x, q, y);
  }

  lemma RegisterKeepsOwners(owner: map<string, string>, s: Index, c: ServerConfig, infos: seq<ToolInfo>)
    requires Owns(owner, c) && OwnIdsOnly(owner, s) && ListedAreRegistered(s)
    ensures var s' := Register(s, c, infos); OwnIdsOnly(owner, s') && ListedAreRegistered(s')
  {
    var added, s' := ToolsFrom(c, infos), Register(s, c, infos);
    ToolsFromAreFiled(c, infos);
    forall server, id | server in s'.serverToolIds && id in s'.serverToolIds[server]
      ensures IdOwnedBy(owner, id, server) && id in s'.tools
    {
      if server == c.name && id in added {
        assert id == IdWith(PrefixOf(c), added[id].info.name);
      }
    }
  }

  lemma StepKeepsOwners(owner: map<string, string>, s: Index, step: Step)
    requires StepOwns(owner, step) && OwnIdsOnly(owner, s) && ListedAreRegistered(s)
    ensures var s' := Apply(s, step); OwnIdsOnly(owner, s') && ListedAreRegistered(s')
  {
    match step {
      case RegisterCached(c) =>
        if c.name in s.toolInfoCache {
          RegisterKeepsOwners(owner, s, c, s.toolInfoCache[c.name]);
        }
      case Discovered(c, infos) =>
        RegisterKeepsOwners(owner, s.(toolInfoCache := s.toolInfoCache[c.name := infos]), c, infos);
      case DisconnectBegin(gone) =>
        var s' := Apply(s, step);
        forall server, id | server in s'.serverToolIds && id in s'.serverToolIds[server]
          ensures IdOwnedBy(owner, id, server) && id in s'.tools
        {
          if id in IdsOf(s, gone) && gone in s.connections {
            OneOwner(owner, id, server, gone);
          }
        }
      case _ =>
    }
  }

  ghost function ListedIds(s: Index): set<string> {
    set server, id | server in s.serverToolIds && id in s.serverToolIds[server] :: id
  }

  /**
   With colon-free prefixes that each belong to one server, every reachable state
   lists exactly the tools it has, and no two servers list the same id.
   */
  lemma {:induction false} ReachableIndexIsExact(owner: map<string, string>, s: Index, steps: seq<Step>)
    requires Indexed(s) && OwnIdsOnly(owner, s) && ListedAreRegistered(s)
    requires forall step | step in steps :: StepOwns(owner, step)
    ensures var r := Execute(s, steps);
            && Indexed(r) && OwnIdsOnly(owner, r) && ListedAreRegistered(r)
            && ListedIds(r) == r.tools.Keys == r.toolSchemas.Keys
            && forall a, b | a in r.serverToolIds && b in r.serverToolIds && a != b ::
                 r.serverToolIds[a] !! r.serverToolIds[b]
    decreases |steps|
  {
    if steps != [] {
      StepKeepsIndexed(s, steps[0]);
      assert steps[0] in steps;
      StepKeepsOwners(owner, s, steps[0]);
      ReachableIndexIsExact(owner, Apply(s, steps[0]), steps[1..]);
    } else {
      forall a, b | a in s.serverToolIds && b in s.serverToolIds && a != b
        ensures s.serverToolIds[a] !! s.serverToolIds[b]
      {
        forall id | id in s.serverToolIds[a]
          ensures id !in s.serverToolIds[b]
        {
          if id in s.serverToolIds[b] {
            OneOwner(owner, id, a, b);
          }
        }
      }
    }
  }

  // --------------------------------------------------- disconnect and prepare

  /**
   Disconnecting a connected server keeps the index exact if and only if no other
   server lists one of its ids.
   */
  lemma DisconnectKeepsExactIff(s: Index, server: string)
    requires Indexed(s) && ListedAreRegistered(s) && server in s.connections
    ensures ListedAreRegistered(Apply(s, DisconnectBegin(server)))
       <==> forall other | other in s.serverToolIds && other != server :: s.serverToolIds[other] !! IdsOf(s, server)
  {
    var s' := Apply(s, DisconnectBegin(server));
    if ListedAreRegistered(s') {
      forall other | other in s.serverToolIds && other != server
        ensures s.serverToolIds[other] !! IdsOf(s, server)
      {
        forall id | id in s.serverToolIds[other]
          ensures id !in IdsOf(s, server)
        {
          assert other in s'.serverToolIds && id in s'.serverToolIds[other];
        }
      }
    }
  }

  /** Two servers with one prefix: disconnecting the first takes the second one's tool with it. */
  lemma SharedPrefixLosesATool(a: ServerConfig, b: ServerConfig, info: ToolInfo)
    requires a.name != b.name && PrefixOf(a) == PrefixOf(b)
    ensures var s := Apply(Apply(Apply(Apply(EMPTY, Connected(a.name)), Discovered(a, [info])), Discovered(b, [info])),
                           DisconnectBegin(a.name));
            var id := IdWith(PrefixOf(b), info.name);
            b.name in s.serverToolIds && id in s.serverToolIds[b.name] && id !in s.tools
  {
    assert [info][..0] == [];
    assert ToolsFrom(a, [info]) == ToolsFrom(a, [])[ToolFor(a, info).id := ToolFor(a, info)];
    assert ToolsFrom(b, [info]) == ToolsFrom(b, [])[ToolFor(b, info).id := ToolFor(b, info)];
  }

  ghost function ToolsOfServer(s: Index, server: string): set<string> {
    set id | id in s.tools && s.tools[id].server == server
  }

  /** In an exact index, disconnecting a connected server removes exactly the server's own tools. */
  lemma DisconnectRemovesOwnTools(owner: map<string, string>, s: Index, server: string)
    requires Indexed(s) && OwnIdsOnly(owner, s) && ListedAreRegistered(s) && server in s.connections
    ensures var s' := Apply(s, DisconnectBegin(server));
            && s'.tools.Keys == s.tools.Keys - IdsOf(s, server)
            && IdsOf(s, server) == ToolsOfServer(s, server)
            && (forall id | id in s'.tools :: s'.tools[id] == s.tools[id])
  {
    forall id | id in IdsOf(s, server)
      ensures id in s.tools && s.tools[id].server == server
    {
      OneOwner(owner, id, server, s.tools[id].server);
    }
  }

  /** A server that is not connected keeps all its tools: disconnecting it does nothing. */
  lemma DisconnectNeedsConnection(s: Index, server: string)
    requires Indexed(s)
    ensures Apply(s, DisconnectBegin(server)).tools == s.tools
       <==> server !in s.connections || IdsOf(s, server) !! s.tools.Keys
  {
    var s' := Apply(s, DisconnectBegin(server));
    if server in s.connections && s'.tools == s.tools {
      assert forall id | id in s'.tools :: id !in IdsOf(s, server);
    }
    if IdsOf(s, server) !! s.tools.Keys {
      assert s.tools - IdsOf(s, server) == s.tools;
    }
  }

  /** The server's tools are the ones its cached list registers. */
  predicate FromCache(s: Index, c: ServerConfig) {
    && c.name in s.toolInfoCache && c.name in s.serverToolIds
    && (var tools := ToolsFrom(c, s.toolInfoCache[c.name]);
        && s.serverToolIds[c.name] == tools.Keys
        && forall id | id in tools :: id in s.tools && s.tools[id] == tools[id])
  }

  /** Preparing a known server again after a disconnect restores its tools without any connection. */
  lemma PrepareRestoresAfterDisconnect(s: Index, c: ServerConfig, outcome: string -> ConnectOutcome)
    requires Indexed(s) && FromCache(s, c) && c.name in s.connections
    ensures var gone := Execute(s, [DisconnectBegin(c.name), DisconnectEnd(c.name)]);
            var back := Execute(gone, PrepareSteps(gone.toolInfoCache, [c], outcome));
            && gone.tools.Keys == s.tools.Keys - IdsOf(s, c.name)
            && back.tools == s.tools && back.toolSchemas == s.toolSchemas && back.serverToolIds == s.serverToolIds
            && back.connections == s.connections - {c.name}
  {
    TwoSteps(s, DisconnectBegin(c.name), DisconnectEnd(c.name));
    PrepareRestores(s, Apply(Apply(s, DisconnectBegin(c.name)), DisconnectEnd(c.name)), c, outcome);
  }

  lemma PrepareRestores(s: Index, gone: Index, c: ServerConfig, outcome: string -> ConnectOutcome)
    requires Indexed(s) && FromCache(s, c)
    requires gone.tools == s.tools - IdsOf(s, c.name) && gone.toolSchemas == s.toolSchemas - IdsOf(s, c.name)
    requires gone.serverToolIds == s.serverToolIds - {c.name} && gone.toolInfoCache == s.toolInfoCache
    ensures var back := Execute(gone, PrepareSteps(gone.toolInfoCache, [c], outcome));
            && back.tools == s.tools && back.toolSchemas == s.toolSchemas && back.serverToolIds == s.serverToolIds
            && back.connections == gone.connections
  {
    PrepareOneCached(gone.toolInfoCache, c, outcome);
    TwoSteps(gone, SetPending(c), RegisterCached(c));
    RegisterRestores(s, Apply(gone, SetPending(c)), c);
  }

  lemma RestorePart<V>(m: map<string, V>, part: map<string, V>)
    requires forall k | k in part :: k in m && m[k] == part[k]
    ensures (m - part.Keys) + part == m
  {
    assert ((m - part.Keys) + part).Keys == m.Keys;
  }

  lemma RestoreKey<V>(m: map<string, V>, k: string)
    requires k in m
    ensures (m - {k})[k := m[k]] == m
  {
    assert (m - {k})[k := m[k]].Keys == m.Keys;
  }

  lemma RegisterRestores(s: Index, gone: Index, c: ServerConfig)
    requires Indexed(s) && FromCache(s, c)
    requires gone.tools == s.tools - IdsOf(s, c.name) && gone.toolSchemas == s.toolSchemas - IdsOf(s, c.name)
    requires gone.serverToolIds == s.serverToolIds - {c.name} && gone.toolInfoCache == s.toolInfoCache
    ensures var back := Apply(gone, RegisterCached(c));
            && back.tools == s.tools && back.toolSchemas == s.toolSchemas && back.serverToolIds == s.serverToolIds
            && back.connections == gone.connections
  {
    var back := Apply(gone, RegisterCached(c));
    var tools := ToolsFrom(c, s.toolInfoCache[c.name]);
    assert SchemasOf(tools).Keys == tools.Keys && {} + tools.Keys == s.serverToolIds[c.name];
    RestorePart(s.tools, tools);
    RestorePart(s.toolSchemas, SchemasOf(tools));
    RestoreKey(s.serverToolIds, c.name);
  }

  lemma PrepareOneCached(cache: map<string, seq<ToolInfo>>, c: ServerConfig, outcome: string -> ConnectOutcome)
    requires c.name in cache
    ensures PrepareSteps(cache, [c], outcome) == [SetPending(c), RegisterCached(c)]
  {
    assert [c][..0] == [];
    assert UncachedIn(cache, [c]) == UncachedIn(cache, []);
    assert CachedSteps([c]) == CachedSteps([]) + [SetPending(c), RegisterCached(c)];
  }

  lemma TwoSteps(s: Index, a: Step, b: Step)
    ensures Execute(s, [a, b]) == Apply(Apply(s, a), b)
  {
    assert [a, b][1..] == [b] && [b][1..] == [];
    assert Execute(Apply(s, a), [b]) == Execute(Apply(Apply(s, a), b), []);
  }

  // ------------------------------------------- with other servers at work

  /** A step that concerns another server than the given one. */
  predicate ConcernsOther(step: Step, name: string) {
    match step
    case SetPending(c) => c.name != name
    case RegisterCached(c) => c.name != name
    case Discovered(c, _) => c.name != name
    case Connected(server) => server != name
    case DropStale(server) => server != name
    case DisconnectBegin(server) => server != name
    case DisconnectEnd(server) => server != name
    case ClearAll => false
  }

  /** `y` is `x` without the server: its connection, its ids and its tools. */
  ghost predicate WithoutServer(x: Index, y: Index, name: string, ids: set<string>) {
    && y.connections == x.connections - {name}
    && y.tools == x.tools - ids && y.toolSchemas == x.toolSchemas - ids
    && y.serverToolIds == x.serverToolIds - {name}
    && y.toolInfoCache == x.toolInfoCache && y.pendingConfigs == x.pendingConfigs
  }

  lemma AddApart<V>(m: map<string, V>, added: map<string, V>, ids: set<string>)
    requires added.Keys !! ids
    ensures (m + added) - ids == (m - ids) + added
  {
  }

  lemma RemoveApart<V>(m: map<string, V>, a: set<string>, b: set<string>)
    ensures (m - a) - b == (m - b) - a
  {
  }

  lemma UpdateApart<V>(m: map<string, V>, k: string, v: V, name: string)
    requires k != name
    ensures m[k := v] - {name} == (m - {name})[k := v]
  {
  }

  lemma AddedAreOwned(owner: map<string, string>, c: ServerConfig, infos: seq<ToolInfo>)
    requires Owns(owner, c)
    ensures forall id | id in ToolsFrom(c, infos) :: IdOwnedBy(owner, id, c.name)
  {
    ToolsFromAreFiled(c, infos);
    forall id | id in ToolsFrom(c, infos)
      ensures IdOwnedBy(owner, id, c.name)
    {
      assert id == IdWith(PrefixOf(c), ToolsFrom(c, infos)[id].info.name);
    }
  }

  ghost predicate AllOwnedBy(owner: map<string, string>, ids: set<string>, name: string) {
    forall id | id in ids :: IdOwnedBy(owner, id, name)
  }

  lemma OtherToolsAreApart(owner: map<string, string>, a: set<string>, s: string, b: set<string>, t: string)
    requires AllOwnedBy(owner, a, s) && AllOwnedBy(owner, b, t) && s != t
    ensures a !! b
  {
    forall id | id in a
      ensures id !in b
    {
      if id in b {
        OneOwner(owner, id, s, t);
      }
    }
  }

  lemma RegisterApart(owner: map<string, string>, x: Index, y: Index, name: string, ids: set<string>,
                      d: ServerConfig, infos: seq<ToolInfo>)
    requires WithoutServer(x, y, name, ids) && AllOwnedBy(owner, ids, name) && Owns(owner, d) && d.name != name
    ensures WithoutServer(Register(x, d, infos), Register(y, d, infos), name, ids)
  {
    var added := ToolsFrom(d, infos);
    AddedAreOwned(owner, d, infos);
    OtherToolsAreApart(owner, added.Keys, d.name, ids, name);
    assert SchemasOf(added).Keys == added.Keys;
    AddApart(x.tools, added, ids);
    AddApart(x.toolSchemas, SchemasOf(added), ids);
    UpdateApart(x.serverToolIds, d.name, IdsOf(x, d.name) + added.Keys, name);
    assert IdsOf(x, d.name) == IdsOf(y, d.name);
  }

  /** A step about another server does the same with and without this one. */
  lemma StepApart(owner: map<string, string>, x: Index, y: Index, name: string, ids: set<string>, step: Step)
    requires WithoutServer(x, y, name, ids) && AllOwnedBy(owner, ids, name)
    requires StepOwns(owner, step) && ConcernsOther(step, name)
    ensures WithoutServer(Apply(x, step), Apply(y, step), name, ids)
  {
    match step {
      case RegisterCached(d) =>
        if d.name in x.toolInfoCache {
          RegisterApart(owner, x, y, name, ids, d, x.toolInfoCache[d.name]);
        }
      case Discovered(d, infos) =>
        var cache := x.toolInfoCache[d.name := infos];
        RegisterApart(owner, x.(toolInfoCache := cache), y.(toolInfoCache := cache), name, ids, d, infos);
      case DisconnectBegin(d) =>
        assert IdsOf(x, d) == IdsOf(y, d);
        RemoveApart(x.tools, ids, IdsOf(x, d));
        RemoveApart(x.toolSchemas, ids, IdsOf(x, d));
        RemoveApart(x.serverToolIds, {name}, {d});
      case _ =>
    }
  }

  /** Steps about other servers leave the server's own tools as they are. */
  lemma StepKeepsOthers(owner: map<string, string>, x: Index, c: ServerConfig, step: Step)
    requires FromCache(x, c) && OwnIdsOnly(owner, x) && Owns(owner, c)
    requires StepOwns(owner, step) && ConcernsOther(step, c.name)
    ensures FromCache(Apply(x, step), c) && Apply(x, step).serverToolIds[c.name] == x.serverToolIds[c.name]
  {
    var mine := x.serverToolIds[c.name];
    match step {
      case RegisterCached(d) =>
        if d.name in x.toolInfoCache {
          AddedAreOwned(owner, d, x.toolInfoCache[d.name]);
          OtherToolsAreApart(owner, ToolsFrom(d, x.toolInfoCache[d.name]).Keys, d.name, mine, c.name);
        }
      case Discovered(d, infos) =>
        AddedAreOwned(owner, d, infos);
        OtherToolsAreApart(owner, ToolsFrom(d, infos).Keys, d.name, mine, c.name);
      case DisconnectBegin(d) =>
        OtherToolsAreApart(owner, IdsOf(x, d), d, mine, c.name);
      case _ =>
    }
  }

  lemma {:induction false} RunApart(owner: map<string, string>, x: Index, y: Index, c: ServerConfig, ids: set<string>,
                                    between: seq<Step>)
    requires Indexed(x) && OwnIdsOnly(owner, x) && ListedAreRegistered(x) && FromCache(x, c) && Owns(owner, c)
    requires WithoutServer(x, y, c.name, ids) && ids == x.serverToolIds[c.name]
    requires forall step | step in between :: StepOwns(owner, step) && ConcernsOther(step, c.name)
    ensures var x', y' := Execute(x, between), Execute(y, between);
            && Indexed(x') && FromCache(x', c) && x'.serverToolIds[c.name] == ids
            && WithoutServer(x', y', c.name, ids)
    decreases |between|
  {
    if between != [] {
      var step := between[0];
      assert step in between && forall z | z in between[1..] :: z in between;
      StepKeepsIndexed(x, step);
      StepKeepsOwners(owner, x, step);
      StepKeepsOthers(owner, x, c, step);
      StepApart(owner, x, y, c.name, ids, step);
      RunApart(owner, Apply(x, step), Apply(y, step), c, ids, between[1..]);
    }
  }

  /**
   A server is disconnected, other servers connect, register and disconnect, and
   then the server is prepared again from the cache: tools, schemas and ids are what
   they would be had it never been disconnected, and no connection was opened for it.
   */
  lemma PrepareRestoresLater(owner: map<string, string>, s: Index, c: ServerConfig, between: seq<Step>,
                             outcome: string -> ConnectOutcome)
    requires Indexed(s) && OwnIdsOnly(owner, s) && ListedAreRegistered(s)
    requires FromCache(s, c) && Owns(owner, c) && c.name in s.connections
    requires forall step | step in between :: StepOwns(owner, step) && ConcernsOther(step, c.name)
    ensures var gone := Execute(Execute(s, [DisconnectBegin(c.name), DisconnectEnd(c.name)]), between);
            var back := Execute(gone, PrepareSteps(gone.toolInfoCache, [c], outcome));
            var undisturbed := Execute(s, between);
            && back.tools == undisturbed.tools && back.toolSchemas == undisturbed.toolSchemas
            && back.serverToolIds == undisturbed.serverToolIds
            && back.connections == undisturbed.connections - {c.name}
  {
    TwoSteps(s, DisconnectBegin(c.name), DisconnectEnd(c.name));
    var cut := Apply(Apply(s, DisconnectBegin(c.name)), DisconnectEnd(c.name));
    RunApart(owner, s, cut, c, IdsOf(s, c.name), between);
    var gone, undisturbed := Execute(cut, between), Execute(s, between);
    PrepareRestores(undisturbed, gone, c, outcome);
  }

  // ---------------------------------------------------- after disconnectAll

  /** The tools that preparing the known ones among `configs` registers. */
  function CachedTools(cache: map<string, seq<ToolInfo>>, configs: seq<ServerConfig>): map<string, ExecutableTool> {
    if configs == [] then map[]
    else
      var front, last := CachedTools(cache, configs[..|configs| - 1]), configs[|configs| - 1];
      if last.name in cache then front + ToolsFrom(last, cache[last.name]) else front
  }

  lemma PrepareOne(s: Index, c: ServerConfig)
    ensures var r := Execute(s, [SetPending(c), RegisterCached(c)]);
            && r.tools
                 == (if c.name in s.toolInfoCache then s.tools + ToolsFrom(c, s.toolInfoCache[c.name]) else s.tools)
            && r.toolInfoCache == s.toolInfoCache && r.connections == s.connections
  {
    TwoSteps(s, SetPending(c), RegisterCached(c));
  }

  lemma AddTwice<V>(a: map<string, V>, b: map<string, V>, c: map<string, V>)
    ensures (a + b) + c == a + (b + c)
  {
  }

  lemma {:induction false} CachedStepsRun(s: Index, configs: seq<ServerConfig>)
    ensures var r := Execute(s, CachedSteps(configs));
            && r.tools == s.tools + CachedTools(s.toolInfoCache, configs)
            && r.toolInfoCache == s.toolInfoCache && r.connections == s.connections
    decreases |configs|
  {
    if configs == [] {
      assert s.tools + map[] == s.tools;
    } else {
      var front, last := configs[..|configs| - 1], configs[|configs| - 1];
      CachedStepsRun(s, front);
      ExecuteAppend(s, CachedSteps(front), [SetPending(last), RegisterCached(last)]);
      PrepareOne(Execute(s, CachedSteps(front)), last);
      if last.name in s.toolInfoCache {
        AddTwice(s.tools, CachedTools(s.toolInfoCache, front), ToolsFrom(last, s.toolInfoCache[last.name]));
      }
    }
  }

  lemma {:induction false} NoneUncached(cache: map<string, seq<ToolInfo>>, configs: seq<ServerConfig>)
    requires forall c | c in configs :: c.name in cache
    ensures UncachedIn(cache, configs) == []
  {
    if configs != [] {
      assert configs == configs[..|configs| - 1] + [configs[|configs| - 1]];
      NoneUncached(cache, configs[..|configs| - 1]);
    }
  }

  /**
   After everything was disconnected nothing is registered, in an exact index, but
   the tool lists are still known: preparing known servers registers exactly the
   tools of their lists, and connects to none of them.
   */
  lemma PrepareAfterDisconnectAll(s: Index, configs: seq<ServerConfig>, outcome: string -> ConnectOutcome)
    requires forall c | c in configs :: c.name in s.toolInfoCache
    ensures var gone := Apply(s, ClearAll);
            var back := Execute(gone, PrepareSteps(gone.toolInfoCache, configs, outcome));
            && Indexed(gone) && ListedAreRegistered(gone) && gone.tools == map[] && gone.connections == {}
            && Indexed(back) && back.tools == CachedTools(s.toolInfoCache, configs)
            && back.connections == {} && back.toolInfoCache == s.toolInfoCache
  {
    PrepareKnown(Apply(s, ClearAll), configs, outcome);
  }

  /** Known servers are prepared without a connection. */
  lemma PrepareKnown(s: Index, configs: seq<ServerConfig>, outcome: string -> ConnectOutcome)
    requires Indexed(s) && s.tools == map[] && forall c | c in configs :: c.name in s.toolInfoCache
    ensures var back := Execute(s, PrepareSteps(s.toolInfoCache, configs, outcome));
            && Indexed(back) && back.tools == CachedTools(s.toolInfoCache, configs)
            && back.connections == s.connections && back.toolInfoCache == s.toolInfoCache
  {
    var steps, added := CachedSteps(configs), CachedTools(s.toolInfoCache, configs);
    NoneUncached(s.toolInfoCache, configs);
    assert PrepareSteps(s.toolInfoCache, configs, outcome) == steps + [] == steps;
    CachedStepsRun(s, configs);
    ReachableIsIndexed(s, steps);
    assert map[] + added == added;
  }

  // ------------------------------------------------- what the calls do alone

  datatype ConnectOutcome = ConnectFails | ListFails | Lists(infos: seq<ToolInfo>)

  function UncachedIn(cache: map<string, seq<ToolInfo>>, configs: seq<ServerConfig>): seq<ServerConfig> {
    if configs == [] then []
    else
      var front, last := UncachedIn(cache, configs[..|configs| - 1]), configs[|configs| - 1];
      if last.name in cache then front else front + [last]
  }

  function CachedSteps(configs: seq<ServerConfig>): seq<Step> {
    if configs == [] then []
    else
      var last := configs[|configs| - 1];
      CachedSteps(configs[..|configs| - 1]) + [SetPending(last), RegisterCached(last)]
  }

  function ConnectSteps(configs: seq<ServerConfig>, outcome: string -> ConnectOutcome): seq<Step> {
    if configs == [] then []
    else
      var last := configs[|configs| - 1];
      ConnectSteps(configs[..|configs| - 1], outcome)
      + (match outcome(last.name)
         case ConnectFails => []
         case ListFails => [Connected(last.name)]
         case Lists(infos) => [Connected(last.name), Discovered(last, infos)])
  }

  /** Known servers from the cache first; then one connection for each server seen for the first time. */
  function PrepareSteps(cache: map<string, seq<ToolInfo>>, configs: seq<ServerConfig>,
                        outcome: string -> ConnectOutcome): seq<Step> {
    CachedSteps(configs) + ConnectSteps(UncachedIn(cache, configs), outcome)
  }

  lemma {:induction false} UncachedAreThoseUnknown(cache: map<string, seq<ToolInfo>>, configs: seq<ServerConfig>)
    ensures forall c :: c in UncachedIn(cache, configs) <==> c in configs && c.name !in cache
  {
    if configs != [] {
      assert configs == configs[..|configs| - 1] + [configs[|configs| - 1]];
      UncachedAreThoseUnknown(cache, configs[..|configs| - 1]);
    }
  }

  /** What connecting to `configs` makes of connections and known tool lists. */
  ghost predicate ConnectsTo(s: Index, r: Index, configs: seq<ServerConfig>, outcome: string -> ConnectOutcome) {
    && (forall n :: n in r.connections
          <==> n in s.connections || exists c :: c in configs && c.name == n && !outcome(n).ConnectFails?)
    && (forall n :: n in r.toolInfoCache
          <==> n in s.toolInfoCache || exists c :: c in configs && c.name == n && outcome(n).Lists?)
    && (forall c | c in configs && outcome(c.name).Lists? ::
          c.name in r.toolInfoCache && r.toolInfoCache[c.name] == outcome(c.name).infos)
  }

  lemma ConnectsToOneMore(s: Index, r: Index, configs: seq<ServerConfig>, c: ServerConfig,
                          outcome: string -> ConnectOutcome, r': Index)
    requires ConnectsTo(s, r, configs, outcome)
    requires r'.connections == if outcome(c.name).ConnectFails? then r.connections else r.connections + {c.name}
    requires r'.toolInfoCache
          == if outcome(c.name).Lists? then r.toolInfoCache[c.name := outcome(c.name).infos] else r.toolInfoCache
    ensures ConnectsTo(s, r', configs + [c], outcome)
  {
    assert forall x :: x in configs + [c] <==> x in configs || x == c;
    forall n
      ensures n in r'.connections
         <==> n in s.connections || exists x :: x in configs + [c] && x.name == n && !outcome(n).ConnectFails?
    {
      assert c in configs + [c];
    }
    forall n
      ensures n in r'.toolInfoCache
         <==> n in s.toolInfoCache || exists x :: x in configs + [c] && x.name == n && outcome(n).Lists?
    {
      assert c in configs + [c];
    }
  }

  lemma ConnectOne(r: Index, c: ServerConfig, outcome: string -> ConnectOutcome, steps: seq<Step>)
    requires steps == match outcome(c.name)
                      case ConnectFails => []
                      case ListFails => [Connected(c.name)]
                      case Lists(infos) => [Connected(c.name), Discovered(c, infos)]
    ensures var r' := Execute(r, steps);
            && r'.connections == (if outcome(c.name).ConnectFails? then r.connections else r.connections + {c.name})
            && r'.toolInfoCache
               == (if outcome(c.name).Lists? then r.toolInfoCache[c.name := outcome(c.name).infos]
                   else r.toolInfoCache)
  {
    match outcome(c.name) {
      case ConnectFails =>
      case ListFails =>
        assert [Connected(c.name)][1..] == [];
      case Lists(infos) =>
        TwoSteps(r, Connected(c.name), Discovered(c, infos));
    }
  }

  lemma LastConnectSteps(s: Index, configs: seq<ServerConfig>, outcome: string -> ConnectOutcome)
    returns (before: Index, after: Index)
    requires configs != []
    ensures before == Execute(s, ConnectSteps(configs[..|configs| - 1], outcome))
    ensures after == Execute(s, ConnectSteps(configs, outcome))
    ensures var c := configs[|configs| - 1];
            && after.connections
               == (if outcome(c.name).ConnectFails? then before.connections else before.connections + {c.name})
            && after.toolInfoCache
               == (if outcome(c.name).Lists? then before.toolInfoCache[c.name := outcome(c.name).infos]
                   else before.toolInfoCache)
  {
    var steps := ConnectSteps(configs[..|configs| - 1], outcome);
    var rest := ConnectSteps(configs, outcome)[|steps|..];
    assert ConnectSteps(configs, outcome) == steps + rest;
    before, after := Execute(s, steps), Execute(s, steps + rest);
    ExecuteAppend(s, steps, rest);
    ConnectOne(before, configs[|configs| - 1], outcome, rest);
  }

  lemma {:induction false} ConnectingConnects(s: Index, configs: seq<ServerConfig>, outcome: string -> ConnectOutcome)
    ensures ConnectsTo(s, Execute(s, ConnectSteps(configs, outcome)), configs, outcome)
    decreases |configs|
  {
    if configs != [] {
      var front, last := configs[..|configs| - 1], configs[|configs| - 1];
      ConnectingConnects(s, front, outcome);
      var before, after := LastConnectSteps(s, configs, outcome);
      ConnectsToOneMore(s, before, front, last, outcome, after);
      assert front + [last] == configs;
    }
  }

  /**
   Preparing connects exactly to the servers with no known tool list that can be
   reached, and from then on knows the lists of those that gave one.
   */
  lemma PrepareConnectsToUnknown(s: Index, configs: seq<ServerConfig>, outcome: string -> ConnectOutcome)
    ensures var r := Execute(s, PrepareSteps(s.toolInfoCache, configs, outcome));
            && (forall n :: n in r.connections
                  <==> || n in s.connections
                       || exists c :: c in configs && c.name == n && n !in s.toolInfoCache && !outcome(n).ConnectFails?)
            && (forall n :: n in r.toolInfoCache
                  <==> || n in s.toolInfoCache
                       || exists c :: c in configs && c.name == n && outcome(n).Lists?)
            && (forall c | c in configs && c.name !in s.toolInfoCache && outcome(c.name).Lists? ::
                  c.name in r.toolInfoCache && r.toolInfoCache[c.name] == outcome(c.name).infos)
  {
    var middle, unknown := Execute(s, CachedSteps(configs)), UncachedIn(s.toolInfoCache, configs);
    CachedStepsRun(s, configs);
    ExecuteAppend(s, CachedSteps(configs), ConnectSteps(unknown, outcome));
    ConnectingConnects(middle, unknown, outcome);
    UncachedAreThoseUnknown(s.toolInfoCache, configs);
  }

  /** A server whose stale connection was dropped keeps its tools, and a later disconnect leaves them too. */
  lemma StaleServerKeepsItsTools(s: Index, server: string)
    ensures var stale := Apply(s, DropStale(server));
            && server !in stale.connections && stale == s.(connections := stale.connections)
            && Execute(stale, [DisconnectBegin(server), DisconnectEnd(server)]) == stale
  {
    var stale := Apply(s, DropStale(server));
    TwoSteps(stale, DisconnectBegin(server), DisconnectEnd(server));
    assert stale.connections - {server} == stale.connections;
  }

  // --------------------------------------------------------- implementation

  /** The ids registered from the cache, in the order of the configurations. */
  function CachedIds(cache: map<string, seq<ToolInfo>>, configs: seq<ServerConfig>): seq<string> {
    if configs == [] then []
    else
      var front, last := CachedIds(cache, configs[..|configs| - 1]), configs[|configs| - 1];
      if last.name in cache then front + IdsFor(last, cache[last.name]) else front
  }

  /** The ids discovered by connecting. */
  function DiscoveredIds(configs: seq<ServerConfig>, outcome: string -> ConnectOutcome): seq<string> {
    if configs == [] then []
    else
      var front, last := DiscoveredIds(configs[..|configs| - 1], outcome), configs[|configs| - 1];
      if outcome(last.name).Lists? then front + IdsFor(last, outcome(last.name).infos) else front
  }

  function IdsFor(c: ServerConfig, infos: seq<ToolInfo>): seq<string> {
    if infos == [] then [] else IdsFor(c, infos[..|infos| - 1]) + [ToolFor(c, infos[|infos| - 1]).id]
  }

  lemma {:induction false} IdsAreRegistered(c: ServerConfig, infos: seq<ToolInfo>)
    ensures forall id :: id in IdsFor(c, infos) <==> id in ToolsFrom(c, infos)
  {
    if infos != [] {
      IdsAreRegistered(c, infos[..|infos| - 1]);
    }
  }

  lemma UpdateSum<V>(a: map<string, V>, b: map<string, V>, k: string, v: V)
    ensures (a + b)[k := v] == a + b[k := v]
  {
  }

  lemma SchemaOfOneMore(tools: map<string, ExecutableTool>, tool: ExecutableTool)
    ensures SchemasOf(tools[tool.id := tool]) == SchemasOf(tools)[tool.id := tool.info.schema]
  {
  }

  /** The three maps after registering `infos` on top of what was there. */
  ghost predicate Extended(tools0: map<string, ExecutableTool>, schemas0: map<string, string>, ids0: set<string>,
                           c: ServerConfig, infos: seq<ToolInfo>,
                           tools: map<string, ExecutableTool>, schemas: map<string, string>, ids: set<string>) {
    var added := ToolsFrom(c, infos);
    tools == tools0 + added && schemas == schemas0 + SchemasOf(added) && ids == ids0 + added.Keys
  }

  lemma ExtendedByOne(tools0: map<string, ExecutableTool>, schemas0: map<string, string>, ids0: set<string>,
                      c: ServerConfig, infos: seq<ToolInfo>, info: ToolInfo,
                      tools: map<string, ExecutableTool>, schemas: map<string, string>, ids: set<string>)
    requires Extended(tools0, schemas0, ids0, c, infos, tools, schemas, ids)
    ensures var tool := ToolFor(c, info);
            Extended(tools0, schemas0, ids0, c, infos + [info], tools[tool.id := tool],
                     schemas[tool.id := info.schema], ids + {tool.id})
    ensures IdsFor(c, infos + [info]) == IdsFor(c, infos) + [ToolFor(c, info).id]
  {
    var added, tool := ToolsFrom(c, infos), ToolFor(c, info);
    assert (infos + [info])[..|infos|] == infos;
    UpdateSum(tools0, added, tool.id, tool);
    SchemaOfOneMore(added, tool);
    UpdateSum(schemas0, SchemasOf(added), tool.id, info.schema);
  }

  lemma AllExtended(s: Index, ids0: set<string>, c: ServerConfig, infos: seq<ToolInfo>,
                    tools: map<string, ExecutableTool>, schemas: map<string, string>, ids: set<string>)
    requires Extended(s.tools, s.toolSchemas, ids0, c, infos, tools, schemas, ids) && ids0 == IdsOf(s, c.name)
    ensures s.(tools := tools, toolSchemas := schemas, serverToolIds := s.serverToolIds[c.name := ids])
              == Register(s, c, infos)
    ensures forall id | id in IdsFor(c, infos) :: id in tools
  {
    IdsAreRegistered(c, infos);
  }

  lemma NothingRemoved<V>(m: map<string, V>, k: string)
    requires k !in m
    ensures m - {k} == m
  {
  }

  lemma NoneRemoved<V>(m: map<string, V>)
    ensures m - {} == m
  {
  }

  class Manager {
    var connections: set<string>
    var tools: map<string, ExecutableTool>
    var toolSchemas: map<string, string>
    var serverToolIds: map<string, set<string>>
    var toolInfoCache: map<string, seq<ToolInfo>>
    var pendingConfigs: map<string, ServerConfig>

    function State(): Index
      reads this
    {
      Index(connections, tools, toolSchemas, serverToolIds, toolInfoCache, pendingConfigs)
    }

    constructor ()
      ensures State() == EMPTY
    {
      connections, tools, toolSchemas, serverToolIds := {}, map[], map[], map[];
      toolInfoCache, pendingConfigs := map[], map[];
    }

    method RegisterToolsFromInfo(config: ServerConfig, infos: seq<ToolInfo>) returns (ids: seq<string>)
      modifies this`tools, this`toolSchemas, this`serverToolIds
      ensures State() == Register(old(State()), config, infos)
      ensures ids == IdsFor(config, infos) && forall id | id in ids :: id in tools
    {
      ids := [];
      var existing := if config.name in serverToolIds then serverToolIds[config.name] else {};
      ghost var before := existing;
      for i := 0 to |infos|
        invariant Extended(old(tools), old(toolSchemas), before, config, infos[..i], tools, toolSchemas, existing)
        invariant serverToolIds == old(serverToolIds)
        invariant ids == IdsFor(config, infos[..i])
      {
        assert infos[..i + 1] == infos[..i] + [infos[i]];
        var tool := ToolFor(config, infos[i]);
        ExtendedByOne(old(tools), old(toolSchemas), before, config, infos[..i], infos[i], tools, toolSchemas, existing);
        tools := tools[tool.id := tool];
        toolSchemas := toolSchemas[tool.id := infos[i].schema];
        existing := existing + {tool.id};
        ids := ids + [tool.id];
      }
      assert infos[..|infos|] == infos;
      AllExtended(old(State()), before, config, infos, tools, toolSchemas, existing);
      serverToolIds := serverToolIds[config.name := existing];
    }

    /** Removes a connected server with its tools; does nothing for one that is not connected. */
    method Disconnect(server: string)
      modifies this`connections, this`tools, this`toolSchemas, this`serverToolIds
      ensures State() == Execute(old(State()), [DisconnectBegin(server), DisconnectEnd(server)])
    {
      TwoSteps(State(), DisconnectBegin(server), DisconnectEnd(server));
      if server !in connections {
        assert connections - {server} == connections;
        return;
      }
      if server in serverToolIds {
        RemoveTools(serverToolIds[server]);
        serverToolIds := serverToolIds - {server};
      } else {
        NothingRemoved(serverToolIds, server);
        NoneRemoved(tools);
        NoneRemoved(toolSchemas);
      }
      connections := connections - {server};
    }

    method RemoveTools(ids: set<string>)
      modifies this`tools, this`toolSchemas
      ensures tools == old(tools) - ids && toolSchemas == old(toolSchemas) - ids
    {
      var rest := ids;
      while rest != {}
        invariant rest <= ids
        invariant tools == old(tools) - (ids - rest) && toolSchemas == old(toolSchemas) - (ids - rest)
      {
        var id :| id in rest;
        assert (ids - rest) + {id} == ids - (rest - {id});
        tools, toolSchemas := tools - {id}, toolSchemas - {id};
        rest := rest - {id};
      }
      assert ids - rest == ids;
    }

    method DisconnectAll()
      modifies this`connections, this`tools, this`toolSchemas, this`serverToolIds
      ensures State() == Apply(old(State()), ClearAll)
    {
      connections, tools, toolSchemas, serverToolIds := {}, map[], map[], map[];
    }

    /** Run without interruption, the call does the steps of its segments, in order. */
    method PrepareTools(configs: seq<ServerConfig>, outcome: string -> ConnectOutcome) returns (ids: seq<string>)
      modifies this
      ensures State() == Execute(old(State()), PrepareSteps(old(toolInfoCache), configs, outcome))
      ensures ids == CachedIds(old(toolInfoCache), configs)
                     + DiscoveredIds(UncachedIn(old(toolInfoCache), configs), outcome)
      ensures forall id | id in ids :: id in tools
    {
      var toConnect: seq<ServerConfig> := [];
      ids := [];
      for i := 0 to |configs|
        invariant State() == Execute(old(State()), CachedSteps(configs[..i]))
        invariant toolInfoCache == old(toolInfoCache) && toConnect == UncachedIn(old(toolInfoCache), configs[..i])
        invariant ids == CachedIds(old(toolInfoCache), configs[..i])
        invariant forall id | id in ids :: id in tools
      {
        var config := configs[i];
        assert configs[..i + 1][..i] == configs[..i];
        ghost var before := State();
        ExecuteAppend(old(State()), CachedSteps(configs[..i]), [SetPending(config), RegisterCached(config)]);
        TwoSteps(before, SetPending(config), RegisterCached(config));
        pendingConfigs := pendingConfigs[config.name := config];
        if config.name in toolInfoCache {
          var more := RegisterToolsFromInfo(config, toolInfoCache[config.name]);
          ids := ids + more;
        } else {
          toConnect := toConnect + [config];
        }
      }
      assert configs[..|configs|] == configs;
      ghost var middle := State();
      var more := ConnectTo(toConnect, outcome);
      ids := ids + more;
      ExecuteAppend(old(State()), CachedSteps(configs), ConnectSteps(toConnect, outcome));
    }

    /** One connection after the other; a failed one is skipped. */
    method ConnectTo(toConnect: seq<ServerConfig>, outcome: string -> ConnectOutcome) returns (ids: seq<string>)
      modifies this
      ensures State() == Execute(old(State()), ConnectSteps(toConnect, outcome))
      ensures ids == DiscoveredIds(toConnect, outcome)
      ensures forall id | id in ids || id in old(tools) :: id in tools
    {
      ids := [];
      for i := 0 to |toConnect|
        invariant State() == Execute(old(State()), ConnectSteps(toConnect[..i], outcome))
        invariant ids == DiscoveredIds(toConnect[..i], outcome)
        invariant forall id | id in ids || id in old(tools) :: id in tools
      {
        var config := toConnect[i];
        assert toConnect[..i + 1][..i] == toConnect[..i];
        ghost var before := State();
        match outcome(config.name) {
          case ConnectFails =>
            assert ConnectSteps(toConnect[..i + 1], outcome) == ConnectSteps(toConnect[..i], outcome);
          case ListFails =>
            ExecuteAppend(old(State()), ConnectSteps(toConnect[..i], outcome), [Connected(config.name)]);
            assert [Connected(config.name)][1..] == [];
            connections := connections + {config.name};
          case Lists(infos) =>
            ExecuteAppend(old(State()), ConnectSteps(toConnect[..i], outcome),
                          [Connected(config.name), Discovered(config, infos)]);
            TwoSteps(before, Connected(config.name), Discovered(config, infos));
            connections := connections + {config.name};
            toolInfoCache := toolInfoCache[config.name := infos];
            var more := RegisterToolsFromInfo(config, infos);
            ids := ids + more;
        }
      }
      assert toConnect[..|toConnect|] == toConnect;
    }

    /**
     At execution time: a connection that answers is reused. One that is marked
     connected but does not answer is dropped first; then the server is connected
     again, if its configuration is known.
     */
    method EnsureConnected(server: string, markedConnected: bool, answers: bool, reconnects: bool) returns (ok: bool)
      modifies this`connections
      ensures ok <==> || (server in old(connections) && markedConnected && answers)
                      || (server in pendingConfigs && reconnects)
      ensures connections == if ok then old(connections) + {server}
                             else if markedConnected then old(connections) - {server}
                             else old(connections)
    {
      if server in connections && markedConnected {
        if answers {
          return true;
        }
        connections := connections - {server};
      }
      if server !in pendingConfigs || !reconnects {
        return false;
      }
      connections := connections + {server};
      ok := true;
    }
  }
}
