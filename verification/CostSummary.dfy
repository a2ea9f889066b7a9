/**
 The cost summary (src/cost/prisma-usage-store.ts, `getCostSummary` and
 `getAgentSpend`): one pass over the period's usage records, newest first,
 fills four insertion-ordered maps. Costs are exact.
 */
module CostSummary {
  import opened Wrappers
  import opened Sums
  import opened StableSort
  import opened InsertionMap

  datatype Record = Record(model: string, projectId: string, agentId: Option<string>, clientId: Option<string>,
                           costUSD: real, inputTokens: nat, outputTokens: nat)

  /** What every aggregate carries, with the fields of its own kind in `extra`. */
  datatype Bucket<X> = Bucket(costUSD: real, requests: nat, extra: X)

  type Buckets<X> = seq<Entry<string, Bucket<X>>>

  datatype Plain = Plain

  datatype AgentExtra = AgentExtra(inputTokens: nat, outputTokens: nat, avgCostPerRequest: real, topModel: string)

  datatype Summary = Summary(totalCostUSD: real, byProject: Buckets<Plain>, byClient: Buckets<Buckets<AgentExtra>>,
                             byAgent: Buckets<AgentExtra>, byModel: Buckets<Plain>, topExpensive: Buckets<AgentExtra>)

  /** The names and budgets that the database holds when the pass is over. */
  datatype Directory = Directory(projects: map<string, string>, agents: map<string, string>,
                                 clients: map<string, ClientRecord>)

  datatype ClientRecord = ClientRecord(name: string, monthlyBudgetUSD: Option<real>)

  datatype AgentSpend = AgentSpend(agentId: string, agentName: string, spend: Bucket<AgentExtra>)

  datatype ClientSpend = ClientSpend(clientId: string, clientName: string, spend: Bucket<Buckets<AgentExtra>>,
                                     budgetUSD: Option<real>, budgetUsedPercent: Option<real>)

  datatype ProjectSpend = ProjectSpend(projectId: string, projectName: string, spend: Bucket<Plain>,
                                       agents: seq<AgentSpend>, clients: seq<ClientSpend>)

  datatype Report = Report(totalCostUSD: real, byProject: seq<ProjectSpend>, byClient: seq<ClientSpend>,
                           byAgent: seq<AgentSpend>, byModel: Buckets<Plain>, topExpensive: seq<AgentSpend>)

  // ------------------------------------------- what a bucket should contain

  /** A missing and an empty identifier both count as none. */
  function Present(id: Option<string>): Option<string> {
    if id.Some? && id.value != "" then id else None
  }

  datatype Dimension = OfModel | OfProject | OfAgent | OfClient | AgentWithinClient(client: string)

  /** The bucket a record belongs to. A client is only charged for records that also name an agent. */
  function KeyOf(d: Dimension, r: Record): Option<string> {
    match d
    case OfModel => Some(r.model)
    case OfProject => Some(r.projectId)
    case OfAgent => Present(r.agentId)
    case OfClient => if Present(r.agentId).Some? then Present(r.clientId) else None
    case AgentWithinClient(c) =>
      if Present(r.agentId).Some? && Present(r.clientId) == Some(c) then Present(r.agentId) else None
  }

  function CostOf(rs: seq<Record>, d: Dimension, k: string): real {
    if rs == [] then 0.0
    else CostOf(rs[..|rs| - 1], d, k) + (if KeyOf(d, rs[|rs| - 1]) == Some(k) then rs[|rs| - 1].costUSD else 0.0)
  }

  function CountOf(rs: seq<Record>, d: Dimension, k: string): nat {
    if rs == [] then 0
    else CountOf(rs[..|rs| - 1], d, k) + (if KeyOf(d, rs[|rs| - 1]) == Some(k) then 1 else 0)
  }

  /** The cost of the records that belong to any bucket. */
  function CoveredCost(rs: seq<Record>, d: Dimension): real {
    if rs == [] then 0.0
    else CoveredCost(rs[..|rs| - 1], d) + (if KeyOf(d, rs[|rs| - 1]).Some? then rs[|rs| - 1].costUSD else 0.0)
  }

  function CoveredCount(rs: seq<Record>, d: Dimension): nat {
    if rs == [] then 0
    else CoveredCount(rs[..|rs| - 1], d) + (if KeyOf(d, rs[|rs| - 1]).Some? then 1 else 0)
  }

  function TotalCost(rs: seq<Record>): real {
    if rs == [] then 0.0 else TotalCost(rs[..|rs| - 1]) + rs[|rs| - 1].costUSD
  }

  predicate BucketIs<X>(b: Option<Bucket<X>>, cost: real, count: nat) {
    if count == 0 then b.None? else b.Some? && b.value.costUSD == cost && b.value.requests == count
  }

  /** Exactly one bucket for each key that occurs, holding the cost and number of its own records. */
  ghost predicate Agrees<X(!new)>(m: Buckets<X>, rs: seq<Record>, d: Dimension) {
    && Distinct(m)
    && forall k :: BucketIs(Get(m, k), CostOf(rs, d, k), CountOf(rs, d, k))
  }

  function CostIn<X>(e: Entry<string, Bucket<X>>): real { e.value.costUSD }

  function RequestsIn<X>(e: Entry<string, Bucket<X>>): real { e.value.requests as real }

  ghost predicate Conserves<X>(m: Buckets<X>, rs: seq<Record>, d: Dimension) {
    && SumBy(m, CostIn) == CoveredCost(rs, d)
    && SumBy(m, RequestsIn) == CoveredCount(rs, d) as real
  }

  // ---------------------------------------------------------- the update

  function Charged<X>(b: Option<Bucket<X>>, cost: real, extra: X): Bucket<X> {
    if b.Some? then Bucket(b.value.costUSD + cost, b.value.requests + 1, extra) else Bucket(cost, 1, extra)
  }

  /** Adds one record to a bucket, creating it on first use. */
  function Bump<X>(m: Buckets<X>, k: string, cost: real, extra: X): Buckets<X> {
    Set(m, k, Charged(Get(m, k), cost, extra))
  }

  lemma BumpGet<X>(m: Buckets<X>, k: string, cost: real, extra: X) returns (r: Buckets<X>)
    requires Distinct(m)
    ensures r == Bump(m, k, cost, extra) && Distinct(r)
    ensures Get(r, k) == Some(Charged(Get(m, k), cost, extra))
    ensures forall k' | k' != k :: Get(r, k') == Get(m, k')
  {
    r := Bump(m, k, cost, extra);
    SetGet(m, k, Charged(Get(m, k), cost, extra));
  }

  lemma AnotherRecord(rs: seq<Record>, r: Record, d: Dimension)
    ensures var own := KeyOf(d, r);
            && (forall k :: CostOf(rs + [r], d, k) == CostOf(rs, d, k) + (if own == Some(k) then r.costUSD else 0.0))
            && (forall k :: CountOf(rs + [r], d, k) == CountOf(rs, d, k) + (if own == Some(k) then 1 else 0))
            && CoveredCost(rs + [r], d) == CoveredCost(rs, d) + (if own.Some? then r.costUSD else 0.0)
            && CoveredCount(rs + [r], d) == CoveredCount(rs, d) + (if own.Some? then 1 else 0)
            && TotalCost(rs + [r]) == TotalCost(rs) + r.costUSD
  {
    assert (rs + [r])[..|rs|] == rs;
  }

  lemma {:induction false} NoneCountedCostsNothing(rs: seq<Record>, d: Dimension, k: string)
    requires CountOf(rs, d, k) == 0
    ensures CostOf(rs, d, k) == 0.0
  {
    if rs != [] {
      NoneCountedCostsNothing(rs[..|rs| - 1], d, k);
    }
  }

  lemma BumpAgrees<X(!new)>(m: Buckets<X>, rs: seq<Record>, d: Dimension, r: Record, k: string, extra: X)
    requires Agrees(m, rs, d) && KeyOf(d, r) == Some(k)
    ensures Agrees(Bump(m, k, r.costUSD, extra), rs + [r], d)
  {
    AnotherRecord(rs, r, d);
    if CountOf(rs, d, k) == 0 {
      NoneCountedCostsNothing(rs, d, k);
    }
    var m' := BumpGet(m, k, r.costUSD, extra);
    forall k'
      ensures BucketIs(Get(m', k'), CostOf(rs + [r], d, k'), CountOf(rs + [r], d, k'))
    {
      assert BucketIs(Get(m, k'), CostOf(rs, d, k'), CountOf(rs, d, k'));
    }
  }

  lemma BumpConserves<X(!new)>(m: Buckets<X>, rs: seq<Record>, d: Dimension, r: Record, k: string, extra: X)
    requires Distinct(m) && Conserves(m, rs, d) && KeyOf(d, r) == Some(k)
    ensures Conserves(Bump(m, k, r.costUSD, extra), rs + [r], d)
  {
    AnotherRecord(rs, r, d);
    SetChangesSum(m, k, Charged(Get(m, k), r.costUSD, extra), CostIn);
    SetChangesSum(m, k, Charged(Get(m, k), r.costUSD, extra), RequestsIn);
  }

  lemma SkipKeeps<X(!new)>(m: Buckets<X>, rs: seq<Record>, d: Dimension, r: Record)
    requires Agrees(m, rs, d) && Conserves(m, rs, d) && KeyOf(d, r).None?
    ensures Agrees(m, rs + [r], d) && Conserves(m, rs + [r], d)
  {
    AnotherRecord(rs, r, d);
    forall k
      ensures BucketIs(Get(m, k), CostOf(rs + [r], d, k), CountOf(rs + [r], d, k))
    {
      assert BucketIs(Get(m, k), CostOf(rs, d, k), CountOf(rs, d, k));
    }
  }

  // ------------------------------------------------- the agents' own fields

  function InputTokensOf(rs: seq<Record>, d: Dimension, k: string): nat {
    if rs == [] then 0
    else InputTokensOf(rs[..|rs| - 1], d, k)
         + (if KeyOf(d, rs[|rs| - 1]) == Some(k) then rs[|rs| - 1].inputTokens else 0)
  }

  function OutputTokensOf(rs: seq<Record>, d: Dimension, k: string): nat {
    if rs == [] then 0
    else OutputTokensOf(rs[..|rs| - 1], d, k)
         + (if KeyOf(d, rs[|rs| - 1]) == Some(k) then rs[|rs| - 1].outputTokens else 0)
  }

  /** The model of the bucket's last record that cost anything, or of its first record if none did. */
  function TopModelOf(rs: seq<Record>, d: Dimension, k: string): string {
    if rs == [] then ""
    else
      var front, r := rs[..|rs| - 1], rs[|rs| - 1];
      if KeyOf(d, r) == Some(k) && (CountOf(front, d, k) == 0 || r.costUSD > 0.0) then r.model
      else TopModelOf(front, d, k)
  }

  predicate AgentFieldsAre(b: Option<Bucket<AgentExtra>>, rs: seq<Record>, a: string) {
    b.Some? ==>
      && b.value.requests > 0
      && b.value.extra == AgentExtra(InputTokensOf(rs, OfAgent, a), OutputTokensOf(rs, OfAgent, a),
                                     b.value.costUSD / b.value.requests as real, TopModelOf(rs, OfAgent, a))
  }

  ghost predicate AgentsAgree(m: Buckets<AgentExtra>, rs: seq<Record>) {
    && Agrees(m, rs, OfAgent) && Conserves(m, rs, OfAgent)
    && forall a :: AgentFieldsAre(Get(m, a), rs, a)
  }

  /** A client's line for an agent keeps the tokens, average and model of the first record it was created from. */
  function FirstFieldsOf(rs: seq<Record>, client: string, a: string): AgentExtra {
    if rs == [] then AgentExtra(0, 0, 0.0, "")
    else
      var front, r := rs[..|rs| - 1], rs[|rs| - 1];
      if KeyOf(AgentWithinClient(client), r) == Some(a) && CountOf(front, AgentWithinClient(client), a) == 0
      then FieldsFrom(r)
      else FirstFieldsOf(front, client, a)
  }

  function FieldsFrom(r: Record): AgentExtra {
    AgentExtra(r.inputTokens, r.outputTokens, r.costUSD, r.model)
  }

  predicate LineFieldsAre(b: Option<Bucket<AgentExtra>>, rs: seq<Record>, client: string, a: string) {
    b.Some? ==> b.value.extra == FirstFieldsOf(rs, client, a)
  }

  /** A client's lines: one per agent, each with its own records, adding up to the client's own total. */
  ghost predicate LinesAgree(lines: Buckets<AgentExtra>, rs: seq<Record>, client: string) {
    && Agrees(lines, rs, AgentWithinClient(client)) && Conserves(lines, rs, AgentWithinClient(client))
    && forall a :: LineFieldsAre(Get(lines, a), rs, client, a)
  }

  ghost predicate ClientIs(b: Option<Bucket<Buckets<AgentExtra>>>, rs: seq<Record>, client: string) {
    b.Some? ==> LinesAgree(b.value.extra, rs, client)
  }

  ghost predicate ClientsAgree(m: Buckets<Buckets<AgentExtra>>, rs: seq<Record>) {
    && Agrees(m, rs, OfClient) && Conserves(m, rs, OfClient)
    && forall c :: ClientIs(Get(m, c), rs, c)
  }

  // -------------------------------------------------- client and its agents

  /** What a client is charged is what its agents are charged for it. */
  lemma {:induction false} ClientIsItsAgents(rs: seq<Record>, client: string)
    ensures CostOf(rs, OfClient, client) == CoveredCost(rs, AgentWithinClient(client))
    ensures CountOf(rs, OfClient, client) == CoveredCount(rs, AgentWithinClient(client))
  {
    if rs != [] {
      ClientIsItsAgents(rs[..|rs| - 1], client);
    }
  }

  lemma {:induction false} NothingCovered(rs: seq<Record>, d: Dimension)
    requires CoveredCount(rs, d) == 0
    ensures CoveredCost(rs, d) == 0.0 && forall k :: CountOf(rs, d, k) == 0
  {
    if rs != [] {
      NothingCovered(rs[..|rs| - 1], d);
    }
  }

  lemma NewClientHasNoLines(rs: seq<Record>, client: string)
    requires CountOf(rs, OfClient, client) == 0
    ensures LinesAgree([], rs, client)
  {
    ClientIsItsAgents(rs, client);
    NothingCovered(rs, AgentWithinClient(client));
    assert forall a: string :: Get<string, Bucket<AgentExtra>>([], a).None?;
  }

  // --------------------------------------------------------- implementation

  method Charge<X(!new)>(m: Buckets<X>, r: Record, k: string, extra: X, ghost rs: seq<Record>, ghost d: Dimension)
    returns (m': Buckets<X>)
    requires Agrees(m, rs, d) && Conserves(m, rs, d) && KeyOf(d, r) == Some(k)
    ensures Agrees(m', rs + [r], d) && Conserves(m', rs + [r], d)
    ensures Get(m', k) == Some(Charged(Get(m, k), r.costUSD, extra))
    ensures forall k' | k' != k :: Get(m', k') == Get(m, k')
  {
    m' := Bump(m, k, r.costUSD, extra);
    BumpAgrees(m, rs, d, r, k, extra);
    BumpConserves(m, rs, d, r, k, extra);
    ghost var same := BumpGet(m, k, r.costUSD, extra);
  }

  method ChargeAgent(agentMap: Buckets<AgentExtra>, r: Record, a: string, ghost rs: seq<Record>)
    returns (m: Buckets<AgentExtra>)
    requires AgentsAgree(agentMap, rs) && KeyOf(OfAgent, r) == Some(a)
    ensures AgentsAgree(m, rs + [r])
  {
    var existing := Get(agentMap, a);
    var inputTokens, outputTokens, topModel, cost, requests := 0, 0, r.model, 0.0, 0;
    if existing.Some? {
      var e := existing.value.extra;
      inputTokens, outputTokens, topModel := e.inputTokens, e.outputTokens, e.topModel;
      cost, requests := existing.value.costUSD, existing.value.requests;
    }
    cost, requests := cost + r.costUSD, requests + 1;
    if r.costUSD > 0.0 {
      topModel := r.model;
    }
    var extra := AgentExtra(inputTokens + r.inputTokens, outputTokens + r.outputTokens,
                            cost / requests as real, topModel);
    m := Charge(agentMap, r, a, extra, rs, OfAgent);
    assert (rs + [r])[..|rs|] == rs;
    assert BucketIs(existing, CostOf(rs, OfAgent, a), CountOf(rs, OfAgent, a));
    AbsentAgentHasNoTokens(rs, a);
    forall k
      ensures AgentFieldsAre(Get(m, k), rs + [r], k)
    {
      assert AgentFieldsAre(Get(agentMap, k), rs, k);
    }
  }

  lemma {:induction false} AbsentAgentHasNoTokens(rs: seq<Record>, a: string)
    ensures CountOf(rs, OfAgent, a) == 0 ==> InputTokensOf(rs, OfAgent, a) == 0 && OutputTokensOf(rs, OfAgent, a) == 0
  {
    if rs != [] {
      AbsentAgentHasNoTokens(rs[..|rs| - 1], a);
    }
  }

  method ChargeLine(lines: Buckets<AgentExtra>, r: Record, c: string, a: string, ghost rs: seq<Record>)
    returns (m: Buckets<AgentExtra>)
    requires LinesAgree(lines, rs, c) && KeyOf(AgentWithinClient(c), r) == Some(a)
    ensures LinesAgree(m, rs + [r], c)
  {
    var existing := Get(lines, a);
    m := Charge(lines, r, a, if existing.Some? then existing.value.extra else FieldsFrom(r), rs, AgentWithinClient(c));
    assert (rs + [r])[..|rs|] == rs;
    assert BucketIs(existing, CostOf(rs, AgentWithinClient(c), a), CountOf(rs, AgentWithinClient(c), a));
    forall k
      ensures LineFieldsAre(Get(m, k), rs + [r], c, k)
    {
      assert LineFieldsAre(Get(lines, k), rs, c, k);
    }
  }

  lemma LinesOfOtherClient(lines: Buckets<AgentExtra>, r: Record, c: string, rs: seq<Record>)
    requires LinesAgree(lines, rs, c) && KeyOf(AgentWithinClient(c), r).None?
    ensures LinesAgree(lines, rs + [r], c)
  {
    SkipKeeps(lines, rs, AgentWithinClient(c), r);
    assert (rs + [r])[..|rs|] == rs;
    forall k
      ensures LineFieldsAre(Get(lines, k), rs + [r], c, k)
    {
      assert LineFieldsAre(Get(lines, k), rs, c, k);
    }
  }

  method ChargeClient(clientMap: Buckets<Buckets<AgentExtra>>, r: Record, c: string, a: string, ghost rs: seq<Record>)
    returns (m: Buckets<Buckets<AgentExtra>>)
    requires ClientsAgree(clientMap, rs) && Present(r.agentId) == Some(a) && Present(r.clientId) == Some(c)
    ensures ClientsAgree(m, rs + [r])
  {
    var existing := Get(clientMap, c);
    var lines := if existing.Some? then existing.value.extra else [];
    assert BucketIs(existing, CostOf(rs, OfClient, c), CountOf(rs, OfClient, c));
    if existing.None? {
      NewClientHasNoLines(rs, c);
    } else {
      assert ClientIs(Get(clientMap, c), rs, c);
    }
    lines := ChargeLine(lines, r, c, a, rs);
    m := Charge(clientMap, r, c, lines, rs, OfClient);
    forall k
      ensures ClientIs(Get(m, k), rs + [r], k)
    {
      assert ClientIs(Get(clientMap, k), rs, k);
      if k != c && Get(clientMap, k).Some? {
        LinesOfOtherClient(Get(clientMap, k).value.extra, r, k, rs);
      }
    }
  }

  lemma NoAgentNoCharge(agentMap: Buckets<AgentExtra>, r: Record, rs: seq<Record>)
    requires AgentsAgree(agentMap, rs) && KeyOf(OfAgent, r).None?
    ensures AgentsAgree(agentMap, rs + [r])
  {
    SkipKeeps(agentMap, rs, OfAgent, r);
    assert (rs + [r])[..|rs|] == rs;
    forall a
      ensures AgentFieldsAre(Get(agentMap, a), rs + [r], a)
    {
      assert AgentFieldsAre(Get(agentMap, a), rs, a);
    }
  }

  lemma NoClientNoCharge(clientMap: Buckets<Buckets<AgentExtra>>, r: Record, rs: seq<Record>)
    requires ClientsAgree(clientMap, rs) && KeyOf(OfClient, r).None?
    ensures ClientsAgree(clientMap, rs + [r])
  {
    SkipKeeps(clientMap, rs, OfClient, r);
    forall c
      ensures ClientIs(Get(clientMap, c), rs + [r], c)
    {
      assert ClientIs(Get(clientMap, c), rs, c);
      if Get(clientMap, c).Some? {
        LinesOfOtherClient(Get(clientMap, c).value.extra, r, c, rs);
      }
    }
  }

  method ChargeAgentAndClient(agentMap: Buckets<AgentExtra>, clientMap: Buckets<Buckets<AgentExtra>>, r: Record,
                              ghost rs: seq<Record>)
    returns (agents: Buckets<AgentExtra>, clients: Buckets<Buckets<AgentExtra>>)
    requires AgentsAgree(agentMap, rs) && ClientsAgree(clientMap, rs)
    ensures AgentsAgree(agents, rs + [r]) && ClientsAgree(clients, rs + [r])
  {
    agents, clients := agentMap, clientMap;
    if r.agentId.Some? && r.agentId.value != "" {
      agents := ChargeAgent(agentMap, r, r.agentId.value, rs);
      if r.clientId.Some? && r.clientId.value != "" {
        clients := ChargeClient(clientMap, r, r.clientId.value, r.agentId.value, rs);
      } else {
        NoClientNoCharge(clientMap, r, rs);
      }
    } else {
      NoAgentNoCharge(agentMap, r, rs);
      NoClientNoCharge(clientMap, r, rs);
    }
  }

  lemma NothingRecorded()
    ensures Agrees<Plain>([], [], OfModel) && Conserves<Plain>([], [], OfModel)
    ensures Agrees<Plain>([], [], OfProject) && Conserves<Plain>([], [], OfProject)
    ensures AgentsAgree([], []) && ClientsAgree([], [])
  {
  }

  /** The single pass over the records. */
  method FoldRecords(records: seq<Record>)
    returns (total: real, modelMap: Buckets<Plain>, projectMap: Buckets<Plain>, agentMap: Buckets<AgentExtra>,
             clientMap: Buckets<Buckets<AgentExtra>>)
    ensures total == TotalCost(records)
    ensures Agrees(modelMap, records, OfModel) && Conserves(modelMap, records, OfModel)
    ensures Agrees(projectMap, records, OfProject) && Conserves(projectMap, records, OfProject)
    ensures AgentsAgree(agentMap, records) && ClientsAgree(clientMap, records)
  {
    total, modelMap, projectMap, agentMap, clientMap := 0.0, [], [], [], [];
    NothingRecorded();
    assert records[..0] == [];
    for i := 0 to |records|
      invariant total == TotalCost(records[..i])
      invariant Agrees(modelMap, records[..i], OfModel) && Conserves(modelMap, records[..i], OfModel)
      invariant Agrees(projectMap, records[..i], OfProject) && Conserves(projectMap, records[..i], OfProject)
      invariant AgentsAgree(agentMap, records[..i]) && ClientsAgree(clientMap, records[..i])
    {
      var r := records[i];
      ghost var rs := records[..i];
      assert records[..i + 1] == rs + [r];
      AnotherRecord(rs, r, OfModel);
      total := total + r.costUSD;
      modelMap := Charge(modelMap, r, r.model, Plain, rs, OfModel);
      projectMap := Charge(projectMap, r, r.projectId, Plain, rs, OfProject);
      agentMap, clientMap := ChargeAgentAndClient(agentMap, clientMap, r, rs);
    }
    assert records[..|records|] == records;
  }

  /** Sorting by cost keeps every bucket and every sum. */
  lemma SortedByCost<X(!new)>(m: Buckets<X>, rs: seq<Record>, d: Dimension) returns (r: Buckets<X>)
    requires Agrees(m, rs, d) && Conserves(m, rs, d)
    ensures r == SortDesc(m, CostIn) && Descending(r, CostIn)
    ensures Agrees(r, rs, d) && Conserves(r, rs, d)
    ensures forall k :: Get(r, k) == Get(m, k)
  {
    r := SortDesc(m, CostIn);
    SortDescSorts(m, CostIn);
    SortKeepsMap(m, CostIn);
    SortDescKeepsSum(m, CostIn, CostIn);
    SortDescKeepsSum(m, CostIn, RequestsIn);
    forall k
      ensures BucketIs(Get(r, k), CostOf(rs, d, k), CountOf(rs, d, k))
    {
      assert BucketIs(Get(m, k), CostOf(rs, d, k), CountOf(rs, d, k));
    }
  }

  lemma SortedAgents(m: Buckets<AgentExtra>, rs: seq<Record>)
    requires AgentsAgree(m, rs)
    ensures AgentsAgree(SortDesc(m, CostIn), rs) && Descending(SortDesc(m, CostIn), CostIn)
  {
    var r := SortedByCost(m, rs, OfAgent);
    forall a
      ensures AgentFieldsAre(Get(r, a), rs, a)
    {
      assert AgentFieldsAre(Get(m, a), rs, a);
    }
  }

  lemma SortedClients(m: Buckets<Buckets<AgentExtra>>, rs: seq<Record>)
    requires ClientsAgree(m, rs)
    ensures ClientsAgree(SortDesc(m, CostIn), rs) && Descending(SortDesc(m, CostIn), CostIn)
  {
    var r := SortedByCost(m, rs, OfClient);
    forall c
      ensures ClientIs(Get(r, c), rs, c)
    {
      assert ClientIs(Get(m, c), rs, c);
    }
  }

  /** Costliest first in every list; each list holds, and adds up to, what it should. */
  ghost predicate IsSummaryOf(s: Summary, records: seq<Record>) {
    && s.totalCostUSD == TotalCost(records)
    && Agrees(s.byModel, records, OfModel) && Conserves(s.byModel, records, OfModel) && Descending(s.byModel, CostIn)
    && Agrees(s.byProject, records, OfProject) && Conserves(s.byProject, records, OfProject)
    && Descending(s.byProject, CostIn)
    && AgentsAgree(s.byAgent, records) && Descending(s.byAgent, CostIn)
    && ClientsAgree(s.byClient, records) && Descending(s.byClient, CostIn)
    && s.topExpensive <= s.byAgent && |s.topExpensive| == if |s.byAgent| < 5 then |s.byAgent| else 5
  }

  /** The figures of the summary, and the agents and clients in the order they first occurred. */
  method Aggregate(records: seq<Record>)
    returns (s: Summary, agentMap: Buckets<AgentExtra>, clientMap: Buckets<Buckets<AgentExtra>>)
    ensures IsSummaryOf(s, records)
    ensures AgentsAgree(agentMap, records) && ClientsAgree(clientMap, records)
    ensures s.byAgent == SortDesc(agentMap, CostIn) && s.byClient == SortDesc(clientMap, CostIn)
  {
    var total, modelMap, projectMap;
    total, modelMap, projectMap, agentMap, clientMap := FoldRecords(records);
    ghost var models := SortedByCost(modelMap, records, OfModel);
    ghost var projects := SortedByCost(projectMap, records, OfProject);
    SortedAgents(agentMap, records);
    SortedClients(clientMap, records);
    var byAgent := SortDesc(agentMap, CostIn);
    s := Summary(total, SortDesc(projectMap, CostIn), SortDesc(clientMap, CostIn), byAgent, SortDesc(modelMap, CostIn),
                 if |byAgent| < 5 then byAgent else byAgent[..5]);
  }

  // ---------------------------------------------------- names and attachments

  function ShortId(id: string): string {
    if |id| <= 8 then id else id[..8]
  }

  function AgentView(dir: Directory, e: Entry<string, Bucket<AgentExtra>>): AgentSpend {
    AgentSpend(e.key, if e.key in dir.agents then dir.agents[e.key] else "Agent " + ShortId(e.key), e.value)
  }

  /** A client's monthly budget; a budget of zero counts as none. */
  function BudgetOf(dir: Directory, client: string): Option<real> {
    if client in dir.clients && dir.clients[client].monthlyBudgetUSD != Some(0.0)
    then dir.clients[client].monthlyBudgetUSD
    else None
  }

  /** A client without a budget also keeps its provisional name. */
  function ClientView(dir: Directory, e: Entry<string, Bucket<Buckets<AgentExtra>>>): ClientSpend {
    var budget := BudgetOf(dir, e.key);
    if budget.Some?
    then ClientSpend(e.key, dir.clients[e.key].name, e.value, budget, Some(PercentOf(e.value.costUSD, budget.value)))
    else ClientSpend(e.key, "Client " + ShortId(e.key), e.value, None, None)
  }

  function PercentOf(cost: real, budget: real): real
    requires budget != 0.0
  {
    cost / budget * 100.0
  }

  ghost predicate UsesAgent(rs: seq<Record>, projectId: string, a: string) {
    exists r :: r in rs && r.projectId == projectId && r.agentId == Some(a)
  }

  ghost predicate UsesClient(rs: seq<Record>, projectId: string, c: string) {
    exists r :: r in rs && r.projectId == projectId && r.clientId == Some(c)
  }

  /** The agents that a project's records name, in the order they first occurred anywhere. */
  ghost function AttachedAgents(dir: Directory, rs: seq<Record>, projectId: string,
                                m: Buckets<AgentExtra>): seq<AgentSpend> {
    if m == [] then []
    else
      var front, e := AttachedAgents(dir, rs, projectId, m[..|m| - 1]), m[|m| - 1];
      if UsesAgent(rs, projectId, e.key) then front + [AgentView(dir, e)] else front
  }

  ghost function AttachedClients(dir: Directory, rs: seq<Record>, projectId: string, m: Buckets<Buckets<AgentExtra>>):
    seq<ClientSpend>
  {
    if m == [] then []
    else
      var front, e := AttachedClients(dir, rs, projectId, m[..|m| - 1]), m[|m| - 1];
      if UsesClient(rs, projectId, e.key) then front + [ClientView(dir, e)] else front
  }

  method SomeRecord(rs: seq<Record>, projectId: string, agentId: Option<string>, clientId: Option<string>)
    returns (found: bool)
    ensures agentId.Some? && clientId.None? ==> (found <==> UsesAgent(rs, projectId, agentId.value))
    ensures clientId.Some? && agentId.None? ==> (found <==> UsesClient(rs, projectId, clientId.value))
  {
    for i := 0 to |rs|
      invariant forall r | r in rs[..i] :: r.projectId != projectId
                  || !(agentId.Some? ==> r.agentId == agentId) || !(clientId.Some? ==> r.clientId == clientId)
    {
      var r := rs[i];
      if r.projectId == projectId
         && (agentId.Some? ==> r.agentId == agentId) && (clientId.Some? ==> r.clientId == clientId)
      {
        assert r in rs;
        return true;
      }
      assert rs[..i + 1] == rs[..i] + [r];
    }
    assert rs[..|rs|] == rs;
    return false;
  }

  method AttachAgents(dir: Directory, records: seq<Record>, projectId: string, m: Buckets<AgentExtra>)
    returns (agents: seq<AgentSpend>)
    ensures agents == AttachedAgents(dir, records, projectId, m)
  {
    agents := [];
    for i := 0 to |m|
      invariant agents == AttachedAgents(dir, records, projectId, m[..i])
    {
      assert m[..i + 1][..i] == m[..i];
      var used := SomeRecord(records, projectId, Some(m[i].key), None);
      if used {
        agents := agents + [AgentView(dir, m[i])];
      }
    }
    assert m[..|m|] == m;
  }

  method AttachClients(dir: Directory, records: seq<Record>, projectId: string, m: Buckets<Buckets<AgentExtra>>)
    returns (clients: seq<ClientSpend>)
    ensures clients == AttachedClients(dir, records, projectId, m)
  {
    clients := [];
    for i := 0 to |m|
      invariant clients == AttachedClients(dir, records, projectId, m[..i])
    {
      assert m[..i + 1][..i] == m[..i];
      var used := SomeRecord(records, projectId, None, Some(m[i].key));
      if used {
        clients := clients + [ClientView(dir, m[i])];
      }
    }
    assert m[..|m|] == m;
  }

  function ProjectName(dir: Directory, projectId: string): string {
    if projectId in dir.projects then dir.projects[projectId] else "Project " + ShortId(projectId)
  }

  ghost predicate IsProjectView(v: ProjectSpend, dir: Directory, records: seq<Record>, e: Entry<string, Bucket<Plain>>,
                                agentMap: Buckets<AgentExtra>, clientMap: Buckets<Buckets<AgentExtra>>) {
    && v.projectId == e.key && v.projectName == ProjectName(dir, e.key) && v.spend == e.value
    && v.agents == AttachedAgents(dir, records, e.key, agentMap)
    && v.clients == AttachedClients(dir, records, e.key, clientMap)
  }

  method AttachProjects(dir: Directory, records: seq<Record>, byProject: Buckets<Plain>, agentMap: Buckets<AgentExtra>,
                        clientMap: Buckets<Buckets<AgentExtra>>) returns (views: seq<ProjectSpend>)
    ensures |views| == |byProject|
    ensures forall i | 0 <= i < |views| :: IsProjectView(views[i], dir, records, byProject[i], agentMap, clientMap)
  {
    views := [];
    for i := 0 to |byProject|
      invariant |views| == i
      invariant forall j | 0 <= j < i :: IsProjectView(views[j], dir, records, byProject[j], agentMap, clientMap)
    {
      var agents := AttachAgents(dir, records, byProject[i].key, agentMap);
      var clients := AttachClients(dir, records, byProject[i].key, clientMap);
      var view := ProjectSpend(byProject[i].key, ProjectName(dir, byProject[i].key), byProject[i].value,
                               agents, clients);
      assert IsProjectView(view, dir, records, byProject[i], agentMap, clientMap);
      views := views + [view];
    }
  }

  /** The report: the figures `s` with names, budgets, and each project's agents and clients. */
  method GetCostSummary(records: seq<Record>, dir: Directory)
    returns (r: Report, ghost s: Summary, ghost agentMap: Buckets<AgentExtra>,
             ghost clientMap: Buckets<Buckets<AgentExtra>>)
    ensures IsSummaryOf(s, records) && AgentsAgree(agentMap, records) && ClientsAgree(clientMap, records)
    ensures r.totalCostUSD == s.totalCostUSD && r.byModel == s.byModel
    ensures |r.byAgent| == |s.byAgent| && forall i | 0 <= i < |r.byAgent| ::
              r.byAgent[i] == AgentView(dir, s.byAgent[i])
    ensures |r.byClient| == |s.byClient| && forall i | 0 <= i < |r.byClient| ::
              r.byClient[i] == ClientView(dir, s.byClient[i])
    ensures |r.byProject| == |s.byProject|
    ensures forall i | 0 <= i < |r.byProject| ::
              IsProjectView(r.byProject[i], dir, records, s.byProject[i], agentMap, clientMap)
    ensures r.topExpensive == r.byAgent[..|s.topExpensive|]
  {
    var summary, agents, clients := Aggregate(records);
    s, agentMap, clientMap := summary, agents, clients;
    var byProject := AttachProjects(dir, records, summary.byProject, agents, clients);
    var byAgent := seq(|summary.byAgent|, i requires 0 <= i < |summary.byAgent| => AgentView(dir, summary.byAgent[i]));
    var byClient := seq(|summary.byClient|,
                        i requires 0 <= i < |summary.byClient| => ClientView(dir, summary.byClient[i]));
    r := Report(summary.totalCostUSD, byProject, byClient, byAgent, summary.byModel,
                if |byAgent| < 5 then byAgent else byAgent[..5]);
  }

  /** The agent's own records only; zeros for an agent without any. */
  ghost predicate IsSpendOf(spend: Bucket<AgentExtra>, rs: seq<Record>, a: string) {
    && spend.costUSD == CostOf(rs, OfAgent, a) && spend.requests == CountOf(rs, OfAgent, a)
    && spend.extra.inputTokens == InputTokensOf(rs, OfAgent, a)
    && spend.extra.outputTokens == OutputTokensOf(rs, OfAgent, a)
    && spend.extra.avgCostPerRequest * spend.requests as real == spend.costUSD
    && (spend.requests > 0 ==> spend.extra.topModel == TopModelOf(rs, OfAgent, a))
  }

  const NO_SPEND := Bucket(0.0, 0, AgentExtra(0, 0, 0.0, ""))

  lemma SpendInList(m: Buckets<AgentExtra>, rs: seq<Record>, a: string)
    requires AgentsAgree(m, rs)
    ensures IsSpendOf(if Get(m, a).Some? then Get(m, a).value else NO_SPEND, rs, a)
  {
    var agent := Get(m, a);
    assert BucketIs(agent, CostOf(rs, OfAgent, a), CountOf(rs, OfAgent, a));
    assert AgentFieldsAre(agent, rs, a);
    if agent.None? {
      NoneCountedCostsNothing(rs, OfAgent, a);
      AbsentAgentHasNoTokens(rs, a);
    } else {
      MeanTimesCount(agent.value.costUSD, agent.value.requests as real);
    }
  }

  method GetAgentSpend(records: seq<Record>, agentId: string) returns (spend: Bucket<AgentExtra>)
    ensures IsSpendOf(spend, records, agentId)
  {
    var summary, _, _ := Aggregate(records);
    SpendInList(summary.byAgent, records, agentId);
    var agent := Get(summary.byAgent, agentId);
    spend := if agent.Some? then agent.value else NO_SPEND;
  }

  lemma MeanTimesCount(cost: real, n: real)
    requires n != 0.0
    ensures cost / n * n == cost
  {
  }

  // ------------------------------------------------------------ conservation

  /**
   Models and projects each account for the whole cost and every record; the
   lines of a client account for the client.
   */
  lemma SummaryConserves(s: Summary, records: seq<Record>)
    requires IsSummaryOf(s, records)
    ensures SumBy(s.byModel, CostIn) == TotalCost(records) == SumBy(s.byProject, CostIn)
    ensures SumBy(s.byModel, RequestsIn) == |records| as real == SumBy(s.byProject, RequestsIn)
    ensures forall c | Get(s.byClient, c).Some? ::
              var client := Get(s.byClient, c).value;
              && SumBy(client.extra, CostIn) == client.costUSD
              && SumBy(client.extra, RequestsIn) == client.requests as real
  {
    EveryRecordIsCovered(records);
    forall c | Get(s.byClient, c).Some?
      ensures var client := Get(s.byClient, c).value;
              && SumBy(client.extra, CostIn) == client.costUSD
              && SumBy(client.extra, RequestsIn) == client.requests as real
    {
      assert BucketIs(Get(s.byClient, c), CostOf(records, OfClient, c), CountOf(records, OfClient, c));
      assert ClientIs(Get(s.byClient, c), records, c);
      ClientIsItsAgents(records, c);
    }
  }

  lemma {:induction false} EveryRecordIsCovered(rs: seq<Record>)
    ensures CoveredCost(rs, OfModel) == TotalCost(rs) == CoveredCost(rs, OfProject)
    ensures CoveredCount(rs, OfModel) == |rs| == CoveredCount(rs, OfProject)
  {
    if rs != [] {
      EveryRecordIsCovered(rs[..|rs| - 1]);
    }
  }

  ghost predicate CostsNothing(r: Record) {
    r.costUSD == 0.0
  }

  /** The agents together account for the whole cost exactly when every record without an agent was free. */
  lemma {:induction false} AgentsCoverTheTotal(rs: seq<Record>)
    requires forall r | r in rs :: r.costUSD >= 0.0
    ensures CoveredCost(rs, OfAgent) <= TotalCost(rs)
    ensures CoveredCost(rs, OfAgent) == TotalCost(rs)
       <==> forall r | r in rs && KeyOf(OfAgent, r).None? :: CostsNothing(r)
  {
    if rs != [] {
      assert rs == rs[..|rs| - 1] + [rs[|rs| - 1]];
      AgentsCoverTheTotal(rs[..|rs| - 1]);
    }
  }

  lemma {:induction false} AttachedAreThoseUsed(dir: Directory, rs: seq<Record>, projectId: string,
                                                m: Buckets<AgentExtra>)
    ensures forall v :: v in AttachedAgents(dir, rs, projectId, m)
              <==> exists e :: e in m && UsesAgent(rs, projectId, e.key) && v == AgentView(dir, e)
    decreases |m|
  {
    if m != [] {
      assert m == m[..|m| - 1] + [m[|m| - 1]];
      AttachedAreThoseUsed(dir, rs, projectId, m[..|m| - 1]);
    }
  }

  /** What the agent cost within one project. */
  function CostInProject(rs: seq<Record>, projectId: string, a: string): real {
    if rs == [] then 0.0
    else
      var r := rs[|rs| - 1];
      CostInProject(rs[..|rs| - 1], projectId, a)
      + (if KeyOf(OfAgent, r) == Some(a) && r.projectId == projectId then r.costUSD else 0.0)
  }

  /**
   An agent attached to a project shows what it cost everywhere: its cost within
   the project exactly when its records in other projects were free.
   */
  lemma {:induction false} AttachedCostIsGlobal(rs: seq<Record>, projectId: string, a: string)
    requires forall r | r in rs :: r.costUSD >= 0.0
    ensures CostInProject(rs, projectId, a) <= CostOf(rs, OfAgent, a)
    ensures CostInProject(rs, projectId, a) == CostOf(rs, OfAgent, a)
       <==> forall r | r in rs && KeyOf(OfAgent, r) == Some(a) && r.projectId != projectId :: CostsNothing(r)
  {
    if rs != [] {
      assert rs == rs[..|rs| - 1] + [rs[|rs| - 1]];
      AttachedCostIsGlobal(rs[..|rs| - 1], projectId, a);
    }
  }

  /** The cost of every record that names the client. */
  function ClientCost(rs: seq<Record>, client: string): real {
    if rs == [] then 0.0
    else ClientCost(rs[..|rs| - 1], client)
         + (if Present(rs[|rs| - 1].clientId) == Some(client) then rs[|rs| - 1].costUSD else 0.0)
  }

  /** A client's total leaves out its records without an agent, so it is right exactly when those were free. */
  lemma {:induction false} ClientTotalMissesAgentless(rs: seq<Record>, client: string)
    requires forall r | r in rs :: r.costUSD >= 0.0
    ensures CostOf(rs, OfClient, client) <= ClientCost(rs, client)
    ensures CostOf(rs, OfClient, client) == ClientCost(rs, client)
       <==> forall r | r in rs && Present(r.clientId) == Some(client) && KeyOf(OfAgent, r).None? :: CostsNothing(r)
  {
    if rs != [] {
      assert rs == rs[..|rs| - 1] + [rs[|rs| - 1]];
      ClientTotalMissesAgentless(rs[..|rs| - 1], client);
    }
  }

  /** The first eight characters of an id stand in for a name. */
  predicate StandsIn(name: string, kind: string, id: string) {
    name == kind + (if |id| < 8 then id else id[..8])
  }

  /** The database names agents, clients and projects where it has them; a client's name comes with its budget. */
  lemma ReportNames(dir: Directory, agent: Entry<string, Bucket<AgentExtra>>,
                    client: Entry<string, Bucket<Buckets<AgentExtra>>>, projectId: string)
    ensures var v := AgentView(dir, agent);
            && v.agentId == agent.key && v.spend == agent.value
            && (agent.key in dir.agents ==> v.agentName == dir.agents[agent.key])
            && (agent.key !in dir.agents ==> StandsIn(v.agentName, "Agent ", agent.key))
    ensures var v := ClientView(dir, client);
            var budget := if client.key in dir.clients then dir.clients[client.key].monthlyBudgetUSD else None;
            && v.clientId == client.key && v.spend == client.value
            && (if budget in {None, Some(0.0)} then
                  && StandsIn(v.clientName, "Client ", client.key)
                  && v.budgetUSD == None == v.budgetUsedPercent
                else
                  && v.clientName == dir.clients[client.key].name && v.budgetUSD == budget
                  && v.budgetUsedPercent.Some?
                  && v.budgetUsedPercent.value * budget.value == 100.0 * client.value.costUSD)
    ensures projectId in dir.projects ==> ProjectName(dir, projectId) == dir.projects[projectId]
    ensures projectId !in dir.projects ==> StandsIn(ProjectName(dir, projectId), "Project ", projectId)
  {
    var budget := BudgetOf(dir, client.key);
    if budget.Some? {
      PercentTimesBudget(client.value.costUSD, budget.value);
    }
  }

  lemma PercentTimesBudget(cost: real, budget: real)
    requires budget != 0.0
    ensures PercentOf(cost, budget) * budget == 100.0 * cost
  {
    assert cost / budget * budget == cost;
  }

  // --------------------------------------------- which records are counted

  /** The records that satisfy `p`, in order. */
  function Where(rs: seq<Record>, p: Record -> bool): seq<Record> {
    if rs == [] then []
    else if p(rs[|rs| - 1]) then Where(rs[..|rs| - 1], p) + [rs[|rs| - 1]]
    else Where(rs[..|rs| - 1], p)
  }

  /** A bucket exists for records that exist, with their number and the sum of their costs. */
  ghost predicate Holds<X>(b: Option<Bucket<X>>, own: seq<Record>) {
    && (b.Some? <==> own != [])
    && (b.Some? ==> b.value.requests == |own| && b.value.costUSD == SumBy(own, (r: Record) => r.costUSD))
  }

  /** `p` singles out the records of one bucket. */
  ghost predicate SinglesOut(p: Record -> bool, d: Dimension, k: string) {
    forall r :: p(r) <==> KeyOf(d, r) == Some(k)
  }

  lemma {:induction false} OwnRecords(rs: seq<Record>, d: Dimension, k: string, p: Record -> bool)
    requires SinglesOut(p, d, k)
    ensures CountOf(rs, d, k) == |Where(rs, p)|
    ensures CostOf(rs, d, k) == SumBy(Where(rs, p), (r: Record) => r.costUSD)
    ensures InputTokensOf(rs, d, k) as real == SumBy(Where(rs, p), (r: Record) => r.inputTokens as real)
    ensures OutputTokensOf(rs, d, k) as real == SumBy(Where(rs, p), (r: Record) => r.outputTokens as real)
    decreases |rs|
  {
    if rs != [] {
      var front, last := rs[..|rs| - 1], rs[|rs| - 1];
      OwnRecords(front, d, k, p);
      if p(last) {
        AddToSum(Where(front, p), last, (r: Record) => r.costUSD);
        AddToSum(Where(front, p), last, (r: Record) => r.inputTokens as real);
        AddToSum(Where(front, p), last, (r: Record) => r.outputTokens as real);
      }
    }
  }

  lemma AddToSum(rs: seq<Record>, r: Record, f: Record -> real)
    ensures SumBy(rs + [r], f) == SumBy(rs, f) + f(r)
  {
    SumByAppend(rs, [r], f);
    SumByOne(r, f);
  }

  lemma BucketHolds<X(!new)>(m: Buckets<X>, rs: seq<Record>, d: Dimension, k: string, p: Record -> bool)
    requires Agrees(m, rs, d) && SinglesOut(p, d, k)
    ensures Holds(Get(m, k), Where(rs, p))
  {
    OwnRecords(rs, d, k, p);
    assert BucketIs(Get(m, k), CostOf(rs, d, k), CountOf(rs, d, k));
  }

  predicate HasAgent(r: Record) {
    r.agentId.Some? && r.agentId.value != ""
  }

  /**
   Which records each bucket of the summary stands for: those of its model, its
   project, its agent, or its client, the last only when they name an agent as well.
   */
  lemma SummaryGroupsRecords(s: Summary, rs: seq<Record>, k: string)
    requires IsSummaryOf(s, rs)
    ensures Holds(Get(s.byModel, k), Where(rs, (r: Record) => r.model == k))
    ensures Holds(Get(s.byProject, k), Where(rs, (r: Record) => r.projectId == k))
    ensures Holds(Get(s.byAgent, k), Where(rs, (r: Record) => r.agentId == Some(k) && k != ""))
    ensures Holds(Get(s.byClient, k), Where(rs, (r: Record) => r.clientId == Some(k) && k != "" && HasAgent(r)))
    ensures s.totalCostUSD == SumBy(rs, (r: Record) => r.costUSD)
  {
    BucketHolds(s.byModel, rs, OfModel, k, (r: Record) => r.model == k);
    BucketHolds(s.byProject, rs, OfProject, k, (r: Record) => r.projectId == k);
    BucketHolds(s.byAgent, rs, OfAgent, k, (r: Record) => r.agentId == Some(k) && k != "");
    BucketHolds(s.byClient, rs, OfClient, k, (r: Record) => r.clientId == Some(k) && k != "" && HasAgent(r));
    TotalIsSum(rs);
  }

  lemma {:induction false} TotalIsSum(rs: seq<Record>)
    ensures TotalCost(rs) == SumBy(rs, (r: Record) => r.costUSD)
  {
    if rs != [] {
      TotalIsSum(rs[..|rs| - 1]);
      AddToSum(rs[..|rs| - 1], rs[|rs| - 1], (r: Record) => r.costUSD);
      assert rs == rs[..|rs| - 1] + [rs[|rs| - 1]];
    }
  }

  /** The bucket holds the tokens and the average of these records. */
  ghost predicate HoldsTokens(b: Bucket<AgentExtra>, own: seq<Record>) {
    && b.extra.inputTokens as real == SumBy(own, (r: Record) => r.inputTokens as real)
    && b.extra.outputTokens as real == SumBy(own, (r: Record) => r.outputTokens as real)
    && b.extra.avgCostPerRequest * |own| as real == SumBy(own, (r: Record) => r.costUSD)
  }

  lemma SpendHoldsTokens(b: Bucket<AgentExtra>, rs: seq<Record>, a: string, p: Record -> bool)
    requires IsSpendOf(b, rs, a) && SinglesOut(p, OfAgent, a)
    ensures HoldsTokens(b, Where(rs, p))
  {
    OwnRecords(rs, OfAgent, a, p);
  }

  /** An agent's tokens and average are those of its own records. */
  lemma AgentCountsTokens(s: Summary, rs: seq<Record>, a: string)
    requires IsSummaryOf(s, rs) && Get(s.byAgent, a).Some?
    ensures HoldsTokens(Get(s.byAgent, a).value, Where(rs, (r: Record) => r.agentId == Some(a) && a != ""))
  {
    SpendInList(s.byAgent, rs, a);
    SpendHoldsTokens(Get(s.byAgent, a).value, rs, a, (r: Record) => r.agentId == Some(a) && a != "");
  }

  /** A client's line for an agent stands for the records that name both. */
  lemma LinesGroupRecords(s: Summary, rs: seq<Record>, c: string, a: string)
    requires IsSummaryOf(s, rs) && Get(s.byClient, c).Some?
    ensures Holds(Get(Get(s.byClient, c).value.extra, a),
                  Where(rs, (r: Record) => r.clientId == Some(c) && c != "" && r.agentId == Some(a) && a != ""))
  {
    assert ClientIs(Get(s.byClient, c), rs, c);
    BucketHolds(Get(s.byClient, c).value.extra, rs, AgentWithinClient(c), a,
                (r: Record) => r.clientId == Some(c) && c != "" && r.agentId == Some(a) && a != "");
  }

  // ------------------------------------------------------------- top models

  /** The bucket's oldest record that cost anything: records come newest first. */
  predicate IsOldestPaid(rs: seq<Record>, d: Dimension, k: string, i: nat) {
    && i < |rs| && KeyOf(d, rs[i]) == Some(k) && rs[i].costUSD > 0.0
    && forall j | i < j < |rs| && KeyOf(d, rs[j]) == Some(k) :: rs[j].costUSD <= 0.0
  }

  /** `topModel` is the model of the bucket's oldest record that cost anything. */
  lemma {:induction false} TopModelIsOldestPaid(rs: seq<Record>, d: Dimension, k: string, i: nat)
    requires IsOldestPaid(rs, d, k, i)
    ensures TopModelOf(rs, d, k) == rs[i].model
    decreases |rs|
  {
    var front := rs[..|rs| - 1];
    if i < |rs| - 1 {
      TopModelIsOldestPaid(front, d, k, i);
      OccursIsCounted(front, d, k, i);
    }
  }

  lemma {:induction false} OccursIsCounted(rs: seq<Record>, d: Dimension, k: string, i: nat)
    requires i < |rs| && KeyOf(d, rs[i]) == Some(k)
    ensures CountOf(rs, d, k) > 0
    decreases |rs|
  {
    if i < |rs| - 1 {
      OccursIsCounted(rs[..|rs| - 1], d, k, i);
    }
  }

  /** Some record of the bucket is its oldest paid one, or none cost anything. */
  lemma {:induction false} OldestPaidExists(rs: seq<Record>, d: Dimension, k: string) returns (i: nat)
    ensures IsOldestPaid(rs, d, k, i) || (i == |rs| && forall r | r in rs && KeyOf(d, r) == Some(k) :: r.costUSD <= 0.0)
    decreases |rs|
  {
    if rs == [] {
      i := 0;
    } else {
      var front, last := rs[..|rs| - 1], rs[|rs| - 1];
      assert rs == front + [last];
      i := OldestPaidExists(front, d, k);
      if KeyOf(d, last) == Some(k) && last.costUSD > 0.0 {
        i := |rs| - 1;
      } else if i == |front| {
        i := |rs|;
      }
    }
  }

  /** What the agent spent on one model. */
  function ModelCostOf(rs: seq<Record>, a: string, model: string): real {
    if rs == [] then 0.0
    else
      var r := rs[|rs| - 1];
      ModelCostOf(rs[..|rs| - 1], a, model)
      + (if KeyOf(OfAgent, r) == Some(a) && r.model == model then r.costUSD else 0.0)
  }

  ghost predicate IsCostliest(rs: seq<Record>, a: string, model: string) {
    forall other :: ModelCostOf(rs, a, other) <= ModelCostOf(rs, a, model)
  }

  lemma {:induction false} FreeAgentCostsNothing(rs: seq<Record>, a: string, model: string)
    requires forall r | r in rs && KeyOf(OfAgent, r) == Some(a) :: r.costUSD == 0.0
    ensures ModelCostOf(rs, a, model) == 0.0
  {
    if rs != [] {
      assert rs == rs[..|rs| - 1] + [rs[|rs| - 1]];
      FreeAgentCostsNothing(rs[..|rs| - 1], a, model);
    }
  }

  /** `topModel` is the agent's costliest model exactly when its oldest paid record, if any, is on that model. */
  lemma TopModelIsCostliestIff(rs: seq<Record>, a: string)
    requires forall r | r in rs :: r.costUSD >= 0.0
    ensures IsCostliest(rs, a, TopModelOf(rs, OfAgent, a))
       <==> forall i: nat | IsOldestPaid(rs, OfAgent, a, i) :: IsCostliest(rs, a, rs[i].model)
  {
    var i := OldestPaidExists(rs, OfAgent, a);
    if i == |rs| {
      forall model
        ensures ModelCostOf(rs, a, model) == 0.0
      {
        FreeAgentCostsNothing(rs, a, model);
      }
    } else {
      TopModelIsOldestPaid(rs, OfAgent, a, i);
      assert forall j: nat | IsOldestPaid(rs, OfAgent, a, j) :: j == i;
    }
  }

  lemma OneRecordCost(r: Record, a: string, model: string)
    ensures ModelCostOf([r], a, model) == if KeyOf(OfAgent, r) == Some(a) && r.model == model then r.costUSD else 0.0
  {
    var rest := [r][..0];
    assert rest == [] && ModelCostOf(rest, a, model) == 0.0;
  }

  /** Two paid records on different models: the older one names the top model, however little it cost. */
  lemma OlderRecordNamesTopModel(newer: Record, older: Record, a: string)
    requires KeyOf(OfAgent, newer) == Some(a) == KeyOf(OfAgent, older) && newer.model != older.model
    requires newer.costUSD > older.costUSD > 0.0
    ensures TopModelOf([newer, older], OfAgent, a) == older.model
    ensures !IsCostliest([newer, older], a, older.model)
  {
    var rs := [newer, older];
    TopModelIsOldestPaid(rs, OfAgent, a, 1);
    assert rs[..1] == [newer] && [newer][..0] == [];
    OneRecordCost(newer, a, newer.model);
    OneRecordCost(newer, a, older.model);
    assert ModelCostOf(rs, a, newer.model) == newer.costUSD && ModelCostOf(rs, a, older.model) == older.costUSD;
  }

  /** A hundred dollars on one model and one dollar, longer ago, on another: the other is the top model. */
  lemma TopModelCanBeTheCheapest(project: string)
    ensures var rs := [Record("big", project, Some("a"), None, 100.0, 0, 0),
                       Record("small", project, Some("a"), None, 1.0, 0, 0)];
            TopModelOf(rs, OfAgent, "a") == "small" && !IsCostliest(rs, "a", "small")
  {
    assert "big"[0] != "small"[0];
    OlderRecordNamesTopModel(Record("big", project, Some("a"), None, 100.0, 0, 0),
                             Record("small", project, Some("a"), None, 1.0, 0, 0), "a");
  }

  // ---------------------------------------------------- frozen client lines

  /** The record from which a client's line for an agent was created. */
  predicate IsFirstOf(rs: seq<Record>, d: Dimension, k: string, i: nat) {
    && i < |rs| && KeyOf(d, rs[i]) == Some(k)
    && forall j | 0 <= j < i :: KeyOf(d, rs[j]) != Some(k)
  }

  /** No later record of the bucket adds to a quantity. */
  predicate NoLaterTokens(rs: seq<Record>, d: Dimension, k: string, i: nat, output: bool) {
    forall j | i < j < |rs| && KeyOf(d, rs[j]) == Some(k) ::
      (if output then rs[j].outputTokens else rs[j].inputTokens) == 0
  }

  lemma {:induction false} FirstFieldsStay(rs: seq<Record>, client: string, a: string, i: nat)
    requires IsFirstOf(rs, AgentWithinClient(client), a, i)
    ensures FirstFieldsOf(rs, client, a) == FieldsFrom(rs[i])
    decreases |rs|
  {
    var front := rs[..|rs| - 1];
    if i < |rs| - 1 {
      FirstFieldsStay(front, client, a, i);
      OccursIsCounted(front, AgentWithinClient(client), a, i);
    } else {
      NotYetCounted(front, AgentWithinClient(client), a);
    }
  }

  lemma {:induction false} NotYetCounted(rs: seq<Record>, d: Dimension, k: string)
    requires forall j | 0 <= j < |rs| :: KeyOf(d, rs[j]) != Some(k)
    ensures CountOf(rs, d, k) == 0 && InputTokensOf(rs, d, k) == 0 && OutputTokensOf(rs, d, k) == 0
  {
    if rs != [] {
      NotYetCounted(rs[..|rs| - 1], d, k);
    }
  }

  lemma {:induction false} TokensAfterFirst(rs: seq<Record>, d: Dimension, k: string, i: nat)
    requires IsFirstOf(rs, d, k, i)
    ensures InputTokensOf(rs, d, k) >= rs[i].inputTokens
    ensures InputTokensOf(rs, d, k) == rs[i].inputTokens <==> NoLaterTokens(rs, d, k, i, false)
    ensures OutputTokensOf(rs, d, k) >= rs[i].outputTokens
    ensures OutputTokensOf(rs, d, k) == rs[i].outputTokens <==> NoLaterTokens(rs, d, k, i, true)
    decreases |rs|
  {
    var front := rs[..|rs| - 1];
    if i < |rs| - 1 {
      TokensAfterFirst(front, d, k, i);
      assert forall j | 0 <= j < |front| :: front[j] == rs[j];
    } else {
      NotYetCounted(front, d, k);
    }
  }

  lemma {:induction false} TopModelWithoutPaid(rs: seq<Record>, d: Dimension, k: string, i: nat)
    requires IsFirstOf(rs, d, k, i)
    requires forall r | r in rs && KeyOf(d, r) == Some(k) :: r.costUSD <= 0.0
    ensures TopModelOf(rs, d, k) == rs[i].model
    decreases |rs|
  {
    var front := rs[..|rs| - 1];
    if i < |rs| - 1 {
      assert forall r | r in front :: r in rs;
      TopModelWithoutPaid(front, d, k, i);
      OccursIsCounted(front, d, k, i);
    } else {
      NotYetCounted(front, d, k);
    }
  }

  function Mean(cost: real, count: nat): real
    requires count > 0
  {
    cost / count as real
  }

  /** `count` times a single cost. */
  function Scaled(cost: real, count: nat): real {
    cost * count as real
  }

  lemma MeanIsFirst(first: real, cost: real, count: nat)
    requires count > 0
    ensures first == Mean(cost, count) <==> Scaled(first, count) == cost
  {
    MeanTimesCount(cost, count as real);
  }

  /**
   A client's line counts every record of its agent, but keeps the average and the
   tokens of the first one. Each is right exactly when the later records happen not
   to change it.
   */
  lemma LineAverageIsStale(rs: seq<Record>, client: string, a: string, i: nat)
    requires IsFirstOf(rs, AgentWithinClient(client), a, i)
    ensures var d := AgentWithinClient(client);
            var line, cost, count := FirstFieldsOf(rs, client, a), CostOf(rs, d, a), CountOf(rs, d, a);
            && count > 0
            && (line.avgCostPerRequest == Mean(cost, count) <==> Scaled(rs[i].costUSD, count) == cost)
            && (line.inputTokens == InputTokensOf(rs, d, a) <==> NoLaterTokens(rs, d, a, i, false))
            && (line.outputTokens == OutputTokensOf(rs, d, a) <==> NoLaterTokens(rs, d, a, i, true))
  {
    var d := AgentWithinClient(client);
    FirstFieldsStay(rs, client, a, i);
    OccursIsCounted(rs, d, a, i);
    MeanIsFirst(rs[i].costUSD, CostOf(rs, d, a), CountOf(rs, d, a));
    TokensAfterFirst(rs, d, a, i);
  }

  /** The line also keeps the model of its first record: what the rule for agents would give exactly in this case. */
  lemma LineTopModelIsStale(rs: seq<Record>, client: string, a: string, i: nat)
    requires IsFirstOf(rs, AgentWithinClient(client), a, i)
    ensures var d := AgentWithinClient(client);
            FirstFieldsOf(rs, client, a).topModel == TopModelOf(rs, d, a)
            <==> forall j: nat | IsOldestPaid(rs, d, a, j) :: rs[j].model == rs[i].model
  {
    var d := AgentWithinClient(client);
    FirstFieldsStay(rs, client, a, i);
    var j := OldestPaidExists(rs, d, a);
    if j == |rs| {
      TopModelWithoutPaid(rs, d, a, i);
    } else {
      TopModelIsOldestPaid(rs, d, a, j);
      assert forall l: nat | IsOldestPaid(rs, d, a, l) :: l == j;
    }
  }
}
