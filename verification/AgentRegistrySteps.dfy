/**
 The agent registry under concurrency (src/agents/agent-registry.ts): a lookup
 that misses the cache awaits the repository and writes its result afterwards.
 Its two halves and the invalidations are steps; any interleaving of any number
 of calls is a sequence of steps.
 */
module AgentRegistrySteps {
  import opened Wrappers
  import opened InsertionMap
  import opened AgentRegistry

  /** A lookup between its fetch and its write to the cache. */
  datatype Flight = Flight(config: AgentConfig, fetchedAt: int)

  /** The cache, when each of its configurations was fetched, and the lookups under way. */
  datatype System = System(now: int, cache: seq<Entry<string, CacheEntry>>, fetched: map<string, int>,
                           inFlight: map<nat, Flight>)

  datatype Step =
    | Tick(ms: nat)
    | Begin(lookup: nat, agentId: string)
    | BeginByName(lookup: nat, projectId: string, name: string)
    | Finish(lookup: nat)
    | Invalidate(agentId: string)

  function Empty(now: int): System {
    System(now, [], map[], map[])
  }

  predicate NamedInCache(s: System, projectId: string, name: string) {
    exists i | 0 <= i < |s.cache| :: Matches(s.cache[i].value, projectId, name, s.now)
  }

  function Fetching(s: System, lookup: nat, found: Option<AgentConfig>): System {
    if found.Some? then s.(inFlight := s.inFlight[lookup := Flight(found.value, s.now)]) else s
  }

  /** One atomic piece of work; a step that is not enabled changes nothing. */
  function Apply(repo: Repository, ttl: int, s: System, step: Step): System {
    match step
    case Tick(ms) => s.(now := s.now + ms)
    case Begin(l, id) =>
      if l in s.inFlight || IsFresh(Get(s.cache, id), s.now) then s
      else Fetching(s, l, FindById(repo, s.now, id))
    case BeginByName(l, p, n) =>
      if l in s.inFlight || NamedInCache(s, p, n) then s
      else Fetching(s, l, FindByName(repo, s.now, p, n))
    case Finish(l) =>
      if l !in s.inFlight then s
      else
        var f := s.inFlight[l];
        s.(cache := Set(s.cache, f.config.id, CacheEntry(f.config, s.now + ttl)),
           fetched := s.fetched[f.config.id := f.fetchedAt],
           inFlight := s.inFlight - {l})
    case Invalidate(id) => s.(cache := Delete(s.cache, id))
  }

  function Execute(repo: Repository, ttl: int, s: System, steps: seq<Step>): System
    decreases |steps|
  {
    if steps == [] then s else Execute(repo, ttl, Apply(repo, ttl, s, steps[0]), steps[1..])
  }

  /** What a lookup by id answers now, when nothing interrupts it. */
  function Answer(repo: Repository, s: System, id: string): Option<AgentConfig> {
    if IsFresh(Get(s.cache, id), s.now) then Some(Get(s.cache, id).value.config) else FindById(repo, s.now, id)
  }

  /** The time whose repository that answer shows. */
  function AsOf(s: System, id: string): int {
    if IsFresh(Get(s.cache, id), s.now) && id in s.fetched then s.fetched[id] else s.now
  }

  // ------------------------------------------------ what every state keeps

  predicate FlightOk(repo: Repository, s: System, f: Flight) {
    f.fetchedAt <= s.now && FindById(repo, f.fetchedAt, f.config.id) == Some(f.config)
  }

  predicate CachedOk(repo: Repository, ttl: int, s: System, id: string) {
    var e := Get(s.cache, id);
    e.Some? ==>
      && id in s.fetched && s.fetched[id] <= s.now
      && FindById(repo, s.fetched[id], id) == Some(e.value.config)
      && e.value.expiresAt <= s.now + ttl
  }

  ghost predicate Inv(repo: Repository, ttl: int, s: System) {
    && Distinct(s.cache)
    && (forall id :: CachedOk(repo, ttl, s, id))
    && (forall l | l in s.inFlight :: FlightOk(repo, s, s.inFlight[l]))
  }

  lemma FinishKeepsCached(repo: Repository, ttl: int, s: System, l: nat, id: string)
    requires Distinct(s.cache) && l in s.inFlight && FlightOk(repo, s, s.inFlight[l]) && CachedOk(repo, ttl, s, id)
    ensures CachedOk(repo, ttl, Apply(repo, ttl, s, Finish(l)), id)
  {
    var f := s.inFlight[l];
    SetGet(s.cache, f.config.id, CacheEntry(f.config, s.now + ttl));
  }

  lemma FinishKeepsInv(repo: Repository, ttl: int, s: System, l: nat)
    requires Inv(repo, ttl, s) && l in s.inFlight
    ensures Inv(repo, ttl, Apply(repo, ttl, s, Finish(l)))
  {
    var f, s' := s.inFlight[l], Apply(repo, ttl, s, Finish(l));
    SetGet(s.cache, f.config.id, CacheEntry(f.config, s.now + ttl));
    forall id
      ensures CachedOk(repo, ttl, s', id)
    {
      FinishKeepsCached(repo, ttl, s, l, id);
    }
    forall k | k in s'.inFlight
      ensures FlightOk(repo, s', s'.inFlight[k])
    {
      assert FlightOk(repo, s, s.inFlight[k]);
    }
  }

  lemma FetchKeepsInv(repo: Repository, ttl: int, s: System, l: nat, found: Option<AgentConfig>)
    requires Inv(repo, ttl, s)
    requires found.Some? ==> FindById(repo, s.now, found.value.id) == found
    ensures Inv(repo, ttl, Fetching(s, l, found))
  {
    var s' := Fetching(s, l, found);
    forall id
      ensures CachedOk(repo, ttl, s', id)
    {
      assert CachedOk(repo, ttl, s, id);
    }
    forall k | k in s'.inFlight
      ensures FlightOk(repo, s', s'.inFlight[k])
    {
      if k in s.inFlight {
        assert FlightOk(repo, s, s.inFlight[k]);
      }
    }
  }

  lemma StepKeepsInv(repo: Repository, ttl: int, s: System, step: Step)
    requires Consistent(repo) && Inv(repo, ttl, s)
    ensures Inv(repo, ttl, Apply(repo, ttl, s, step))
  {
    match step {
      case Begin(l, id) =>
        FetchKeepsInv(repo, ttl, s, l, FindById(repo, s.now, id));
      case BeginByName(l, p, n) =>
        FetchKeepsInv(repo, ttl, s, l, FindByName(repo, s.now, p, n));
      case Finish(l) =>
        if l in s.inFlight {
          FinishKeepsInv(repo, ttl, s, l);
        }
      case Invalidate(id) =>
        DeleteGet(s.cache, id);
        LessKeepsInv(repo, ttl, s, Apply(repo, ttl, s, step));
      case Tick(_) =>
        LessKeepsInv(repo, ttl, s, Apply(repo, ttl, s, step));
    }
  }

  /** Time may pass and entries may go. */
  lemma LessKeepsInv(repo: Repository, ttl: int, s: System, s': System)
    requires Inv(repo, ttl, s) && s.now <= s'.now && s'.fetched == s.fetched && s'.inFlight == s.inFlight
    requires Distinct(s'.cache) && forall id :: Get(s'.cache, id).Some? ==> Get(s'.cache, id) == Get(s.cache, id)
    ensures Inv(repo, ttl, s')
  {
    forall id
      ensures CachedOk(repo, ttl, s', id)
    {
      assert CachedOk(repo, ttl, s, id);
    }
    forall k | k in s'.inFlight
      ensures FlightOk(repo, s', s'.inFlight[k])
    {
      assert FlightOk(repo, s, s.inFlight[k]);
    }
  }

  lemma {:induction false} ReachableKeepsInv(repo: Repository, ttl: int, s: System, steps: seq<Step>)
    requires Consistent(repo) && Inv(repo, ttl, s)
    ensures Inv(repo, ttl, Execute(repo, ttl, s, steps))
    ensures Execute(repo, ttl, s, steps).now >= s.now
    decreases |steps|
  {
    if steps != [] {
      StepKeepsInv(repo, ttl, s, steps[0]);
      ReachableKeepsInv(repo, ttl, Apply(repo, ttl, s, steps[0]), steps[1..]);
    }
  }

  // -------------------------------------------------------------- staleness

  /** No lookup takes longer than `latency` from its fetch to its write. */
  ghost predicate FinishWithin(repo: Repository, ttl: int, s: System, steps: seq<Step>, latency: nat)
    decreases |steps|
  {
    steps != [] ==>
      && (steps[0].Finish? && steps[0].lookup in s.inFlight ==>
          s.now - s.inFlight[steps[0].lookup].fetchedAt <= latency)
      && FinishWithin(repo, ttl, Apply(repo, ttl, s, steps[0]), steps[1..], latency)
  }

  predicate ExpiresInTime(s: System, ttl: int, latency: nat, id: string) {
    Get(s.cache, id).Some? && id in s.fetched ==> Get(s.cache, id).value.expiresAt <= s.fetched[id] + latency + ttl
  }

  lemma StepKeepsExpiry(repo: Repository, ttl: int, s: System, step: Step, latency: nat, id: string)
    requires Distinct(s.cache) && ExpiresInTime(s, ttl, latency, id) && (Get(s.cache, id).Some? ==> id in s.fetched)
    requires step.Finish? && step.lookup in s.inFlight ==> s.now - s.inFlight[step.lookup].fetchedAt <= latency
    ensures ExpiresInTime(Apply(repo, ttl, s, step), ttl, latency, id)
  {
    if step.Finish? && step.lookup in s.inFlight {
      var f := s.inFlight[step.lookup];
      SetGet(s.cache, f.config.id, CacheEntry(f.config, s.now + ttl));
    } else if step.Invalidate? {
      DeleteGet(s.cache, step.agentId);
    }
  }

  lemma {:induction false} RunKeepsExpiry(repo: Repository, ttl: int, s: System, steps: seq<Step>, latency: nat,
                                          id: string)
    requires Consistent(repo) && Inv(repo, ttl, s) && ExpiresInTime(s, ttl, latency, id)
    requires FinishWithin(repo, ttl, s, steps, latency)
    ensures ExpiresInTime(Execute(repo, ttl, s, steps), ttl, latency, id)
    decreases |steps|
  {
    if steps != [] {
      assert CachedOk(repo, ttl, s, id);
      StepKeepsExpiry(repo, ttl, s, steps[0], latency, id);
      StepKeepsInv(repo, ttl, s, steps[0]);
      RunKeepsExpiry(repo, ttl, Apply(repo, ttl, s, steps[0]), steps[1..], latency, id);
    }
  }

  /**
   However lookups and invalidations interleave, a lookup answers what the
   repository held at some time less than one lifetime (and one fetch) ago, or holds now.
   */
  lemma AnswersAreRecent(repo: Repository, ttl: int, start: int, steps: seq<Step>, latency: nat, id: string)
    requires Consistent(repo) && FinishWithin(repo, ttl, Empty(start), steps, latency)
    ensures var s := Execute(repo, ttl, Empty(start), steps);
            && Answer(repo, s, id) == FindById(repo, AsOf(s, id), id)
            && AsOf(s, id) <= s.now
            && (AsOf(s, id) == s.now || s.now - ttl - latency < AsOf(s, id))
  {
    var s := Execute(repo, ttl, Empty(start), steps);
    ReachableKeepsInv(repo, ttl, Empty(start), steps);
    RunKeepsExpiry(repo, ttl, Empty(start), steps, latency, id);
    assert CachedOk(repo, ttl, s, id);
  }

  /** An answer is up to date exactly when it is not cached, or the repository has not changed since it was. */
  lemma AnswerIsCurrentIff(repo: Repository, ttl: int, s: System, id: string)
    requires Inv(repo, ttl, s)
    ensures Answer(repo, s, id) == FindById(repo, s.now, id)
       <==> !IsFresh(Get(s.cache, id), s.now) || FindById(repo, AsOf(s, id), id) == FindById(repo, s.now, id)
  {
    assert CachedOk(repo, ttl, s, id);
  }

  /** A lookup goes to the repository exactly when no fresh entry answers it. */
  lemma LookupFetchesIff(repo: Repository, ttl: int, s: System, l: nat, id: string, projectId: string, name: string)
    requires Inv(repo, ttl, s) && l !in s.inFlight
    ensures l in Apply(repo, ttl, s, Begin(l, id)).inFlight
       <==> FindById(repo, s.now, id).Some? && !IsFresh(Get(s.cache, id), s.now)
    ensures l in Apply(repo, ttl, s, BeginByName(l, projectId, name)).inFlight
       <==> FindByName(repo, s.now, projectId, name).Some?
            && forall k | IsFresh(Get(s.cache, k), s.now) ::
                 Get(s.cache, k).value.config.projectId != projectId || Get(s.cache, k).value.config.name != name
  {
    if i :| 0 <= i < |s.cache| && Matches(s.cache[i].value, projectId, name, s.now) {
      UniquePosition(s.cache, i);
      assert IsFresh(Get(s.cache, s.cache[i].key), s.now);
    }
  }

  // ----------------------------------------------------------- invalidation

  /** Whatever is cached or under way for the agent was fetched at `since` or later. */
  ghost predicate FreshSince(s: System, id: string, since: int) {
    && s.now >= since
    && (Get(s.cache, id).Some? && id in s.fetched ==> s.fetched[id] >= since)
    && forall l | l in s.inFlight && s.inFlight[l].config.id == id :: s.inFlight[l].fetchedAt >= since
  }

  lemma StepKeepsFresh(repo: Repository, ttl: int, s: System, step: Step, id: string, since: int)
    requires Distinct(s.cache) && FreshSince(s, id, since) && (Get(s.cache, id).Some? ==> id in s.fetched)
    ensures FreshSince(Apply(repo, ttl, s, step), id, since)
  {
    if step.Finish? && step.lookup in s.inFlight {
      var f := s.inFlight[step.lookup];
      SetGet(s.cache, f.config.id, CacheEntry(f.config, s.now + ttl));
    } else if step.Invalidate? {
      DeleteGet(s.cache, step.agentId);
    }
  }

  lemma {:induction false} RunKeepsFresh(repo: Repository, ttl: int, s: System, steps: seq<Step>, id: string,
                                         since: int)
    requires Consistent(repo) && Inv(repo, ttl, s) && FreshSince(s, id, since)
    ensures FreshSince(Execute(repo, ttl, s, steps), id, since)
    decreases |steps|
  {
    if steps != [] {
      assert CachedOk(repo, ttl, s, id);
      StepKeepsFresh(repo, ttl, s, steps[0], id, since);
      StepKeepsInv(repo, ttl, s, steps[0]);
      RunKeepsFresh(repo, ttl, Apply(repo, ttl, s, steps[0]), steps[1..], id, since);
    }
  }

  /** From now on, whatever happens, a lookup of the agent shows nothing older than now. */
  ghost predicate NeverOlderThanNow(repo: Repository, ttl: int, s: System, id: string) {
    forall steps :: AsOf(Execute(repo, ttl, s, steps), id) >= s.now
  }

  predicate NothingOlderUnderWay(s: System, id: string) {
    forall l | l in s.inFlight && s.inFlight[l].config.id == id :: s.inFlight[l].fetchedAt >= s.now
  }

  /**
   After an invalidation no lookup ever shows the agent as it was before, if and
   only if no lookup that fetched it earlier is still under way (or entries never
   live at all).
   */
  lemma InvalidationHoldsIff(repo: Repository, ttl: int, s: System, id: string)
    requires Consistent(repo) && Inv(repo, ttl, s)
    ensures NeverOlderThanNow(repo, ttl, Apply(repo, ttl, s, Invalidate(id)), id)
       <==> ttl <= 0 || NothingOlderUnderWay(s, id)
  {
    var s1 := Apply(repo, ttl, s, Invalidate(id));
    DeleteGet(s.cache, id);
    StepKeepsInv(repo, ttl, s, Invalidate(id));
    if ttl > 0 && !NothingOlderUnderWay(s, id) {
      var l :| l in s.inFlight && s.inFlight[l].config.id == id && s.inFlight[l].fetchedAt < s.now;
      LateFinishShowsOldFetch(repo, ttl, s1, l);
    } else {
      forall steps
        ensures AsOf(Execute(repo, ttl, s1, steps), id) >= s1.now
      {
        var e := Execute(repo, ttl, s1, steps);
        ReachableKeepsInv(repo, ttl, s1, steps);
        assert CachedOk(repo, ttl, e, id);
        if ttl > 0 {
          RunKeepsFresh(repo, ttl, s1, steps, id, s1.now);
        }
      }
    }
  }

  lemma LateFinishShowsOldFetch(repo: Repository, ttl: int, s: System, l: nat)
    requires Distinct(s.cache) && ttl > 0 && l in s.inFlight
    ensures AsOf(Execute(repo, ttl, s, [Finish(l)]), s.inFlight[l].config.id) == s.inFlight[l].fetchedAt
  {
    var f := s.inFlight[l];
    var s' := Apply(repo, ttl, s, Finish(l));
    SetGet(s.cache, f.config.id, CacheEntry(f.config, s.now + ttl));
    assert [Finish(l)][1..] == [] && Execute(repo, ttl, s, [Finish(l)]) == s';
  }

  // ---------------------------------------------------------------- witness

  /** One agent, whose body changes from "old" to "new" at time 1. */
  function ChangingAgent(t: int): AgentConfig {
    AgentConfig("a", "p", "n", if t < 1 then "old" else "new")
  }

  function ChangingRepository(): Repository {
    Repository(t => map["a" := ChangingAgent(t)], (t, p, n) => if p == "p" && n == "n" then Some("a") else None)
  }

  function LateFinish(id: string): seq<Step> {
    [Begin(0, id), Tick(1), Invalidate(id), Finish(0)]
  }

  lemma LateFinishRuns(repo: Repository, ttl: int, c: AgentConfig)
    requires FindById(repo, 0, c.id) == Some(c) && ttl > 0
    ensures var s := Execute(repo, ttl, Empty(0), LateFinish(c.id)); s.now == 1 && Answer(repo, s, c.id) == Some(c)
  {
    var s1 := System(0, [], map[], map[0 := Flight(c, 0)]);
    var s2 := s1.(now := 1);
    var s4 := System(1, [Entry(c.id, CacheEntry(c, 1 + ttl))], map[c.id := 0], map[]);
    var steps := LateFinish(c.id);
    assert Apply(repo, ttl, Empty(0), steps[0]) == s1;
    assert Apply(repo, ttl, s1, steps[1]) == s2 && Apply(repo, ttl, s2, steps[2]) == s2;
    assert s2.inFlight - {0} == map[] && Apply(repo, ttl, s2, steps[3]) == s4;
    FourSteps(repo, ttl, Empty(0), steps);
    UniquePosition(s4.cache, 0);
  }

  /** A lookup under way while the agent is changed and invalidated leaves the old version in the cache. */
  lemma OutdatedAfterInvalidate()
    ensures var repo := ChangingRepository();
            var s := Execute(repo, 60_000, Empty(0), LateFinish("a"));
            && Consistent(repo)
            && Answer(repo, s, "a") == Some(AgentConfig("a", "p", "n", "old"))
            && FindById(repo, s.now, "a") == Some(AgentConfig("a", "p", "n", "new"))
  {
    LateFinishRuns(ChangingRepository(), 60_000, ChangingAgent(0));
  }

  lemma FourSteps(repo: Repository, ttl: int, s: System, steps: seq<Step>)
    requires |steps| == 4
    ensures Execute(repo, ttl, s, steps)
         == Apply(repo, ttl,
                  Apply(repo, ttl, Apply(repo, ttl, Apply(repo, ttl, s, steps[0]), steps[1]), steps[2]), steps[3])
  {
    var s1 := Apply(repo, ttl, s, steps[0]);
    var s2 := Apply(repo, ttl, s1, steps[1]);
    var s3 := Apply(repo, ttl, s2, steps[2]);
    assert steps[1..][1..] == steps[2..] && steps[2..][1..] == steps[3..] && steps[3..][1..] == [];
    assert Execute(repo, ttl, s3, steps[3..]) == Apply(repo, ttl, s3, steps[3]);
    assert Execute(repo, ttl, s2, steps[2..]) == Execute(repo, ttl, s3, steps[3..]);
    assert Execute(repo, ttl, s1, steps[1..]) == Execute(repo, ttl, s2, steps[2..]);
  }
}
