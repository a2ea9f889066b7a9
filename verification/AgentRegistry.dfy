/**
 The agent registry's cache (src/agents/agent-registry.ts). What the repository
 holds at each time is an arbitrary function; a lookup may be interrupted between
 its fetch and its write to the cache.
 */
module AgentRegistry {
  import opened Wrappers
  import opened InsertionMap

  datatype AgentConfig = AgentConfig(id: string, projectId: string, name: string, body: string)

  datatype CacheEntry = CacheEntry(config: AgentConfig, expiresAt: int)

  /** The agents stored at each time, by id, and which of them a search by name returns. */
  datatype Repository = Repository(agents: int -> map<string, AgentConfig>,
                                   named: (int, string, string) -> Option<string>)

  function FindById(r: Repository, t: int, id: string): Option<AgentConfig> {
    if id in r.agents(t) then Some(r.agents(t)[id]) else None
  }

  function FindByName(r: Repository, t: int, projectId: string, name: string): Option<AgentConfig> {
    var id := r.named(t, projectId, name);
    if id.Some? then FindById(r, t, id.value) else None
  }

  predicate HasName(c: AgentConfig, projectId: string, name: string) {
    c.projectId == projectId && c.name == name
  }

  /** Agents are stored under their own id, and a search by name finds one of that name when there is one. */
  ghost predicate Consistent(r: Repository) {
    && (forall t, id | id in r.agents(t) :: r.agents(t)[id].id == id)
    && (forall t, p, n | r.named(t, p, n).Some? ::
          r.named(t, p, n).value in r.agents(t) && HasName(r.agents(t)[r.named(t, p, n).value], p, n))
    && (forall t, p, n, id | r.named(t, p, n).None? && id in r.agents(t) :: !HasName(r.agents(t)[id], p, n))
  }

  predicate Matches(e: CacheEntry, projectId: string, name: string, now: int) {
    e.expiresAt > now && HasName(e.config, projectId, name)
  }

  predicate IsFresh(e: Option<CacheEntry>, now: int) {
    e.Some? && e.value.expiresAt > now
  }

  class Registry {
    const repo: Repository
    const cacheTtlMs: int
    // The longest time between a fetch and the write of its result to the cache; 0 when a lookup is atomic.
    ghost const maxLatency: nat
    var cache: seq<Entry<string, CacheEntry>>
    // When each cached configuration was fetched; the time of the last call.
    ghost var fetched: map<string, int>
    ghost var clock: int

    /** A cached configuration is what the repository held when it was fetched, and expires in time. */
    ghost predicate EntryOk(e: Entry<string, CacheEntry>)
      reads this
    {
      && e.key in fetched
      && fetched[e.key] <= clock
      && e.value.expiresAt <= fetched[e.key] + maxLatency + cacheTtlMs
      && FindById(repo, fetched[e.key], e.key) == Some(e.value.config)
    }

    ghost predicate Valid()
      reads this
    {
      && Consistent(repo) && Distinct(cache)
      && forall i | 0 <= i < |cache| :: EntryOk(cache[i])
    }

    /** `c` is what the repository held under its id at time `asOf`, at most one lifetime (and one fetch) ago. */
    ghost predicate Recent(c: AgentConfig, asOf: int, now: int)
      reads this
    {
      && FindById(repo, asOf, c.id) == Some(c)
      && now - cacheTtlMs - maxLatency < asOf <= now
    }

    constructor (repo: Repository, cacheTtlMs: int, ghost maxLatency: nat, now: int)
      requires Consistent(repo)
      ensures Valid() && cache == [] && clock == now
      ensures this.repo == repo && this.cacheTtlMs == cacheTtlMs && this.maxLatency == maxLatency
    {
      this.repo, this.cacheTtlMs, this.maxLatency := repo, cacheTtlMs, maxLatency;
      cache, fetched, clock := [], map[], now;
    }

    /** The first half of `get`: a fresh cache entry. */
    method Probe(agentId: string, now: int) returns (hit: Option<AgentConfig>, ghost asOf: int)
      requires Valid() && clock <= now
      modifies this`clock
      ensures Valid() && clock == now
      ensures hit == if IsFresh(Get(cache, agentId), now) then Some(Get(cache, agentId).value.config) else None
      ensures hit.Some? ==> hit.value.id == agentId && Recent(hit.value, asOf, now)
    {
      clock, asOf := now, now;
      hit := None;
      var cached := Get(cache, agentId);
      if cached.Some? && cached.value.expiresAt > now {
        assert EntryOk(cache[Find(cache, agentId)]);
        hit, asOf := Some(cached.value.config), fetched[agentId];
      }
    }

    /** The first half of `getByName`: the first fresh entry with that project and name. */
    method ProbeByName(projectId: string, name: string, now: int) returns (hit: Option<AgentConfig>, ghost asOf: int)
      requires Valid() && clock <= now
      modifies this`clock
      ensures Valid() && clock == now
      ensures hit.Some? ==> HasName(hit.value, projectId, name) && Recent(hit.value, asOf, now)
      ensures hit.Some? ==>
                (exists i ::
                   && 0 <= i < |cache|
                   && Matches(cache[i].value, projectId, name, now)
                   && cache[i].value.config == hit.value
                   && forall j | 0 <= j < i :: !Matches(cache[j].value, projectId, name, now))
      ensures hit.None? ==> forall i | 0 <= i < |cache| :: !Matches(cache[i].value, projectId, name, now)
      ensures hit.Some? ==> exists id :: IsFresh(Get(cache, id), now) && Get(cache, id).value.config == hit.value
      ensures hit.None? ==>
                forall id | IsFresh(Get(cache, id), now) ::
                  Get(cache, id).value.config.projectId != projectId || Get(cache, id).value.config.name != name
    {
      clock, asOf := now, now;
      for i := 0 to |cache|
        invariant forall j | 0 <= j < i :: !Matches(cache[j].value, projectId, name, now)
      {
        var entry := cache[i].value;
        if entry.expiresAt > now && entry.config.projectId == projectId && entry.config.name == name {
          assert EntryOk(cache[i]) && Matches(cache[i].value, projectId, name, now);
          UniquePosition(cache, i);
          assert IsFresh(Get(cache, cache[i].key), now);
          return Some(entry.config), fetched[cache[i].key];
        }
      }
      hit := None;
    }

    /** The second half: the fetched configuration is cached from now on, whatever happened since the fetch. */
    method SetCached(config: AgentConfig, ghost fetchedAt: int, now: int)
      requires Valid() && clock <= now && fetchedAt <= now <= fetchedAt + maxLatency
      requires FindById(repo, fetchedAt, config.id) == Some(config)
      modifies this`cache, this`fetched, this`clock
      ensures Valid() && clock == now
      ensures cache == Set(old(cache), config.id, CacheEntry(config, now + cacheTtlMs))
      ensures fetched == old(fetched)[config.id := fetchedAt]
      ensures Get(cache, config.id) == Some(CacheEntry(config, now + cacheTtlMs))
      ensures forall id | id != config.id :: Get(cache, id) == old(Get(cache, id))
    {
      SetGet(cache, config.id, CacheEntry(config, now + cacheTtlMs));
      cache := Set(cache, config.id, CacheEntry(config, now + cacheTtlMs));
      fetched, clock := fetched[config.id := fetchedAt], now;
      forall i | 0 <= i < |cache|
        ensures EntryOk(cache[i])
      {
        if cache[i].key != config.id {
          assert Get(old(cache), cache[i].key) == Some(cache[i].value) by {
            UniquePosition(cache, i);
          }
          assert old(EntryOk(cache[Find(cache, cache[i].key)]));
        } else {
          UniquePosition(cache, i);
        }
      }
    }

    /** An uninterrupted `get`: from the cache if fresh, else exactly what the repository holds. */
    method GetAgent(agentId: string, now: int, fetchedAt: int, storedAt: int)
      returns (config: Option<AgentConfig>, ghost asOf: int)
      requires Valid() && clock <= now <= fetchedAt <= storedAt <= fetchedAt + maxLatency
      modifies this
      ensures Valid()
      ensures config.Some? ==>
                && config.value.id == agentId
                && FindById(repo, asOf, agentId) == config
                && (now - cacheTtlMs - maxLatency < asOf <= now || asOf == fetchedAt)
      ensures config == if old(IsFresh(Get(cache, agentId), now)) then Some(old(Get(cache, agentId)).value.config)
                        else FindById(repo, fetchedAt, agentId)
      ensures Get(cache, agentId) == if !old(IsFresh(Get(cache, agentId), now)) && config.Some?
                                     then Some(CacheEntry(config.value, storedAt + cacheTtlMs))
                                     else old(Get(cache, agentId))
      ensures forall id | id != agentId :: Get(cache, id) == old(Get(cache, id))
    {
      config, asOf := Probe(agentId, now);
      if config.Some? {
        return;
      }
      config, asOf := FindById(repo, fetchedAt, agentId), fetchedAt;
      if config.Some? {
        SetCached(config.value, fetchedAt, storedAt);
      }
    }

    method GetByName(projectId: string, name: string, now: int, fetchedAt: int, storedAt: int)
      returns (config: Option<AgentConfig>, ghost asOf: int)
      requires Valid() && clock <= now <= fetchedAt <= storedAt <= fetchedAt + maxLatency
      modifies this
      ensures Valid()
      ensures config.Some? ==>
                && HasName(config.value, projectId, name)
                && FindById(repo, asOf, config.value.id) == config
                && (now - cacheTtlMs - maxLatency < asOf <= now || asOf == fetchedAt)
      ensures config.None? ==>
                forall id | id in repo.agents(fetchedAt) :: !HasName(repo.agents(fetchedAt)[id], projectId, name)
    {
      config, asOf := ProbeByName(projectId, name, now);
      if config.Some? {
        return;
      }
      config, asOf := FindByName(repo, fetchedAt, projectId, name), fetchedAt;
      if config.Some? {
        SetCached(config.value, fetchedAt, storedAt);
      }
    }

    method Invalidate(agentId: string)
      requires Valid()
      modifies this`cache
      ensures Valid() && cache == Delete(old(cache), agentId)
      ensures Get(cache, agentId) == None
      ensures forall id | id != agentId :: Get(cache, id) == old(Get(cache, id))
    {
      DeleteGet(cache, agentId);
      cache := Delete(cache, agentId);
      forall i | 0 <= i < |cache|
        ensures EntryOk(cache[i])
      {
        assert exists j | 0 <= j < |old(cache)| :: old(cache)[j] == cache[i];
        var j :| 0 <= j < |old(cache)| && old(cache)[j] == cache[i];
        assert old(EntryOk(cache[j]));
      }
    }

    /** Afterwards the cache holds what the repository held during the refresh, or nothing. */
    method Refresh(agentId: string, now: int, fetchedAt: int, storedAt: int)
      requires Valid() && clock <= now <= fetchedAt <= storedAt <= fetchedAt + maxLatency
      modifies this
      ensures Valid()
      ensures var current := FindById(repo, fetchedAt, agentId);
              Get(cache, agentId)
                == if current.Some? then Some(CacheEntry(current.value, storedAt + cacheTtlMs)) else None
    {
      Invalidate(agentId);
      var config, _ := GetAgent(agentId, now, fetchedAt, storedAt);
    }

    /** After `invalidate`, the next lookup by id reflects the repository, whatever was cached. */
    method LookUpAfterInvalidate(agentId: string, now: int, fetchedAt: int, storedAt: int)
      returns (config: Option<AgentConfig>)
      requires Valid() && clock <= now <= fetchedAt <= storedAt <= fetchedAt + maxLatency
      modifies this
      ensures Valid() && config == FindById(repo, fetchedAt, agentId)
    {
      Invalidate(agentId);
      ghost var asOf;
      config, asOf := GetAgent(agentId, now, fetchedAt, storedAt);
    }

    /**
     That holds only for a lookup begun after the invalidation. One that fetched
     before it and is still under way writes what it fetched, so that a later lookup
     reflects the repository exactly when that entry has expired or the repository
     has not changed.
     */
    method InvalidateDuringLookup(agentId: string, now: int, fetchedAt: int, storedAt: int, later: int)
      returns (config: Option<AgentConfig>)
      requires Valid() && clock <= now <= fetchedAt <= storedAt <= fetchedAt + maxLatency && storedAt <= later
      requires FindById(repo, fetchedAt, agentId).Some? && !IsFresh(Get(cache, agentId), now)
      modifies this
      ensures Valid()
      ensures config == FindById(repo, if later < storedAt + cacheTtlMs then fetchedAt else later, agentId)
      ensures config == FindById(repo, later, agentId)
         <==> later >= storedAt + cacheTtlMs || FindById(repo, fetchedAt, agentId) == FindById(repo, later, agentId)
    {
      var hit, _ := Probe(agentId, now);
      var underWay := FindById(repo, fetchedAt, agentId);
      Invalidate(agentId);
      SetCached(underWay.value, fetchedAt, storedAt);
      ghost var asOf;
      config, asOf := GetAgent(agentId, later, later, later);
    }
  }
}
