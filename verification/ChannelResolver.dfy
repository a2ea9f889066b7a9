/**
 The channel resolver (src/channels/channel-resolver.ts): its cache of adapters
 by project and provider, and the sending of a message with retries. What the
 database and the secret store yield at each time is an arbitrary function.
 */
module ChannelResolver {
  import opened Wrappers
  import opened InsertionMap

  datatype Provider = Telegram | WhatsApp | WhatsAppWaha | Slack | Chatwoot | Vapi

  datatype Adapter = Adapter(projectId: string, provider: Provider, credentials: string)

  datatype Integration = Integration(id: string, active: bool)

  datatype CachedAdapter = CachedAdapter(adapter: Adapter, expiresAt: int)

  /** The integration found for a project and provider, and the adapter its secrets allow, at each time. */
  datatype Backend = Backend(integration: (int, string, Provider) -> Option<Integration>,
                             credentials: (int, Integration) -> Option<string>)

  function ProviderName(p: Provider): string {
    match p
    case Telegram => "telegram"
    case WhatsApp => "whatsapp"
    case WhatsAppWaha => "whatsapp-waha"
    case Slack => "slack"
    case Chatwoot => "chatwoot"
    case Vapi => "vapi"
  }

  function CacheKey(projectId: string, p: Provider): string {
    projectId + ":" + ProviderName(p)
  }

  /** The adapter that the backend yields: none without an active integration or its secrets. */
  function Derived(b: Backend, t: int, projectId: string, p: Provider): Option<Adapter> {
    var i := b.integration(t, projectId, p);
    if i.None? || !i.value.active then None
    else
      var c := b.credentials(t, i.value);
      if c.None? then None else Some(Adapter(projectId, p, c.value))
  }

  /** There is an adapter exactly when the project has an active integration whose secrets can be read. */
  lemma AdapterNeedsActiveIntegration(b: Backend, t: int, projectId: string, p: Provider, a: Adapter)
    ensures Derived(b, t, projectId, p) == Some(a)
       <==> exists i :: && b.integration(t, projectId, p) == Some(i) && i.active
                        && b.credentials(t, i) == Some(a.credentials)
                        && a.projectId == projectId && a.provider == p
  {
  }

  // -------------------------------------------------------------- the keys

  lemma ProviderNames(p: Provider, q: Provider)
    ensures ':' !in ProviderName(p)
    ensures ProviderName(p) == ProviderName(q) ==> p == q
  {
    assert ProviderName(Telegram)[0] == 't' && ProviderName(Slack)[0] == 's';
    assert ProviderName(Chatwoot)[0] == 'c' && ProviderName(Vapi)[0] == 'v';
    assert |ProviderName(WhatsApp)| == 8 && |ProviderName(WhatsAppWaha)| == 13;
    assert ProviderName(WhatsApp)[0] == 'w' && ProviderName(WhatsAppWaha)[0] == 'w';
  }

  lemma KeyParts(projectId: string, p: Provider)
    ensures var key := CacheKey(projectId, p);
            && key[..|projectId|] == projectId && key[|projectId|] == ':'
            && key[|projectId| + 1..] == ProviderName(p)
            && forall i | |projectId| < i < |key| :: key[i] != ':'
  {
    ProviderNames(p, p);
    var key, n := CacheKey(projectId, p), |projectId|;
    assert forall i | n < i < |key| :: key[i] == ProviderName(p)[i - n - 1];
  }

  /** A cache key belongs to one project and provider. */
  lemma KeyIsUnique(a: string, p: Provider, b: string, q: Provider)
    requires CacheKey(a, p) == CacheKey(b, q)
    ensures a == b && p == q
  {
    KeyParts(a, p);
    KeyParts(b, q);
    assert |a| == |b|;
    ProviderNames(p, q);
  }

  predicate HasPrefix(prefix: string, s: string) {
    prefix <= s
  }

  /**
   The prefix that `invalidate` looks for also fits the keys of projects whose
   own id continues it after a colon, and of no others.
   */
  lemma PrefixOfKey(evicted: string, projectId: string, p: Provider)
    ensures HasPrefix(evicted + ":", CacheKey(projectId, p))
       <==> projectId == evicted || HasPrefix(evicted + ":", projectId)
  {
    KeyParts(projectId, p);
    var prefix, key := evicted + ":", CacheKey(projectId, p);
    assert prefix[|evicted|] == ':' && prefix[..|evicted|] == evicted;
    if HasPrefix(prefix, key) {
      assert key[|evicted|] == ':' && |evicted| <= |projectId|;
      assert key[..|evicted|] == evicted;
      if |evicted| < |projectId| {
        assert projectId[..|prefix|] == key[..|prefix|];
      }
    }
    if projectId == evicted {
      assert key[..|prefix|] == prefix;
    }
    if HasPrefix(prefix, projectId) {
      assert key[..|prefix|] == projectId[..|prefix|];
    }
  }

  // -------------------------------------------------------------- eviction

  /** The entries whose key does not start with the prefix, in order. */
  function Without(m: seq<Entry<string, CachedAdapter>>, prefix: string): seq<Entry<string, CachedAdapter>> {
    if m == [] then []
    else
      var front, last := Without(m[..|m| - 1], prefix), m[|m| - 1];
      if HasPrefix(prefix, last.key) then front else front + [last]
  }

  lemma {:induction false} WithoutKeepsTheRest(m: seq<Entry<string, CachedAdapter>>, prefix: string)
    ensures forall e :: e in Without(m, prefix) <==> e in m && !HasPrefix(prefix, e.key)
  {
    if m != [] {
      assert m == m[..|m| - 1] + [m[|m| - 1]];
      WithoutKeepsTheRest(m[..|m| - 1], prefix);
    }
  }

  lemma DeleteBetween(a: seq<Entry<string, CachedAdapter>>, e: Entry<string, CachedAdapter>,
                      b: seq<Entry<string, CachedAdapter>>)
    requires Distinct(a + [e] + b)
    ensures Delete(a + [e] + b, e.key) == a + b && Distinct(a + b)
  {
    var m := a + [e] + b;
    assert m[|a|] == e;
    UniquePosition(m, |a|);
    DeleteGet(m, e.key);
    assert m[..|a|] == a && m[|a| + 1..] == b;
  }

  // --------------------------------------------------------- what is cached

  type Cache = seq<Entry<string, CachedAdapter>>

  /** The adapter was derived when the map says, and expires at most `life` later. */
  ghost predicate EntryOk(b: Backend, life: int, derivedAt: map<string, int>, clock: int,
                          e: Entry<string, CachedAdapter>) {
    var a := e.value.adapter;
    && e.key == CacheKey(a.projectId, a.provider)
    && e.key in derivedAt && derivedAt[e.key] <= clock
    && e.value.expiresAt <= derivedAt[e.key] + life
    && Derived(b, derivedAt[e.key], a.projectId, a.provider) == Some(a)
  }

  ghost predicate CacheOk(b: Backend, life: int, derivedAt: map<string, int>, clock: int, m: Cache) {
    Distinct(m) && forall e | e in m :: EntryOk(b, life, derivedAt, clock, e)
  }

  lemma OkLater(b: Backend, life: int, derivedAt: map<string, int>, clock: int, later: int, m: Cache)
    requires CacheOk(b, life, derivedAt, clock, m) && clock <= later
    ensures CacheOk(b, life, derivedAt, later, m)
  {
    forall e | e in m
      ensures EntryOk(b, life, derivedAt, later, e)
    {
      assert EntryOk(b, life, derivedAt, clock, e);
    }
  }

  lemma OkWithout(b: Backend, life: int, derivedAt: map<string, int>, clock: int, m: Cache, prefix: string)
    requires CacheOk(b, life, derivedAt, clock, m) && Distinct(Without(m, prefix))
    ensures CacheOk(b, life, derivedAt, clock, Without(m, prefix))
  {
    WithoutKeepsTheRest(m, prefix);
  }

  lemma OkDelete(b: Backend, life: int, derivedAt: map<string, int>, clock: int, m: Cache, key: string)
    requires CacheOk(b, life, derivedAt, clock, m)
    ensures CacheOk(b, life, derivedAt, clock, Delete(m, key))
  {
    DeleteGet(m, key);
    assert forall e | e in Delete(m, key) :: e in m;
  }

  lemma OkSet(b: Backend, life: int, derivedAt: map<string, int>, clock: int, m: Cache, a: Adapter, at: int,
              expiresAt: int)
    requires CacheOk(b, life, derivedAt, clock, m) && at <= clock && expiresAt <= at + life
    requires Derived(b, at, a.projectId, a.provider) == Some(a)
    ensures var key := CacheKey(a.projectId, a.provider);
            CacheOk(b, life, derivedAt[key := at], clock, Set(m, key, CachedAdapter(a, expiresAt)))
  {
    var key, v := CacheKey(a.projectId, a.provider), CachedAdapter(a, expiresAt);
    SetGet(m, key, v);
    var m' := Set(m, key, v);
    forall e | e in m'
      ensures EntryOk(b, life, derivedAt[key := at], clock, e)
    {
      var i :| 0 <= i < |m'| && m'[i] == e;
      UniquePosition(m', i);
      if e.key != key {
        assert Get(m, e.key) == Some(e.value);
        assert m[Find(m, e.key)] == e;
        assert EntryOk(b, life, derivedAt, clock, e);
      }
    }
  }

  /** A cached adapter under the key of a project and provider is theirs. */
  lemma CachedIsDerived(b: Backend, life: int, derivedAt: map<string, int>, clock: int, m: Cache, projectId: string,
                        p: Provider)
    requires CacheOk(b, life, derivedAt, clock, m)
    ensures var key := CacheKey(projectId, p);
            var cached := Get(m, key);
            cached.Some? ==>
              && key in derivedAt && derivedAt[key] <= clock
              && Derived(b, derivedAt[key], projectId, p) == Some(cached.value.adapter)
              && cached.value.expiresAt <= derivedAt[key] + life
  {
    var key := CacheKey(projectId, p);
    if Get(m, key).Some? {
      var e := m[Find(m, key)];
      assert e in m && EntryOk(b, life, derivedAt, clock, e);
      KeyIsUnique(e.value.adapter.projectId, e.value.adapter.provider, projectId, p);
    }
  }

  /** A cached entry that has not expired. */
  predicate IsCached(m: seq<Entry<string, CachedAdapter>>, key: string, now: int) {
    Get(m, key).Some? && Get(m, key).value.expiresAt > now
  }

  lemma KeptEntry(m: seq<Entry<string, CachedAdapter>>, m': seq<Entry<string, CachedAdapter>>, key: string)
    requires Distinct(m) && Distinct(m') && forall e: Entry<string, CachedAdapter> | e.key == key :: e in m <==> e in m'
    ensures Get(m, key) == Get(m', key)
  {
    if HasKey(m, key) {
      var e := m[Find(m, key)];
      assert e in m';
      var i :| 0 <= i < |m'| && m'[i] == e;
      UniquePosition(m', i);
    } else if HasKey(m', key) {
      var e := m'[Find(m', key)];
      assert e in m;
    }
  }

  lemma EvictOne(m: Cache, i: nat, prefix: string)
    requires i < |m|
    requires Distinct(Without(m[..i], prefix) + m[i..])
    ensures var kept := Without(m[..i], prefix);
            && Without(m[..i + 1], prefix) == (if HasPrefix(prefix, m[i].key) then kept else kept + [m[i]])
            && (if HasPrefix(prefix, m[i].key)
                then Delete(kept + m[i..], m[i].key) == kept + m[i + 1..] && Distinct(kept + m[i + 1..])
                else kept + m[i..] == (kept + [m[i]]) + m[i + 1..])
  {
    var kept := Without(m[..i], prefix);
    assert m[..i + 1][..i] == m[..i];
    assert kept + m[i..] == kept + [m[i]] + m[i + 1..];
    DeleteBetween(kept, m[i], m[i + 1..]);
  }

  lemma EvictedOrKept(m: Cache, m': Cache, evicted: string, projectId: string, p: Provider)
    requires Distinct(m) && Distinct(m') && m' == Without(m, evicted + ":")
    ensures var key := CacheKey(projectId, p);
            Get(m', key) == if projectId == evicted || HasPrefix(evicted + ":", projectId) then None else Get(m, key)
  {
    var key := CacheKey(projectId, p);
    WithoutKeepsTheRest(m, evicted + ":");
    PrefixOfKey(evicted, projectId, p);
    if HasPrefix(evicted + ":", key) {
      assert forall e | e in m' :: e.key != key;
    } else {
      KeptEntry(m, m', key);
    }
  }

  class Resolver {
    const backend: Backend
    const cacheTtlMs: int
    // The longest time between reading the integration and caching its adapter; 0 when a lookup is atomic.
    ghost const maxLatency: nat
    var adapterCache: Cache
    // When each cached adapter was derived; the time of the last call.
    ghost var derivedAt: map<string, int>
    ghost var clock: int

    ghost predicate Valid()
      reads this
    {
      CacheOk(backend, maxLatency + cacheTtlMs, derivedAt, clock, adapterCache)
    }

    constructor (backend: Backend, cacheTtlMs: int, ghost maxLatency: nat, now: int)
      ensures Valid() && adapterCache == [] && clock == now
      ensures this.backend == backend && this.cacheTtlMs == cacheTtlMs && this.maxLatency == maxLatency
    {
      this.backend, this.cacheTtlMs, this.maxLatency := backend, cacheTtlMs, maxLatency;
      adapterCache, derivedAt, clock := [], map[], now;
    }

    /** A fresh cached adapter; an expired one is evicted. */
    method Probe(projectId: string, p: Provider, now: int) returns (hit: Option<Adapter>, ghost asOf: int)
      requires Valid() && clock <= now
      modifies this`adapterCache, this`clock
      ensures Valid() && clock == now
      ensures hit.Some? ==>
                && Derived(backend, asOf, projectId, p) == hit
                && now - cacheTtlMs - maxLatency < asOf <= now
      ensures var key := CacheKey(projectId, p);
              if IsCached(old(adapterCache), key, now) then hit == Some(Get(old(adapterCache), key).value.adapter)
              else hit == None
      ensures hit.None? ==> Get(adapterCache, CacheKey(projectId, p)) == None
      ensures forall k | k != CacheKey(projectId, p) :: Get(adapterCache, k) == old(Get(adapterCache, k))
    {
      var key := CacheKey(projectId, p);
      var cached := Get(adapterCache, key);
      CachedIsDerived(backend, maxLatency + cacheTtlMs, derivedAt, clock, adapterCache, projectId, p);
      OkLater(backend, maxLatency + cacheTtlMs, derivedAt, clock, now, adapterCache);
      clock, asOf, hit := now, now, None;
      if cached.Some? {
        if cached.value.expiresAt > now {
          return Some(cached.value.adapter), derivedAt[key];
        }
        DeleteGet(adapterCache, key);
        OkDelete(backend, maxLatency + cacheTtlMs, derivedAt, clock, adapterCache, key);
        adapterCache := Delete(adapterCache, key);
      }
    }

    method SetCached(adapter: Adapter, ghost at: int, now: int)
      requires Valid() && clock <= now && at <= now <= at + maxLatency
      requires Derived(backend, at, adapter.projectId, adapter.provider) == Some(adapter)
      modifies this`adapterCache, this`derivedAt, this`clock
      ensures Valid() && clock == now
      ensures var key := CacheKey(adapter.projectId, adapter.provider);
              && Get(adapterCache, key) == Some(CachedAdapter(adapter, now + cacheTtlMs))
              && forall k | k != key :: Get(adapterCache, k) == old(Get(adapterCache, k))
    {
      var key, entry := CacheKey(adapter.projectId, adapter.provider), CachedAdapter(adapter, now + cacheTtlMs);
      OkLater(backend, maxLatency + cacheTtlMs, derivedAt, clock, now, adapterCache);
      OkSet(backend, maxLatency + cacheTtlMs, derivedAt, now, adapterCache, adapter, at, now + cacheTtlMs);
      SetGet(adapterCache, key, entry);
      adapterCache := Set(adapterCache, key, entry);
      derivedAt, clock := derivedAt[key := at], now;
    }

    /** An uninterrupted lookup: a cached adapter while it is fresh, else exactly what the backend yields. */
    method ResolveAdapter(projectId: string, p: Provider, now: int, readAt: int, storedAt: int)
      returns (adapter: Option<Adapter>, ghost asOf: int)
      requires Valid() && clock <= now <= readAt <= storedAt <= readAt + maxLatency
      modifies this
      ensures Valid()
      ensures Derived(backend, asOf, projectId, p) == adapter
      ensures asOf == readAt || now - cacheTtlMs - maxLatency < asOf <= now
      ensures var key := CacheKey(projectId, p);
              if IsCached(old(adapterCache), key, now) then adapter == Some(Get(old(adapterCache), key).value.adapter)
              else asOf == readAt
      ensures var cached := Get(old(adapterCache), CacheKey(projectId, p));
              && (cached.Some? && cached.value.expiresAt > now ==> adapter == Some(cached.value.adapter))
              && (cached.None? || cached.value.expiresAt <= now ==> adapter == Derived(backend, readAt, projectId, p))
    {
      adapter, asOf := Probe(projectId, p, now);
      if adapter.Some? {
        return;
      }
      adapter, asOf := Derived(backend, readAt, projectId, p), readAt;
      if adapter.Some? {
        SetCached(adapter.value, readAt, storedAt);
      }
    }

    /** Evicts the entries whose key starts with the project id and a colon, and no others. */
    method Invalidate(projectId: string)
      requires Valid()
      modifies this`adapterCache
      ensures Valid() && adapterCache == Without(old(adapterCache), projectId + ":")
    {
      var prefix := projectId + ":";
      var snapshot := adapterCache;
      ghost var kept: Cache := [];
      for i := 0 to |snapshot|
        invariant kept == Without(snapshot[..i], prefix)
        invariant adapterCache == kept + snapshot[i..] && Distinct(adapterCache)
      {
        EvictOne(snapshot, i, prefix);
        if HasPrefix(prefix, snapshot[i].key) {
          adapterCache := Delete(adapterCache, snapshot[i].key);
        } else {
          kept := kept + [snapshot[i]];
        }
      }
      assert snapshot[..|snapshot|] == snapshot && kept + snapshot[|snapshot|..] == kept;
      OkWithout(backend, maxLatency + cacheTtlMs, derivedAt, clock, snapshot, prefix);
    }

    /**
     After `invalidate`, every provider of the project is looked up afresh. A
     project keeps its cached adapters exactly when its id is another one that does
     not continue the invalidated id after a colon.
     */
    method LookUpAfterInvalidate(evicted: string, projectId: string, p: Provider, now: int, readAt: int, storedAt: int)
      returns (adapter: Option<Adapter>)
      requires Valid() && clock <= now <= readAt <= storedAt <= readAt + maxLatency
      modifies this
      ensures Valid()
      ensures projectId == evicted || HasPrefix(evicted + ":", projectId) ==>
                adapter == Derived(backend, readAt, projectId, p)
      ensures projectId != evicted && !HasPrefix(evicted + ":", projectId)
                && IsCached(old(adapterCache), CacheKey(projectId, p), now)
              ==> adapter == Some(Get(old(adapterCache), CacheKey(projectId, p)).value.adapter)
    {
      ghost var before := adapterCache;
      Invalidate(evicted);
      EvictedOrKept(before, adapterCache, evicted, projectId, p);
      ghost var asOf;
      adapter, asOf := ResolveAdapter(projectId, p, now, readAt, storedAt);
    }
  }

  // --------------------------------------------------------------- sending

  const MAX_SEND_RETRIES := 2

  datatype Attempt = Delivered(messageId: string) | Rejected(error: Option<string>) | Threw(message: string)

  datatype SendResult = SendOk(messageId: string) | SendError(error: string)

  function FailureOf(a: Attempt): string {
    match a
    case Delivered(_) => ""
    case Rejected(error) => if error.Some? then error.value else "Unknown send error"
    case Threw(message) => message
  }

  /**
   At most three attempts, one and then two seconds apart: the first that succeeds
   is the result; if none does, the error of the last one.
   */
  method Send(adapter: Option<Adapter>, attempts: nat -> Attempt)
    returns (result: SendResult, made: nat, waits: seq<nat>)
    ensures adapter.None? ==> made == 0 && result.SendError?
    ensures adapter.Some? ==> 1 <= made <= MAX_SEND_RETRIES + 1
    ensures adapter.Some? ==> forall i: nat | i < made - 1 :: !attempts(i).Delivered?
    ensures adapter.Some? ==>
              (result.SendOk? <==> exists i: nat :: i <= MAX_SEND_RETRIES && attempts(i).Delivered?)
    ensures adapter.Some? && result.SendOk? ==> attempts(made - 1) == Delivered(result.messageId)
    ensures adapter.Some? && result.SendError? ==>
              made == MAX_SEND_RETRIES + 1 && result.error == FailureOf(attempts(MAX_SEND_RETRIES))
    ensures adapter.Some? && result.SendError? ==>
              match attempts(2)
              case Delivered(_) => false
              case Rejected(Some(error)) => result.error == error
              case Rejected(None) => result.error == "Unknown send error"
              case Threw(message) => result.error == message
    ensures adapter.None? ==> result == SendError("No adapter configured")
    ensures |waits| == (if made == 0 then 0 else made - 1) && forall i | 0 <= i < |waits| :: waits[i] == 1000 * (i + 1)
  {
    made, waits := 0, [];
    if adapter.None? {
      return SendError("No adapter configured"), made, waits;
    }
    var lastError := "";
    while made <= MAX_SEND_RETRIES
      invariant 0 <= made <= MAX_SEND_RETRIES + 1
      invariant forall i: nat | i < made :: !attempts(i).Delivered?
      invariant made > 0 ==> lastError == FailureOf(attempts(made - 1))
      invariant |waits| == if made <= MAX_SEND_RETRIES then made else MAX_SEND_RETRIES
      invariant forall i | 0 <= i < |waits| :: waits[i] == 1000 * (i + 1)
    {
      var outcome := attempts(made);
      made := made + 1;
      match outcome {
        case Delivered(messageId) =>
          return SendOk(messageId), made, waits;
        case Rejected(error) =>
          lastError := if error.Some? then error.value else "Unknown send error";
        case Threw(message) =>
          lastError := message;
      }
      if made <= MAX_SEND_RETRIES {
        waits := waits + [1000 * (if made == 1 then 1 else 2)];
      }
    }
    result := SendError(lastError);
  }
}
