/**
 The in-memory rate window of the persistent usage store
 (src/cost/prisma-usage-store.ts, `pruneTimestamps`, `recordRequest` and the
 two request counters). Timestamps older than two hours are dropped; no count
 the store ever reports changes because of that.
 */
module RequestWindow {
  import opened UsageLedger

  const RETENTION_MS := 7_200_000

  ghost predicate InOrder(rs: seq<Request>) {
    forall i, j | 0 <= i < j < |rs| :: rs[i].at <= rs[j].at
  }

  ghost predicate AllBefore(rs: seq<Request>, t: int) {
    forall r | r in rs :: r.at < t
  }

  class RequestWindow {
    var requestTimestamps: seq<Request>
    // What has been dropped so far, and the latest time a call was made.
    ghost var pruned: seq<Request>
    ghost var clock: int

    /** Everything ever recorded. */
    ghost function History(): seq<Request>
      reads this
    {
      pruned + requestTimestamps
    }

    ghost predicate Valid()
      reads this
    {
      && InOrder(History())
      && AllBefore(History(), clock + 1)
      && AllBefore(pruned, clock - RETENTION_MS)
    }

    constructor (now: int)
      ensures Valid() && History() == [] && clock == now
    {
      requestTimestamps, pruned, clock := [], [], now;
    }

    /** Requests of the project in the last minute, counted over all history. */
    method GetRequestsLastMinute(projectId: string, now: int) returns (n: nat)
      requires Valid() && clock <= now
      modifies this`clock
      ensures Valid() && clock == now
      ensures n == RequestsSince(History(), projectId, now - MINUTE_MS)
    {
      n := RequestsSince(requestTimestamps, projectId, now - MINUTE_MS);
      KeptWindowCounts(pruned, requestTimestamps, projectId, now - MINUTE_MS);
      clock := now;
    }

    method GetRequestsLastHour(projectId: string, now: int) returns (n: nat)
      requires Valid() && clock <= now
      modifies this`clock
      ensures Valid() && clock == now
      ensures n == RequestsSince(History(), projectId, now - HOUR_MS)
    {
      n := RequestsSince(requestTimestamps, projectId, now - HOUR_MS);
      KeptWindowCounts(pruned, requestTimestamps, projectId, now - HOUR_MS);
      clock := now;
    }

    method RecordRequest(projectId: string, now: int)
      requires Valid() && clock <= now
      modifies this
      ensures Valid() && clock == now
      ensures History() == old(History()) + [Request(projectId, now)]
      ensures forall i | 0 <= i < |requestTimestamps| :: requestTimestamps[i].at >= now - RETENTION_MS
    {
      ghost var before := History();
      requestTimestamps := requestTimestamps + [Request(projectId, now)];
      clock := now;
      assert History() == before + [Request(projectId, now)];
      PruneTimestamps(now);
      OrderedTail(pruned, requestTimestamps);
    }

    /** Drops the leading timestamps older than the cutoff, if any newer one exists. */
    method PruneTimestamps(now: int)
      requires Valid() && clock == now
      modifies this`requestTimestamps, this`pruned
      ensures Valid() && History() == old(History())
      ensures (exists r :: r in old(requestTimestamps) && r.at >= now - RETENTION_MS)
              ==> requestTimestamps != [] && requestTimestamps[0].at >= now - RETENTION_MS
    {
      var idx := FirstNotBefore(requestTimestamps, now - RETENTION_MS);
      if idx > 0 {
        ghost var all := History();
        pruned := pruned + requestTimestamps[..idx];
        requestTimestamps := requestTimestamps[idx..];
        assert History() == all;
      }
    }
  }

  lemma OrderedTail(a: seq<Request>, b: seq<Request>)
    requires InOrder(a + b)
    ensures InOrder(b)
  {
    assert forall i | 0 <= i < |b| :: (a + b)[|a| + i] == b[i];
  }

  /** `findIndex`: the first timestamp not before the cutoff, or -1. */
  method FirstNotBefore(rs: seq<Request>, cutoff: int) returns (idx: int)
    ensures -1 <= idx < |rs|
    ensures idx >= 0 ==> rs[idx].at >= cutoff && forall i | 0 <= i < idx :: rs[i].at < cutoff
    ensures idx == -1 ==> forall r | r in rs :: r.at < cutoff
  {
    for i := 0 to |rs|
      invariant forall j | 0 <= j < i :: rs[j].at < cutoff
    {
      if rs[i].at >= cutoff {
        return i;
      }
    }
    return -1;
  }

  /** Dropping a prefix that lies before the window does not change the count. */
  lemma KeptWindowCounts(pruned: seq<Request>, kept: seq<Request>, p: string, since: int)
    requires AllBefore(pruned, since)
    ensures RequestsSince(kept, p, since) == RequestsSince(pruned + kept, p, since)
  {
    RequestsSinceAppend(pruned, kept, p, since);
    OldRequestsDoNotCount(pruned, p, since);
  }
}
