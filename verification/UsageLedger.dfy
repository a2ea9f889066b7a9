/**
 The queries of a usage store (src/cost/cost-guard.ts, `createInMemoryUsageStore`;
 src/cost/prisma-usage-store.ts): how many requests of a project lie in a time
 window, and what a project has spent since some moment. Money is exact.
 */
module UsageLedger {

  datatype Request = Request(projectId: string, at: int)

  datatype UsageEntry = UsageEntry(projectId: string, costUSD: real, at: int)

  const MINUTE_MS := 60_000
  const HOUR_MS := 3_600_000

  /** Requests of `p` not older than `since`. */
  function RequestsSince(rs: seq<Request>, p: string, since: int): nat {
    if rs == [] then 0
    else RequestsSince(rs[..|rs| - 1], p, since) + Counted(rs[|rs| - 1], p, since)
  }

  function Counted(r: Request, p: string, since: int): nat {
    if r.projectId == p && r.at >= since then 1 else 0
  }

  /** Requests of `p` within the closed window from `lo` to `hi`. */
  function RequestsWithin(rs: seq<Request>, p: string, lo: int, hi: int): nat {
    if rs == [] then 0
    else
      var r := rs[|rs| - 1];
      RequestsWithin(rs[..|rs| - 1], p, lo, hi) + (if r.at <= hi then Counted(r, p, lo) else 0)
  }

  /** What `p` has spent since `since`. */
  function SpendSince(us: seq<UsageEntry>, p: string, since: int): real {
    if us == [] then 0.0
    else SpendSince(us[..|us| - 1], p, since) + Charged(us[|us| - 1], p, since)
  }

  function Charged(u: UsageEntry, p: string, since: int): real {
    if u.projectId == p && u.at >= since then u.costUSD else 0.0
  }

  lemma RequestsSinceAdd(rs: seq<Request>, r: Request, p: string, since: int)
    ensures RequestsSince(rs + [r], p, since) == RequestsSince(rs, p, since) + Counted(r, p, since)
  {
    assert (rs + [r])[..|rs|] == rs;
  }

  lemma SpendSinceAdd(us: seq<UsageEntry>, u: UsageEntry, p: string, since: int)
    ensures SpendSince(us + [u], p, since) == SpendSince(us, p, since) + Charged(u, p, since)
  {
    assert (us + [u])[..|us|] == us;
  }

  lemma {:induction false} RequestsSinceAntitone(rs: seq<Request>, p: string, earlier: int, later: int)
    requires earlier <= later
    ensures RequestsSince(rs, p, later) <= RequestsSince(rs, p, earlier)
  {
    if rs != [] {
      RequestsSinceAntitone(rs[..|rs| - 1], p, earlier, later);
    }
  }

  lemma {:induction false} SpendSinceAntitone(us: seq<UsageEntry>, p: string, earlier: int, later: int)
    requires earlier <= later
    requires forall u | u in us :: u.costUSD >= 0.0
    ensures SpendSince(us, p, later) <= SpendSince(us, p, earlier)
  {
    if us != [] {
      assert us[|us| - 1] in us;
      SpendSinceAntitone(us[..|us| - 1], p, earlier, later);
    }
  }

  /** When nothing is newer than `hi`, the open query and the closed window agree. */
  lemma {:induction false} WindowIsOpenQuery(rs: seq<Request>, p: string, lo: int, hi: int)
    requires forall r | r in rs :: r.at <= hi
    ensures RequestsWithin(rs, p, lo, hi) == RequestsSince(rs, p, lo)
  {
    if rs != [] {
      assert rs[|rs| - 1] in rs;
      WindowIsOpenQuery(rs[..|rs| - 1], p, lo, hi);
    }
  }

  lemma {:induction false} RequestsSinceAppend(a: seq<Request>, b: seq<Request>, p: string, since: int)
    ensures RequestsSince(a + b, p, since) == RequestsSince(a, p, since) + RequestsSince(b, p, since)
    decreases |b|
  {
    if b == [] {
      assert a + b == a;
    } else {
      assert (a + b)[..|a + b| - 1] == a + b[..|b| - 1];
      RequestsSinceAppend(a, b[..|b| - 1], p, since);
    }
  }

  lemma {:induction false} OldRequestsDoNotCount(rs: seq<Request>, p: string, since: int)
    requires forall r | r in rs :: r.at < since
    ensures RequestsSince(rs, p, since) == 0
  {
    if rs != [] {
      assert rs[|rs| - 1] in rs;
      OldRequestsDoNotCount(rs[..|rs| - 1], p, since);
    }
  }
}
