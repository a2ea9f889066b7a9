/**
 Rate and budget enforcement (src/cost/cost-guard.ts, `createCostGuard`).

 `preCheck` awaits the store between its reads and its write, so concurrent
 callers interleave. Every atomic piece of a call is a step of a state machine;
 any interleaving of any number of callers is a sequence of steps. The limits
 are not hard ones: they may be overshot by the callers in flight, and by no
 more than that.
 */
module CostGuard {
  import opened Wrappers
  import opened UsageLedger

  datatype CostConfig = CostConfig(dailyBudgetUSD: real, monthlyBudgetUSD: real,
                                   maxRequestsPerMinute: int, maxRequestsPerHour: int)

  datatype Period = Daily | Monthly

  /** Local midnight and the first of the month, as functions of the current time. */
  datatype Calendar = Calendar(start: Period -> int -> int)

  ghost predicate Monotone(cal: Calendar) {
    forall period, t, u :: t <= u ==> cal.start(period)(t) <= cal.start(period)(u)
  }

  datatype Store = Store(requests: seq<Request>, usage: seq<UsageEntry>)

  /** A caller past the rate check, with the spends it has read so far, or admitted and not yet billed. */
  datatype Phase = Checking(daily: Option<real>, monthly: Option<real>) | Admitted

  datatype Caller = Caller(projectId: string, phase: Phase)

  datatype System = System(now: int, store: Store, callers: map<nat, Caller>)

  datatype Step =
    | Tick(ms: nat)
    | ReadRates(caller: nat, projectId: string)
    | ReadSpend(caller: nat, period: Period)
    | Decide(caller: nat)
    | RecordUsage(caller: nat, costUSD: real)
    | GiveUp(caller: nat)

  function RequestsLastMinute(s: System, p: string): nat {
    RequestsSince(s.store.requests, p, s.now - MINUTE_MS)
  }

  function RequestsLastHour(s: System, p: string): nat {
    RequestsSince(s.store.requests, p, s.now - HOUR_MS)
  }

  function Spend(cal: Calendar, s: System, p: string, period: Period): real {
    SpendSince(s.store.usage, p, cal.start(period)(s.now))
  }

  function Budget(cfg: CostConfig, period: Period): real {
    match period
    case Daily => cfg.dailyBudgetUSD
    case Monthly => cfg.monthlyBudgetUSD
  }

  function SpendRead(phase: Phase, period: Period): Option<real>
    requires phase.Checking?
  {
    match period
    case Daily => phase.daily
    case Monthly => phase.monthly
  }

  predicate IsChecking(s: System, c: nat) {
    c in s.callers && s.callers[c].phase.Checking?
  }

  predicate IsAdmitted(s: System, c: nat) {
    c in s.callers && s.callers[c].phase.Admitted?
  }

  function Leave(s: System, c: nat): System {
    s.(callers := s.callers - {c})
  }

  /** One atomic piece of work; a step that is not enabled changes nothing. */
  function Apply(cfg: CostConfig, cal: Calendar, s: System, step: Step): System {
    match step
    case Tick(ms) => s.(now := s.now + ms)
    case ReadRates(c, p) =>
      if c in s.callers then s
      else if RequestsLastMinute(s, p) >= cfg.maxRequestsPerMinute then s
      else if RequestsLastHour(s, p) >= cfg.maxRequestsPerHour then s
      else s.(callers := s.callers[c := Caller(p, Checking(None, None))])
    case ReadSpend(c, period) =>
      if IsChecking(s, c) then
        var caller := s.callers[c];
        var spend := Some(Spend(cal, s, caller.projectId, period));
        var phase := if period == Daily then caller.phase.(daily := spend) else caller.phase.(monthly := spend);
        s.(callers := s.callers[c := caller.(phase := phase)])
      else s
    case Decide(c) =>
      if IsChecking(s, c) && s.callers[c].phase.daily.Some? && s.callers[c].phase.monthly.Some? then
        var caller := s.callers[c];
        if caller.phase.daily.value >= cfg.dailyBudgetUSD then Leave(s, c)
        else if caller.phase.monthly.value >= cfg.monthlyBudgetUSD then Leave(s, c)
        else s.(store := s.store.(requests := s.store.requests + [Request(caller.projectId, s.now)]),
                callers := s.callers[c := caller.(phase := Admitted)])
      else s
    case RecordUsage(c, cost) =>
      if IsAdmitted(s, c) then
        Leave(s, c).(store := s.store.(usage := s.store.usage + [UsageEntry(s.callers[c].projectId, cost, s.now)]))
      else s
    case GiveUp(c) => Leave(s, c)
  }

  function Execute(cfg: CostConfig, cal: Calendar, s: System, steps: seq<Step>): System
    decreases |steps|
  {
    if steps == [] then s else Execute(cfg, cal, Apply(cfg, cal, s, steps[0]), steps[1..])
  }

  // ------------------------------------------------------------- in flight

  /** Callers for `p` past the rate read whose request is not recorded yet. */
  function RateInFlight(s: System, p: string): set<nat> {
    set c | c in s.callers && s.callers[c].projectId == p && s.callers[c].phase.Checking?
  }

  predicate PassedBudget(cfg: CostConfig, period: Period, phase: Phase) {
    || phase.Admitted?
    || (SpendRead(phase, period).Some? && SpendRead(phase, period).value < Budget(cfg, period))
  }

  /** Callers for `p` that found the budget open and whose usage is not recorded yet. */
  function BudgetInFlight(cfg: CostConfig, period: Period, s: System, p: string): set<nat> {
    set c | c in s.callers && s.callers[c].projectId == p && PassedBudget(cfg, period, s.callers[c].phase)
  }

  // ------------------------------------------------------------ rate limits

  /** At every moment of the run at most `k` callers for `p` are past the rate read and not recorded. */
  ghost predicate RateInFlightAtMost(cfg: CostConfig, cal: Calendar, s: System, steps: seq<Step>, p: string, k: nat)
    decreases |steps|
  {
    && |RateInFlight(s, p)| <= k
    && (steps != [] ==> RateInFlightAtMost(cfg, cal, Apply(cfg, cal, s, steps[0]), steps[1..], p, k))
  }

  predicate NothingFromTheFuture(s: System) {
    && (forall r | r in s.store.requests :: r.at <= s.now)
    && (forall u | u in s.store.usage :: u.at <= s.now)
  }

  /** Requests of `p` in the window of length `len` that ends at `t`. */
  function Window(rs: seq<Request>, p: string, len: nat, t: int): nat {
    RequestsWithin(rs, p, t - len, t)
  }

  /** Within any window of length `len`, at most max + k - 1 requests; fewer if callers are still in flight. */
  ghost predicate RateInv(s: System, p: string, len: nat, max: nat, k: nat) {
    && NothingFromTheFuture(s)
    && RequestsSince(s.store.requests, p, s.now - len) + |RateInFlight(s, p)| <= max + k - 1
    && forall t :: Window(s.store.requests, p, len, t) <= max + k - 1
  }

  predicate IsRateLimit(cfg: CostConfig, len: nat, max: nat) {
    (len == MINUTE_MS && max == cfg.maxRequestsPerMinute) || (len == HOUR_MS && max == cfg.maxRequestsPerHour)
  }

  lemma CardinalityAfterAdding<T>(s: set<T>, t: set<T>, x: T)
    requires t == s + {x} && x !in s
    ensures |t| == |s| + 1
  {
  }

  lemma {:induction false} WindowAfterRecord(rs: seq<Request>, r: Request, p: string, lo: int, hi: int)
    ensures RequestsWithin(rs + [r], p, lo, hi)
         == RequestsWithin(rs, p, lo, hi) + (if r.at <= hi then Counted(r, p, lo) else 0)
  {
    assert (rs + [r])[..|rs|] == rs;
  }

  lemma {:induction false} WindowWithinOpenQuery(rs: seq<Request>, p: string, lo: int, hi: int)
    ensures RequestsWithin(rs, p, lo, hi) <= RequestsSince(rs, p, lo)
  {
    if rs != [] {
      WindowWithinOpenQuery(rs[..|rs| - 1], p, lo, hi);
    }
  }

  lemma RecordKeepsWindows(s: System, p: string, q: string, len: nat, bound: int)
    requires NothingFromTheFuture(s)
    requires forall t :: Window(s.store.requests, p, len, t) <= bound
    requires q == p ==> RequestsSince(s.store.requests, p, s.now - len) + 1 <= bound
    ensures forall t :: Window(s.store.requests + [Request(q, s.now)], p, len, t) <= bound
  {
    var r := Request(q, s.now);
    forall t
      ensures Window(s.store.requests + [r], p, len, t) <= bound
    {
      assert Window(s.store.requests, p, len, t) <= bound;
      WindowAfterRecord(s.store.requests, r, p, t - len, t);
      if q == p && t >= s.now {
        WindowWithinOpenQuery(s.store.requests, p, t - len, t);
        RequestsSinceAntitone(s.store.requests, p, s.now - len, t - len);
      }
    }
  }

  /** The callers in flight after a step that records no request. */
  lemma InFlightAfter(cfg: CostConfig, cal: Calendar, s: System, step: Step, p: string)
    requires !step.Decide?
    ensures var s' := Apply(cfg, cal, s, step);
            if step.ReadRates? && s' != s && step.projectId == p
            then RateInFlight(s', p) == RateInFlight(s, p) + {step.caller}
            else RateInFlight(s', p) <= RateInFlight(s, p)
  {
  }

  lemma OtherStepKeepsRate(cfg: CostConfig, cal: Calendar, s: System, step: Step, p: string, len: nat, max: nat, k: nat)
    requires RateInv(s, p, len, max, k) && IsRateLimit(cfg, len, max)
    requires !step.Decide? && |RateInFlight(Apply(cfg, cal, s, step), p)| <= k
    ensures RateInv(Apply(cfg, cal, s, step), p, len, max, k)
  {
    var s' := Apply(cfg, cal, s, step);
    InFlightAfter(cfg, cal, s, step, p);
    RecordsNothing(cfg, cal, s, step);
    if step.ReadRates? && s' != s && step.projectId == p {
      assert RequestsSince(s.store.requests, p, s.now - len) <= max - 1;
    } else {
      SubsetIsSmaller(RateInFlight(s', p), RateInFlight(s, p));
    }
    RateCarriesOver(s, s', p, len, max, k);
  }

  lemma RecordsNothing(cfg: CostConfig, cal: Calendar, s: System, step: Step)
    requires !step.Decide? && NothingFromTheFuture(s)
    ensures var s' := Apply(cfg, cal, s, step);
            s'.store.requests == s.store.requests && s'.now >= s.now && NothingFromTheFuture(s')
  {
  }

  lemma RateCarriesOver(s: System, s': System, p: string, len: nat, max: nat, k: nat)
    requires RateInv(s, p, len, max, k)
    requires s'.store.requests == s.store.requests && s'.now >= s.now && NothingFromTheFuture(s')
    requires || |RateInFlight(s', p)| <= |RateInFlight(s, p)|
             || (RequestsSince(s.store.requests, p, s.now - len) <= max - 1 && |RateInFlight(s', p)| <= k)
    ensures RateInv(s', p, len, max, k)
  {
    RequestsSinceAntitone(s.store.requests, p, s.now - len, s'.now - len);
  }

  /** Whether a decision admits the caller, and so records its request. */
  predicate Admits(cfg: CostConfig, s: System, c: nat) {
    && IsChecking(s, c)
    && s.callers[c].phase.daily.Some? && s.callers[c].phase.daily.value < cfg.dailyBudgetUSD
    && s.callers[c].phase.monthly.Some? && s.callers[c].phase.monthly.value < cfg.monthlyBudgetUSD
  }

  lemma RefusalKeepsRate(cfg: CostConfig, cal: Calendar, s: System, c: nat, p: string, len: nat, max: nat, k: nat)
    requires RateInv(s, p, len, max, k) && !Admits(cfg, s, c)
    ensures RateInv(Apply(cfg, cal, s, Decide(c)), p, len, max, k)
  {
    var s' := Apply(cfg, cal, s, Decide(c));
    assert s'.store == s.store && s'.now == s.now;
    assert RateInFlight(s', p) <= RateInFlight(s, p);
    SubsetIsSmaller(RateInFlight(s', p), RateInFlight(s, p));
  }

  lemma AdmittedLeavesFlight(cfg: CostConfig, cal: Calendar, s: System, c: nat, p: string)
    requires Admits(cfg, s, c)
    ensures var after := RateInFlight(Apply(cfg, cal, s, Decide(c)), p);
            |RateInFlight(s, p)| == |after| + (if s.callers[c].projectId == p then 1 else 0)
  {
    var before, after := RateInFlight(s, p), RateInFlight(Apply(cfg, cal, s, Decide(c)), p);
    if s.callers[c].projectId == p {
      assert before == after + {c};
      CardinalityAfterAdding(after, before, c);
    } else {
      assert before == after;
    }
  }

  lemma AdmissionKeepsRate(cfg: CostConfig, cal: Calendar, s: System, c: nat, p: string, len: nat, max: nat, k: nat)
    requires RateInv(s, p, len, max, k) && Admits(cfg, s, c)
    ensures RateInv(Apply(cfg, cal, s, Decide(c)), p, len, max, k)
  {
    var s' := Apply(cfg, cal, s, Decide(c));
    var q := s.callers[c].projectId;
    var rs := s.store.requests + [Request(q, s.now)];
    assert s'.store == s.store.(requests := rs) && s'.now == s.now;
    AdmittedLeavesFlight(cfg, cal, s, c, p);
    RequestsSinceAdd(s.store.requests, Request(q, s.now), p, s.now - len);
    RecordKeepsWindows(s, p, q, len, max + k - 1);
  }

  lemma {:induction false} SubsetIsSmaller<T>(a: set<T>, b: set<T>)
    requires a <= b
    ensures |a| <= |b|
  {
    if a != {} {
      var x :| x in a;
      SubsetIsSmaller(a - {x}, b - {x});
    }
  }

  lemma {:induction false} RunKeepsRate(cfg: CostConfig, cal: Calendar, s: System, steps: seq<Step>,
                                        p: string, len: nat, max: nat, k: nat)
    requires RateInv(s, p, len, max, k) && IsRateLimit(cfg, len, max)
    requires RateInFlightAtMost(cfg, cal, s, steps, p, k)
    ensures RateInv(Execute(cfg, cal, s, steps), p, len, max, k)
    decreases |steps|
  {
    if steps != [] {
      if steps[0].Decide? {
        if Admits(cfg, s, steps[0].caller) {
          AdmissionKeepsRate(cfg, cal, s, steps[0].caller, p, len, max, k);
        } else {
          RefusalKeepsRate(cfg, cal, s, steps[0].caller, p, len, max, k);
        }
      } else {
        OtherStepKeepsRate(cfg, cal, s, steps[0], p, len, max, k);
      }
      RunKeepsRate(cfg, cal, Apply(cfg, cal, s, steps[0]), steps[1..], p, len, max, k);
    }
  }

  function Fresh(now: int): System {
    System(now, Store([], []), map[])
  }

  /**
   However callers interleave, if at most `k` of them are ever past the rate
   read but not yet recorded, then every window of a minute holds at most
   max + k - 1 requests of the project, and every window of an hour likewise.
   */
  lemma RateLimitUnderInterleaving(cfg: CostConfig, cal: Calendar, start: int, steps: seq<Step>, p: string, k: nat,
                                   t: int)
    requires cfg.maxRequestsPerMinute >= 0 && cfg.maxRequestsPerHour >= 0 && k >= 1
    requires RateInFlightAtMost(cfg, cal, Fresh(start), steps, p, k)
    ensures var rs := Execute(cfg, cal, Fresh(start), steps).store.requests;
            && Window(rs, p, MINUTE_MS, t) <= cfg.maxRequestsPerMinute + k - 1
            && Window(rs, p, HOUR_MS, t) <= cfg.maxRequestsPerHour + k - 1
  {
    assert RateInFlight(Fresh(start), p) == {};
    RunKeepsRate(cfg, cal, Fresh(start), steps, p, MINUTE_MS, cfg.maxRequestsPerMinute, k);
    RunKeepsRate(cfg, cal, Fresh(start), steps, p, HOUR_MS, cfg.maxRequestsPerHour, k);
  }

  // ---------------------------------------------------------------- budgets

  ghost predicate BudgetInFlightAtMost(cfg: CostConfig, cal: Calendar, period: Period, s: System, steps: seq<Step>,
                                       p: string, k: nat)
    decreases |steps|
  {
    && |BudgetInFlight(cfg, period, s, p)| <= k
    && (steps != [] ==> BudgetInFlightAtMost(cfg, cal, period, Apply(cfg, cal, s, steps[0]), steps[1..], p, k))
  }

  predicate CostsAtMost(steps: seq<Step>, c: real) {
    forall step | step in steps :: step.RecordUsage? ==> 0.0 <= step.costUSD <= c
  }

  /** The spend, with `c` set aside for every caller in flight, stays below the budget plus `k` times `c`. */
  predicate BudgetInv(cfg: CostConfig, cal: Calendar, period: Period, s: System, p: string, k: nat, c: real) {
    && (forall u | u in s.store.usage :: u.costUSD >= 0.0)
    && Spend(cal, s, p, period) + |BudgetInFlight(cfg, period, s, p)| as real * c < Budget(cfg, period) + k as real * c
  }

  lemma MulMonotone(a: nat, b: nat, c: real)
    requires a <= b && c >= 0.0
    ensures a as real * c <= b as real * c
  {
  }

  lemma MulSuccessor(a: nat, c: real)
    ensures (a + 1) as real * c == a as real * c + c
  {
  }

  lemma NothingBilled(spend: real, spend': real, flight: nat, flight': nat, k: nat, c: real, budget: real)
    requires c >= 0.0 && spend' <= spend && spend + flight as real * c < budget + k as real * c
    requires flight' <= flight || (flight' <= k && spend < budget)
    ensures spend' + flight' as real * c < budget + k as real * c
  {
    if flight' <= flight {
      MulMonotone(flight', flight, c);
    } else {
      MulMonotone(flight', k, c);
    }
  }

  /** One call less in flight makes room for its cost. */
  lemma OneCallBilled(spend: real, spend': real, flight: nat, flight': nat, c: real)
    requires (flight == flight' && spend' <= spend) || (flight == flight' + 1 && spend' <= spend + c)
    ensures spend' + flight' as real * c <= spend + flight as real * c
  {
    MulSuccessor(flight', c);
  }

  /** The callers in flight after a step that bills nothing. */
  lemma BudgetFlightAfter(cfg: CostConfig, cal: Calendar, period: Period, s: System, step: Step, p: string)
    requires !step.RecordUsage?
    ensures var s' := Apply(cfg, cal, s, step);
            || BudgetInFlight(cfg, period, s', p) <= BudgetInFlight(cfg, period, s, p)
            || (step == ReadSpend(step.caller, period) && IsChecking(s, step.caller)
                && s.callers[step.caller].projectId == p && Spend(cal, s, p, period) < Budget(cfg, period))
  {
    var s' := Apply(cfg, cal, s, step);
    if step.Decide? && !Admits(cfg, s, step.caller) {
      assert s'.callers == s.callers || s'.callers == s.callers - {step.caller};
    }
  }

  lemma UnbilledStepKeepsBudget(cfg: CostConfig, cal: Calendar, period: Period, s: System, step: Step,
                                p: string, k: nat, c: real)
    requires BudgetInv(cfg, cal, period, s, p, k, c) && c >= 0.0 && Monotone(cal)
    requires !step.RecordUsage? && |BudgetInFlight(cfg, period, Apply(cfg, cal, s, step), p)| <= k
    ensures BudgetInv(cfg, cal, period, Apply(cfg, cal, s, step), p, k, c)
  {
    var s' := Apply(cfg, cal, s, step);
    var before, after := BudgetInFlight(cfg, period, s, p), BudgetInFlight(cfg, period, s', p);
    assert s'.store.usage == s.store.usage && s.now <= s'.now;
    SpendSinceAntitone(s.store.usage, p, cal.start(period)(s.now), cal.start(period)(s'.now));
    BudgetFlightAfter(cfg, cal, period, s, step, p);
    if after <= before {
      SubsetIsSmaller(after, before);
    }
    NothingBilled(Spend(cal, s, p, period), Spend(cal, s', p, period), |before|, |after|, k, c, Budget(cfg, period));
  }

  lemma BilledLeavesFlight(cfg: CostConfig, cal: Calendar, period: Period, s: System, c: nat, cost: real, p: string)
    requires IsAdmitted(s, c)
    ensures var after := BudgetInFlight(cfg, period, Apply(cfg, cal, s, RecordUsage(c, cost)), p);
            |BudgetInFlight(cfg, period, s, p)| == |after| + (if s.callers[c].projectId == p then 1 else 0)
  {
    var before := BudgetInFlight(cfg, period, s, p);
    var after := BudgetInFlight(cfg, period, Apply(cfg, cal, s, RecordUsage(c, cost)), p);
    if s.callers[c].projectId == p {
      assert before == after + {c};
      CardinalityAfterAdding(after, before, c);
    } else {
      assert before == after;
    }
  }

  lemma BilledSpend(cfg: CostConfig, cal: Calendar, period: Period, s: System, c: nat, cost: real, p: string)
    requires IsAdmitted(s, c) && cost >= 0.0 && forall u | u in s.store.usage :: u.costUSD >= 0.0
    ensures var s' := Apply(cfg, cal, s, RecordUsage(c, cost));
            && Spend(cal, s', p, period)
                 <= Spend(cal, s, p, period) + (if s.callers[c].projectId == p then cost else 0.0)
            && forall u | u in s'.store.usage :: u.costUSD >= 0.0
  {
    var s' := Apply(cfg, cal, s, RecordUsage(c, cost));
    var u := UsageEntry(s.callers[c].projectId, cost, s.now);
    assert s'.store.usage == s.store.usage + [u] && s'.now == s.now;
    SpendSinceAdd(s.store.usage, u, p, cal.start(period)(s.now));
  }

  lemma BillingKeepsBudget(cfg: CostConfig, cal: Calendar, period: Period, s: System, caller: nat, cost: real,
                           p: string, k: nat, c: real)
    requires BudgetInv(cfg, cal, period, s, p, k, c) && 0.0 <= cost <= c
    ensures BudgetInv(cfg, cal, period, Apply(cfg, cal, s, RecordUsage(caller, cost)), p, k, c)
  {
    if IsAdmitted(s, caller) {
      var s' := Apply(cfg, cal, s, RecordUsage(caller, cost));
      BilledSpend(cfg, cal, period, s, caller, cost, p);
      BilledLeavesFlight(cfg, cal, period, s, caller, cost, p);
      OneCallBilled(Spend(cal, s, p, period), Spend(cal, s', p, period), |BudgetInFlight(cfg, period, s, p)|,
                    |BudgetInFlight(cfg, period, s', p)|, c);
    }
  }

  lemma {:induction false} RunKeepsBudget(cfg: CostConfig, cal: Calendar, period: Period, s: System, steps: seq<Step>,
                                          p: string, k: nat, c: real)
    requires BudgetInv(cfg, cal, period, s, p, k, c) && c >= 0.0 && Monotone(cal)
    requires BudgetInFlightAtMost(cfg, cal, period, s, steps, p, k) && CostsAtMost(steps, c)
    ensures BudgetInv(cfg, cal, period, Execute(cfg, cal, s, steps), p, k, c)
    decreases |steps|
  {
    if steps != [] {
      var step := steps[0];
      assert step in steps && forall x | x in steps[1..] :: x in steps;
      if step.RecordUsage? {
        BillingKeepsBudget(cfg, cal, period, s, step.caller, step.costUSD, p, k, c);
      } else {
        UnbilledStepKeepsBudget(cfg, cal, period, s, step, p, k, c);
      }
      RunKeepsBudget(cfg, cal, period, Apply(cfg, cal, s, step), steps[1..], p, k, c);
    }
  }

  /**
   However callers interleave, if at most `k` callers have found the budget open
   without having been billed since, whether they are still checking or already
   admitted, and each call costs at most `c`, then the spend of the current day
   (month) stays below the daily (monthly) budget plus `k` times `c`.
   */
  lemma BudgetUnderInterleaving(cfg: CostConfig, cal: Calendar, period: Period, start: int, steps: seq<Step>,
                                p: string, k: nat, c: real)
    requires Budget(cfg, period) > 0.0 && c >= 0.0 && Monotone(cal)
    requires BudgetInFlightAtMost(cfg, cal, period, Fresh(start), steps, p, k) && CostsAtMost(steps, c)
    ensures Spend(cal, Execute(cfg, cal, Fresh(start), steps), p, period) < Budget(cfg, period) + k as real * c
  {
    var end := Execute(cfg, cal, Fresh(start), steps);
    assert BudgetInFlight(cfg, period, Fresh(start), p) == {};
    MulMonotone(0, k, c);
    RunKeepsBudget(cfg, cal, period, Fresh(start), steps, p, k, c);
    MulMonotone(0, |BudgetInFlight(cfg, period, end, p)|, c);
  }

  // ---------------------------------------------------- one caller at a time

  predicate OnlyCaller(steps: seq<Step>, c: nat) {
    forall step | step in steps :: step.Tick? || step.caller == c
  }

  lemma {:induction false} OneCallerIsAloneInFlight(cfg: CostConfig, cal: Calendar, s: System, steps: seq<Step>,
                                                    p: string, c: nat)
    requires s.callers.Keys <= {c} && OnlyCaller(steps, c)
    ensures RateInFlightAtMost(cfg, cal, s, steps, p, 1)
    ensures forall period :: BudgetInFlightAtMost(cfg, cal, period, s, steps, p, 1)
    decreases |steps|
  {
    SubsetIsSmaller(RateInFlight(s, p), {c});
    forall period
      ensures |BudgetInFlight(cfg, period, s, p)| <= 1
    {
      SubsetIsSmaller(BudgetInFlight(cfg, period, s, p), {c});
    }
    if steps != [] {
      assert steps[0] in steps && forall x | x in steps[1..] :: x in steps;
      OneCallerIsAloneInFlight(cfg, cal, Apply(cfg, cal, s, steps[0]), steps[1..], p, c);
    }
  }

  /** A run that checks, calls and records in turn keeps the rate limits and overspends by less than one call. */
  lemma SequentialLimits(cfg: CostConfig, cal: Calendar, start: int, steps: seq<Step>, p: string, caller: nat,
                         c: real, t: int)
    requires cfg.maxRequestsPerMinute >= 0 && cfg.maxRequestsPerHour >= 0
    requires cfg.dailyBudgetUSD > 0.0 && cfg.monthlyBudgetUSD > 0.0 && c >= 0.0 && Monotone(cal)
    requires OnlyCaller(steps, caller) && CostsAtMost(steps, c)
    ensures var end := Execute(cfg, cal, Fresh(start), steps);
            && Window(end.store.requests, p, MINUTE_MS, t) <= cfg.maxRequestsPerMinute
            && Window(end.store.requests, p, HOUR_MS, t) <= cfg.maxRequestsPerHour
            && Spend(cal, end, p, Daily) < cfg.dailyBudgetUSD + c
            && Spend(cal, end, p, Monthly) < cfg.monthlyBudgetUSD + c
  {
    OneCallerIsAloneInFlight(cfg, cal, Fresh(start), steps, p, caller);
    RateLimitUnderInterleaving(cfg, cal, start, steps, p, 1, t);
    BudgetUnderInterleaving(cfg, cal, Daily, start, steps, p, 1, c);
    BudgetUnderInterleaving(cfg, cal, Monthly, start, steps, p, 1, c);
  }

  // --------------------------------------------------- the calls themselves

  datatype PreCheckResult =
    | Allowed
    | RateLimitError(len: nat, current: nat, limit: int)
    | BudgetExceededError(period: Period, spent: real, budget: real)

  class InMemoryUsageStore {
    var usageEntries: seq<UsageEntry>
    var requestTimestamps: seq<Request>

    constructor ()
      ensures usageEntries == [] && requestTimestamps == []
    {
      usageEntries, requestTimestamps := [], [];
    }

    function Contents(): Store
      reads this
    {
      Store(requestTimestamps, usageEntries)
    }

    /** From now on every window of the project that reaches back to now counts one more; no other count changes. */
    method RecordRequest(projectId: string, now: int)
      modifies this`requestTimestamps
      ensures requestTimestamps == old(requestTimestamps) + [Request(projectId, now)]
      ensures forall p, since ::
                RequestsSince(requestTimestamps, p, since)
                == RequestsSince(old(requestTimestamps), p, since) + (if p == projectId && since <= now then 1 else 0)
    {
      forall p, since
        ensures RequestsSince(requestTimestamps + [Request(projectId, now)], p, since)
             == RequestsSince(requestTimestamps, p, since) + (if p == projectId && since <= now then 1 else 0)
      {
        RequestsSinceAdd(requestTimestamps, Request(projectId, now), p, since);
      }
      requestTimestamps := requestTimestamps + [Request(projectId, now)];
    }

    /** From now on every spend of the project since now or earlier is higher by the cost; no other spend changes. */
    method RecordUsage(projectId: string, costUSD: real, now: int)
      modifies this`usageEntries
      ensures usageEntries == old(usageEntries) + [UsageEntry(projectId, costUSD, now)]
      ensures forall p, since ::
                SpendSince(usageEntries, p, since)
                == SpendSince(old(usageEntries), p, since) + (if p == projectId && since <= now then costUSD else 0.0)
    {
      forall p, since
        ensures SpendSince(usageEntries + [UsageEntry(projectId, costUSD, now)], p, since)
             == SpendSince(usageEntries, p, since) + (if p == projectId && since <= now then costUSD else 0.0)
      {
        SpendSinceAdd(usageEntries, UsageEntry(projectId, costUSD, now), p, since);
      }
      usageEntries := usageEntries + [UsageEntry(projectId, costUSD, now)];
    }
  }

  /** The share of a budget that is used, in percent; none for a budget of zero. */
  datatype BudgetStatus = BudgetStatus(dailySpentUSD: real, monthlySpentUSD: real, dailyPercentUsed: Option<real>,
                                       monthlyPercentUsed: Option<real>, isOverDailyBudget: bool,
                                       isOverMonthlyBudget: bool)

  function PercentUsed(spent: real, budget: real): (percent: Option<real>)
    ensures budget > 0.0 ==> percent.Some? && (percent.value >= 100.0 <==> spent >= budget)
  {
    if budget == 0.0 then None
    else
      var share := spent / budget;
      assert share * budget == spent;
      Some(share * 100.0)
  }

  function GetBudgetStatus(cfg: CostConfig, cal: Calendar, store: Store, p: string, now: int): BudgetStatus {
    var daily := SpendSince(store.usage, p, cal.start(Daily)(now));
    var monthly := SpendSince(store.usage, p, cal.start(Monthly)(now));
    BudgetStatus(daily, monthly, PercentUsed(daily, cfg.dailyBudgetUSD), PercentUsed(monthly, cfg.monthlyBudgetUSD),
                 daily >= cfg.dailyBudgetUSD, monthly >= cfg.monthlyBudgetUSD)
  }

  /** The status of a budget: the share of it that is spent, if it is not zero, and whether it is used up. */
  predicate ReportsBudget(spent: real, budget: real, percent: Option<real>, over: bool) {
    && (over <==> spent >= budget)
    && (if budget == 0.0 then percent == None else percent.Some? && percent.value * budget == 100.0 * spent)
  }

  lemma PercentTimesBudget(spent: real, budget: real)
    requires budget != 0.0
    ensures PercentUsed(spent, budget).Some? && PercentUsed(spent, budget).value * budget == 100.0 * spent
  {
    assert spent / budget * budget == spent;
  }

  /** The status reports the spend since midnight and since the first of the month against their own budgets. */
  lemma StatusReportsBudgets(cfg: CostConfig, cal: Calendar, store: Store, p: string, now: int)
    ensures var status := GetBudgetStatus(cfg, cal, store, p, now);
            && status.dailySpentUSD == SpendSince(store.usage, p, cal.start(Daily)(now))
            && status.monthlySpentUSD == SpendSince(store.usage, p, cal.start(Monthly)(now))
            && ReportsBudget(status.dailySpentUSD, cfg.dailyBudgetUSD, status.dailyPercentUsed,
                             status.isOverDailyBudget)
            && ReportsBudget(status.monthlySpentUSD, cfg.monthlyBudgetUSD, status.monthlyPercentUsed,
                             status.isOverMonthlyBudget)
  {
    var status := GetBudgetStatus(cfg, cal, store, p, now);
    if cfg.dailyBudgetUSD != 0.0 {
      PercentTimesBudget(status.dailySpentUSD, cfg.dailyBudgetUSD);
    }
    if cfg.monthlyBudgetUSD != 0.0 {
      PercentTimesBudget(status.monthlySpentUSD, cfg.monthlyBudgetUSD);
    }
  }

  /** The steps of one `preCheck` that nobody interrupts. */
  function PreCheckSteps(p: string): seq<Step> {
    [ReadRates(0, p), ReadSpend(0, Daily), ReadSpend(0, Monthly), Decide(0)]
  }

  /** `preCheck`, uninterrupted: it does what its four steps do, and names the first limit that is reached. */
  method PreCheck(cfg: CostConfig, cal: Calendar, store: InMemoryUsageStore, p: string, now: int)
    returns (result: PreCheckResult)
    modifies store
    ensures var s := System(now, old(store.Contents()), map[]);
            var end := Execute(cfg, cal, s, PreCheckSteps(p));
            && store.Contents() == end.store
            && (result.Allowed? <==> IsAdmitted(end, 0))
    ensures result.Allowed? ==>
              store.Contents() == old(store.Contents()).(requests := old(store.requestTimestamps) + [Request(p, now)])
    ensures !result.Allowed? ==> store.Contents() == old(store.Contents())
    // The report and the enforcement agree on what is over budget.
    ensures var status := GetBudgetStatus(cfg, cal, old(store.Contents()), p, now);
            result.Allowed? <==>
              && RequestsSince(old(store.requestTimestamps), p, now - MINUTE_MS) < cfg.maxRequestsPerMinute
              && RequestsSince(old(store.requestTimestamps), p, now - HOUR_MS) < cfg.maxRequestsPerHour
              && !status.isOverDailyBudget && !status.isOverMonthlyBudget
    ensures result.Allowed? <==>
              && RequestsSince(old(store.requestTimestamps), p, now - 60_000) < cfg.maxRequestsPerMinute
              && RequestsSince(old(store.requestTimestamps), p, now - 3_600_000) < cfg.maxRequestsPerHour
              && SpendSince(old(store.usageEntries), p, cal.start(Daily)(now)) < cfg.dailyBudgetUSD
              && SpendSince(old(store.usageEntries), p, cal.start(Monthly)(now)) < cfg.monthlyBudgetUSD
    // The first limit reached is the one reported: minute, hour, day, month.
    ensures result.RateLimitError? ==>
              || result.len == MINUTE_MS
              || (result.len == HOUR_MS
                  && RequestsSince(old(store.requestTimestamps), p, now - MINUTE_MS) < cfg.maxRequestsPerMinute)
    ensures result.BudgetExceededError? ==>
              && RequestsSince(old(store.requestTimestamps), p, now - MINUTE_MS) < cfg.maxRequestsPerMinute
              && RequestsSince(old(store.requestTimestamps), p, now - HOUR_MS) < cfg.maxRequestsPerHour
              && (result.period.Monthly? ==>
                  !GetBudgetStatus(cfg, cal, old(store.Contents()), p, now).isOverDailyBudget)
    ensures result.RateLimitError? ==>
              && result.limit == (if result.len == MINUTE_MS then cfg.maxRequestsPerMinute else cfg.maxRequestsPerHour)
              && result.current == RequestsSince(old(store.requestTimestamps), p, now - result.len) >= result.limit
    ensures result.BudgetExceededError? ==>
              && result.budget == Budget(cfg, result.period)
              && result.spent == SpendSince(old(store.usageEntries), p, cal.start(result.period)(now)) >= result.budget
  {
    ghost var s := System(now, store.Contents(), map[]);
    ghost var steps := PreCheckSteps(p);
    ghost var s1 := Apply(cfg, cal, s, steps[0]);
    ghost var s2 := Apply(cfg, cal, s1, steps[1]);
    ghost var s3 := Apply(cfg, cal, s2, steps[2]);
    ghost var s4 := Apply(cfg, cal, s3, steps[3]);
    FourSteps(cfg, cal, s, steps);
    var rpm := RequestsSince(store.requestTimestamps, p, now - MINUTE_MS);
    var rph := RequestsSince(store.requestTimestamps, p, now - HOUR_MS);
    if rpm >= cfg.maxRequestsPerMinute {
      return RateLimitError(MINUTE_MS, rpm, cfg.maxRequestsPerMinute);
    }
    if rph >= cfg.maxRequestsPerHour {
      return RateLimitError(HOUR_MS, rph, cfg.maxRequestsPerHour);
    }
    var dailySpend := SpendSince(store.usageEntries, p, cal.start(Daily)(now));
    var monthlySpend := SpendSince(store.usageEntries, p, cal.start(Monthly)(now));
    assert s3.callers == map[0 := Caller(p, Checking(Some(dailySpend), Some(monthlySpend)))];
    if dailySpend >= cfg.dailyBudgetUSD {
      return BudgetExceededError(Daily, dailySpend, cfg.dailyBudgetUSD);
    }
    if monthlySpend >= cfg.monthlyBudgetUSD {
      return BudgetExceededError(Monthly, monthlySpend, cfg.monthlyBudgetUSD);
    }
    store.RecordRequest(p, now);
    return Allowed;
  }

  lemma FourSteps(cfg: CostConfig, cal: Calendar, s: System, steps: seq<Step>)
    requires |steps| == 4
    ensures Execute(cfg, cal, s, steps)
         == Apply(cfg, cal,
                  Apply(cfg, cal, Apply(cfg, cal, Apply(cfg, cal, s, steps[0]), steps[1]), steps[2]), steps[3])
  {
    var s1 := Apply(cfg, cal, s, steps[0]);
    var s2 := Apply(cfg, cal, s1, steps[1]);
    var s3 := Apply(cfg, cal, s2, steps[2]);
    assert steps[1..][1..] == steps[2..] && steps[2..][1..] == steps[3..] && steps[3..][1..] == [];
    assert Execute(cfg, cal, s3, steps[3..]) == Apply(cfg, cal, s3, steps[3]);
    assert Execute(cfg, cal, s2, steps[2..]) == Execute(cfg, cal, s3, steps[3..]);
    assert Execute(cfg, cal, s1, steps[1..]) == Execute(cfg, cal, s2, steps[2..]);
  }
}
