/**
 The overshoot bounds are sharp: for every number of callers in flight there is a
 run whose request windows reach the rate bound, and one whose spend comes as close
 to the budget bound as one likes.
 */
module CostGuardSharpness {
  import opened Wrappers
  import opened UsageLedger
  import opened CostGuard

  /** The reads of one caller. */
  function CheckIn(c: nat, p: string): seq<Step> {
    [ReadRates(c, p), ReadSpend(c, Daily), ReadSpend(c, Monthly)]
  }

  function CheckInAll(n: nat, p: string): seq<Step> {
    if n == 0 then [] else CheckInAll(n - 1, p) + CheckIn(n - 1, p)
  }

  function DecideAll(n: nat): seq<Step> {
    if n == 0 then [] else DecideAll(n - 1) + [Decide(n - 1)]
  }

  /** `m` calls of cost `x`, each finished and billed before the next begins. */
  function OneByOne(m: nat, p: string, x: real): seq<Step> {
    if m == 0 then [] else OneByOne(m - 1, p, x) + BilledCall(p, x)
  }

  /** `m` calls one by one, then `k` callers at once. */
  function Overshoot(m: nat, x: real, k: nat, p: string): seq<Step> {
    OneByOne(m, p, x) + (CheckInAll(k, p) + DecideAll(k))
  }

  function Repeated(p: string, at: int, n: nat): seq<Request> {
    if n == 0 then [] else Repeated(p, at, n - 1) + [Request(p, at)]
  }

  lemma {:induction false} CountRepeated(p: string, at: int, n: nat, since: int)
    requires since <= at
    ensures RequestsSince(Repeated(p, at, n), p, since) == n
    ensures RequestsWithin(Repeated(p, at, n), p, since, at) == n
  {
    if n > 0 {
      CountRepeated(p, at, n - 1, since);
      RequestsSinceAdd(Repeated(p, at, n - 1), Request(p, at), p, since);
      WindowAfterRecord(Repeated(p, at, n - 1), Request(p, at), p, since, at);
    }
  }

  /** A moment of such a run: `n` requests recorded just now, and the usage so far. */
  predicate Moment(s: System, p: string, start: int, n: nat, us: seq<UsageEntry>) {
    s.now == start && s.store == Store(Repeated(p, start, n), us)
  }

  /** What a caller that checks in reads as the spends. */
  function Reads(cal: Calendar, us: seq<UsageEntry>, p: string, start: int): Phase {
    Checking(Some(SpendSince(us, p, cal.start(Daily)(start))), Some(SpendSince(us, p, cal.start(Monthly)(start))))
  }

  predicate Open(cfg: CostConfig, cal: Calendar, us: seq<UsageEntry>, p: string, start: int) {
    && SpendSince(us, p, cal.start(Daily)(start)) < cfg.dailyBudgetUSD
    && SpendSince(us, p, cal.start(Monthly)(start)) < cfg.monthlyBudgetUSD
  }

  predicate Below(cfg: CostConfig, n: nat) {
    n < cfg.maxRequestsPerMinute && n < cfg.maxRequestsPerHour
  }

  lemma {:induction false} ExecuteAppend(cfg: CostConfig, cal: Calendar, s: System, a: seq<Step>, b: seq<Step>)
    ensures Execute(cfg, cal, s, a + b) == Execute(cfg, cal, Execute(cfg, cal, s, a), b)
    decreases |a|
  {
    if a == [] {
      assert a + b == b;
    } else {
      assert (a + b)[1..] == a[1..] + b && (a + b)[0] == a[0];
      ExecuteAppend(cfg, cal, Apply(cfg, cal, s, a[0]), a[1..], b);
    }
  }

  lemma {:induction false} FlightAppend(cfg: CostConfig, cal: Calendar, s: System, a: seq<Step>, b: seq<Step>,
                                        p: string, k: nat)
    requires RateInFlightAtMost(cfg, cal, s, a, p, k)
    requires RateInFlightAtMost(cfg, cal, Execute(cfg, cal, s, a), b, p, k)
    ensures RateInFlightAtMost(cfg, cal, s, a + b, p, k)
    decreases |a|
  {
    if a == [] {
      assert a + b == b;
    } else {
      assert (a + b)[1..] == a[1..] + b && (a + b)[0] == a[0];
      FlightAppend(cfg, cal, Apply(cfg, cal, s, a[0]), a[1..], b, p, k);
    }
  }

  lemma TwoSteps(cfg: CostConfig, cal: Calendar, s0: System, a: Step, s1: System, b: Step, s2: System, p: string,
                 k: nat)
    requires Apply(cfg, cal, s0, a) == s1 && Apply(cfg, cal, s1, b) == s2
    requires |RateInFlight(s0, p)| <= k && |RateInFlight(s1, p)| <= k && |RateInFlight(s2, p)| <= k
    ensures Execute(cfg, cal, s0, [a, b]) == s2 && RateInFlightAtMost(cfg, cal, s0, [a, b], p, k)
  {
    assert [a, b][1..] == [b] && [b][1..] == [];
    assert Execute(cfg, cal, s1, [b]) == Execute(cfg, cal, s2, []) == s2;
    assert RateInFlightAtMost(cfg, cal, s2, [], p, k);
    assert RateInFlightAtMost(cfg, cal, s1, [b], p, k);
  }

  lemma ThreeSteps(cfg: CostConfig, cal: Calendar, s0: System, a: Step, s1: System, b: Step, s2: System, c: Step,
                   s3: System, p: string, k: nat)
    requires Apply(cfg, cal, s0, a) == s1 && Apply(cfg, cal, s1, b) == s2 && Apply(cfg, cal, s2, c) == s3
    requires |RateInFlight(s0, p)| <= k && |RateInFlight(s1, p)| <= k && |RateInFlight(s2, p)| <= k
              && |RateInFlight(s3, p)| <= k
    ensures Execute(cfg, cal, s0, [a, b, c]) == s3 && RateInFlightAtMost(cfg, cal, s0, [a, b, c], p, k)
  {
    TwoSteps(cfg, cal, s1, b, s2, c, s3, p, k);
    assert [a, b, c][1..] == [b, c];
  }

  function With(s: System, c: nat, p: string, phase: Phase): System {
    s.(callers := s.callers[c := Caller(p, phase)])
  }

  lemma RateRead(cfg: CostConfig, cal: Calendar, s: System, c: nat, p: string, start: int, n: nat, us: seq<UsageEntry>)
    requires Moment(s, p, start, n, us) && Below(cfg, n) && c !in s.callers
    ensures Apply(cfg, cal, s, ReadRates(c, p)) == With(s, c, p, Checking(None, None))
  {
    CountRepeated(p, start, n, start - MINUTE_MS);
    CountRepeated(p, start, n, start - HOUR_MS);
  }

  lemma SpendReads(cfg: CostConfig, cal: Calendar, s: System, c: nat, p: string, start: int, n: nat,
                   us: seq<UsageEntry>)
    requires Moment(s, p, start, n, us)
    ensures var after := Reads(cal, us, p, start);
            && Apply(cfg, cal, With(s, c, p, Checking(None, None)), ReadSpend(c, Daily))
               == With(s, c, p, Checking(after.daily, None))
            && Apply(cfg, cal, With(s, c, p, Checking(after.daily, None)), ReadSpend(c, Monthly))
               == With(s, c, p, after)
  {
    var after := Reads(cal, us, p, start);
    var a, b := Caller(p, Checking(None, None)), Caller(p, Checking(after.daily, None));
    assert s.callers[c := a][c := b] == s.callers[c := b];
    assert s.callers[c := b][c := Caller(p, after)] == s.callers[c := Caller(p, after)];
  }

  lemma FlightWith(s: System, c: nat, p: string, phase: Phase)
    requires c !in s.callers && phase.Checking?
    ensures |RateInFlight(With(s, c, p, phase), p)| == |RateInFlight(s, p)| + 1
  {
    var flight := RateInFlight(s, p);
    assert RateInFlight(With(s, c, p, phase), p) == flight + {c};
    CardinalityAfterAdding(flight, flight + {c}, c);
  }

  lemma CheckInRuns(cfg: CostConfig, cal: Calendar, s: System, c: nat, p: string, start: int, n: nat,
                    us: seq<UsageEntry>, k: nat)
    requires Moment(s, p, start, n, us) && Below(cfg, n) && c !in s.callers
    requires |RateInFlight(s, p)| + 1 <= k
    ensures var s' := With(s, c, p, Reads(cal, us, p, start));
            && Execute(cfg, cal, s, CheckIn(c, p)) == s'
            && RateInFlightAtMost(cfg, cal, s, CheckIn(c, p), p, k)
            && |RateInFlight(s', p)| == |RateInFlight(s, p)| + 1
  {
    var after := Reads(cal, us, p, start);
    var a, b := Checking(None, None), Checking(after.daily, None);
    RateRead(cfg, cal, s, c, p, start, n, us);
    SpendReads(cfg, cal, s, c, p, start, n, us);
    FlightWith(s, c, p, a);
    FlightWith(s, c, p, b);
    FlightWith(s, c, p, after);
    ThreeSteps(cfg, cal, s, ReadRates(c, p), With(s, c, p, a), ReadSpend(c, Daily), With(s, c, p, b),
               ReadSpend(c, Monthly), With(s, c, p, after), p, k);
  }

  /** The callers after `n` of them have checked in and the first `d` of those have been admitted. */
  function Callers(p: string, n: nat, d: nat, phase: Phase): map<nat, Caller> {
    map c: nat | c < n :: CallerAt(p, c, d, phase)
  }

  function CallerAt(p: string, c: nat, d: nat, phase: Phase): Caller {
    Caller(p, if c < d then Admitted else phase)
  }

  lemma {:induction false} CheckInAllRuns(cfg: CostConfig, cal: Calendar, s: System, p: string, start: int, n: nat,
                                          us: seq<UsageEntry>, m: nat, k: nat)
    requires Moment(s, p, start, n, us) && Below(cfg, n) && s.callers == map[] && m <= k
    ensures var s' := s.(callers := Callers(p, m, 0, Reads(cal, us, p, start)));
            && Execute(cfg, cal, s, CheckInAll(m, p)) == s'
            && RateInFlightAtMost(cfg, cal, s, CheckInAll(m, p), p, k)
            && |RateInFlight(s', p)| == m
    decreases m
  {
    var phase := Reads(cal, us, p, start);
    if m == 0 {
      assert Callers(p, 0, 0, phase) == map[] && s.(callers := map[]) == s && RateInFlight(s, p) == {};
    } else {
      CheckInAllRuns(cfg, cal, s, p, start, n, us, m - 1, k);
      var s1 := s.(callers := Callers(p, m - 1, 0, phase));
      CheckInRuns(cfg, cal, s1, m - 1, p, start, n, us, k);
      assert Callers(p, m - 1, 0, phase)[m - 1 := Caller(p, phase)] == Callers(p, m, 0, phase);
      ExecuteAppend(cfg, cal, s, CheckInAll(m - 1, p), CheckIn(m - 1, p));
      FlightAppend(cfg, cal, s, CheckInAll(m - 1, p), CheckIn(m - 1, p), p, k);
    }
  }

  /** The state after the first `m` of `k` callers have been admitted. */
  function Admitting(cal: Calendar, s: System, p: string, start: int, n: nat, us: seq<UsageEntry>, k: nat,
                     m: nat): System {
    s.(store := Store(Repeated(p, start, n + m), us), callers := Callers(p, k, m, Reads(cal, us, p, start)))
  }

  lemma {:induction false} DecideAllRuns(cfg: CostConfig, cal: Calendar, s: System, p: string, start: int, n: nat,
                                         us: seq<UsageEntry>, m: nat, k: nat)
    requires Moment(s, p, start, n, us) && Open(cfg, cal, us, p, start) && m <= k
    requires s.callers == Callers(p, k, 0, Reads(cal, us, p, start)) && |RateInFlight(s, p)| <= k
    ensures Execute(cfg, cal, s, DecideAll(m)) == Admitting(cal, s, p, start, n, us, k, m)
    ensures RateInFlightAtMost(cfg, cal, s, DecideAll(m), p, k)
    ensures |RateInFlight(Admitting(cal, s, p, start, n, us, k, m), p)| <= k
    decreases m
  {
    if m > 0 {
      DecideAllRuns(cfg, cal, s, p, start, n, us, m - 1, k);
      DecideRuns(cfg, cal, s, p, start, n, us, m - 1, k);
      ExecuteAppend(cfg, cal, s, DecideAll(m - 1), [Decide(m - 1)]);
      FlightAppend(cfg, cal, s, DecideAll(m - 1), [Decide(m - 1)], p, k);
    }
  }

  lemma DecideRuns(cfg: CostConfig, cal: Calendar, s: System, p: string, start: int, n: nat, us: seq<UsageEntry>,
                   c: nat, k: nat)
    requires s.now == start && Open(cfg, cal, us, p, start) && c < k
    requires |RateInFlight(Admitting(cal, s, p, start, n, us, k, c), p)| <= k
    ensures var a, b := Admitting(cal, s, p, start, n, us, k, c), Admitting(cal, s, p, start, n, us, k, c + 1);
            && Execute(cfg, cal, a, [Decide(c)]) == b
            && RateInFlightAtMost(cfg, cal, a, [Decide(c)], p, k)
            && |RateInFlight(b, p)| <= k
  {
    var a, b := Admitting(cal, s, p, start, n, us, k, c), Admitting(cal, s, p, start, n, us, k, c + 1);
    var phase := Reads(cal, us, p, start);
    assert Callers(p, k, c, phase)[c := Caller(p, Admitted)] == Callers(p, k, c + 1, phase);
    assert Apply(cfg, cal, a, Decide(c)) == b;
    assert [Decide(c)][1..] == [] && Execute(cfg, cal, b, []) == b;
    assert RateInFlight(b, p) <= RateInFlight(a, p);
    SubsetIsSmaller(RateInFlight(b, p), RateInFlight(a, p));
  }

  lemma BurstRuns(cfg: CostConfig, cal: Calendar, s: System, p: string, start: int, n: nat, us: seq<UsageEntry>, k: nat)
    requires Moment(s, p, start, n, us) && Below(cfg, n) && Open(cfg, cal, us, p, start) && s.callers == map[]
    ensures var burst := CheckInAll(k, p) + DecideAll(k);
            && Execute(cfg, cal, s, burst) == Admitting(cal, s, p, start, n, us, k, k)
            && RateInFlightAtMost(cfg, cal, s, burst, p, k)
  {
    CheckInAllRuns(cfg, cal, s, p, start, n, us, k, k);
    var s2 := s.(callers := Callers(p, k, 0, Reads(cal, us, p, start)));
    DecideAllRuns(cfg, cal, s2, p, start, n, us, k, k);
    ExecuteAppend(cfg, cal, s, CheckInAll(k, p), DecideAll(k));
    FlightAppend(cfg, cal, s, CheckInAll(k, p), DecideAll(k), p, k);
  }

  /** One whole call: its reads, its decision, and its bill. */
  function BilledCall(p: string, x: real): seq<Step> {
    CheckIn(0, p) + [Decide(0), RecordUsage(0, x)]
  }

  lemma OneCallRuns(cfg: CostConfig, cal: Calendar, s: System, p: string, start: int, n: nat, us: seq<UsageEntry>,
                    x: real, k: nat)
    requires Moment(s, p, start, n, us) && Below(cfg, n) && Open(cfg, cal, us, p, start) && s.callers == map[] && k >= 1
    ensures var s' := s.(store := Store(Repeated(p, start, n + 1), us + [UsageEntry(p, x, start)]));
            && Execute(cfg, cal, s, BilledCall(p, x)) == s'
            && RateInFlightAtMost(cfg, cal, s, BilledCall(p, x), p, k)
  {
    assert RateInFlight(s, p) == {};
    CheckInRuns(cfg, cal, s, 0, p, start, n, us, k);
    var s1 := With(s, 0, p, Reads(cal, us, p, start));
    var s2 := s.(store := Store(Repeated(p, start, n + 1), us), callers := map[0 := Caller(p, Admitted)]);
    var s3 := s.(store := Store(Repeated(p, start, n + 1), us + [UsageEntry(p, x, start)]));
    assert s1.callers[0 := Caller(p, Admitted)] == s2.callers && s2.callers - {0} == map[];
    assert Apply(cfg, cal, s1, Decide(0)) == s2 && Apply(cfg, cal, s2, RecordUsage(0, x)) == s3;
    var rest := [Decide(0), RecordUsage(0, x)];
    assert RateInFlight(s2, p) == {} && RateInFlight(s3, p) == {};
    TwoSteps(cfg, cal, s1, Decide(0), s2, RecordUsage(0, x), s3, p, k);
    ExecuteAppend(cfg, cal, s, CheckIn(0, p), rest);
    FlightAppend(cfg, cal, s, CheckIn(0, p), rest, p, k);
  }

  function Bills(p: string, at: int, m: nat, x: real): seq<UsageEntry> {
    if m == 0 then [] else Bills(p, at, m - 1, x) + [UsageEntry(p, x, at)]
  }

  lemma {:induction false} SumOfBills(p: string, at: int, m: nat, x: real, since: int)
    requires since <= at
    ensures SpendSince(Bills(p, at, m, x), p, since) == m as real * x
  {
    if m > 0 {
      SumOfBills(p, at, m - 1, x, since);
      SpendSinceAdd(Bills(p, at, m - 1, x), UsageEntry(p, x, at), p, since);
      MulSuccessor(m - 1, x);
    }
  }

  /** Days and months begin before the present. */
  predicate Begun(cal: Calendar, start: int) {
    cal.start(Daily)(start) <= start && cal.start(Monthly)(start) <= start
  }

  predicate Affords(cfg: CostConfig, m: nat, x: real) {
    x >= 0.0 && m as real * x < cfg.dailyBudgetUSD && m as real * x < cfg.monthlyBudgetUSD
  }

  lemma AffordsFewer(cfg: CostConfig, j: nat, m: nat, x: real)
    requires Affords(cfg, m, x) && j <= m
    ensures Affords(cfg, j, x)
  {
    MulMonotone(j, m, x);
  }

  lemma OpenAfterBills(cfg: CostConfig, cal: Calendar, p: string, start: int, m: nat, x: real)
    requires Affords(cfg, m, x) && Begun(cal, start)
    ensures Open(cfg, cal, Bills(p, start, m, x), p, start)
  {
    SumOfBills(p, start, m, x, cal.start(Daily)(start));
    SumOfBills(p, start, m, x, cal.start(Monthly)(start));
  }

  lemma {:induction false} OneByOneRuns(cfg: CostConfig, cal: Calendar, p: string, start: int, m: nat, x: real, k: nat)
    requires Affords(cfg, m, x) && Begun(cal, start) && k >= 1
    requires m <= cfg.maxRequestsPerMinute && m <= cfg.maxRequestsPerHour
    ensures Execute(cfg, cal, Fresh(start), OneByOne(m, p, x))
         == Fresh(start).(store := Store(Repeated(p, start, m), Bills(p, start, m, x)))
    ensures RateInFlightAtMost(cfg, cal, Fresh(start), OneByOne(m, p, x), p, k)
    decreases m
  {
    if m == 0 {
      assert RateInFlight(Fresh(start), p) == {};
    } else {
      AffordsFewer(cfg, m - 1, m, x);
      OneByOneRuns(cfg, cal, p, start, m - 1, x, k);
      OpenAfterBills(cfg, cal, p, start, m - 1, x);
      var us := Bills(p, start, m - 1, x);
      var s := Fresh(start).(store := Store(Repeated(p, start, m - 1), us));
      OneCallRuns(cfg, cal, s, p, start, m - 1, us, x, k);
      ExecuteAppend(cfg, cal, Fresh(start), OneByOne(m - 1, p, x), BilledCall(p, x));
      FlightAppend(cfg, cal, Fresh(start), OneByOne(m - 1, p, x), BilledCall(p, x), p, k);
    }
  }

  lemma OvershootRuns(cfg: CostConfig, cal: Calendar, start: int, p: string, m: nat, x: real, k: nat)
    requires Affords(cfg, m, x) && Begun(cal, start) && k >= 1 && Below(cfg, m)
    ensures var steps, us := Overshoot(m, x, k, p), Bills(p, start, m, x);
            && RateInFlightAtMost(cfg, cal, Fresh(start), steps, p, k)
            && Execute(cfg, cal, Fresh(start), steps) == Admitting(cal, Fresh(start), p, start, m, us, k, k)
  {
    var s0, first, burst := Fresh(start), OneByOne(m, p, x), CheckInAll(k, p) + DecideAll(k);
    var us := Bills(p, start, m, x);
    OneByOneRuns(cfg, cal, p, start, m, x, k);
    OpenAfterBills(cfg, cal, p, start, m, x);
    var s1 := s0.(store := Store(Repeated(p, start, m), us));
    BurstRuns(cfg, cal, s1, p, start, m, us, k);
    ExecuteAppend(cfg, cal, s0, first, burst);
    FlightAppend(cfg, cal, s0, first, burst, p, k);
    assert Admitting(cal, s1, p, start, m, us, k, k) == Admitting(cal, s0, p, start, m, us, k, k);
  }

  /** The smaller of the two rate limits: no window can be filled beyond it one request at a time. */
  function Tighter(cfg: CostConfig): int {
    if cfg.maxRequestsPerMinute <= cfg.maxRequestsPerHour then cfg.maxRequestsPerMinute else cfg.maxRequestsPerHour
  }

  /**
   With at most `k` callers in flight, the minute and the hour can both hold as many
   requests as the tighter limit allows, plus k - 1: the bound of that limit is reached.
   */
  lemma OvershootIsReached(cfg: CostConfig, cal: Calendar, start: int, p: string, k: nat)
    requires cfg.dailyBudgetUSD > 0.0 && cfg.monthlyBudgetUSD > 0.0 && k >= 1 && Tighter(cfg) >= 1 && Begun(cal, start)
    ensures var steps := Overshoot(Tighter(cfg) - 1, 0.0, k, p);
            var rs := Execute(cfg, cal, Fresh(start), steps).store.requests;
            && RateInFlightAtMost(cfg, cal, Fresh(start), steps, p, k)
            && Window(rs, p, MINUTE_MS, start) == Window(rs, p, HOUR_MS, start) == Tighter(cfg) + k - 1
  {
    var n := Tighter(cfg) - 1;
    OvershootRuns(cfg, cal, start, p, n, 0.0, k);
    CountRepeated(p, start, n + k, start - MINUTE_MS);
    CountRepeated(p, start, n + k, start - HOUR_MS);
  }

  // ------------------------------------------------------------ the budget

  function BillAll(k: nat, c: real): seq<Step> {
    if k == 0 then [] else BillAll(k - 1, c) + [RecordUsage(k - 1, c)]
  }

  /** `m` calls of cost `x` one by one, then `k` callers at once, each of which costs `c`. */
  function Spree(m: nat, x: real, k: nat, c: real, p: string): seq<Step> {
    Overshoot(m, x, k, p) + BillAll(k, c)
  }

  predicate AdmittedFor(s: System, p: string, c: nat) {
    IsAdmitted(s, c) && s.callers[c].projectId == p
  }

  lemma {:induction false} BillAllRuns(cfg: CostConfig, cal: Calendar, s: System, p: string, k: nat, m: nat, c: real)
    requires m <= k && forall i: nat | i < k :: AdmittedFor(s, p, i)
    ensures var s' := Execute(cfg, cal, s, BillAll(m, c));
            && s'.store.usage == s.store.usage + Bills(p, s.now, m, c) && s'.now == s.now
            && forall i: nat | m <= i < k :: AdmittedFor(s', p, i)
    decreases m
  {
    if m > 0 {
      BillAllRuns(cfg, cal, s, p, k, m - 1, c);
      var s1 := Execute(cfg, cal, s, BillAll(m - 1, c));
      assert AdmittedFor(s1, p, m - 1);
      ExecuteAppend(cfg, cal, s, BillAll(m - 1, c), [RecordUsage(m - 1, c)]);
      BillOne(cfg, cal, s1, p, m - 1, c);
      forall i: nat | m <= i < k
        ensures AdmittedFor(Execute(cfg, cal, s, BillAll(m, c)), p, i)
      {
        assert AdmittedFor(s1, p, i);
      }
    } else {
      assert s.store.usage + [] == s.store.usage;
    }
  }

  lemma BillOne(cfg: CostConfig, cal: Calendar, s: System, p: string, c: nat, cost: real)
    requires AdmittedFor(s, p, c)
    ensures var s' := Execute(cfg, cal, s, [RecordUsage(c, cost)]);
            && s'.now == s.now && s'.store.usage == s.store.usage + [UsageEntry(p, cost, s.now)]
            && s'.callers == s.callers - {c}
  {
    var step := RecordUsage(c, cost);
    assert [step][1..] == [] && Execute(cfg, cal, s, [step]) == Execute(cfg, cal, Apply(cfg, cal, s, step), []);
  }

  lemma {:induction false} SpendAppend(a: seq<UsageEntry>, b: seq<UsageEntry>, p: string, since: int)
    ensures SpendSince(a + b, p, since) == SpendSince(a, p, since) + SpendSince(b, p, since)
    decreases |b|
  {
    if b == [] {
      assert a + b == a;
    } else {
      var front, last := b[..|b| - 1], b[|b| - 1];
      assert a + b == (a + front) + [last];
      SpendAppend(a, front, p, since);
      SpendSinceAdd(a + front, last, p, since);
    }
  }

  predicate CallersBelow(steps: seq<Step>, k: nat) {
    forall step | step in steps :: step.Tick? || step.caller < k
  }

  ghost function FirstCallers(k: nat): (s: set<nat>)
    ensures |s| == k && forall c: nat :: c in s <==> c < k
  {
    if k == 0 then {} else FirstCallers(k - 1) + {k - 1}
  }

  /** `k` callers cannot have more than `k` calls in flight. */
  lemma {:induction false} FewCallersInFlight(cfg: CostConfig, cal: Calendar, period: Period, s: System,
                                              steps: seq<Step>, p: string, k: nat)
    requires s.callers.Keys <= FirstCallers(k) && CallersBelow(steps, k)
    ensures BudgetInFlightAtMost(cfg, cal, period, s, steps, p, k)
    decreases |steps|
  {
    SubsetIsSmaller(BudgetInFlight(cfg, period, s, p), FirstCallers(k));
    if steps != [] {
      assert steps[0] in steps && forall x | x in steps[1..] :: x in steps;
      FewCallersInFlight(cfg, cal, period, Apply(cfg, cal, s, steps[0]), steps[1..], p, k);
    }
  }

  lemma {:induction false} OneByOneSteps(m: nat, p: string, x: real, k: nat, c: real)
    requires k >= 1 && 0.0 <= x <= c
    ensures CallersBelow(OneByOne(m, p, x), k) && CostsAtMost(OneByOne(m, p, x), c)
  {
    if m > 0 {
      OneByOneSteps(m - 1, p, x, k, c);
    }
  }

  lemma {:induction false} BurstSteps(n: nat, p: string, k: nat, c: real)
    requires n <= k
    ensures CallersBelow(CheckInAll(n, p), k) && CostsAtMost(CheckInAll(n, p), c)
    ensures CallersBelow(DecideAll(n), k) && CostsAtMost(DecideAll(n), c)
    ensures CallersBelow(BillAll(n, c), k) && (c >= 0.0 ==> CostsAtMost(BillAll(n, c), c))
  {
    if n > 0 {
      BurstSteps(n - 1, p, k, c);
    }
  }

  /** At most `k` calls in flight, each at most `c`: the spend of the day and the month is m * x + k * c. */
  lemma SpreeRuns(cfg: CostConfig, cal: Calendar, start: int, p: string, m: nat, x: real, k: nat, c: real)
    requires Affords(cfg, m, x) && x <= c && Begun(cal, start) && k >= 1 && Below(cfg, m)
    ensures var steps := Spree(m, x, k, c, p);
            && CostsAtMost(steps, c)
            && (forall period :: BudgetInFlightAtMost(cfg, cal, period, Fresh(start), steps, p, k))
            && forall period :: Spend(cal, Execute(cfg, cal, Fresh(start), steps), p, period)
                == m as real * x + k as real * c
  {
    var steps := Spree(m, x, k, c, p);
    OneByOneSteps(m, p, x, k, c);
    BurstSteps(k, p, k, c);
    OvershootRuns(cfg, cal, start, p, m, x, k);
    var admitted := Execute(cfg, cal, Fresh(start), Overshoot(m, x, k, p));
    BillAllRuns(cfg, cal, admitted, p, k, k, c);
    ExecuteAppend(cfg, cal, Fresh(start), Overshoot(m, x, k, p), BillAll(k, c));
    forall period
      ensures BudgetInFlightAtMost(cfg, cal, period, Fresh(start), steps, p, k)
      ensures Spend(cal, Execute(cfg, cal, Fresh(start), steps), p, period) == m as real * x + k as real * c
    {
      FewCallersInFlight(cfg, cal, period, Fresh(start), steps, p, k);
      var since := cal.start(period)(start);
      assert since <= start by {
        assert period == Daily || period == Monthly;
      }
      SumOfBills(p, start, m, x, since);
      SumOfBills(p, start, k, c, since);
      SpendAppend(Bills(p, start, m, x), Bills(p, start, k, c), p, since);
    }
  }

  /** Calls of equal cost, at most `c`, that add up to `total`. */
  lemma InstalmentsExist(total: real, c: real) returns (m: nat, x: real)
    requires total >= 0.0 && c > 0.0
    ensures 0.0 <= x <= c && m as real * x == total && m as real <= total / c + 1.0
  {
    var q := total / c;
    assert q * c == total;
    NonNegativeQuotient(total, c);
    m := q.Floor + 1;
    x := total / m as real;
    assert x * m as real == total;
    NonNegativeQuotient(total, m as real);
    InstalmentFits(x, c, m as real, q, total);
  }

  lemma NonNegativeQuotient(a: real, b: real)
    requires a >= 0.0 && b > 0.0
    ensures a / b >= 0.0
  {
  }

  lemma InstalmentFits(x: real, c: real, m: real, q: real, total: real)
    requires x * m == total && q * c == total && q <= m && m > 0.0 && c > 0.0
    ensures x <= c
  {
    ScaleUp(q, m, c);
    ShareIsAtMost(x, c, m);
  }

  lemma ScaleUp(q: real, m: real, c: real)
    requires q <= m && c > 0.0
    ensures q * c <= c * m
  {
  }

  lemma ShareIsAtMost(x: real, c: real, m: real)
    requires m > 0.0 && x * m <= c * m
    ensures x <= c
  {
  }

  /**
   The budget bound cannot be improved: with `k` calls in flight of cost `c` each, the
   spend reaches the daily budget plus k * c up to any shortfall, however small.
   */
  lemma BudgetOvershootIsSharp(cfg: CostConfig, cal: Calendar, start: int, p: string, k: nat, c: real, shortfall: real)
    returns (steps: seq<Step>)
    requires 0.0 < shortfall <= cfg.dailyBudgetUSD <= cfg.monthlyBudgetUSD && c > 0.0 && k >= 1 && Begun(cal, start)
    requires Tighter(cfg) as real > cfg.dailyBudgetUSD / c + 1.0
    ensures CostsAtMost(steps, c) && BudgetInFlightAtMost(cfg, cal, Daily, Fresh(start), steps, p, k)
    ensures Spend(cal, Execute(cfg, cal, Fresh(start), steps), p, Daily)
              == cfg.dailyBudgetUSD + k as real * c - shortfall
  {
    var total := cfg.dailyBudgetUSD - shortfall;
    var m, x := InstalmentsExist(total, c);
    QuotientMonotone(total, cfg.dailyBudgetUSD, c);
    steps := Spree(m, x, k, c, p);
    SpreeRuns(cfg, cal, start, p, m, x, k, c);
  }

  lemma QuotientMonotone(a: real, b: real, c: real)
    requires a <= b && c > 0.0
    ensures a / c <= b / c
  {
  }

  // -------------------------------------------- who counts as in flight

  function AdmittedOnes(s: System): set<nat> {
    set c | c in s.callers && s.callers[c].phase.Admitted?
  }

  /** At every moment at most `k` callers are admitted and not yet billed. */
  ghost predicate AdmittedAtMost(cfg: CostConfig, cal: Calendar, s: System, steps: seq<Step>, k: nat)
    decreases |steps|
  {
    && |AdmittedOnes(s)| <= k
    && (steps != [] ==> AdmittedAtMost(cfg, cal, Apply(cfg, cal, s, steps[0]), steps[1..], k))
  }

  /** While nobody decides, nobody is admitted. */
  lemma {:induction false} NobodyAdmitted(cfg: CostConfig, cal: Calendar, s: System, steps: seq<Step>, k: nat)
    requires AdmittedOnes(s) == {} && forall step | step in steps :: !step.Decide?
    ensures AdmittedAtMost(cfg, cal, s, steps, k) && AdmittedOnes(Execute(cfg, cal, s, steps)) == {}
    decreases |steps|
  {
    if steps != [] {
      assert steps[0] in steps && forall x | x in steps[1..] :: x in steps;
      var s' := Apply(cfg, cal, s, steps[0]);
      assert forall c | c in s'.callers && s'.callers[c].phase.Admitted? :: c in AdmittedOnes(s);
      NobodyAdmitted(cfg, cal, s', steps[1..], k);
    }
  }

  lemma {:induction false} AdmittedAppend(cfg: CostConfig, cal: Calendar, s: System, a: seq<Step>, b: seq<Step>, k: nat)
    requires AdmittedAtMost(cfg, cal, s, a, k) && AdmittedAtMost(cfg, cal, Execute(cfg, cal, s, a), b, k)
    ensures AdmittedAtMost(cfg, cal, s, a + b, k)
    decreases |a|
  {
    if a == [] {
      assert a + b == b;
    } else {
      assert (a + b)[1..] == a[1..] + b && (a + b)[0] == a[0];
      AdmittedAppend(cfg, cal, Apply(cfg, cal, s, a[0]), a[1..], b, k);
    }
  }

  /** A caller that read an open budget is admitted and billed, whatever was billed meanwhile. */
  lemma LateBill(cfg: CostConfig, cal: Calendar, s: System, c: nat, p: string, cost: real)
    requires c in s.callers && s.callers[c] == Caller(p, Checking(Some(0.0), Some(0.0))) && AdmittedOnes(s) == {}
    requires cfg.dailyBudgetUSD > 0.0 && cfg.monthlyBudgetUSD > 0.0
    ensures var steps := [Decide(c), RecordUsage(c, cost)];
            var s' := Execute(cfg, cal, s, steps);
            && s'.now == s.now && s'.store.usage == s.store.usage + [UsageEntry(p, cost, s.now)]
            && s'.callers == s.callers - {c} && AdmittedOnes(s') == {}
            && AdmittedAtMost(cfg, cal, s, steps, 1)
  {
    var steps := [Decide(c), RecordUsage(c, cost)];
    var s1 := Apply(cfg, cal, s, steps[0]);
    var s2 := Apply(cfg, cal, s1, steps[1]);
    assert steps[1..] == [steps[1]] && [steps[1]][1..] == [];
    assert s2.callers == s.callers - {c};
    assert AdmittedOnes(s1) == {c} && AdmittedOnes(s2) == {};
    assert Execute(cfg, cal, s1, [steps[1]]) == Execute(cfg, cal, s2, []) == s2;
    assert AdmittedAtMost(cfg, cal, s2, [], 1);
    assert AdmittedAtMost(cfg, cal, s1, [steps[1]], 1);
  }

  /** Two callers read an empty budget; then each is admitted and billed on its own. */
  function TwoReaders(p: string): seq<Step> {
    CheckInAll(2, p) + ([Decide(1), RecordUsage(1, 1.0)] + [Decide(0), RecordUsage(0, 1.0)])
  }

  const SMALL_BUDGET := CostConfig(1.0, 100.0, 10, 10)

  /**
   Callers that have read an open budget count as in flight even before they are
   admitted. Counting admitted calls alone bounds nothing: here there is never more
   than one, of cost 1, and yet a budget of 1 is spent twice.
   */
  lemma CountingAdmittedIsNotEnough(cal: Calendar, start: int, p: string)
    requires Begun(cal, start)
    ensures AdmittedAtMost(SMALL_BUDGET, cal, Fresh(start), TwoReaders(p), 1) && CostsAtMost(TwoReaders(p), 1.0)
    ensures Spend(cal, Execute(SMALL_BUDGET, cal, Fresh(start), TwoReaders(p)), p, Daily)
         == SMALL_BUDGET.dailyBudgetUSD + 1.0 * 1.0
  {
    var cfg, s0 := SMALL_BUDGET, Fresh(start);
    var checks, one, two := CheckInAll(2, p), [Decide(1), RecordUsage(1, 1.0)], [Decide(0), RecordUsage(0, 1.0)];
    BurstSteps(2, p, 2, 1.0);
    NobodyDecides(2, p);
    CheckInAllRuns(cfg, cal, s0, p, start, 0, [], 2, 2);
    NobodyAdmitted(cfg, cal, s0, checks, 1);
    var s1 := Execute(cfg, cal, s0, checks);
    LateBill(cfg, cal, s1, 1, p, 1.0);
    var s2 := Execute(cfg, cal, s1, one);
    LateBill(cfg, cal, s2, 0, p, 1.0);
    ExecuteAppend(cfg, cal, s1, one, two);
    AdmittedAppend(cfg, cal, s1, one, two, 1);
    ExecuteAppend(cfg, cal, s0, checks, one + two);
    AdmittedAppend(cfg, cal, s0, checks, one + two, 1);
    var since, u := cal.start(Daily)(start), UsageEntry(p, 1.0, start);
    assert [] + [u] == [u];
    SpendSinceAdd([], u, p, since);
    SpendSinceAdd([u], u, p, since);
  }

  lemma {:induction false} NobodyDecides(n: nat, p: string)
    ensures forall step | step in CheckInAll(n, p) :: !step.Decide?
  {
    if n > 0 {
      NobodyDecides(n - 1, p);
    }
  }
}
