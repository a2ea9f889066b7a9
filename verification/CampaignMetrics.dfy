/**
 Campaign metrics (src/campaigns/campaign-tracker.ts, `getCampaignMetrics`) and
 the progress tally of the reply tracker (src/campaigns/reply-tracker.ts), which
 count the same rows by different rules.
 */
module CampaignMetrics {
  import opened Wrappers
  import opened InsertionMap
  import opened StableSort
  import opened Sums
  import opened CampaignSends

  /** A send joined with the time of its reply. Times are in milliseconds. */
  datatype SendRow = SendRow(status: SendStatus, sentAt: Option<int>, createdAt: int, repliedAt: Option<int>)

  datatype DayCounts = DayCounts(sent: nat, replied: nat, converted: nat)

  datatype Metrics = Metrics(totalSent: nat, totalFailed: nat, totalDelivered: nat, totalReplied: nat,
                             totalConverted: nat, totalUnsubscribed: nat, replyRate: real, conversionRate: real,
                             avgResponseTimeMs: Option<int>, byDay: seq<Entry<int, DayCounts>>)

  const DAY_MS := 86_400_000
  const NO_COUNTS := DayCounts(0, 0, 0)

  // ---------------------------------------------------------- specification

  datatype Class = Reached | Failing | Delivering | Replying | Converting | Leaving | StillSent | OnlyDelivered

  predicate InClass(s: SendStatus, c: Class) {
    match c
    case Reached => s.Sent? || s.Delivered? || s.Replied? || s.Converted? || s.Unsubscribed?
    case Failing => s.FailedSend?
    case Delivering => s.Delivered? || s.Replied? || s.Converted?
    case Replying => s.Replied? || s.Converted?
    case Converting => s.Converted?
    case Leaving => s.Unsubscribed?
    case StillSent => s.Sent?
    case OnlyDelivered => s.Delivered?
  }

  function One(b: bool): nat {
    if b then 1 else 0
  }

  function Count(rows: seq<SendRow>, c: Class): nat {
    if rows == [] then 0 else Count(rows[..|rows| - 1], c) + One(InClass(rows[|rows| - 1].status, c))
  }

  /** The calendar day (UTC) a row is booked under. */
  function DayOf(row: SendRow): int {
    (if row.sentAt.Some? then row.sentAt.value else row.createdAt) / DAY_MS
  }

  function AddRow(c: DayCounts, s: SendStatus): DayCounts {
    DayCounts(c.sent + One(InClass(s, Reached)), c.replied + One(InClass(s, Replying)),
              c.converted + One(InClass(s, Converting)))
  }

  /** What one day should show: the counts over exactly the rows booked under it. */
  function DayTotals(rows: seq<SendRow>, day: int): DayCounts {
    if rows == [] then NO_COUNTS
    else
      var before := DayTotals(rows[..|rows| - 1], day);
      var row := rows[|rows| - 1];
      if DayOf(row) == day then AddRow(before, row.status) else before
  }

  predicate Answered(row: SendRow) {
    row.repliedAt.Some? && row.sentAt.Some? && row.repliedAt.value >= row.sentAt.value
  }

  function ResponseCount(rows: seq<SendRow>): nat {
    if rows == [] then 0 else ResponseCount(rows[..|rows| - 1]) + One(Answered(rows[|rows| - 1]))
  }

  function ResponseTotal(rows: seq<SendRow>): nat {
    if rows == [] then 0
    else
      var row := rows[|rows| - 1];
      ResponseTotal(rows[..|rows| - 1]) + (if Answered(row) then row.repliedAt.value - row.sentAt.value else 0)
  }

  datatype Totals = Totals(sent: nat, failed: nat, delivered: nat, replied: nat, converted: nat, unsubscribed: nat,
                           responseMs: nat, responses: nat)

  function TotalsOf(rows: seq<SendRow>): Totals {
    Totals(Count(rows, Reached), Count(rows, Failing), Count(rows, Delivering), Count(rows, Replying),
           Count(rows, Converting), Count(rows, Leaving), ResponseTotal(rows), ResponseCount(rows))
  }

  ghost predicate DayOccurs(rows: seq<SendRow>, day: int) {
    exists row :: row in rows && DayOf(row) == day
  }

  function Counts(m: seq<Entry<int, DayCounts>>, day: int): DayCounts {
    var c := Get(m, day);
    if c.Some? then c.value else NO_COUNTS
  }

  function SentOf(e: Entry<int, DayCounts>): real { e.value.sent as real }

  function RepliedOf(e: Entry<int, DayCounts>): real { e.value.replied as real }

  function ConvertedOf(e: Entry<int, DayCounts>): real { e.value.converted as real }

  function Earliest(e: Entry<int, DayCounts>): real { -(e.key as real) }

  ghost predicate DaysAgree(m: seq<Entry<int, DayCounts>>, rows: seq<SendRow>) {
    && Distinct(m)
    && (forall d :: Counts(m, d) == DayTotals(rows, d))
    && (forall d :: Get(m, d).Some? <==> DayOccurs(rows, d))
  }

  ghost predicate SumsAgree(m: seq<Entry<int, DayCounts>>, rows: seq<SendRow>) {
    && SumBy(m, SentOf) == Count(rows, Reached) as real
    && SumBy(m, RepliedOf) == Count(rows, Replying) as real
    && SumBy(m, ConvertedOf) == Count(rows, Converting) as real
  }

  // ------------------------------------------------------------------ lemmas

  lemma TotalsStep(rows: seq<SendRow>, row: SendRow)
    ensures forall c :: Count(rows + [row], c) == Count(rows, c) + One(InClass(row.status, c))
    ensures ResponseCount(rows + [row]) == ResponseCount(rows) + One(Answered(row))
    ensures ResponseTotal(rows + [row])
         == ResponseTotal(rows) + (if Answered(row) then row.repliedAt.value - row.sentAt.value else 0)
  {
    assert (rows + [row])[..|rows|] == rows;
  }

  lemma BookDay(m: seq<Entry<int, DayCounts>>, rows: seq<SendRow>, row: SendRow)
    requires DaysAgree(m, rows)
    ensures var day := DayOf(row);
            DaysAgree(Set(m, day, AddRow(Counts(m, day), row.status)), rows + [row])
  {
    var day, all := DayOf(row), rows + [row];
    assert all[..|rows|] == rows && all[|rows|] == row;
    SetGet(m, day, AddRow(Counts(m, day), row.status));
    forall d
      ensures DayOccurs(all, d) <==> DayOccurs(rows, d) || d == day
    {
      assert row in all;
      if r :| r in rows && DayOf(r) == d {
        assert r in all;
      }
    }
  }

  lemma BookSums(m: seq<Entry<int, DayCounts>>, rows: seq<SendRow>, row: SendRow)
    requires Distinct(m) && SumsAgree(m, rows)
    ensures var day := DayOf(row);
            SumsAgree(Set(m, day, AddRow(Counts(m, day), row.status)), rows + [row])
  {
    var day, all := DayOf(row), rows + [row];
    var c := AddRow(Counts(m, day), row.status);
    assert all[..|rows|] == rows && all[|rows|] == row;
    SetChangesSum(m, day, c, SentOf);
    SetChangesSum(m, day, c, RepliedOf);
    SetChangesSum(m, day, c, ConvertedOf);
  }

  lemma SortedDays(dayMap: seq<Entry<int, DayCounts>>) returns (byDay: seq<Entry<int, DayCounts>>)
    requires Distinct(dayMap)
    ensures byDay == SortDesc(dayMap, Earliest)
    ensures forall i, j | 0 <= i < j < |byDay| :: byDay[i].key < byDay[j].key
    ensures Distinct(byDay) && forall d :: Get(byDay, d) == Get(dayMap, d)
  {
    byDay := SortDesc(dayMap, Earliest);
    SortDescSorts(dayMap, Earliest);
    SortKeepsMap(dayMap, Earliest);
    forall i, j | 0 <= i < j < |byDay|
      ensures byDay[i].key < byDay[j].key
    {
      assert Earliest(byDay[i]) >= Earliest(byDay[j]);
    }
  }

  lemma SortedSums(dayMap: seq<Entry<int, DayCounts>>, byDay: seq<Entry<int, DayCounts>>, sends: seq<SendRow>)
    requires byDay == SortDesc(dayMap, Earliest) && SumsAgree(dayMap, sends)
    ensures SumsAgree(byDay, sends)
  {
    SortDescKeepsSum(dayMap, Earliest, SentOf);
    SortDescKeepsSum(dayMap, Earliest, RepliedOf);
    SortDescKeepsSum(dayMap, Earliest, ConvertedOf);
  }

  lemma OrderedRates(a: nat, b: nat, n: nat)
    requires a <= b <= n
    ensures 0.0 <= Rate(a, n) <= Rate(b, n) <= 1.0
    ensures IsRate(Rate(a, n), a, n) && IsRate(Rate(b, n), b, n)
  {
    if n > 0 {
      Quotients(a as real, b as real, n as real);
    }
  }

  lemma Quotients(a: real, b: real, n: real)
    requires 0.0 <= a <= b <= n && n > 0.0
    ensures 0.0 <= a / n <= b / n <= 1.0
    ensures a / n * n == a && b / n * n == b
  {
    CancelPositive(0.0, a / n, n);
    CancelPositive(a / n, b / n, n);
    CancelPositive(b / n, 1.0, n);
  }

  lemma CancelPositive(x: real, y: real, n: real)
    requires n > 0.0 && x * n <= y * n
    ensures x <= y
  {
  }

  // --------------------------------------------------------- implementation

  function Tick(t: Totals, s: SendStatus): Totals {
    t.(sent := t.sent + One(InClass(s, Reached)), failed := t.failed + One(InClass(s, Failing)),
       delivered := t.delivered + One(InClass(s, Delivering)), replied := t.replied + One(InClass(s, Replying)),
       converted := t.converted + One(InClass(s, Converting)),
       unsubscribed := t.unsubscribed + One(InClass(s, Leaving)))
  }

  method Book(dayMap: seq<Entry<int, DayCounts>>, send: SendRow, ghost before: seq<SendRow>)
    returns (r: seq<Entry<int, DayCounts>>)
    requires DaysAgree(dayMap, before) && SumsAgree(dayMap, before)
    ensures DaysAgree(r, before + [send]) && SumsAgree(r, before + [send])
  {
    var day := Counts(dayMap, DayOf(send));
    r := Set(dayMap, DayOf(send), AddRow(day, send.status));
    BookDay(dayMap, before, send);
    BookSums(dayMap, before, send);
  }

  predicate IsRate(r: real, part: nat, whole: nat) {
    if whole > 0 then r * whole as real == part as real else r == 0.0
  }

  function Rate(part: nat, whole: nat): real {
    if whole > 0 then part as real / whole as real else 0.0
  }

  lemma DaysCarryOver(a: seq<Entry<int, DayCounts>>, b: seq<Entry<int, DayCounts>>, rows: seq<SendRow>)
    requires DaysAgree(a, rows) && Distinct(b) && forall d :: Get(b, d) == Get(a, d)
    ensures DaysAgree(b, rows)
  {
  }

  /** The single pass over the rows. */
  method CountSends(sends: seq<SendRow>)
    returns (total: Totals, dayMap: seq<Entry<int, DayCounts>>)
    ensures total == TotalsOf(sends)
    ensures DaysAgree(dayMap, sends) && SumsAgree(dayMap, sends)
  {
    total, dayMap := Totals(0, 0, 0, 0, 0, 0, 0, 0), [];
    for i := 0 to |sends|
      invariant total == TotalsOf(sends[..i])
      invariant DaysAgree(dayMap, sends[..i]) && SumsAgree(dayMap, sends[..i])
    {
      var send := sends[i];
      ghost var before := sends[..i];
      assert sends[..i + 1] == before + [send];
      TotalsStep(before, send);
      total := Tick(total, send.status);
      if send.repliedAt.Some? && send.sentAt.Some? {
        var ms := send.repliedAt.value - send.sentAt.value;
        if ms >= 0 {
          total := total.(responseMs := total.responseMs + ms, responses := total.responses + 1);
        }
      }
      dayMap := Book(dayMap, send, before);
    }
    assert sends[..|sends|] == sends;
  }

  method GetCampaignMetrics(sends: seq<SendRow>) returns (m: Metrics)
    ensures m.totalSent == Count(sends, Reached) && m.totalFailed == Count(sends, Failing)
    ensures m.totalDelivered == Count(sends, Delivering) && m.totalReplied == Count(sends, Replying)
    ensures m.totalConverted == Count(sends, Converting) && m.totalUnsubscribed == Count(sends, Leaving)
    // The daily breakdown: strictly increasing days, one for each day that occurs, each with the
    // counts of its own rows, and adding up to the totals.
    ensures forall i, j | 0 <= i < j < |m.byDay| :: m.byDay[i].key < m.byDay[j].key
    ensures DaysAgree(m.byDay, sends)
    ensures SumBy(m.byDay, SentOf) == m.totalSent as real
            && SumBy(m.byDay, RepliedOf) == m.totalReplied as real
            && SumBy(m.byDay, ConvertedOf) == m.totalConverted as real
    ensures 0.0 <= m.conversionRate <= m.replyRate <= 1.0
    ensures IsRate(m.replyRate, m.totalReplied, m.totalSent) && IsRate(m.conversionRate, m.totalConverted, m.totalSent)
    ensures NearestMean(m.avgResponseTimeMs, ResponseTotal(sends), ResponseCount(sends))
  {
    var t, dayMap := CountSends(sends);
    ghost var byDay := SortedDays(dayMap);
    SortedSums(dayMap, byDay, sends);
    DaysCarryOver(dayMap, byDay, sends);
    MetricsConservation(sends);
    OrderedRates(t.converted, t.replied, t.sent);
    m := Metrics(t.sent, t.failed, t.delivered, t.replied, t.converted, t.unsubscribed,
                 Rate(t.replied, t.sent), Rate(t.converted, t.sent), Mean(t.responseMs, t.responses),
                 SortDesc(dayMap, Earliest));
  }

  /** The mean rounded to the nearest integer, halves upwards. */
  predicate NearestMean(r: Option<int>, total: nat, count: nat) {
    && (r.None? <==> count == 0)
    && (r.Some? ==> 2 * r.value * count - count <= 2 * total < 2 * r.value * count + count)
  }

  /** `Math.round` of a quotient. */
  function Mean(total: nat, count: nat): (r: Option<int>)
    ensures NearestMean(r, total, count)
  {
    if count == 0 then None
    else
      var q := (2 * total + count) / (2 * count);
      assert q * (2 * count) <= 2 * total + count < (q + 1) * (2 * count);
      assert q * (2 * count) == 2 * q * count && (q + 1) * (2 * count) == 2 * q * count + 2 * count;
      Some(q)
  }

  // ------------------------------------------------------------ conservation

  /** converted <= replied <= delivered <= sent, and sent and failed rows are different rows. */
  lemma {:induction false} MetricsConservation(rows: seq<SendRow>)
    ensures Count(rows, Converting) <= Count(rows, Replying) <= Count(rows, Delivering) <= Count(rows, Reached)
    ensures Count(rows, Reached) + Count(rows, Failing) <= |rows|
    ensures Count(rows, Reached) == Count(rows, StillSent) + Count(rows, Delivering) + Count(rows, Leaving)
    ensures Count(rows, Delivering) == Count(rows, OnlyDelivered) + Count(rows, Replying)
  {
    if rows != [] {
      MetricsConservation(rows[..|rows| - 1]);
    }
  }

  // ----------------------------------------------- which rows are counted

  function Where(rows: seq<SendRow>, p: SendRow -> bool): seq<SendRow> {
    if rows == [] then []
    else if p(rows[|rows| - 1]) then Where(rows[..|rows| - 1], p) + [rows[|rows| - 1]]
    else Where(rows[..|rows| - 1], p)
  }

  /** A row belongs to the day in which it was sent or, if it was not, created. */
  predicate IsOnDay(row: SendRow, day: int) {
    var t := if row.sentAt.Some? then row.sentAt.value else row.createdAt;
    day * 86_400_000 <= t < (day + 1) * 86_400_000
  }

  lemma DayOfIsOnDay(row: SendRow, day: int)
    ensures DayOf(row) == day <==> IsOnDay(row, day)
  {
  }

  /** A day shows the sent, replied and converted rows among its own, and occurs when it has any. */
  lemma {:induction false} DayShowsItsRows(rows: seq<SendRow>, day: int)
    ensures var own := Where(rows, (row: SendRow) => IsOnDay(row, day));
            && DayTotals(rows, day) == DayCounts(Count(own, Reached), Count(own, Replying), Count(own, Converting))
            && (DayOccurs(rows, day) <==> own != [])
    decreases |rows|
  {
    if rows != [] {
      var front, last := rows[..|rows| - 1], rows[|rows| - 1];
      var own := Where(front, (row: SendRow) => IsOnDay(row, day));
      assert rows == front + [last];
      DayShowsItsRows(front, day);
      DayOfIsOnDay(last, day);
      assert (own + [last])[..|own|] == own;
    }
  }

  function ResponseMs(row: SendRow): int {
    if row.repliedAt.Some? && row.sentAt.Some? then row.repliedAt.value - row.sentAt.value else -1
  }

  /** The mean response time is taken over the rows that were answered at or after the time they were sent. */
  lemma {:induction false} ResponsesOfAnsweredRows(rows: seq<SendRow>)
    ensures var own := Where(rows, (row: SendRow) => ResponseMs(row) >= 0);
            && ResponseCount(rows) == |own|
            && ResponseTotal(rows) as real == SumBy(own, (row: SendRow) => ResponseMs(row) as real)
    decreases |rows|
  {
    if rows != [] {
      var front, last := rows[..|rows| - 1], rows[|rows| - 1];
      ResponsesOfAnsweredRows(front);
      SumByAppend(Where(front, (row: SendRow) => ResponseMs(row) >= 0), [last],
                  (row: SendRow) => ResponseMs(row) as real);
      SumByOne(last, (row: SendRow) => ResponseMs(row) as real);
    }
  }

  // ----------------------------------------------- the reply tracker's tally

  datatype Tally = Tally(sent: nat, failed: nat, replied: nat)

  /** The progress event after a reply: rows grouped by status, then added up. */
  method ProgressTally(rows: seq<SendRow>) returns (tally: Tally)
    ensures tally == Tally(Count(rows, StillSent) + Count(rows, Replying), Count(rows, Failing), Count(rows, Replying))
  {
    tally := Tally(0, 0, 0);
    for i := 0 to |rows|
      invariant tally == Tally(Count(rows[..i], StillSent) + Count(rows[..i], Replying),
                               Count(rows[..i], Failing), Count(rows[..i], Replying))
    {
      assert rows[..i + 1][..i] == rows[..i];
      match rows[i].status {
        case Sent => tally := tally.(sent := tally.sent + 1);
        case FailedSend => tally := tally.(failed := tally.failed + 1);
        case Replied => tally := tally.(sent := tally.sent + 1, replied := tally.replied + 1);
        case Converted => tally := tally.(sent := tally.sent + 1, replied := tally.replied + 1);
        case _ =>
      }
    }
    assert rows[..|rows|] == rows;
  }

  /**
   The live tally and the metrics agree on failed and replied; the tally's
   `sent` misses the delivered and unsubscribed rows, so it agrees with the
   metrics exactly when there are none.
   */
  lemma TallyAgainstMetrics(rows: seq<SendRow>)
    ensures Count(rows, Reached)
         == (Count(rows, StillSent) + Count(rows, Replying)) + Count(rows, OnlyDelivered) + Count(rows, Leaving)
    ensures Count(rows, Reached) == Count(rows, StillSent) + Count(rows, Replying)
       <==> forall row | row in rows :: row.status != Delivered && row.status != Unsubscribed
  {
    MetricsConservation(rows);
    NoneCounted(rows, OnlyDelivered);
    NoneCounted(rows, Leaving);
    assert forall row: SendRow :: InClass(row.status, OnlyDelivered) <==> row.status == Delivered;
    assert forall row: SendRow :: InClass(row.status, Leaving) <==> row.status == Unsubscribed;
  }

  lemma {:induction false} NoneCounted(rows: seq<SendRow>, c: Class)
    ensures Count(rows, c) == 0 <==> forall row | row in rows :: !InClass(row.status, c)
    decreases |rows|
  {
    if rows != [] {
      assert rows == rows[..|rows| - 1] + [rows[|rows| - 1]];
      NoneCounted(rows[..|rows| - 1], c);
    }
  }
}
