/**
 Replies and conversions under concurrency (src/campaigns/campaign-tracker.ts,
 src/campaigns/reply-tracker.ts). An inbound message is handled in three atomic
 pieces: the lookup over the window, the lookup in the found send's campaign,
 and the transaction. A conversion reads first and writes in a transaction. Any
 interleaving of any number of them with a sending campaign is a sequence of steps.
 */
module CampaignSendSteps {
  import opened Wrappers
  import opened CampaignSends

  /** The handling of one inbound message: what each lookup found, and whether the transaction went through. */
  datatype Handling =
    | Found(found: string, since: int)
    | Chosen(found: string, since: int, send: string)
    | Done(found: string, since: int, chosen: Option<string>, marked: bool)

  /** A reply row; there is at most one per send, as `campaignSendId` is unique. */
  datatype ReplyRow = ReplyRow(handledBy: nat, converted: bool)

  /** A conversion between its read and its transaction. */
  datatype Conversion = Conversion(send: string, sawReply: bool)

  /** `pending` holds the rows whose message is still being sent. */
  datatype System = System(sends: map<string, Send>, pending: set<string>, replies: map<string, ReplyRow>,
                           handlings: map<nat, Handling>, conversions: map<nat, Conversion>)

  datatype Step =
    | CreateRow(id: string, campaignId: string, contactId: string, now: int)
    | RecordOutcome(id: string, success: bool, now: int)
    | FindInWindow(h: nat, campaigns: set<string>, contactId: string, since: int, send: string)
    | FindInCampaign(h: nat, choice: Option<string>)
    | Commit(h: nat)
    | ReadForConversion(k: nat, id: string)
    | Convert(k: nat)

  const EMPTY := System(map[], {}, map[], map[], map[])

  /** What the second lookup chooses from: the campaign's sends to the contact, whatever their age. */
  function Candidates(s: System, found: string): set<string>
    requires found in s.sends
  {
    EligibleSends(s.sends, {s.sends[found].campaignId}, s.sends[found].contactId, None)
  }

  predicate MayChoose(s: System, found: string, choice: Option<string>)
    requires found in s.sends
  {
    if choice.Some? then LatestSend(s.sends, Candidates(s, found), choice.value) else Candidates(s, found) == {}
  }

  function WithStatus(s: System, id: string, status: SendStatus): System
    requires id in s.sends
  {
    s.(sends := s.sends[id := s.sends[id].(status := status)])
  }

  function WithHandling(s: System, h: nat, v: Handling): System {
    s.(handlings := s.handlings[h := v])
  }

  /** The transaction: the unique key rejects a second reply to a send, and then nothing is written. */
  function Committed(s: System, h: nat, v: Handling): System
    requires v.Chosen? && v.send in s.sends
  {
    if v.send in s.replies then WithHandling(s, h, Done(v.found, v.since, Some(v.send), false))
    else
      var s' := WithStatus(s, v.send, Replied);
      WithHandling(s'.(replies := s.replies[v.send := ReplyRow(h, false)]), h,
                   Done(v.found, v.since, Some(v.send), true))
  }

  function Converting(s: System, k: nat, c: Conversion): System
    requires c.send in s.sends
  {
    var s' := WithStatus(s, c.send, Converted).(conversions := s.conversions - {k});
    if c.sawReply && c.send in s.replies
    then s'.(replies := s.replies[c.send := s.replies[c.send].(converted := true)])
    else s'
  }

  function Outcome(s: System, id: string, success: bool, now: int): System
    requires id in s.sends
  {
    var row := if success then s.sends[id].(status := Sent, sentAt := Some(now))
               else s.sends[id].(status := FailedSend);
    s.(sends := s.sends[id := row], pending := s.pending - {id})
  }

  /** One atomic piece of work; a step that is not enabled changes nothing. */
  function Apply(s: System, step: Step): System {
    match step
    case CreateRow(id, campaign, contact, now) =>
      if id in s.sends then s
      else s.(sends := s.sends[id := Send(campaign, contact, None, Queued, None, now)], pending := s.pending + {id})
    case RecordOutcome(id, success, now) =>
      if id in s.pending && id in s.sends then Outcome(s, id, success, now) else s
    case FindInWindow(h, campaigns, contact, since, send) =>
      if h !in s.handlings && LatestSend(s.sends, EligibleSends(s.sends, campaigns, contact, Some(since)), send)
      then WithHandling(s, h, Found(send, since))
      else s
    case FindInCampaign(h, choice) =>
      if h !in s.handlings || !s.handlings[h].Found? || s.handlings[h].found !in s.sends then s
      else
        var v := s.handlings[h];
        if !MayChoose(s, v.found, choice) then s
        else if choice.Some? then WithHandling(s, h, Chosen(v.found, v.since, choice.value))
        else WithHandling(s, h, Done(v.found, v.since, None, false))
    case Commit(h) =>
      if h in s.handlings && s.handlings[h].Chosen? && s.handlings[h].send in s.sends
      then Committed(s, h, s.handlings[h])
      else s
    case ReadForConversion(k, id) =>
      if k !in s.conversions && id in s.sends
      then s.(conversions := s.conversions[k := Conversion(id, id in s.replies)])
      else s
    case Convert(k) =>
      if k in s.conversions && s.conversions[k].send in s.sends then Converting(s, k, s.conversions[k]) else s
  }

  function Execute(s: System, steps: seq<Step>): System
    decreases |steps|
  {
    if steps == [] then s else Execute(Apply(s, steps[0]), steps[1..])
  }

  // ------------------------------------------------ what every state keeps

  predicate RowOk(s: System, id: string) {
    && (id in s.pending ==> id in s.sends && s.sends[id].status in {Queued, Converted} && id !in s.replies)
    && (id in s.replies ==> id in s.sends && s.sends[id].status in {Replied, Converted})
    && (id in s.sends && s.sends[id].status == Replied ==> id in s.replies)
    && (id in s.sends && s.sends[id].status == Sent ==> s.sends[id].sentAt.Some?)
  }

  predicate WasSent(s: System, id: string) {
    id in s.sends && id !in s.pending && s.sends[id].sentAt.Some?
  }

  /** The chosen send has the found one's campaign and contact, and is in the window while the found one is `sent`. */
  predicate Fits(s: System, found: string, since: int, id: string) {
    && WasSent(s, found) && WasSent(s, id)
    && s.sends[id].campaignId == s.sends[found].campaignId && s.sends[id].contactId == s.sends[found].contactId
    && (s.sends[found].status == Sent ==> s.sends[id].sentAt.value >= since)
  }

  predicate HandlingOk(s: System, h: nat, v: Handling) {
    && WasSent(s, v.found)
    && s.sends[v.found].sentAt.value >= v.since
    && (v.Chosen? ==> Fits(s, v.found, v.since, v.send))
    && (v.Done? && v.chosen.Some? ==> Fits(s, v.found, v.since, v.chosen.value) && v.chosen.value in s.replies)
    && (v.Done? && v.marked ==> v.chosen.Some?)
    && (v.Done? && v.chosen.Some? && v.chosen.value in s.replies ==>
          (v.marked <==> s.replies[v.chosen.value].handledBy == h))
  }

  /** A reply belongs to the handling that marked its send. */
  predicate ReplyOk(s: System, id: string)
    requires id in s.replies
  {
    var h := s.replies[id].handledBy;
    h in s.handlings && s.handlings[h].Done? && s.handlings[h].marked && s.handlings[h].chosen == Some(id)
  }

  ghost predicate Inv(s: System) {
    && (forall id :: RowOk(s, id))
    && (forall id | id in s.replies :: ReplyOk(s, id))
    && (forall h | h in s.handlings :: HandlingOk(s, h, s.handlings[h]))
  }

  /** Rows that change only in ways that no handling notices. */
  ghost predicate RowsKept(s: System, s': System) {
    && s'.handlings == s.handlings && s'.replies.Keys == s.replies.Keys
    && (forall id | id in s.replies :: s'.replies[id].handledBy == s.replies[id].handledBy)
    && (forall id | WasSent(s, id) ::
          && WasSent(s', id)
          && s'.sends[id] == s.sends[id].(status := s'.sends[id].status)
          && (s'.sends[id].status == Sent ==> s.sends[id].status == Sent))
  }

  lemma KeptRowsKeepInv(s: System, s': System)
    requires Inv(s) && RowsKept(s, s') && forall id :: RowOk(s', id)
    ensures Inv(s')
  {
    forall id | id in s'.replies
      ensures ReplyOk(s', id)
    {
      assert ReplyOk(s, id);
    }
    forall h | h in s'.handlings
      ensures HandlingOk(s', h, s'.handlings[h])
    {
      assert HandlingOk(s, h, s.handlings[h]);
    }
  }

  /** A handling that moves on without writing anything. */
  lemma MovingKeepsInv(s: System, h: nat, v: Handling)
    requires Inv(s) && HandlingOk(s, h, v)
    requires h in s.handlings ==> !s.handlings[h].Done?
    ensures Inv(WithHandling(s, h, v))
  {
    var s' := WithHandling(s, h, v);
    forall id
      ensures RowOk(s', id)
    {
      assert RowOk(s, id);
    }
    forall id | id in s'.replies
      ensures ReplyOk(s', id)
    {
      assert ReplyOk(s, id);
    }
    forall l | l in s'.handlings
      ensures HandlingOk(s', l, s'.handlings[l])
    {
      if l != h {
        assert HandlingOk(s, l, s.handlings[l]);
      }
    }
  }

  lemma CommitKeepsInv(s: System, h: nat)
    requires Inv(s) && h in s.handlings && s.handlings[h].Chosen? && s.handlings[h].send in s.sends
    ensures Inv(Committed(s, h, s.handlings[h]))
  {
    var v := s.handlings[h];
    var s' := Committed(s, h, v);
    assert HandlingOk(s, h, v) && RowOk(s, v.send);
    if v.send in s.replies {
      assert ReplyOk(s, v.send);
      MovingKeepsInv(s, h, Done(v.found, v.since, Some(v.send), false));
    } else {
      forall id
        ensures RowOk(s', id)
      {
        assert RowOk(s, id);
      }
      forall id | id in s'.replies
        ensures ReplyOk(s', id)
      {
        if id != v.send {
          assert ReplyOk(s, id);
        }
      }
      forall l | l in s'.handlings
        ensures HandlingOk(s', l, s'.handlings[l])
      {
        if l != h {
          assert HandlingOk(s, l, s.handlings[l]);
        }
      }
    }
  }

  lemma FindingKeepsInv(s: System, h: nat, campaigns: set<string>, contact: string, since: int, send: string)
    requires Inv(s)
    ensures Inv(Apply(s, FindInWindow(h, campaigns, contact, since, send)))
  {
    var step := FindInWindow(h, campaigns, contact, since, send);
    if Apply(s, step) != s {
      assert RowOk(s, send);
      MovingKeepsInv(s, h, Found(send, since));
    }
  }

  lemma ChoosingKeepsInv(s: System, h: nat, choice: Option<string>)
    requires Inv(s)
    ensures Inv(Apply(s, FindInCampaign(h, choice)))
  {
    if Apply(s, FindInCampaign(h, choice)) != s {
      var v := s.handlings[h];
      assert HandlingOk(s, h, v) && RowOk(s, v.found);
      if choice.Some? {
        assert RowOk(s, choice.value);
        assert s.sends[v.found].status == Sent ==> v.found in Candidates(s, v.found);
        MovingKeepsInv(s, h, Chosen(v.found, v.since, choice.value));
      } else {
        MovingKeepsInv(s, h, Done(v.found, v.since, None, false));
      }
    }
  }

  lemma RowStepKeepsInv(s: System, step: Step)
    requires Inv(s) && (step.CreateRow? || step.RecordOutcome? || step.ReadForConversion?)
    ensures Inv(Apply(s, step))
  {
    var s' := Apply(s, step);
    forall id
      ensures RowOk(s', id)
    {
      assert RowOk(s, id);
    }
    KeptRowsKeepInv(s, s');
  }

  lemma ConvertingKeepsInv(s: System, k: nat, c: Conversion)
    requires Inv(s) && c.send in s.sends
    ensures Inv(Converting(s, k, c))
  {
    var s' := Converting(s, k, c);
    forall id
      ensures RowOk(s', id)
    {
      assert RowOk(s, id);
    }
    KeptRowsKeepInv(s, s');
  }

  lemma StepKeepsInv(s: System, step: Step)
    requires Inv(s)
    ensures Inv(Apply(s, step))
  {
    match step {
      case FindInWindow(h, campaigns, contact, since, send) =>
        FindingKeepsInv(s, h, campaigns, contact, since, send);
      case FindInCampaign(h, choice) =>
        ChoosingKeepsInv(s, h, choice);
      case Commit(h) =>
        if Apply(s, step) != s {
          CommitKeepsInv(s, h);
        }
      case Convert(k) =>
        if Apply(s, step) != s {
          ConvertingKeepsInv(s, k, s.conversions[k]);
        }
      case _ =>
        RowStepKeepsInv(s, step);
    }
  }

  lemma {:induction false} ReachableKeepsInv(s: System, steps: seq<Step>)
    requires Inv(s)
    ensures Inv(Execute(s, steps))
    decreases |steps|
  {
    if steps != [] {
      StepKeepsInv(s, steps[0]);
      ReachableKeepsInv(Apply(s, steps[0]), steps[1..]);
    }
  }

  // --------------------------------------------------- one reply per send

  function Marking(s: System): set<nat> {
    set h | h in s.handlings && s.handlings[h].Done? && s.handlings[h].marked
  }

  /** The sends that some handling chose. */
  function ChosenSends(s: System): set<string> {
    set h | h in s.handlings && s.handlings[h].Done? && s.handlings[h].chosen.Some? :: s.handlings[h].chosen.value
  }

  lemma {:induction false} OwnersAreAsMany(s: System, ids: set<string>)
    requires Inv(s) && ids <= s.replies.Keys
    ensures |set id | id in ids :: s.replies[id].handledBy| == |ids|
    decreases |ids|
  {
    if ids != {} {
      var id :| id in ids;
      var rest, h := ids - {id}, s.replies[id].handledBy;
      OwnersAreAsMany(s, rest);
      assert ReplyOk(s, id) && forall x | x in rest :: ReplyOk(s, x);
      assert (set x | x in ids :: s.replies[x].handledBy) == (set x | x in rest :: s.replies[x].handledBy) + {h};
    }
  }

  /**
   However the handlings interleave, once they have ended, exactly the sends that
   one of them chose have a reply, and each of these was marked by exactly one.
   */
  lemma EveryChosenSendIsAnsweredOnce(steps: seq<Step>)
    requires forall h | h in Execute(EMPTY, steps).handlings :: Execute(EMPTY, steps).handlings[h].Done?
    ensures var s := Execute(EMPTY, steps); s.replies.Keys == ChosenSends(s) && |s.replies| == |Marking(s)|
  {
    var s := Execute(EMPTY, steps);
    ReachableKeepsInv(EMPTY, steps);
    assert forall h | h in s.handlings :: HandlingOk(s, h, s.handlings[h]);
    assert forall id | id in s.replies :: ReplyOk(s, id);
    OwnersAreAsMany(s, s.replies.Keys);
    assert (set id | id in s.replies.Keys :: s.replies[id].handledBy) == Marking(s);
    assert |s.replies.Keys| == |s.replies|;
  }

  function Choice(o: Option<string>): set<string> {
    if o.Some? then {o.value} else {}
  }

  lemma ChosenByTwo(s: System, a: nat, b: nat)
    requires s.handlings.Keys == {a, b} && s.handlings[a].Done? && s.handlings[b].Done?
    ensures ChosenSends(s) == Choice(s.handlings[a].chosen) + Choice(s.handlings[b].chosen)
  {
    assert forall h :: h in s.handlings <==> h == a || h == b;
  }

  lemma TwoChoices(a: Option<string>, b: Option<string>)
    ensures |Choice(a) + Choice(b)| == 2 <==> a.Some? && b.Some? && a != b
  {
    if a.Some? && b.Some? && a == b {
      assert Choice(a) + Choice(b) == {a.value};
    }
  }

  /** So one message handled on both paths counts as two replies exactly when the paths chose different sends. */
  lemma BothPathsMarkIff(steps: seq<Step>, a: nat, b: nat)
    requires a != b && Execute(EMPTY, steps).handlings.Keys == {a, b}
    requires Execute(EMPTY, steps).handlings[a].Done? && Execute(EMPTY, steps).handlings[b].Done?
    ensures var s := Execute(EMPTY, steps);
            var first, second := s.handlings[a].chosen, s.handlings[b].chosen;
            |s.replies| == 2 <==> first.Some? && second.Some? && first != second
  {
    var s := Execute(EMPTY, steps);
    EveryChosenSendIsAnsweredOnce(steps);
    assert |s.replies| == |s.replies.Keys|;
    ChosenByTwo(s, a, b);
    TwoChoices(s.handlings[a].chosen, s.handlings[b].chosen);
  }

  // ------------------------------------------------------------- the window

  /**
   The second lookup chooses a send of the message's window if and only if the
   campaign still has one there that is `sent`; it does while the found one is.
   */
  lemma ChoiceInWindowIff(s: System, h: nat, send: string)
    requires Inv(s) && h in s.handlings && s.handlings[h].Found?
    requires s.handlings[h].found in s.sends && MayChoose(s, s.handlings[h].found, Some(send))
    ensures var v := s.handlings[h];
            var row := s.sends[v.found];
            var inWindow := EligibleSends(s.sends, {row.campaignId}, row.contactId, Some(v.since));
            && s.sends[send].sentAt.Some?
            && (s.sends[send].sentAt.value >= v.since <==> inWindow != {})
            && (row.status == Sent ==> v.found in inWindow)
  {
    var v := s.handlings[h];
    var row := s.sends[v.found];
    var inWindow := EligibleSends(s.sends, {row.campaignId}, row.contactId, Some(v.since));
    assert RowOk(s, send) && HandlingOk(s, h, v);
    if s.sends[send].sentAt.value >= v.since {
      assert send in inWindow;
    }
    if inWindow != {} {
      var other :| other in inWindow;
      assert other in Candidates(s, v.found);
    }
  }

  /**
   Two handlings of one message, overlapping so that the first one marks `x`
   between the other's lookups; `choice` is what the other then finds.
   */
  function Overlap(a: nat, b: nat, campaigns: set<string>, contact: string, since: int, x: string,
                   choice: Option<string>): seq<Step>
  {
    [FindInWindow(a, campaigns, contact, since, x), FindInWindow(b, campaigns, contact, since, x),
     FindInCampaign(a, Some(x)), Commit(a), FindInCampaign(b, choice), Commit(b)]
  }

  lemma Finds(s: System, h: nat, campaigns: set<string>, contact: string, since: int, x: string)
    requires h !in s.handlings && LatestSend(s.sends, EligibleSends(s.sends, campaigns, contact, Some(since)), x)
    ensures Apply(s, FindInWindow(h, campaigns, contact, since, x)) == WithHandling(s, h, Found(x, since))
  {
  }

  /** What the window lookup finds is also the latest of its campaign: a later one would be in the window. */
  lemma FoundIsLatest(s: System, campaigns: set<string>, contact: string, since: int, x: string)
    requires Inv(s) && LatestSend(s.sends, EligibleSends(s.sends, campaigns, contact, Some(since)), x)
    ensures LatestSend(s.sends, Candidates(s, x), x) && x !in s.replies
  {
    assert RowOk(s, x) && x in Candidates(s, x);
    forall other | other in Candidates(s, x)
      ensures NotLater(s.sends[other].sentAt, s.sends[x].sentAt)
    {
      assert RowOk(s, other);
      if s.sends[other].sentAt.value >= since {
        assert other in EligibleSends(s.sends, campaigns, contact, Some(since));
      }
    }
  }

  lemma MarkedIsNoCandidate(s: System, s': System, x: string)
    requires x in s.sends && s'.sends == s.sends[x := s.sends[x].(status := Replied)]
    ensures Candidates(s', x) == Candidates(s, x) - {x}
  {
    forall id
      ensures id in Candidates(s', x) <==> id in Candidates(s, x) && id != x
    {
    }
  }

  /** The state in which `a` has marked `x` while `b` is between its lookups. */
  function BetweenLookups(s: System, a: nat, b: nat, x: string, since: int): System
    requires x in s.sends
  {
    WithHandling(WithHandling(WithStatus(s, x, Replied), b, Found(x, since)), a, Done(x, since, Some(x), true))
      .(replies := s.replies[x := ReplyRow(a, false)])
  }

  lemma FirstOneMarks(s: System, a: nat, b: nat, campaigns: set<string>, contact: string, since: int, x: string)
    requires a != b && a !in s.handlings && b !in s.handlings
    requires LatestSend(s.sends, EligibleSends(s.sends, campaigns, contact, Some(since)), x)
    requires LatestSend(s.sends, Candidates(s, x), x) && x !in s.replies
    ensures var find := Apply(Apply(s, FindInWindow(a, campaigns, contact, since, x)),
                              FindInWindow(b, campaigns, contact, since, x));
            Apply(Apply(find, FindInCampaign(a, Some(x))), Commit(a)) == BetweenLookups(s, a, b, x, since)
  {
    var s1 := WithHandling(s, a, Found(x, since));
    var s2 := WithHandling(s1, b, Found(x, since));
    var s3 := WithHandling(s2, a, Chosen(x, since, x));
    Finds(s, a, campaigns, contact, since, x);
    Finds(s1, b, campaigns, contact, since, x);
    assert Candidates(s2, x) == Candidates(s, x);
    assert Apply(s2, FindInCampaign(a, Some(x))) == s3;
    assert Apply(s3, Commit(a)).handlings == BetweenLookups(s, a, b, x, since).handlings;
  }

  lemma SecondChoiceIsMarked(s: System, h: nat, x: string, since: int, choice: Option<string>)
    requires h in s.handlings && s.handlings[h] == Found(x, since) && x in s.sends && MayChoose(s, x, choice)
    ensures var s' := Apply(Apply(s, FindInCampaign(h, choice)), Commit(h));
            s'.replies.Keys == s.replies.Keys + (if choice.Some? then {choice.value} else {})
  {
  }

  /**
   The overlap marks a second send if and only if the found send's campaign has
   another one to the contact that is still `sent`, be it as old as it may. The
   message then counts as two replies, even when a single send was eligible.
   */
  lemma OverlapMarksTwoIff(s: System, a: nat, b: nat, campaigns: set<string>, contact: string, since: int,
                           x: string, choice: Option<string>)
    requires Inv(s) && a != b && a !in s.handlings && b !in s.handlings
    requires LatestSend(s.sends, EligibleSends(s.sends, campaigns, contact, Some(since)), x)
    requires MayChoose(WithStatus(s, x, Replied), x, choice)
    ensures var s' := Execute(s, Overlap(a, b, campaigns, contact, since, x, choice));
            && (choice.Some? <==> Candidates(s, x) != {x})
            && (choice.Some? ==> choice.value != x && choice.value !in s.replies)
            && s'.replies.Keys == s.replies.Keys + {x} + (if choice.Some? then {choice.value} else {})
  {
    var s4 := BetweenLookups(s, a, b, x, since);
    FoundIsLatest(s, campaigns, contact, since, x);
    FirstOneMarks(s, a, b, campaigns, contact, since, x);
    MarkedIsNoCandidate(s, s4, x);
    MarkedIsNoCandidate(s, WithStatus(s, x, Replied), x);
    SecondChoiceIsMarked(s4, b, x, since, choice);
    if choice.Some? {
      assert choice.value in Candidates(s, x) && RowOk(s, choice.value);
    }
    SixSteps(s, Overlap(a, b, campaigns, contact, since, x, choice));
  }

  /** Two sends of campaign `c` to contact `k`: `y` at time 0 and `x` at time 10. */
  function TwoSends(c: string, k: string, x: string, y: string): seq<Step> {
    [CreateRow(y, c, k, 0), RecordOutcome(y, true, 0), CreateRow(x, c, k, 0), RecordOutcome(x, true, 10)]
  }

  lemma TwoSendsAreSent(c: string, k: string, x: string, y: string)
    requires x != y
    ensures Execute(EMPTY, TwoSends(c, k, x, y))
         == EMPTY.(sends := map[y := Send(c, k, None, Sent, Some(0), 0), x := Send(c, k, None, Sent, Some(10), 0)])
  {
    var queued := Send(c, k, None, Queued, None, 0);
    var sentY := map[y := queued.(status := Sent, sentAt := Some(0))];
    var s1 := EMPTY.(sends := map[y := queued], pending := {y});
    var s2 := EMPTY.(sends := sentY);
    var s3 := EMPTY.(sends := sentY[x := queued], pending := {x});
    var steps := TwoSends(c, k, x, y);
    assert Apply(EMPTY, steps[0]) == s1;
    assert s1.pending - {y} == {} && Apply(s1, steps[1]) == s2;
    assert Apply(s2, steps[2]) == s3;
    assert s3.pending - {x} == {};
    assert steps[1..][1..] == steps[2..] && steps[2..][1..] == [steps[3]] && [steps[3]][1..] == [];
    assert Execute(s2, steps[2..]) == Execute(s3, [steps[3]]) == Execute(Apply(s3, steps[3]), []);
    assert Execute(s1, steps[1..]) == Execute(s2, steps[2..]);
  }

  /** A message at time 12 with a window of 7: a single send is eligible, and the overlap marks both. */
  lemma OneMessageCountsTwice()
    ensures var s := Execute(EMPTY, TwoSends("campaign", "contact", "x", "y"));
            && EligibleSends(s.sends, {"campaign"}, "contact", Some(5)) == {"x"}
            && Execute(s, Overlap(0, 1, {"campaign"}, "contact", 5, "x", Some("y"))).replies.Keys == {"x", "y"}
  {
    OverlapFromEmpty("campaign", "contact", "x", "y");
  }

  lemma OverlapFromEmpty(c: string, k: string, x: string, y: string)
    requires x != y
    ensures var s := Execute(EMPTY, TwoSends(c, k, x, y));
            && EligibleSends(s.sends, {c}, k, Some(5)) == {x}
            && Execute(s, Overlap(0, 1, {c}, k, 5, x, Some(y))).replies.Keys == {x, y}
  {
    var s := Execute(EMPTY, TwoSends(c, k, x, y));
    TwoSendsAreSent(c, k, x, y);
    ReachableKeepsInv(EMPTY, TwoSends(c, k, x, y));
    assert Candidates(WithStatus(s, x, Replied), x) == {y};
    OverlapMarksTwoIff(s, 0, 1, {c}, k, 5, x, Some(y));
  }

  lemma SixSteps(s: System, steps: seq<Step>)
    requires |steps| == 6
    ensures Execute(s, steps)
         == Apply(Apply(Apply(Apply(Apply(Apply(s, steps[0]), steps[1]), steps[2]), steps[3]), steps[4]), steps[5])
  {
    var s1 := Apply(s, steps[0]);
    var s2 := Apply(s1, steps[1]);
    var s3 := Apply(s2, steps[2]);
    var s4 := Apply(s3, steps[3]);
    assert steps[1..][1..] == steps[2..] && steps[2..][1..] == steps[3..] && steps[3..][1..] == steps[4..];
    assert steps[4..][1..] == [steps[5]] && [steps[5]][1..] == [];
    assert Execute(s4, steps[4..]) == Execute(Apply(s4, steps[4]), [steps[5]]);
    assert Execute(s3, steps[3..]) == Execute(s4, steps[4..]);
    assert Execute(s2, steps[2..]) == Execute(s3, steps[3..]);
    assert Execute(s1, steps[1..]) == Execute(s2, steps[2..]);
  }

  // ------------------------------------------------------------ conversions

  /** A conversion under way is not touched by other steps, and no row disappears. */
  lemma {:induction false} ConversionWaits(s: System, k: nat, steps: seq<Step>)
    requires k in s.conversions && s.conversions[k].send in s.sends && Convert(k) !in steps
    ensures var t := Execute(s, steps);
            k in t.conversions && t.conversions[k] == s.conversions[k] && t.conversions[k].send in t.sends
    decreases |steps|
  {
    if steps != [] {
      assert steps[0] in steps && forall x | x in steps[1..] :: x in steps;
      ConversionWaits(Apply(s, steps[0]), k, steps[1..]);
    }
  }

  /**
   Whatever happens between its read and its transaction, a conversion marks the send
   converted; it marks the reply as well exactly when it saw one, so a reply that
   comes in between stays unmarked unless another conversion marked it.
   */
  lemma ConversionFlagsReplyIff(s: System, k: nat, id: string, between: seq<Step>)
    requires Inv(s) && k !in s.conversions && id in s.sends && Convert(k) !in between
    ensures var t := Execute(Apply(s, ReadForConversion(k, id)), between);
            var e := Apply(t, Convert(k));
            && IsConverted(e, id) && e.replies.Keys == t.replies.Keys
            && (id in t.replies ==> (e.replies[id].converted <==> id in s.replies || t.replies[id].converted))
  {
    var began := Apply(s, ReadForConversion(k, id));
    StepKeepsInv(s, ReadForConversion(k, id));
    ReachableKeepsInv(began, between);
    ConversionWaits(began, k, between);
    assert RowOk(Execute(began, between), id);
  }

  predicate IsConverted(s: System, id: string) {
    id in s.sends && s.sends[id].status == Converted
  }

  /** Nobody is about to write another status: the row was sent, and no handling that chose it can still mark it. */
  predicate Settled(s: System, id: string) {
    && id !in s.pending
    && (id in s.replies || forall h | h in s.handlings && s.handlings[h].Chosen? :: s.handlings[h].send != id)
  }

  ghost predicate StaysConverted(s: System, id: string) {
    forall steps :: IsConverted(Execute(s, steps), id)
  }

  lemma StepKeepsConverted(s: System, step: Step, id: string)
    requires IsConverted(s, id) && Settled(s, id)
    ensures IsConverted(Apply(s, step), id) && Settled(Apply(s, step), id)
  {
  }

  lemma {:induction false} RunKeepsConverted(s: System, steps: seq<Step>, id: string)
    requires IsConverted(s, id) && Settled(s, id)
    ensures IsConverted(Execute(s, steps), id)
    decreases |steps|
  {
    if steps != [] {
      StepKeepsConverted(s, steps[0], id);
      RunKeepsConverted(Apply(s, steps[0]), steps[1..], id);
    }
  }

  /**
   A conversion is never overwritten, whatever happens later, if and only if the
   campaign has finished with the row, and the send has its reply or no handling
   has chosen it.
   */
  lemma ConversionHoldsIff(s: System, id: string)
    requires IsConverted(s, id)
    ensures StaysConverted(s, id) <==> Settled(s, id)
  {
    if Settled(s, id) {
      forall steps
        ensures IsConverted(Execute(s, steps), id)
      {
        RunKeepsConverted(s, steps, id);
      }
    } else if id in s.pending {
      OneStep(s, RecordOutcome(id, false, 0));
      assert !IsConverted(Execute(s, [RecordOutcome(id, false, 0)]), id);
    } else {
      var h :| h in s.handlings && s.handlings[h].Chosen? && s.handlings[h].send == id;
      OneStep(s, Commit(h));
      assert !IsConverted(Execute(s, [Commit(h)]), id);
    }
  }

  lemma OneStep(s: System, step: Step)
    ensures Execute(s, [step]) == Apply(s, step)
  {
    assert [step][1..] == [];
    assert Execute(Apply(s, step), []) == Apply(s, step);
  }
}
