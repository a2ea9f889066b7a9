/**
 The send loop of a campaign (src/campaigns/campaign-runner.ts,
 `executeCampaign`). Database writes succeed; the campaign's status as an
 operator sets it, and the outcome of each send, are arbitrary functions.
 */
module CampaignRun {
  import opened Wrappers
  import opened CampaignSends
  import opened VariantSelection
  import opened Interpolation

  datatype CampaignStatus = Draft | Active | Paused | CompletedRun | Cancelled

  datatype Channel = WhatsApp | Telegram | Slack

  datatype ContactRow = ContactRow(id: seq<CodeUnit>, contact: Contact, telegramId: Option<string>,
                                   slackId: Option<string>)

  datatype SendOutcome = Accepted | Refused(reason: Option<string>) | SendThrows(message: string)

  datatype Row = Row(contactId: seq<CodeUnit>, variantId: Option<string>, status: SendStatus, error: Option<string>)

  datatype Outgoing = Outgoing(contactId: seq<CodeUnit>, recipient: string, content: string, variantId: Option<string>)

  datatype Audience = Resolved(contacts: seq<ContactRow>) | ResolutionFailed(code: string)

  /** What the run reads: the status in the database after `n` contacts, and what sending to contact `n` does. */
  datatype World = World(statusAt: nat -> CampaignStatus, send: nat -> SendOutcome, audience: Audience)

  datatype Config = Config(channel: Channel, template: string, abEnabled: bool, variants: seq<Variant>)

  datatype RunResult =
    | Executed(totalContacts: nat, sent: nat, failed: nat, skipped: nat)
    | Refusal(code: string)

  const PROGRESS_BATCH := 10

  // ---------------------------------------------------------- specification

  function ResolveRecipient(c: ContactRow, channel: Channel): Option<string> {
    match channel
    case WhatsApp => c.contact.phone
    case Telegram => c.telegramId
    case Slack => c.slackId
  }

  /** A missing and an empty identifier both count as none. */
  predicate Reachable(cfg: Config, c: ContactRow) {
    var r := ResolveRecipient(c, cfg.channel);
    r.Some? && r.value != ""
  }

  function Chosen(cfg: Config, c: ContactRow): Option<Variant> {
    if !cfg.abEnabled || cfg.variants == [] then None
    else if |cfg.variants| == 1 then Some(cfg.variants[0])
    else Some(cfg.variants[FirstBelow(cfg.variants, Percent(Residue(c.id)), 0)])
  }

  function VariantIdOf(cfg: Config, c: ContactRow): Option<string> {
    var v := Chosen(cfg, c);
    if v.Some? then Some(v.value.id) else None
  }

  function TextFor(cfg: Config, c: ContactRow): string {
    var v := Chosen(cfg, c);
    Interpolate(if v.Some? then v.value.template else cfg.template, ContactFields(c.contact))
  }

  function ErrorOf(o: SendOutcome): Option<string> {
    match o
    case Accepted => None
    case Refused(reason) => if reason.Some? then reason else Some("Unknown error")
    case SendThrows(message) => Some(message)
  }

  /** The row a contact ends up with. */
  function RowFor(cfg: Config, c: ContactRow, o: SendOutcome): Row {
    Row(c.id, VariantIdOf(cfg, c), if o.Accepted? then Sent else FailedSend, ErrorOf(o))
  }

  function MessageFor(cfg: Config, c: ContactRow): Outgoing
    requires Reachable(cfg, c)
  {
    Outgoing(c.id, ResolveRecipient(c, cfg.channel).value, TextFor(cfg, c), VariantIdOf(cfg, c))
  }

  /** The rows after the first `n` contacts: one for each that can be reached, in order. */
  function RowsAfter(cfg: Config, w: World, contacts: seq<ContactRow>, n: nat): seq<Row>
    requires n <= |contacts|
  {
    if n == 0 then []
    else
      var before := RowsAfter(cfg, w, contacts, n - 1);
      if Reachable(cfg, contacts[n - 1]) then before + [RowFor(cfg, contacts[n - 1], w.send(n - 1))] else before
  }

  function MessagesAfter(cfg: Config, contacts: seq<ContactRow>, n: nat): seq<Outgoing>
    requires n <= |contacts|
  {
    if n == 0 then []
    else
      var before := MessagesAfter(cfg, contacts, n - 1);
      if Reachable(cfg, contacts[n - 1]) then before + [MessageFor(cfg, contacts[n - 1])] else before
  }

  function UnreachableIn(cfg: Config, contacts: seq<ContactRow>, n: nat): nat
    requires n <= |contacts|
  {
    if n == 0 then 0
    else UnreachableIn(cfg, contacts, n - 1) + (if Reachable(cfg, contacts[n - 1]) then 0 else 1)
  }

  function CountRows(rows: seq<Row>, status: SendStatus): nat {
    if rows == [] then 0
    else CountRows(rows[..|rows| - 1], status) + (if rows[|rows| - 1].status == status then 1 else 0)
  }

  predicate Halted(status: CampaignStatus) {
    status.Paused? || status.Cancelled?
  }

  predicate IsCheckpoint(n: nat) {
    n > 0 && n % PROGRESS_BATCH == 0
  }

  /** How many contacts the loop handles, from `n` on. */
  function Handled(w: World, total: nat, n: nat): (r: nat)
    requires n <= total
    ensures n <= r <= total
    decreases total - n
  {
    if n == total || (IsCheckpoint(n) && Halted(w.statusAt(n))) then n else Handled(w, total, n + 1)
  }

  lemma CountOneMore(rows: seq<Row>, row: Row)
    ensures forall s :: CountRows(rows + [row], s) == CountRows(rows, s) + (if row.status == s then 1 else 0)
  {
    assert (rows + [row])[..|rows|] == rows;
  }

  /** The rows and messages of the first `n` contacts, and the counters over them. */
  predicate Progress(cfg: Config, w: World, contacts: seq<ContactRow>, n: nat, created: seq<Row>,
                     mailed: seq<Outgoing>, sent: nat, failed: nat, skipped: nat)
    requires n <= |contacts|
  {
    && created == RowsAfter(cfg, w, contacts, n) && mailed == MessagesAfter(cfg, contacts, n)
    && sent == CountRows(created, Sent) && failed == CountRows(created, FailedSend)
    && skipped == UnreachableIn(cfg, contacts, n)
  }

  lemma ProgressBySkipping(cfg: Config, w: World, contacts: seq<ContactRow>, n: nat, created: seq<Row>,
                           mailed: seq<Outgoing>, sent: nat, failed: nat, skipped: nat)
    requires n < |contacts| && Progress(cfg, w, contacts, n, created, mailed, sent, failed, skipped)
    requires !Reachable(cfg, contacts[n])
    ensures Progress(cfg, w, contacts, n + 1, created, mailed, sent, failed, skipped + 1)
  {
  }

  lemma ProgressBySending(cfg: Config, w: World, contacts: seq<ContactRow>, n: nat, created: seq<Row>,
                          mailed: seq<Outgoing>, sent: nat, failed: nat, skipped: nat)
    requires n < |contacts| && Progress(cfg, w, contacts, n, created, mailed, sent, failed, skipped)
    requires Reachable(cfg, contacts[n])
    ensures var c, o := contacts[n], w.send(n);
            Progress(cfg, w, contacts, n + 1, created + [RowFor(cfg, c, o)], mailed + [MessageFor(cfg, c)],
                     if o.Accepted? then sent + 1 else sent, if o.Accepted? then failed else failed + 1, skipped)
  {
    CountOneMore(created, RowFor(cfg, contacts[n], w.send(n)));
  }

  // --------------------------------------------------------- implementation

  class CampaignTables {
    var status: CampaignStatus
    var rows: seq<Row>
    // What the messenger was asked to send.
    var outbox: seq<Outgoing>

    /** Template choice, row, send and outcome for one reachable contact. */
    method SendOne(cfg: Config, c: ContactRow, outcome: SendOutcome)
      returns (success: bool, ghost row: Row, ghost message: Outgoing)
      requires Reachable(cfg, c)
      modifies this`rows, this`outbox
      ensures success == outcome.Accepted? && row == RowFor(cfg, c, outcome) && message == MessageFor(cfg, c)
      ensures rows == old(rows) + [row] && outbox == old(outbox) + [message]
    {
      var templateToUse, chosenVariantId := cfg.template, None;
      if cfg.abEnabled && |cfg.variants| > 0 {
        var selection := SelectVariant(cfg.variants, c.id);
        templateToUse, chosenVariantId := selection.variant.template, Some(selection.variant.id);
        if |cfg.variants| >= 2 {
          FirstBelowIsSelected(cfg.variants, Percent(Residue(c.id)), 0);
          SelectionIsUnique(cfg.variants, Percent(Residue(c.id)), selection.index,
                            FirstBelow(cfg.variants, Percent(Residue(c.id)), 0));
        }
      }
      var record := |rows|;
      rows := rows + [Row(c.id, chosenVariantId, Queued, None)];
      var content := Interpolate(templateToUse, ContactFields(c.contact));
      outbox := outbox + [Outgoing(c.id, ResolveRecipient(c, cfg.channel).value, content, chosenVariantId)];
      match outcome {
        case Accepted =>
          rows := rows[record := rows[record].(status := Sent)];
        case Refused(reason) =>
          rows := rows[record := rows[record].(status := FailedSend,
                                               error := if reason.Some? then reason else Some("Unknown error"))];
        case SendThrows(message) =>
          rows := rows[record := rows[record].(status := FailedSend, error := Some(message))];
      }
      success, row, message := outcome.Accepted?, rows[record], outbox[|outbox| - 1];
    }

    /** The loop over the audience. */
    method SendToAll(cfg: Config, w: World, contacts: seq<ContactRow>)
      returns (sent: nat, failed: nat, skipped: nat, lifecycleBreak: bool, ghost processed: nat,
               ghost created: seq<Row>, ghost mailed: seq<Outgoing>)
      modifies this
      ensures processed == Handled(w, |contacts|, 0) && (lifecycleBreak <==> processed < |contacts|)
      ensures rows == old(rows) + created && outbox == old(outbox) + mailed
      ensures Progress(cfg, w, contacts, processed, created, mailed, sent, failed, skipped)
      ensures lifecycleBreak ==> status == w.statusAt(processed)
    {
      sent, failed, skipped, lifecycleBreak := 0, 0, 0, false;
      processed, created, mailed := 0, [], [];
      var n := 0;
      while n < |contacts|
        invariant n == processed <= |contacts| && Handled(w, |contacts|, n) == Handled(w, |contacts|, 0)
        invariant rows == old(rows) + created && outbox == old(outbox) + mailed
        invariant Progress(cfg, w, contacts, n, created, mailed, sent, failed, skipped)
      {
        if n > 0 && n % PROGRESS_BATCH == 0 {
          status := w.statusAt(n);
          if status.Paused? || status.Cancelled? {
            lifecycleBreak := true;
            return;
          }
        }
        var contact := contacts[n];
        var recipient := ResolveRecipient(contact, cfg.channel);
        if recipient.None? || recipient.value == "" {
          ProgressBySkipping(cfg, w, contacts, n, created, mailed, sent, failed, skipped);
          skipped := skipped + 1;
        } else {
          ProgressBySending(cfg, w, contacts, n, created, mailed, sent, failed, skipped);
          var success, row, message := SendOne(cfg, contact, w.send(n));
          if success { sent := sent + 1; } else { failed := failed + 1; }
          created, mailed := created + [row], mailed + [message];
        }
        n, processed := n + 1, processed + 1;
      }
    }

    method ExecuteCampaign(cfg: Config, w: World, found: bool) returns (r: RunResult, ghost processed: nat)
      modifies this
      ensures r.Executed? <==> found && old(status) == Active && w.audience.Resolved?
      ensures r.Refusal? ==> rows == old(rows) && outbox == old(outbox) && status == old(status)
      ensures r.Executed? ==>
                var contacts := w.audience.contacts;
                && processed == Handled(w, |contacts|, 0)
                && rows == old(rows) + RowsAfter(cfg, w, contacts, processed)
                && outbox == old(outbox) + MessagesAfter(cfg, contacts, processed)
                && r.totalContacts == |contacts|
                && r.sent == CountRows(RowsAfter(cfg, w, contacts, processed), Sent)
                && r.failed == CountRows(RowsAfter(cfg, w, contacts, processed), FailedSend)
                && r.skipped == UnreachableIn(cfg, contacts, processed)
                && status == FinalStatus(w, |contacts|)
    {
      processed := 0;
      if !found {
        return Refusal("Campaign not found"), processed;
      }
      if status != Active {
        return Refusal("Campaign is not active"), processed;
      }
      if w.audience.ResolutionFailed? {
        return Refusal(w.audience.code), processed;
      }
      var sent, failed, skipped, lifecycleBreak;
      ghost var created, mailed;
      sent, failed, skipped, lifecycleBreak, processed, created, mailed := SendToAll(cfg, w, w.audience.contacts);
      if !lifecycleBreak {
        status := CompletedRun;
      }
      r := Executed(|w.audience.contacts|, sent, failed, skipped);
    }
  }

  /** The status the run leaves behind. */
  function FinalStatus(w: World, total: nat): CampaignStatus {
    var n := Handled(w, total, 0);
    if n < total then w.statusAt(n) else CompletedRun
  }

  // ------------------------------------------------------------ conservation

  /**
   Whatever the sends do: sent + failed + skipped is the number of contacts
   handled, there is one row for every contact that was sent to, and each row is
   sent or failed: none is left queued.
   */
  lemma {:induction false} RunConservation(cfg: Config, w: World, contacts: seq<ContactRow>, n: nat)
    requires n <= |contacts|
    ensures var rows := RowsAfter(cfg, w, contacts, n);
            && CountRows(rows, Sent) + CountRows(rows, FailedSend) + UnreachableIn(cfg, contacts, n) == n
            && |rows| == |MessagesAfter(cfg, contacts, n)| == CountRows(rows, Sent) + CountRows(rows, FailedSend)
            && forall r | r in rows :: r.status == Sent || r.status == FailedSend
  {
    if n > 0 {
      RunConservation(cfg, w, contacts, n - 1);
      CountOneMore(RowsAfter(cfg, w, contacts, n - 1), RowFor(cfg, contacts[n - 1], w.send(n - 1)));
    }
  }

  ghost predicate DistinctContacts(contacts: seq<ContactRow>) {
    forall i, j | 0 <= i < j < |contacts| :: contacts[i].id != contacts[j].id
  }

  /** No contact is sent to twice. */
  lemma {:induction false} NoContactTwice(cfg: Config, contacts: seq<ContactRow>, n: nat)
    requires n <= |contacts| && DistinctContacts(contacts)
    ensures var out := MessagesAfter(cfg, contacts, n);
            && (forall m | m in out :: exists i :: 0 <= i < n && contacts[i].id == m.contactId)
            && forall i, j | 0 <= i < j < |out| :: out[i].contactId != out[j].contactId
  {
    if n > 0 {
      NoContactTwice(cfg, contacts, n - 1);
      var before, out := MessagesAfter(cfg, contacts, n - 1), MessagesAfter(cfg, contacts, n);
      forall m | m in out
        ensures exists i :: 0 <= i < n && contacts[i].id == m.contactId
      {
        if m !in before {
          assert contacts[n - 1].id == m.contactId;
        }
      }
      if Reachable(cfg, contacts[n - 1]) {
        assert forall m | m in before :: m.contactId != contacts[n - 1].id;
        assert forall i | 0 <= i < |before| :: out[i] == before[i] && before[i] in before;
      }
    }
  }

  // ------------------------------------------------ what each contact gets

  /** The contact's address on the channel: its phone number, Telegram id or Slack id, unless that is empty. */
  predicate AddressIs(c: ContactRow, channel: Channel, address: string) {
    && address != ""
    && (channel == WhatsApp ==> c.contact.phone == Some(address))
    && (channel == Telegram ==> c.telegramId == Some(address))
    && (channel == Slack ==> c.slackId == Some(address))
  }

  /** The template a contact is sent: the campaign's own, the only variant's, or that of the variant its id draws. */
  ghost predicate IsDrawn(cfg: Config, c: ContactRow, variantId: Option<string>, template: string) {
    if !cfg.abEnabled || cfg.variants == [] then variantId == None && template == cfg.template
    else if |cfg.variants| == 1 then variantId == Some(cfg.variants[0].id) && template == cfg.variants[0].template
    else
      exists i: nat | i < |cfg.variants| ::
        && IsSelected(cfg.variants, Percent(Residue(c.id)), i)
        && variantId == Some(cfg.variants[i].id) && template == cfg.variants[i].template
  }

  predicate RecordsOutcome(row: Row, o: SendOutcome) {
    match o
    case Accepted => row.status == Sent && row.error == None
    case Refused(Some(reason)) => row.status == FailedSend && row.error == Some(reason)
    case Refused(None) => row.status == FailedSend && row.error == Some("Unknown error")
    case SendThrows(message) => row.status == FailedSend && row.error == Some(message)
  }

  lemma OneContact(cfg: Config, c: ContactRow, o: SendOutcome, address: string) returns (template: string)
    requires AddressIs(c, cfg.channel, address)
    ensures Reachable(cfg, c)
    ensures var m, row := MessageFor(cfg, c), RowFor(cfg, c, o);
            && m.contactId == c.id == row.contactId && m.recipient == address
            && m.content == Interpolate(template, ContactFields(c.contact))
            && m.variantId == row.variantId && IsDrawn(cfg, c, row.variantId, template)
            && RecordsOutcome(row, o)
  {
    var v := Chosen(cfg, c);
    template := if v.Some? then v.value.template else cfg.template;
    if cfg.abEnabled && |cfg.variants| >= 2 {
      FirstBelowIsSelected(cfg.variants, Percent(Residue(c.id)), 0);
    }
  }

  lemma {:induction false} LaterContactsKeep(cfg: Config, w: World, contacts: seq<ContactRow>, i: nat, n: nat)
    requires i <= n <= |contacts|
    ensures RowsAfter(cfg, w, contacts, i) <= RowsAfter(cfg, w, contacts, n)
    ensures MessagesAfter(cfg, contacts, i) <= MessagesAfter(cfg, contacts, n)
    ensures |RowsAfter(cfg, w, contacts, n)| == |MessagesAfter(cfg, contacts, n)|
    decreases n
  {
    if n > 0 {
      LaterContactsKeep(cfg, w, contacts, if i < n then i else i - 1, n - 1);
    }
  }

  /**
   Every handled contact with an address on the channel gets one message there, with
   its own fields in the template drawn for it, and a row with the same variant that
   records how the send came out.
   */
  lemma EachContactGetsItsMessage(cfg: Config, w: World, contacts: seq<ContactRow>, n: nat, i: nat, address: string)
    returns (k: nat, template: string)
    requires i < n <= |contacts| && AddressIs(contacts[i], cfg.channel, address)
    ensures var mail, rows := MessagesAfter(cfg, contacts, n), RowsAfter(cfg, w, contacts, n);
            && k < |mail| == |rows|
            && mail[k].contactId == contacts[i].id == rows[k].contactId && mail[k].recipient == address
            && mail[k].content == Interpolate(template, ContactFields(contacts[i].contact))
            && mail[k].variantId == rows[k].variantId && IsDrawn(cfg, contacts[i], rows[k].variantId, template)
            && RecordsOutcome(rows[k], w.send(i))
  {
    k := |MessagesAfter(cfg, contacts, i)|;
    template := OneContact(cfg, contacts[i], w.send(i), address);
    LaterContactsKeep(cfg, w, contacts, i, i);
    LaterContactsKeep(cfg, w, contacts, i + 1, n);
  }

  /** A contact without an address on the channel is skipped, and gets none. */
  lemma {:induction false} NoAddressNoMessage(cfg: Config, contacts: seq<ContactRow>, n: nat, i: nat)
    requires i < n <= |contacts| && DistinctContacts(contacts)
    requires forall address :: !AddressIs(contacts[i], cfg.channel, address)
    ensures UnreachableIn(cfg, contacts, i + 1) == UnreachableIn(cfg, contacts, i) + 1
    ensures forall m | m in MessagesAfter(cfg, contacts, n) :: m.contactId != contacts[i].id
    decreases n
  {
    var c := contacts[i];
    var r := ResolveRecipient(c, cfg.channel);
    assert r.Some? ==> (AddressIs(c, cfg.channel, r.value) <==> r.value != "");
    NoContactTwice(cfg, contacts, i);
    if n > i + 1 {
      NoAddressNoMessage(cfg, contacts, n - 1, i);
    } else {
      assert forall m | m in MessagesAfter(cfg, contacts, i) :: m.contactId != c.id;
    }
  }

  // --------------------------------------------------------- pause and cancel

  /** The operator pauses or cancels once `p` contacts have been handled, and leaves it so. */
  ghost predicate HaltedFrom(w: World, p: nat) {
    forall n: nat :: (w.statusAt(n) == Paused || w.statusAt(n) == Cancelled) <==> n >= p
  }

  /** The first check that can see it. */
  function NextCheckpoint(p: nat): (n: nat)
    ensures IsCheckpoint(n) && p <= n <= p + PROGRESS_BATCH
    ensures p > 0 ==> n < p + PROGRESS_BATCH
    ensures forall m | p <= m < n :: !IsCheckpoint(m)
  {
    if p == 0 then PROGRESS_BATCH else (p + PROGRESS_BATCH - 1) / PROGRESS_BATCH * PROGRESS_BATCH
  }

  lemma {:induction false} HandledUntilCheckpoint(w: World, total: nat, p: nat, n: nat)
    requires HaltedFrom(w, p) && n <= total && n <= NextCheckpoint(p)
    ensures Handled(w, total, n) == if NextCheckpoint(p) < total then NextCheckpoint(p) else total
    decreases total - n
  {
    if n < total && n < NextCheckpoint(p) {
      assert !(IsCheckpoint(n) && Halted(w.statusAt(n)));
      HandledUntilCheckpoint(w, total, p, n + 1);
    }
  }

  /** A pause or cancellation takes effect at the next multiple of ten: at most ten more contacts are handled. */
  lemma HaltTakesEffect(w: World, total: nat, p: nat)
    requires HaltedFrom(w, p)
    ensures Handled(w, total, 0) == if NextCheckpoint(p) < total then NextCheckpoint(p) else total
    ensures Handled(w, total, 0) <= p + 10 && (Handled(w, total, 0) < total ==> Handled(w, total, 0) % 10 == 0)
  {
    HandledUntilCheckpoint(w, total, p, 0);
  }

  /**
   The operator's pause survives exactly when a check still follows it; one that
   comes after the last check is overwritten with `completed`.
   */
  lemma HaltSurvives(w: World, total: nat, p: nat)
    requires HaltedFrom(w, p) && p <= total
    ensures Halted(FinalStatus(w, total)) <==> NextCheckpoint(p) < total
    ensures !Halted(FinalStatus(w, total)) ==> FinalStatus(w, total) == CompletedRun
  {
    HaltTakesEffect(w, total, p);
  }

  /** Without a pause or cancellation the whole audience is handled and the campaign completes. */
  lemma {:induction false} UndisturbedRunCompletes(w: World, total: nat, n: nat)
    requires n <= total && forall m: nat :: w.statusAt(m) != Paused && w.statusAt(m) != Cancelled
    ensures Handled(w, total, n) == total
    decreases total - n
  {
    if n < total {
      UndisturbedRunCompletes(w, total, n + 1);
    }
  }
}
