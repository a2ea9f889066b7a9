/**
 The life of a campaign send and the marking of replies
 (src/campaigns/campaign-tracker.ts, `markCampaignReply`, `markConversion`;
 src/campaigns/reply-tracker.ts, `handleInbound`). The two tables are fields of
 a class; the operations run one after the other. `CampaignSendSteps` lets them
 interleave.
 */
module CampaignSends {
  import opened Wrappers

  datatype SendStatus = Queued | Sent | FailedSend | Replied | Converted | Delivered | Unsubscribed

  datatype Send = Send(campaignId: string, contactId: string, variantId: Option<string>, status: SendStatus,
                       sentAt: Option<int>, createdAt: int)

  datatype Reply = Reply(campaignSendId: string, contactId: string, sessionId: string, repliedAt: int,
                         converted: bool, conversionNote: Option<string>)

  /** Sort position of `sentAt`; a descending sort puts rows without one first. */
  predicate NotLater(a: Option<int>, b: Option<int>) {
    b.None? || (a.Some? && a.value <= b.value)
  }

  predicate MayHaveReply(status: SendStatus) {
    !status.Queued? && !status.Sent? && !status.FailedSend?
  }

  ghost predicate RepliesTo(replies: seq<Reply>, id: string) {
    exists r :: r in replies && r.campaignSendId == id
  }

  /** The sends still `sent` to the contact, in the given campaigns, not sent before `since`. */
  function EligibleSends(sends: map<string, Send>, campaigns: set<string>, contactId: string, since: Option<int>)
    : set<string>
  {
    set id | id in sends
             && sends[id].campaignId in campaigns
             && sends[id].contactId == contactId
             && sends[id].status == Sent
             && (since.Some? ==> sends[id].sentAt.Some? && sends[id].sentAt.value >= since.value)
  }

  predicate LatestSend(sends: map<string, Send>, ids: set<string>, id: string) {
    && id in ids && id in sends
    && forall other | other in ids && other in sends :: NotLater(sends[other].sentAt, sends[id].sentAt)
  }

  class CampaignDb {
    const projectOf: map<string, string>
    var sends: map<string, Send>
    var replies: seq<Reply>
    // Rows created by a running campaign whose message is still being sent.
    ghost var pending: set<string>

    function Eligible(campaigns: set<string>, contactId: string, since: Option<int>): set<string>
      reads this
    {
      EligibleSends(sends, campaigns, contactId, since)
    }

    function CampaignsOf(projectId: string): set<string> {
      set c | c in projectOf && projectOf[c] == projectId
    }

    predicate IsLatest(ids: set<string>, id: string)
      reads this
    {
      LatestSend(sends, ids, id)
    }

    ghost predicate HasReply(id: string)
      reads this
    {
      RepliesTo(replies, id)
    }

    /** At most one reply per send; none while it is queued, sent or failed; one once it is replied. */
    ghost predicate Valid()
      reads this
    {
      && (forall i, j | 0 <= i < j < |replies| :: replies[i].campaignSendId != replies[j].campaignSendId)
      && (forall r | r in replies :: r.campaignSendId in sends && MayHaveReply(sends[r.campaignSendId].status))
      && (forall id | id in sends && sends[id].status == Replied :: HasReply(id))
      && (forall id | id in sends && sends[id].status == Sent :: sends[id].sentAt.Some?)
      && (forall id | id in pending :: id in sends && sends[id].status in {Queued, Converted} && !HasReply(id))
    }

    constructor (projectOf: map<string, string>)
      ensures Valid() && sends == map[] && replies == [] && pending == {} && this.projectOf == projectOf
    {
      this.projectOf := projectOf;
      sends, replies, pending := map[], [], {};
    }

    /** The campaign loop creates its row before it sends. */
    method CreateQueued(id: string, campaignId: string, contactId: string, variantId: Option<string>, now: int)
      requires Valid() && id !in sends
      modifies this
      ensures Valid()
      ensures sends == old(sends)[id := Send(campaignId, contactId, variantId, Queued, None, now)]
      ensures replies == old(replies) && pending == old(pending) + {id}
    {
      sends := sends[id := Send(campaignId, contactId, variantId, Queued, None, now)];
      pending := pending + {id};
      assert forall x :: HasReply(x) <==> old(HasReply(x));
    }

    /** The campaign loop records the outcome of its own row. */
    method FinishSend(id: string, success: bool, now: int)
      requires Valid() && id in pending
      modifies this
      ensures Valid()
      ensures sends == old(sends)[id := if success then old(sends[id]).(status := Sent, sentAt := Some(now))
                                        else old(sends[id]).(status := FailedSend)]
      ensures replies == old(replies) && pending == old(pending) - {id}
    {
      sends := sends[id := if success then sends[id].(status := Sent, sentAt := Some(now))
                           else sends[id].(status := FailedSend)];
      pending := pending - {id};
      assert forall x :: HasReply(x) <==> old(HasReply(x));
    }

    /** `findFirst` ordered by `sentAt` descending: some latest row among `ids`, if there is one. */
    method FindLatest(ids: set<string>) returns (found: Option<string>)
      requires ids <= sends.Keys
      ensures found.None? <==> ids == {}
      ensures found.Some? ==> IsLatest(ids, found.value)
    {
      found := None;
      var rest := ids;
      while rest != {}
        invariant rest <= ids
        invariant found.None? <==> rest == ids
        invariant found.Some? ==> IsLatest(ids - rest, found.value)
      {
        var id :| id in rest;
        if found.None? || !NotLater(sends[id].sentAt, sends[found.value].sentAt) {
          found := Some(id);
        }
        rest := rest - {id};
      }
      assert ids - rest == ids;
    }

    /** Marks the latest send of the campaign to the contact that is still `sent`, and creates its reply. */
    method MarkCampaignReply(campaignId: string, contactId: string, sessionId: string, now: int)
      returns (marked: Option<string>)
      requires Valid()
      modifies this`sends, this`replies
      ensures Valid()
      ensures marked.None? <==> old(Eligible({campaignId}, contactId, None)) == {}
      ensures marked.None? ==> sends == old(sends) && replies == old(replies)
      ensures marked.Some? ==>
                && old(IsLatest(Eligible({campaignId}, contactId, None), marked.value))
                && sends == old(sends)[marked.value := old(sends[marked.value]).(status := Replied)]
                && replies == old(replies) + [Reply(marked.value, contactId, sessionId, now, false, None)]
    {
      marked := FindLatest(Eligible({campaignId}, contactId, None));
      if marked.None? {
        return;
      }
      var id := marked.value;
      ghost var before := replies;
      sends := sends[id := sends[id].(status := Replied)];
      replies := replies + [Reply(id, contactId, sessionId, now, false, None)];
      assert replies[|before|].campaignSendId == id && replies[|before|] in replies;
      forall x
        ensures HasReply(x) <==> old(HasReply(x)) || x == id
      {
        if old(HasReply(x)) {
          var r :| r in before && r.campaignSendId == x;
          assert r in replies;
        }
      }
    }

    /** Marks a send converted whatever its status, and its reply if it has one. */
    method MarkConversion(id: string, note: Option<string>) returns (found: bool)
      requires Valid()
      modifies this`sends, this`replies
      ensures Valid()
      ensures found <==> id in old(sends)
      ensures sends == if found then old(sends)[id := old(sends[id]).(status := Converted)] else old(sends)
      ensures |replies| == |old(replies)|
      ensures forall i | 0 <= i < |replies| ::
                replies[i] == if old(replies[i]).campaignSendId == id then Converting(old(replies[i]), note)
                              else old(replies[i])
      ensures forall i | 0 <= i < |replies| && replies[i].campaignSendId == id ::
                && replies[i].converted && (note.Some? ==> replies[i].conversionNote == note)
                && (note.None? ==> replies[i].conversionNote == old(replies[i]).conversionNote)
                && replies[i].repliedAt == old(replies[i]).repliedAt
    {
      if id !in sends {
        assert forall i | 0 <= i < |replies| :: replies[i] in replies;
        return false;
      }
      sends := sends[id := sends[id].(status := Converted)];
      ghost var before := replies;
      var at := PositionOfReply(id);
      if at < |replies| {
        replies := replies[at := Converting(replies[at], note)];
      }
      SameReplyOwners(before, replies);
      forall x
        ensures HasReply(x) <==> old(HasReply(x))
      {
        assert RepliesTo(before, x) <==> RepliesTo(replies, x);
      }
      return true;
    }

    function Converting(r: Reply, note: Option<string>): Reply {
      r.(converted := true, conversionNote := if note.Some? then note else r.conversionNote)
    }

    method PositionOfReply(id: string) returns (at: nat)
      ensures at <= |replies|
      ensures at < |replies| ==> replies[at].campaignSendId == id
      ensures forall i | 0 <= i < at :: replies[i].campaignSendId != id
    {
      at := 0;
      while at < |replies| && replies[at].campaignSendId != id
        invariant at <= |replies|
        invariant forall i | 0 <= i < at :: replies[i].campaignSendId != id
      {
        at := at + 1;
      }
    }

    /**
     An inbound message marks exactly one send: a latest one of the contact's
     sends in the project that are still `sent` and within the window. It marks
     none when there is none. So the lookup over the window and the second
     lookup, over one campaign without the window, agree.
     */
    method HandleInbound(projectId: string, contactId: string, sessionId: string, now: int, windowMs: int)
      returns (marked: Option<string>)
      requires Valid()
      modifies this`sends, this`replies
      ensures Valid()
      ensures var eligible := old(Eligible(CampaignsOf(projectId), contactId, Some(now - windowMs)));
              && (marked.None? <==> eligible == {})
              && (marked.Some? ==> old(IsLatest(eligible, marked.value)))
              && Eligible(CampaignsOf(projectId), contactId, Some(now - windowMs))
                 == (if marked.Some? then eligible - {marked.value} else eligible)
      ensures marked.Some? ==>
                && marked.value in old(sends) && old(sends[marked.value]).campaignId in projectOf
                && projectOf[old(sends[marked.value]).campaignId] == projectId
                && old(sends[marked.value]).contactId == contactId
                && old(sends[marked.value]).sentAt.Some?
                && old(sends[marked.value]).sentAt.value >= now - windowMs
      ensures marked.None? ==> sends == old(sends) && replies == old(replies)
      ensures marked.Some? ==>
                && sends == old(sends)[marked.value := old(sends[marked.value]).(status := Replied)]
                && replies == old(replies) + [Reply(marked.value, contactId, sessionId, now, false, None)]
    {
      var since := Some(now - windowMs);
      ghost var eligible := Eligible(CampaignsOf(projectId), contactId, since);
      var found := FindLatest(Eligible(CampaignsOf(projectId), contactId, since));
      if found.None? {
        return None;
      }
      var campaignId := sends[found.value].campaignId;
      assert found.value in Eligible({campaignId}, contactId, None);
      marked := MarkCampaignReply(campaignId, contactId, sessionId, now);
      assert old(NotLater(sends[found.value].sentAt, sends[marked.value].sentAt));
      assert marked.value in eligible;
    }

    /**
     The event bus subscriber and the inbound processor both handle the same
     message. The second one marks a further send exactly when more than one was
     eligible: a single message can then count as two replies.
     */
    method HandleOnBothPaths(projectId: string, contactId: string, sessionId: string, now: int, windowMs: int)
      returns (first: Option<string>, second: Option<string>)
      requires Valid()
      modifies this`sends, this`replies
      ensures Valid()
      ensures second.Some? <==> |old(Eligible(CampaignsOf(projectId), contactId, Some(now - windowMs)))| >= 2
      ensures |replies| == |old(replies)| + (if first.Some? then 1 else 0) + (if second.Some? then 1 else 0)
    {
      ghost var eligible := Eligible(CampaignsOf(projectId), contactId, Some(now - windowMs));
      first := HandleInbound(projectId, contactId, sessionId, now, windowMs);
      second := HandleInbound(projectId, contactId, sessionId, now, windowMs);
      if first.Some? {
        assert eligible == (eligible - {first.value}) + {first.value};
      }
    }

    /** The current send is the only one any lookup can choose when no two eligible sends share `sentAt`. */
    lemma LatestIsUnique(ids: set<string>, a: string, b: string)
      requires IsLatest(ids, a) && IsLatest(ids, b)
      requires forall x, y | x in ids && y in ids && x in sends && y in sends && x != y ::
                sends[x].sentAt != sends[y].sentAt
      ensures a == b
    {
    }
  }

  lemma SameReplyOwners(a: seq<Reply>, b: seq<Reply>)
    requires |a| == |b| && forall i | 0 <= i < |a| :: a[i].campaignSendId == b[i].campaignSendId
    ensures forall id :: RepliesTo(a, id) <==> RepliesTo(b, id)
    ensures forall r | r in b :: RepliesTo(a, r.campaignSendId)
  {
    forall id
      ensures RepliesTo(a, id) <==> RepliesTo(b, id)
    {
      if r :| r in a && r.campaignSendId == id {
        var i :| 0 <= i < |a| && a[i] == r;
        assert b[i] in b;
      }
      if r :| r in b && r.campaignSendId == id {
        var i :| 0 <= i < |b| && b[i] == r;
        assert a[i] in a;
      }
    }
  }
}
