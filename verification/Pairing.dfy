/** Tool calls and their results as neighbouring messages of a conversation. */
module Pairing {
  import opened Wrappers
  import opened Messages

  /** `results` answers `uses` one by one, in order and with equal ids. */
  predicate AnswersInOrder(uses: seq<ToolUse>, results: seq<Message>) {
    && |results| == |uses|
    && forall i | 0 <= i < |uses| ::
         && results[i].role == Tool
         && results[i].content.Parts?
         && |results[i].content.parts| == 1
         && results[i].content.parts[0].ToolResultPart?
         && results[i].content.parts[0].toolUseId == uses[i].id
  }

  /** The length of the leading assistant message with its tool messages, or 0 if there is none. */
  function FirstRound(s: seq<Message>): (n: nat)
    ensures n <= |s|
  {
    if s == [] || s[0].role != Assistant then 0
    else
      var uses := ExtractToolCalls(s[0]);
      if |uses| < |s| && AnswersInOrder(uses, s[1..1 + |uses|]) then 1 + |uses| else 0
  }

  /** Assistant messages, each followed at once by the tool messages that answer its tool calls. */
  predicate Rounds(s: seq<Message>)
    decreases |s|
  {
    s == [] || (FirstRound(s) > 0 && Rounds(s[FirstRound(s)..]))
  }

  lemma FirstRoundOfPrefix(s: seq<Message>, t: seq<Message>)
    requires FirstRound(s) > 0
    ensures FirstRound(s + t) == FirstRound(s)
  {
    var n := 1 + |ExtractToolCalls(s[0])|;
    assert (s + t)[1..n] == s[1..n];
  }

  lemma {:induction false} RoundsAppend(s: seq<Message>, t: seq<Message>)
    requires Rounds(s) && Rounds(t)
    ensures Rounds(s + t)
    decreases |s|
  {
    if s == [] {
      assert s + t == t;
    } else {
      var n := FirstRound(s);
      FirstRoundOfPrefix(s, t);
      RoundsAppend(s[n..], t);
      assert (s + t)[n..] == s[n..] + t;
    }
  }

  lemma OneRound(m: Message, results: seq<Message>)
    requires m.role == Assistant && AnswersInOrder(ExtractToolCalls(m), results)
    ensures Rounds([m] + results)
  {
    var s := [m] + results;
    var n := 1 + |ExtractToolCalls(m)|;
    assert s[1..n] == results && s[n..] == [];
  }

  /** A conversation of user and system messages and complete rounds. */
  predicate WellPaired(s: seq<Message>)
    decreases |s|
  {
    || s == []
    || ((s[0].role == User || s[0].role == System) && WellPaired(s[1..]))
    || (FirstRound(s) > 0 && WellPaired(s[FirstRound(s)..]))
  }

  /** The length of the first user or system message or round. */
  function FirstBlock(s: seq<Message>): (n: nat)
    ensures n <= |s|
  {
    if s == [] then 0 else if s[0].role == User || s[0].role == System then 1 else FirstRound(s)
  }

  lemma BlockOfWellPaired(s: seq<Message>)
    requires WellPaired(s) && s != []
    ensures FirstBlock(s) > 0 && WellPaired(s[FirstBlock(s)..])
    ensures s[0].role != Tool && forall i | 0 < i < FirstBlock(s) :: s[i].role == Tool
  {
    if s[0].role == Assistant {
      var n := FirstRound(s);
      assert forall i | 0 < i < n :: s[i] == s[1..n][i - 1];
    }
  }

  /** A cut is clean when it does not fall inside a round. */
  predicate CleanCut(s: seq<Message>, c: nat)
    requires c <= |s|
  {
    c == |s| || s[c].role != Tool
  }

  /** What follows a cut is well paired exactly when the cut is clean. */
  lemma {:induction false} TailIsPairedIffCleanCut(s: seq<Message>, c: nat)
    requires WellPaired(s) && c <= |s|
    ensures WellPaired(s[c..]) <==> CleanCut(s, c)
    decreases |s|
  {
    if s != [] {
      var n := FirstBlock(s);
      BlockOfWellPaired(s);
      if c == 0 {
        assert s[c..] == s;
      } else if c < n {
        assert s[c..][0] == s[c];
      } else {
        TailIsPairedIffCleanCut(s[n..], c - n);
        assert s[n..][c - n..] == s[c..];
      }
    }
  }

  lemma FirstBlockIsPaired(s: seq<Message>)
    requires WellPaired(s) && s != []
    ensures WellPaired(s[..FirstBlock(s)])
  {
    var n := FirstBlock(s);
    BlockOfWellPaired(s);
    PrefixOfBlock(s, n);
    assert s[..n][n..] == [];
  }

  lemma PrefixOfBlock(s: seq<Message>, c: nat)
    requires WellPaired(s) && s != [] && FirstBlock(s) <= c <= |s|
    ensures FirstBlock(s[..c]) == FirstBlock(s)
  {
    if s[0].role == Assistant {
      FirstRoundOfPrefix(s[..FirstRound(s)], s[FirstRound(s)..c]);
      FirstRoundOfPrefix(s[..FirstRound(s)], s[FirstRound(s)..]);
      assert s == s[..FirstRound(s)] + s[FirstRound(s)..] && s[..c] == s[..FirstRound(s)] + s[FirstRound(s)..c];
    }
  }

  /** What precedes a cut is well paired exactly when the cut is clean. */
  lemma {:induction false} HeadIsPairedIffCleanCut(s: seq<Message>, c: nat)
    requires WellPaired(s) && c <= |s|
    ensures WellPaired(s[..c]) <==> CleanCut(s, c)
    decreases |s|
  {
    if s != [] {
      var n := FirstBlock(s);
      BlockOfWellPaired(s);
      if 0 < c < n {
        assert |s[..c]| == c && s[..c][0] == s[0];
      } else if c >= n {
        HeadIsPairedIffCleanCut(s[n..], c - n);
        PrefixOfBlock(s, c);
        assert s[..c][n..] == s[n..][..c - n];
      }
    }
  }

  // -------------------------------------------------- joining two parts

  /** The tool call a tool message answers. */
  function AnswerId(m: Message): Option<string> {
    if m.content.Parts? && |m.content.parts| == 1 && m.content.parts[0].ToolResultPart?
    then Some(m.content.parts[0].toolUseId)
    else None
  }

  /** No two tool messages answer the same tool call. */
  ghost predicate DistinctAnswers(s: seq<Message>) {
    forall i, j | 0 <= i < j < |s| && s[i].role == Tool && s[j].role == Tool :: AnswerId(s[i]) != AnswerId(s[j])
  }

  /** What follows a well paired part decides about the whole. */
  lemma {:induction false} AfterWellPaired(s: seq<Message>, t: seq<Message>)
    requires WellPaired(s)
    ensures WellPaired(s + t) <==> WellPaired(t)
    decreases |s|
  {
    if s == [] {
      assert s + t == t;
    } else {
      var n := FirstBlock(s);
      BlockOfWellPaired(s);
      AfterWellPaired(s[n..], t);
      assert (s + t)[n..] == s[n..] + t && (s + t)[0] == s[0];
      if s[0].role == Assistant {
        FirstRoundOfPrefix(s, t);
      }
    }
  }

  /** A round that is cut short is only completed by the very answer that was cut off. */
  lemma {:induction false} AfterUncleanCut(s: seq<Message>, h: nat, t: seq<Message>)
    requires WellPaired(s) && h < |s| && s[h].role == Tool && WellPaired(s[..h] + t)
    ensures t != [] && t[0].role == Tool && AnswerId(t[0]) == AnswerId(s[h])
    decreases |s|
  {
    var n, q := FirstBlock(s), s[..h] + t;
    BlockOfWellPaired(s);
    assert h > 0 && q[0] == s[0];
    if h < n {
      CompletedRound(s, h, t);
    } else {
      PrefixOfBlock(s, h);
      assert q[n..] == s[n..][..h - n] + t;
      if s[0].role == Assistant {
        FirstRoundOfPrefix(s[..h], t);
      }
      AfterUncleanCut(s[n..], h - n, t);
    }
  }

  lemma CompletedRound(s: seq<Message>, h: nat, t: seq<Message>)
    requires s != [] && s[0].role == Assistant && 0 < h < FirstRound(s) && FirstRound(s[..h] + t) > 0
    ensures t != [] && t[0].role == Tool && AnswerId(t[0]) == AnswerId(s[h])
  {
    var q, n := s[..h] + t, FirstRound(s);
    assert q[0] == s[0] && FirstRound(q) == n;
    assert q[1..n][h - 1] == q[h] == t[0] && s[1..n][h - 1] == s[h];
  }

  /**
   A head and a tail of a well paired conversation: each is well paired exactly
   when its cut is clean. Joined they are well paired exactly when both cuts are
   clean or nothing was left out or repeated, so that a round cut in two is whole
   again.
   */
  lemma CutsAndPairs(s: seq<Message>, h: nat, t: nat)
    requires WellPaired(s) && DistinctAnswers(s) && h <= |s| && t <= |s|
    ensures WellPaired(s[..h]) <==> CleanCut(s, h)
    ensures WellPaired(s[t..]) <==> CleanCut(s, t)
    ensures WellPaired(s[..h] + s[t..]) <==> (CleanCut(s, h) && CleanCut(s, t)) || h == t
  {
    HeadIsPairedIffCleanCut(s, h);
    TailIsPairedIffCleanCut(s, t);
    if CleanCut(s, h) {
      AfterWellPaired(s[..h], s[t..]);
    } else if h != t && WellPaired(s[..h] + s[t..]) {
      AfterUncleanCut(s, h, s[t..]);
    }
    assert s[..h] + s[h..] == s;
  }

  /** So the rounds a run appends to a well paired conversation leave it well paired. */
  lemma {:induction false} RoundsAreWellPaired(s: seq<Message>)
    requires Rounds(s)
    ensures WellPaired(s)
    decreases |s|
  {
    if s != [] {
      RoundsAreWellPaired(s[FirstRound(s)..]);
    }
  }

  lemma RoundsKeepWellPaired(base: seq<Message>, s: seq<Message>)
    requires WellPaired(base) && base <= s && Rounds(s[|base|..])
    ensures WellPaired(s)
  {
    var tail := s[|base|..];
    RoundsAreWellPaired(tail);
    AfterWellPaired(base, tail);
    assert s == base + tail;
  }
}
