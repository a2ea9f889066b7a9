/**
 Webhook deduplication (src/channels/message-dedup.ts, `createInMemoryDedup`).

 The map of expiry times is a compact form of something simpler: the history of
 all accepted calls, of which only the last `maxEntries` and the unexpired ones
 matter.
 */
module MessageDedup {
  import opened Wrappers
  import opened InsertionMap

  /** A call that was not a duplicate: its key and the time from which it expires. */
  datatype Acceptance = Acceptance(key: string, at: int)

  // ---------------------------------------------------------- specification

  /** The accepted calls that can still make a later call a duplicate. */
  function Recent(accepted: seq<Acceptance>, maxEntries: nat): seq<Acceptance> {
    if |accepted| <= maxEntries then accepted else accepted[|accepted| - maxEntries..]
  }

  /** `key` at time `t` repeats one of the last `maxEntries` accepted calls within its time to live. */
  predicate IsRepeat(accepted: seq<Acceptance>, key: string, t: int, ttlMs: int, maxEntries: nat) {
    exists a :: a in Recent(accepted, maxEntries) && a.key == key && a.at + ttlMs > t
  }

  predicate Ordered(accepted: seq<Acceptance>) {
    forall i, j | 0 <= i < j < |accepted| :: accepted[i].at <= accepted[j].at
  }

  function AsEntry(a: Acceptance, ttlMs: int): Entry<string, int> {
    Entry(a.key, a.at + ttlMs)
  }

  function AsEntries(accepted: seq<Acceptance>, ttlMs: int): (m: seq<Entry<string, int>>)
    ensures |m| == |accepted|
    ensures forall i | 0 <= i < |m| :: m[i] == AsEntry(accepted[i], ttlMs)
  {
    seq(|accepted|, i requires 0 <= i < |accepted| => AsEntry(accepted[i], ttlMs))
  }

  /** Every dropped call is expired at `t`, or lies before the last `maxEntries` of `dropped + kept`. */
  predicate OutOfPlay(dropped: seq<Acceptance>, kept: seq<Acceptance>, t: int, ttlMs: int, maxEntries: nat) {
    forall i | 0 <= i < |dropped| :: dropped[i].at + ttlMs <= t || |dropped| - i + |kept| > maxEntries
  }

  /** The map is a suffix of the accepted history, with non-decreasing expiries. */
  ghost predicate IsSuffix(seen: seq<Entry<string, int>>, dropped: seq<Acceptance>, kept: seq<Acceptance>, clock: int,
                           ttlMs: int, maxEntries: nat)
  {
    && Ordered(dropped + kept)
    && (forall a | a in dropped + kept :: a.at <= clock)
    && seen == AsEntries(kept, ttlMs)
    && Distinct(seen)
    && OutOfPlay(dropped, kept, clock, ttlMs, maxEntries)
  }

  /** The oldest entry may leave the map when it is expired or the map is too large. */
  lemma DropOldest(seen: seq<Entry<string, int>>, dropped: seq<Acceptance>, kept: seq<Acceptance>, clock: int,
                   ttlMs: int, maxEntries: nat)
    requires IsSuffix(seen, dropped, kept, clock, ttlMs, maxEntries) && kept != []
    requires kept[0].at + ttlMs <= clock || |kept| > maxEntries
    ensures dropped + [kept[0]] + kept[1..] == dropped + kept
    ensures Delete(seen, seen[0].key) == seen[1..]
    ensures IsSuffix(seen[1..], dropped + [kept[0]], kept[1..], clock, ttlMs, maxEntries)
  {
    assert dropped + [kept[0]] + kept[1..] == dropped + kept;
    assert seen[1..] == AsEntries(kept[1..], ttlMs);
    DeleteFirst(seen);
  }

  lemma AddNewest(seen: seq<Entry<string, int>>, dropped: seq<Acceptance>, kept: seq<Acceptance>, clock: int,
                  ttlMs: int, maxEntries: nat, a: Acceptance)
    requires IsSuffix(seen, dropped, kept, clock, ttlMs, maxEntries)
    requires clock <= a.at && !HasKey(seen, a.key)
    ensures dropped + (kept + [a]) == dropped + kept + [a]
    ensures IsSuffix(Set(seen, a.key, a.at + ttlMs), dropped, kept + [a], a.at, ttlMs, maxEntries)
  {
    assert dropped + (kept + [a]) == dropped + kept + [a];
    var all := dropped + kept + [a];
    forall i, j | 0 <= i < j < |all|
      ensures all[i].at <= all[j].at
    {
      if j == |all| - 1 {
        assert (dropped + kept)[i] in dropped + kept;
      }
    }
    assert Set(seen, a.key, a.at + ttlMs) == AsEntries(kept + [a], ttlMs);
  }

  // --------------------------------------------------------- implementation

  class InMemoryDedup {
    const ttlMs: int
    const maxEntries: nat
    var seen: seq<Entry<string, int>>
    // The accepted calls no longer in the map, those in the map, and the time of the last call.
    ghost var dropped: seq<Acceptance>
    ghost var kept: seq<Acceptance>
    ghost var clock: int

    /** All accepted calls, oldest first. */
    ghost function Accepted(): seq<Acceptance>
      reads this
    {
      dropped + kept
    }

    ghost predicate Valid()
      reads this
    {
      IsSuffix(seen, dropped, kept, clock, ttlMs, maxEntries) && |seen| <= maxEntries
    }

    constructor (ttlMs: int, maxEntries: nat, now: int)
      ensures Valid() && Accepted() == [] && clock == now
      ensures this.ttlMs == ttlMs && this.maxEntries == maxEntries
    {
      this.ttlMs, this.maxEntries := ttlMs, maxEntries;
      seen, dropped, kept, clock := [], [], [], now;
    }

    /** Removes every entry whose expiry has come. */
    method EvictExpired(now: int)
      requires Valid() && clock <= now
      modifies this`seen, this`dropped, this`kept, this`clock
      ensures Valid() && clock == now && Accepted() == old(Accepted())
      ensures forall i | 0 <= i < |seen| :: seen[i].value > now
    {
      clock := now;
      var i := 0;
      while i < |seen|
        invariant IsSuffix(seen, dropped, kept, now, ttlMs, maxEntries) && |seen| <= maxEntries
        invariant clock == now && Accepted() == old(Accepted())
        invariant 0 <= i <= |seen|
        invariant forall j | 0 <= j < i :: seen[j].value > now
        decreases |seen| - i
      {
        if seen[i].value <= now {
          FirstExpiresFirst(dropped, kept, ttlMs, i);
          assert i == 0;
          DropOldest(seen, dropped, kept, now, ttlMs, maxEntries);
          seen := Delete(seen, seen[i].key);
          dropped, kept := dropped + [kept[0]], kept[1..];
        } else {
          i := i + 1;
        }
      }
    }

    /** Drops the oldest entries until at most `maxEntries` are left. */
    method EvictOverflow()
      requires IsSuffix(seen, dropped, kept, clock, ttlMs, maxEntries)
      modifies this`seen, this`dropped, this`kept
      ensures Valid() && Accepted() == old(Accepted())
    {
      while |seen| > maxEntries
        invariant IsSuffix(seen, dropped, kept, clock, ttlMs, maxEntries) && Accepted() == old(Accepted())
      {
        DropOldest(seen, dropped, kept, clock, ttlMs, maxEntries);
        seen := Delete(seen, seen[0].key);
        dropped, kept := dropped + [kept[0]], kept[1..];
      }
    }

    /**
     True exactly when the key occurs among the last `maxEntries` accepted calls
     and has not outlived its time to live; otherwise the call is accepted.
     The clock is read once before the lookup and once when the entry is stored.
     */
    method IsDuplicate(key: string, now: int, storedAt: int) returns (duplicate: bool)
      requires Valid() && clock <= now <= storedAt
      modifies this
      ensures Valid() && now <= clock <= storedAt
      ensures duplicate <==> IsRepeat(old(Accepted()), key, now, ttlMs, maxEntries)
      ensures Accepted() == if duplicate then old(Accepted()) else old(Accepted()) + [Acceptance(key, storedAt)]
    {
      EvictExpired(now);
      duplicate := Lookup(key, now);
      if duplicate {
        return;
      }
      ghost var added := Acceptance(key, storedAt);
      AddNewest(seen, dropped, kept, clock, ttlMs, maxEntries, added);
      seen := Set(seen, key, storedAt + ttlMs);
      kept := kept + [added];
      clock := storedAt;
      EvictOverflow();
    }

    /** The `has` test, once everything expired has been removed. */
    method Lookup(key: string, now: int) returns (present: bool)
      requires Valid() && clock == now && forall i | 0 <= i < |seen| :: seen[i].value > now
      ensures present <==> HasKey(seen, key)
      ensures present <==> IsRepeat(Accepted(), key, now, ttlMs, maxEntries)
    {
      present := Find(seen, key) < |seen|;
      assert forall i | 0 <= i < |kept| :: seen[i].value == kept[i].at + ttlMs;
      SuffixDecides(dropped, kept, key, now, ttlMs, maxEntries);
    }
  }

  /** Expiries do not decrease: no entry expires before the first one. */
  lemma FirstExpiresFirst(dropped: seq<Acceptance>, kept: seq<Acceptance>, ttlMs: int, i: nat)
    requires Ordered(dropped + kept) && i < |kept|
    ensures kept[0].at <= kept[i].at
  {
    var all := dropped + kept;
    assert all[|dropped|] == kept[0] && all[|dropped| + i] == kept[i];
  }

  /** Looking the key up in the unexpired suffix decides the question about the whole history. */
  lemma SuffixDecides(dropped: seq<Acceptance>, kept: seq<Acceptance>, key: string, now: int, ttlMs: int,
                      maxEntries: nat)
    requires |kept| <= maxEntries && OutOfPlay(dropped, kept, now, ttlMs, maxEntries)
    requires forall i | 0 <= i < |kept| :: kept[i].at + ttlMs > now
    ensures HasKey(AsEntries(kept, ttlMs), key) <==> IsRepeat(dropped + kept, key, now, ttlMs, maxEntries)
  {
    var all := dropped + kept;
    var seen, recent := AsEntries(kept, ttlMs), Recent(all, maxEntries);
    if HasKey(seen, key) {
      var i :| 0 <= i < |seen| && seen[i].key == key;
      assert kept[i] == recent[|recent| - |kept| + i];
      assert kept[i] in recent;
    }
    if IsRepeat(all, key, now, ttlMs, maxEntries) {
      var a :| a in recent && a.key == key && a.at + ttlMs > now;
      var j :| 0 <= j < |recent| && recent[j] == a;
      var i := |all| - |recent| + j;
      assert all[i] == a && i >= |dropped|;
      assert seen[i - |dropped|].key == key;
    }
  }

  // -------------------------------------------------------- what this buys

  datatype Call = Call(key: string, at: int)

  /** The accepted history after a run of calls, each taking no time. */
  function History(calls: seq<Call>, ttlMs: int, maxEntries: nat): seq<Acceptance> {
    if calls == [] then []
    else
      var h := History(calls[..|calls| - 1], ttlMs, maxEntries);
      var c := calls[|calls| - 1];
      if IsRepeat(h, c.key, c.at, ttlMs, maxEntries) then h else h + [Acceptance(c.key, c.at)]
  }

  /**
   No message is processed twice within its time to live, unless more than
   `maxEntries` other messages were accepted in between.
   */
  lemma {:induction false} NoDoubleProcessing(calls: seq<Call>, ttlMs: int, maxEntries: nat, i: nat, j: nat)
    requires i < j < |History(calls, ttlMs, maxEntries)|
    requires History(calls, ttlMs, maxEntries)[i].key == History(calls, ttlMs, maxEntries)[j].key
    ensures var h := History(calls, ttlMs, maxEntries);
            h[i].at + ttlMs <= h[j].at || j - i > maxEntries
    decreases |calls|
  {
    var before := History(calls[..|calls| - 1], ttlMs, maxEntries);
    var c := calls[|calls| - 1];
    if j < |before| {
      NoDoubleProcessing(calls[..|calls| - 1], ttlMs, maxEntries, i, j);
    } else if j - i <= maxEntries {
      var recent := Recent(before, maxEntries);
      assert before[i] == recent[|recent| - (|before| - i)] && before[i] in recent;
    }
  }

  /** A call is processed unless its key is among the last `maxEntries` processed ones within its time to live. */
  lemma CallIsProcessedIff(calls: seq<Call>, c: Call, ttlMs: int, maxEntries: nat)
    ensures var h, after := History(calls, ttlMs, maxEntries), History(calls + [c], ttlMs, maxEntries);
            var repeated := exists i: nat | i < |h| ::
                              h[i].key == c.key && h[i].at + ttlMs > c.at && |h| - i <= maxEntries;
            after == if repeated then h else h + [Acceptance(c.key, c.at)]
  {
    var h := History(calls, ttlMs, maxEntries);
    var recent := Recent(h, maxEntries);
    assert (calls + [c])[..|calls|] == calls;
    assert forall i: nat | i < |recent| :: recent[i] == h[|h| - |recent| + i];
    forall i: nat | i < |h| && |h| - i <= maxEntries
      ensures h[i] in recent
    {
      assert recent[i - (|h| - |recent|)] == h[i];
    }
  }
}
