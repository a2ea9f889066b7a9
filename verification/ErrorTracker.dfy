/**
 Error pattern detection (src/observability/error-tracker.ts, `createErrorTracker`).

 The tracker keeps only recent entries per key. Its counts are proved equal to
 counts over everything recorded since the last reset, and its alerts to a rule
 about those counts and the earlier alerts.
 */
module ErrorTracker {
  import opened Wrappers

  datatype ErrorEntry = ErrorEntry(timestamp: int, message: string)

  datatype Occurrence = Occurrence(key: string, at: int)

  datatype ErrorAlert = ErrorAlert(key: string, count: nat, at: int, lastError: string)

  // ---------------------------------------------------------- specification

  /** Errors of `key` recorded after `cutoff`, over the full history. */
  function CountSince(history: seq<Occurrence>, key: string, cutoff: int): nat {
    if history == [] then 0
    else
      var o := history[|history| - 1];
      CountSince(history[..|history| - 1], key, cutoff) + (if o.key == key && o.at > cutoff then 1 else 0)
  }

  function After(entries: seq<ErrorEntry>, cutoff: int): seq<ErrorEntry> {
    if entries == [] then []
    else
      var e := entries[|entries| - 1];
      After(entries[..|entries| - 1], cutoff) + (if e.timestamp > cutoff then [e] else [])
  }

  /** The kept entries answer every query about `key` that looks back no further than `from`. */
  ghost predicate Agrees(entries: seq<ErrorEntry>, history: seq<Occurrence>, key: string, from: int) {
    forall cutoff | cutoff >= from :: |After(entries, cutoff)| == CountSince(history, key, cutoff)
  }

  lemma {:induction false} AfterTwice(entries: seq<ErrorEntry>, from: int, cutoff: int)
    requires from <= cutoff
    ensures After(After(entries, from), cutoff) == After(entries, cutoff)
  {
    if entries != [] {
      var e := entries[|entries| - 1];
      var rest := After(entries[..|entries| - 1], from);
      AfterTwice(entries[..|entries| - 1], from, cutoff);
      if e.timestamp > from {
        assert (rest + [e])[..|rest|] == rest;
      } else {
        assert rest + [] == rest;
      }
    }
  }

  lemma FilterKeepsAgreement(entries: seq<ErrorEntry>, history: seq<Occurrence>, key: string, from: int, cutoff: int)
    requires Agrees(entries, history, key, from) && from <= cutoff
    ensures Agrees(After(entries, cutoff), history, key, cutoff)
  {
    forall c | c >= cutoff
      ensures |After(After(entries, cutoff), c)| == CountSince(history, key, c)
    {
      AfterTwice(entries, cutoff, c);
    }
  }

  lemma RecordKeepsAgreement(entries: seq<ErrorEntry>, history: seq<Occurrence>, key: string, from: int,
                             k: string, e: ErrorEntry)
    requires Agrees(entries, history, key, from)
    ensures Agrees(if k == key then entries + [e] else entries, history + [Occurrence(k, e.timestamp)], key, from)
  {
    var h := history + [Occurrence(k, e.timestamp)];
    assert h[..|history|] == history;
    assert (entries + [e])[..|entries|] == entries;
    forall cutoff | cutoff >= from
      ensures |After(if k == key then entries + [e] else entries, cutoff)| == CountSince(h, key, cutoff)
    {
      assert |After(entries, cutoff)| == CountSince(history, key, cutoff);
    }
  }

  /** Every earlier alert of the key is at least the cooldown old; without one, so is the epoch. */
  ghost predicate CooledDown(alerts: seq<ErrorAlert>, key: string, now: int, cooldown: int) {
    && (forall a | a in alerts && a.key == key :: now - a.at >= cooldown)
    && ((forall a | a in alerts :: a.key != key) ==> now >= cooldown)
  }

  ghost predicate NoneAfter(alerts: seq<ErrorAlert>, time: int) {
    forall a | a in alerts :: a.at <= time
  }

  // --------------------------------------------------------- implementation

  class ErrorTracker {
    const windowMs: int
    const threshold: int
    const alertCooldownMs: int
    var errors: map<string, seq<ErrorEntry>>
    var lastAlertAt: map<string, int>
    // Everything recorded, and every alert fired, since the last reset; the time of the last call.
    ghost var history: seq<Occurrence>
    ghost var alerts: seq<ErrorAlert>
    ghost var clock: int

    function Entries(key: string): seq<ErrorEntry>
      reads this
    {
      if key in errors then errors[key] else []
    }

    ghost predicate WindowsAgree()
      reads this
    {
      forall key :: Agrees(Entries(key), history, key, clock - windowMs)
    }

    ghost predicate AlertsAgree()
      reads this
    {
      && (forall a | a in alerts :: a.key in lastAlertAt && a.at <= lastAlertAt[a.key])
      && (forall key | key in lastAlertAt :: exists a :: a in alerts && a.key == key && a.at == lastAlertAt[key])
    }

    /** Two alerts for one key are at least the cooldown apart. */
    ghost predicate AlertsSpaced()
      reads this
    {
      forall i, j | 0 <= i < j < |alerts| && alerts[i].key == alerts[j].key ::
        alerts[j].at - alerts[i].at >= alertCooldownMs
    }

    ghost predicate Valid()
      reads this
    {
      WindowsAgree() && AlertsAgree() && AlertsSpaced() && NoneAfter(alerts, clock)
    }

    constructor (windowMs: int, threshold: int, alertCooldownMs: int, now: int)
      ensures Valid() && history == [] && alerts == [] && clock == now
      ensures this.windowMs == windowMs && this.threshold == threshold && this.alertCooldownMs == alertCooldownMs
    {
      this.windowMs, this.threshold, this.alertCooldownMs := windowMs, threshold, alertCooldownMs;
      errors, lastAlertAt, history, alerts, clock := map[], map[], [], [], now;
    }

    /** Drops the expired entries of one key and returns the others. */
    method EvictExpired(key: string, now: int) returns (active: seq<ErrorEntry>)
      requires Valid() && clock <= now
      modifies this`errors, this`clock
      ensures Valid() && clock == now
      ensures |active| == CountSince(history, key, now - windowMs)
    {
      var cutoff := now - windowMs;
      ghost var from := clock - windowMs;
      assert Agrees(Entries(key), history, key, from);
      FilterKeepsAgreement(Entries(key), history, key, from, cutoff);
      clock := now;
      if key !in errors {
        assert After([], cutoff) == [];
        active := [];
      } else {
        active := After(errors[key], cutoff);
        if |active| == 0 {
          errors := errors - {key};
        } else {
          errors := errors[key := active];
        }
      }
      assert Entries(key) == After(old(Entries(key)), cutoff);
      forall k
        ensures Agrees(Entries(k), history, k, cutoff)
      {
        assert Agrees(old(Entries(k)), history, k, from);
        assert k != key ==> Entries(k) == old(Entries(k));
      }
      AfterTwice(old(Entries(key)), cutoff, cutoff);
    }

    /**
     Records one error. An alert fires exactly when the window holds at least
     `threshold` errors of the key and no alert for the key is younger than the
     cooldown (before the first alert, the clock itself must have passed it).
     */
    method Record(key: string, errorMessage: string, now: int, evictedAt: int) returns (alert: Option<ErrorAlert>)
      requires Valid() && clock <= now <= evictedAt
      modifies this
      ensures Valid() && clock == evictedAt
      ensures history == old(history) + [Occurrence(key, now)]
      ensures var count := CountSince(history, key, evictedAt - windowMs);
              && (alert.Some? <==>
                  && count >= threshold
                  && CooledDown(old(alerts), key, now, alertCooldownMs))
              && (alert.Some? ==> alert.value == ErrorAlert(key, count, now, errorMessage))
      ensures alerts == old(alerts) + (if alert.Some? then [alert.value] else [])
    {
      Append(key, ErrorEntry(now, errorMessage));
      var active := EvictExpired(key, evictedAt);
      alert := None;
      if |active| >= threshold {
        alert := FireUnlessCooling(ErrorAlert(key, |active|, now, errorMessage));
      }
    }

    method Append(key: string, e: ErrorEntry)
      requires Valid()
      modifies this`errors, this`history
      ensures Valid() && history == old(history) + [Occurrence(key, e.timestamp)]
    {
      forall k
        ensures Agrees(if k == key then Entries(k) + [e] else Entries(k), history + [Occurrence(key, e.timestamp)],
                       k, clock - windowMs)
      {
        RecordKeepsAgreement(Entries(k), history, k, clock - windowMs, key, e);
      }
      errors := errors[key := Entries(key) + [e]];
      history := history + [Occurrence(key, e.timestamp)];
      assert forall k :: Entries(k) == if k == key then old(Entries(k)) + [e] else old(Entries(k));
    }

    /** The cooldown test on the time of the last alert, which stands for all earlier alerts of the key. */
    method FireUnlessCooling(candidate: ErrorAlert) returns (alert: Option<ErrorAlert>)
      requires Valid() && candidate.at <= clock && NoneAfter(alerts, candidate.at)
      modifies this`lastAlertAt, this`alerts
      ensures Valid()
      ensures alert.Some? <==> CooledDown(old(alerts), candidate.key, candidate.at, alertCooldownMs)
      ensures alert.Some? ==> alert.value == candidate
      ensures alerts == old(alerts) + (if alert.Some? then [candidate] else [])
    {
      var lastAlert := if candidate.key in lastAlertAt then lastAlertAt[candidate.key] else 0;
      if candidate.at - lastAlert < alertCooldownMs {
        return None;
      }
      lastAlertAt := lastAlertAt[candidate.key := candidate.at];
      alerts := alerts + [candidate];
      assert alerts[|alerts| - 1] == candidate;
      assert forall a :: a in alerts <==> a in old(alerts) || a == candidate;
      assert WindowsAgree() by {
        assert forall key :: Entries(key) == old(Entries(key));
      }
      return Some(candidate);
    }

    /** The number of errors of the key, of all recorded since the reset, newer than the window. */
    method GetCount(key: string, now: int) returns (n: nat)
      requires Valid() && clock <= now
      modifies this`errors, this`clock
      ensures Valid() && clock == now
      ensures n == CountSince(history, key, now - windowMs)
    {
      var active := EvictExpired(key, now);
      n := |active|;
    }

    method Reset()
      modifies this
      ensures Valid() && history == [] && alerts == [] && clock == old(clock)
    {
      errors, lastAlertAt, history, alerts := map[], map[], [], [];
    }
  }
}
