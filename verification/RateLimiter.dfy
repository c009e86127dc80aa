/**
 * The fixed-window rate limiter with its bounded table. Requests carry the time read on entry; times are nanoseconds
 * since Go's zero time and do not decrease in the order in which requests take the lock.
 */
module RateLimiter {
  import opened Basics

  type Key = string

  const MAX_ENTRIES: nat := 4096
  const CLEANUP_ENTRIES: nat := 1024

  datatype Slot = Slot(count: int, resetAt: int)

  type Entries = map<Key, Slot>

  predicate Expired(slot: Slot, now: nat) {
    slot.resetAt <= now
  }

  function Unexpired(entries: Entries, now: nat): Entries {
    map key | key in entries && !Expired(entries[key], now) :: entries[key]
  }

  function Cleaned(entries: Entries, now: nat): Entries {
    if |entries| < CLEANUP_ENTRIES then entries else Unexpired(entries, now)
  }

  /** A table with no room left for the key, even after the cleanup. */
  predicate Full(entries: Entries, key: Key, now: nat) {
    key !in entries && |entries| >= MAX_ENTRIES && |Cleaned(entries, now)| >= MAX_ENTRIES
  }

  datatype Decision = Decision(allowed: bool, entries: Entries)

  function Decide(entries: Entries, limit: int, window: int, key: Key, now: nat): Decision {
    if key !in entries || entries[key].resetAt == 0 || Expired(entries[key], now) then
      var kept := if key !in entries && |entries| >= MAX_ENTRIES then Cleaned(entries, now) else entries;
      if Full(entries, key, now) then Decision(false, kept)
      else Decision(true, kept[key := Slot(1, now + window)])
    else
      var slot := entries[key];
      Decision(slot.count + 1 <= limit, entries[key := slot.(count := slot.count + 1)])
  }

  class Limiter {
    const limit: int
    const window: int
    var entries: Entries

    constructor (limit: int, window: int)
      ensures this.limit == limit && this.window == window && entries == map[]
    {
      this.limit, this.window, entries := limit, window, map[];
    }

    method Allow(key: Key, now: nat) returns (allowed: bool)
      modifies this
      ensures Decision(allowed, entries) == Decide(old(entries), limit, window, key, now)
    {
      var exists' := key in entries;
      if !exists' || entries[key].resetAt == 0 || entries[key].resetAt <= now {
        if !exists' && |entries| >= MAX_ENTRIES {
          CleanupExpired(now);
          if |entries| >= MAX_ENTRIES {
            return false;
          }
        }
        entries := entries[key := Slot(1, now + window)];
        return true;
      }
      var entry := entries[key];
      entry := entry.(count := entry.count + 1);
      entries := entries[key := entry];
      allowed := entry.count <= limit;
    }

    method CleanupExpired(now: nat)
      modifies this
      ensures entries == Cleaned(old(entries), now)
      ensures if |old(entries)| < 1024 then entries == old(entries)
              else forall key :: key in entries <==> key in old(entries) && old(entries)[key].resetAt > now
      ensures forall key | key in entries :: key in old(entries) && entries[key] == old(entries)[key]
    {
      if |entries| < CLEANUP_ENTRIES {
        return;
      }
      var todo := entries.Keys;
      while todo != {}
        invariant todo <= entries.Keys <= old(entries).Keys
        invariant forall key | key in entries :: entries[key] == old(entries)[key]
        invariant forall key | key in old(entries) && key !in todo ::
                  key in entries <==> !Expired(old(entries)[key], now)
      {
        var key :| key in todo;
        if entries[key].resetAt <= now {
          entries := entries - {key};
        }
        todo := todo - {key};
      }
      assert entries == Unexpired(old(entries), now);
    }
  }

  datatype Request = Request(key: Key, time: nat)

  predicate Ordered(times: seq<nat>) {
    forall i, j | 0 <= i < j < |times| :: times[i] <= times[j]
  }

  predicate InOrder(requests: seq<Request>) {
    forall i, j | 0 <= i < j < |requests| :: requests[i].time <= requests[j].time
  }

  /** The table after a history that began empty. */
  function After(limit: int, window: int, requests: seq<Request>): Entries {
    if requests == [] then map[]
    else
      var last := requests[|requests| - 1];
      Decide(After(limit, window, requests[..|requests| - 1]), limit, window, last.key, last.time).entries
  }

  /** The answer to the last request of a history. */
  function Answer(limit: int, window: int, requests: seq<Request>): bool
    requires requests != []
  {
    var last := requests[|requests| - 1];
    Decide(After(limit, window, requests[..|requests| - 1]), limit, window, last.key, last.time).allowed
  }

  /** The last request of a history found the table full. */
  predicate Refused(limit: int, window: int, requests: seq<Request>)
    requires requests != []
  {
    var last := requests[|requests| - 1];
    Full(After(limit, window, requests[..|requests| - 1]), last.key, last.time)
  }

  /** When the requests for a key came, leaving out those the full table refused. */
  function Admitted(limit: int, window: int, requests: seq<Request>, key: Key): seq<nat> {
    if requests == [] then []
    else
      var front, last := requests[..|requests| - 1], requests[|requests| - 1];
      Admitted(limit, window, front, key) +
      if last.key == key && !Refused(limit, window, requests) then [last.time] else []
  }

  /** The ideal limiter: one key, no table. A request outside the open window opens the next one. */
  function IdealStep(slot: Option<Slot>, window: int, now: nat): Slot {
    if slot.None? || Expired(slot.value, now) then Slot(1, now + window)
    else slot.value.(count := slot.value.count + 1)
  }

  function IdealSlot(window: int, times: seq<nat>): Option<Slot> {
    if times == [] then None
    else Some(IdealStep(IdealSlot(window, times[..|times| - 1]), window, times[|times| - 1]))
  }

  /** The ideal answer to the last request: the opening one always passes, the others up to the limit. */
  predicate IdealAllows(limit: int, window: int, times: seq<nat>)
    requires times != []
  {
    var slot := IdealSlot(window, times).value;
    slot.count == 1 || slot.count <= limit
  }

  /** The table holds the ideal slot of the key, or has dropped it after it expired. */
  predicate Agrees(entries: Entries, slot: Option<Slot>, key: Key, now: nat) {
    if key in entries then slot == Some(entries[key]) else slot.None? || Expired(slot.value, now)
  }

  lemma CleanedSmaller(entries: Entries, now: nat)
    ensures Cleaned(entries, now).Keys <= entries.Keys && |Cleaned(entries, now)| <= |entries|
  {
    SubsetSize(Cleaned(entries, now).Keys, entries.Keys);
  }

  /** With at most 4096 entries, the table is full just when it has 4096 and none of them has expired. */
  lemma FullMeansAllOpen(entries: Entries, key: Key, now: nat)
    requires |entries| <= 4096
    ensures Full(entries, key, now) <==>
      key !in entries && |entries| == 4096 && forall k | k in entries :: !Expired(entries[k], now)
  {
    CleanedSmaller(entries, now);
    if key !in entries && |entries| == MAX_ENTRIES {
      var kept := Unexpired(entries, now);
      if forall k | k in entries :: !Expired(entries[k], now) {
        assert kept == entries;
      } else {
        var k :| k in entries && Expired(entries[k], now);
        SubsetSize(kept.Keys, entries.Keys - {k});
      }
    }
  }

  lemma DecideBounded(entries: Entries, limit: int, window: int, key: Key, now: nat)
    requires |entries| <= MAX_ENTRIES
    ensures |Decide(entries, limit, window, key, now).entries| <= MAX_ENTRIES
  {
    CleanedSmaller(entries, now);
    if key in entries {
      assert (entries[key := Slot(1, now + window)]).Keys == entries.Keys;
    }
  }

  /** One request moves the table as it moves the ideal slots. */
  lemma DecideAgrees(
    entries: Entries, limit: int, window: int, request: Request, slot: Option<Slot>, key: Key, before: nat)
    requires Agrees(entries, slot, key, before) && before <= request.time
    ensures var now := request.time;
            var entries' := Decide(entries, limit, window, request.key, now).entries;
            var admitted := request.key == key && !Full(entries, key, now);
            var slot' := if admitted then Some(IdealStep(slot, window, now)) else slot;
            Agrees(entries', slot', key, now)
  {}

  /** One more request moves the ideal slot of its key, unless the table was full. */
  lemma SlotOfAdmitted(limit: int, window: int, requests: seq<Request>, key: Key)
    requires requests != []
    ensures var front, last := requests[..|requests| - 1], requests[|requests| - 1];
            var slot := IdealSlot(window, Admitted(limit, window, front, key));
            IdealSlot(window, Admitted(limit, window, requests, key)) ==
            if last.key == key && !Refused(limit, window, requests) then Some(IdealStep(slot, window, last.time))
            else slot
  {
    var front, last := requests[..|requests| - 1], requests[|requests| - 1];
    var times := Admitted(limit, window, front, key);
    assert (times + [last.time])[..|times|] == times;
    assert times + [] == times;
  }

  /** When the last request before now came, or the beginning of time. */
  function Latest(requests: seq<Request>): nat {
    if requests == [] then 0 else requests[|requests| - 1].time
  }

  /** The bounded table with cleanup agrees with the ideal windows after every history, and stays bounded. */
  lemma {:induction false} TableRefines(limit: int, window: int, requests: seq<Request>, key: Key)
    requires InOrder(requests)
    ensures |After(limit, window, requests)| <= 4096
    ensures Agrees(After(limit, window, requests), IdealSlot(window, Admitted(limit, window, requests, key)), key,
            Latest(requests))
  {
    if requests != [] {
      var front, last := requests[..|requests| - 1], requests[|requests| - 1];
      var entries := After(limit, window, front);
      TableRefines(limit, window, front, key);
      DecideBounded(entries, limit, window, last.key, last.time);
      DecideAgrees(entries, limit, window, last, IdealSlot(window, Admitted(limit, window, front, key)), key,
        Latest(front));
      SlotOfAdmitted(limit, window, requests, key);
    }
  }

  /** The limiter answers as the ideal limiter does, unless the table is full of other keys' open windows. */
  lemma LimiterRefinesIdeal(limit: int, window: int, requests: seq<Request>)
    requires InOrder(requests) && requests != []
    ensures var last := requests[|requests| - 1];
            var entries := After(limit, window, requests[..|requests| - 1]);
            && (Refused(limit, window, requests) <==>
                  && last.key !in entries && |entries| == 4096
                  && forall k | k in entries :: !Expired(entries[k], last.time))
            && (Refused(limit, window, requests) ==> !Answer(limit, window, requests))
            && (!Refused(limit, window, requests) ==>
                  var times := Admitted(limit, window, requests, last.key);
                  times != [] && (Answer(limit, window, requests) <==> IdealAllows(limit, window, times)))
  {
    var front, last := requests[..|requests| - 1], requests[|requests| - 1];
    TableRefines(limit, window, front, last.key);
    FullMeansAllOpen(After(limit, window, front), last.key, last.time);
    SlotOfAdmitted(limit, window, requests, last.key);
    IdealCount(window, Admitted(limit, window, front, last.key));
  }

  lemma {:induction false} IdealCount(window: int, times: seq<nat>)
    ensures IdealSlot(window, times).Some? ==> IdealSlot(window, times).value.count >= 1
  {
    if times != [] {
      IdealCount(window, times[..|times| - 1]);
    }
  }
}
