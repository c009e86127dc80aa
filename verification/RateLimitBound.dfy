/** How many requests of one key the limiter lets through in an interval of any number of windows: the exact bound. */
module RateLimitBound {
  import opened Basics
  import opened RateLimiter

  predicate Within(time: nat, from: int, to: int) {
    from <= time < to
  }

  /** Requests for the key that came in the interval and were allowed. */
  function Hits(limit: int, window: int, requests: seq<Request>, key: Key, from: int, to: int): nat {
    if requests == [] then 0
    else
      var last := requests[|requests| - 1];
      Hits(limit, window, requests[..|requests| - 1], key, from, to)
      + if last.key == key && Within(last.time, from, to) && Answer(limit, window, requests) then 1 else 0
  }

  /** The same for the ideal limiter of one key. */
  function IdealHits(limit: int, window: int, times: seq<nat>, from: int, to: int): nat {
    if times == [] then 0
    else
      IdealHits(limit, window, times[..|times| - 1], from, to)
      + if Within(times[|times| - 1], from, to) && IdealAllows(limit, window, times) then 1 else 0
  }

  lemma IdealHitsAppend(limit: int, window: int, times: seq<nat>, now: nat, from: int, to: int)
    ensures IdealHits(limit, window, times + [now], from, to) ==
            IdealHits(limit, window, times, from, to)
            + if Within(now, from, to) && IdealAllows(limit, window, times + [now]) then 1 else 0
  {
    assert (times + [now])[..|times|] == times;
  }

  lemma AdmittedStep(limit: int, window: int, requests: seq<Request>, key: Key)
    requires requests != []
    ensures var last := requests[|requests| - 1];
            Admitted(limit, window, requests, key) ==
            Admitted(limit, window, requests[..|requests| - 1], key) +
            if last.key == key && !Refused(limit, window, requests) then [last.time] else []
  {}

  lemma {:induction false} AdmittedOrdered(limit: int, window: int, requests: seq<Request>, key: Key)
    requires InOrder(requests)
    ensures Ordered(Admitted(limit, window, requests, key))
    ensures forall i | 0 <= i < |Admitted(limit, window, requests, key)| ::
            Admitted(limit, window, requests, key)[i] <= Latest(requests)
  {
    if requests != [] {
      var front := requests[..|requests| - 1];
      AdmittedOrdered(limit, window, front, key);
      AdmittedStep(limit, window, requests, key);
      assert Latest(front) <= Latest(requests);
    }
  }

  lemma {:induction false} HitsAreIdeal(limit: int, window: int, requests: seq<Request>, key: Key, from: int, to: int)
    requires InOrder(requests)
    ensures Hits(limit, window, requests, key, from, to) ==
            IdealHits(limit, window, Admitted(limit, window, requests, key), from, to)
  {
    if requests != [] {
      var front, last := requests[..|requests| - 1], requests[|requests| - 1];
      var times := Admitted(limit, window, front, key);
      HitsAreIdeal(limit, window, front, key, from, to);
      AdmittedStep(limit, window, requests, key);
      LimiterRefinesIdeal(limit, window, requests);
      IdealHitsAppend(limit, window, times, last.time, from, to);
      assert times + [] == times;
    }
  }

  /** The most that one window lets through: the opening request always passes, whatever the limit. */
  function PerWindow(limit: int): nat {
    if limit < 1 then 1 else limit
  }

  /** Windows opened at or after a time. */
  function Opened(window: int, times: seq<nat>, from: int): nat {
    if times == [] then 0
    else
      var front, now := times[..|times| - 1], times[|times| - 1];
      var slot := IdealSlot(window, front);
      Opened(window, front, from) + if now >= from && (slot.None? || Expired(slot.value, now)) then 1 else 0
  }

  function Smaller(a: int, b: int): int {
    if a < b then a else b
  }

  /**
   * While no request has come at or after to: a window opened before from contributes all but its opening request, and
   * the j windows opened since are at least a window apart.
   */
  predicate Accounted(limit: int, window: nat, times: seq<nat>, from: int, hits: nat, starts: nat, slot: Slot) {
    var per := PerWindow(limit);
    && slot.count >= 1
    && (hits > 0 || starts > 0 ==> times != [] && from <= times[|times| - 1])
    && (starts == 0 ==> slot.resetAt - window < from && hits <= Smaller(slot.count, per) - 1)
    && (starts > 0 ==>
          && from + Multiple(starts - 1, window) <= slot.resetAt - window
          && hits <= per - 1 + Multiple(starts - 1, per) + Smaller(slot.count, per))
  }

  lemma {:induction false} HitsAccounted(limit: int, window: nat, times: seq<nat>, from: int, to: int)
    requires window > 0 && Ordered(times) && times != [] && times[|times| - 1] < to
    ensures Accounted(limit, window, times, from,
                      IdealHits(limit, window, times, from, to), Opened(window, times, from),
                      IdealSlot(window, times).value)
    ensures IdealSlot(window, times).value.resetAt - window <= times[|times| - 1]
  {
    var front, now := times[..|times| - 1], times[|times| - 1];
    assert front + [now] == times;
    if front == [] {
      assert IdealHits(limit, window, front, from, to) == 0 && Opened(window, front, from) == 0;
      assert IdealSlot(window, front) == None;
    } else {
      assert times[|times| - 2] <= times[|times| - 1];
      HitsAccounted(limit, window, front, from, to);
      AccountedStep(limit, window, front, now, from,
                    IdealHits(limit, window, front, from, to), Opened(window, front, from),
                    IdealSlot(window, front).value);
    }
  }

  lemma AccountedStep(limit: int, window: nat, front: seq<nat>, now: nat, from: int, hits: nat, starts: nat, slot: Slot)
    requires window > 0 && front != [] && front[|front| - 1] <= now && slot.resetAt - window <= front[|front| - 1]
    requires Accounted(limit, window, front, from, hits, starts, slot)
    ensures var slot' := IdealStep(Some(slot), window, now);
            var allowed := slot'.count == 1 || slot'.count <= limit;
            var hits' := hits + if now >= from && allowed then 1 else 0;
            var starts' := starts + if now >= from && Expired(slot, now) then 1 else 0;
            Accounted(limit, window, front + [now], from, hits', starts', slot') && slot'.resetAt - window <= now
  {}

  /** Requests at or after the end of the interval add nothing. */
  lemma {:induction false} BoundUntil(limit: int, window: nat, times: seq<nat>, from: int, n: nat)
    requires window > 0 && n >= 1 && Ordered(times)
    ensures IdealHits(limit, window, times, from, from + Multiple(n, window)) <= Multiple(n + 1, PerWindow(limit)) - 1
  {
    var to, per := from + Multiple(n, window), PerWindow(limit);
    if times != [] {
      if times[|times| - 1] >= to {
        BoundUntil(limit, window, times[..|times| - 1], from, n);
      } else {
        HitsAccounted(limit, window, times, from, to);
        var starts := Opened(window, times, from);
        if starts > n { MultipleGrows(n, starts - 1, window); } else { MultipleGrows(starts, n, per); }
      }
    }
  }

  lemma Grows(a: nat, b: nat, c: nat)
    requires a <= b
    ensures a * c <= b * c
  {
    assert b * c == a * c + (b - a) * c;
  }

  /**
   * In any half-open interval of n windows at most (n + 1) * limit - 1 requests of one key are allowed, whatever other
   * keys do and whenever the cleanup runs. A limit below one lets through as much as a limit of one.
   */
  lemma SharpBound(limit: int, window: nat, requests: seq<Request>, key: Key, from: int, n: nat)
    requires window > 0 && n >= 1 && InOrder(requests)
    ensures Hits(limit, window, requests, key, from, from + n * window) <= (n + 1) * PerWindow(limit) - 1
  {
    HitsAreIdeal(limit, window, requests, key, from, from + n * window);
    AdmittedOrdered(limit, window, requests, key);
    BoundUntil(limit, window, Admitted(limit, window, requests, key), from, n);
    MultipleIs(n, window);
    MultipleIs(n + 1, PerWindow(limit));
  }

  function Copies(now: nat, m: nat): (times: seq<nat>)
    ensures |times| == m && forall i | 0 <= i < m :: times[i] == now
  {
    seq(m, _ => now)
  }

  /** Requests inside the open window are all allowed up to the limit. */
  lemma {:induction false} Fill(limit: int, window: int, times: seq<nat>, now: nat, m: nat, from: int, to: int)
    requires times != [] && !Expired(IdealSlot(window, times).value, now)
    requires 1 <= IdealSlot(window, times).value.count
    requires m > 0 ==> IdealSlot(window, times).value.count + m <= limit
    ensures var slot := IdealSlot(window, times).value;
            IdealSlot(window, times + Copies(now, m)) == Some(slot.(count := slot.count + m))
    ensures IdealHits(limit, window, times + Copies(now, m), from, to) ==
            IdealHits(limit, window, times, from, to) + if Within(now, from, to) then m else 0
  {
    if m == 0 {
      assert times + Copies(now, 0) == times;
    } else {
      var some := times + Copies(now, m - 1);
      Fill(limit, window, times, now, m - 1, from, to);
      assert times + Copies(now, m) == some + [now];
      assert (some + [now])[..|some|] == some;
      IdealHitsAppend(limit, window, some, now, from, to);
    }
  }

  /** A burst at a time when no window is open is allowed in full, as large as a window can let through. */
  lemma Burst(limit: int, window: int, times: seq<nat>, now: nat, from: int, to: int)
    requires window > 0 && times != [] && Expired(IdealSlot(window, times).value, now)
    ensures IdealSlot(window, times + Copies(now, PerWindow(limit))) == Some(Slot(PerWindow(limit), now + window))
    ensures IdealHits(limit, window, times + Copies(now, PerWindow(limit)), from, to) ==
            IdealHits(limit, window, times, from, to) + if Within(now, from, to) then PerWindow(limit) else 0
  {
    var first := times + [now];
    assert first[..|times|] == times;
    IdealHitsAppend(limit, window, times, now, from, to);
    Fill(limit, window, first, now, PerWindow(limit) - 1, from, to);
    assert first + Copies(now, PerWindow(limit) - 1) == times + Copies(now, PerWindow(limit));
  }

  /** One request at time 0, the rest of its window's allowance at time 1, then a burst at each of n window starts. */
  function SharpTimes(limit: int, window: nat, n: nat): (times: seq<nat>)
    ensures times != []
  {
    if n == 0 then [0] + Copies(1, PerWindow(limit) - 1)
    else SharpTimes(limit, window, n - 1) + Copies(Multiple(n, window), PerWindow(limit))
  }

  lemma {:induction false} SharpTimesOrdered(limit: int, window: nat, n: nat)
    requires window >= 2
    ensures Ordered(SharpTimes(limit, window, n))
    ensures var times := SharpTimes(limit, window, n); times[|times| - 1] <= (if n == 0 then 1 else Multiple(n, window))
  {
    if n > 0 {
      SharpTimesOrdered(limit, window, n - 1);
    }
  }

  lemma SharpTimesBegin(limit: int, window: nat, to: int)
    requires window >= 2 && to >= 2
    ensures IdealSlot(window, SharpTimes(limit, window, 0)) == Some(Slot(PerWindow(limit), window))
    ensures IdealHits(limit, window, SharpTimes(limit, window, 0), 1, to) == PerWindow(limit) - 1
  {
    var first: seq<nat> := [0];
    assert first[..0] == [];
    Fill(limit, window, first, 1, PerWindow(limit) - 1, 1, to);
  }

  lemma {:induction false} SharpTimesHit(limit: int, window: nat, n: nat, to: int)
    requires window >= 2 && to >= 2 && Multiple(n, window) < to
    ensures IdealSlot(window, SharpTimes(limit, window, n)) ==
            Some(Slot(PerWindow(limit), Multiple(n, window) + window))
    ensures IdealHits(limit, window, SharpTimes(limit, window, n), 1, to) ==
            PerWindow(limit) - 1 + Multiple(n, PerWindow(limit))
  {
    if n == 0 {
      SharpTimesBegin(limit, window, to);
    } else {
      SharpTimesHit(limit, window, n - 1, to);
      Burst(limit, window, SharpTimes(limit, window, n - 1), Multiple(n, window), 1, to);
    }
  }

  function RequestsAt(key: Key, times: seq<nat>): (requests: seq<Request>)
    ensures |requests| == |times| && forall i | 0 <= i < |times| :: requests[i] == Request(key, times[i])
  {
    seq(|times|, i requires 0 <= i < |times| => Request(key, times[i]))
  }

  lemma {:induction false} AloneInTable(limit: int, window: int, key: Key, times: seq<nat>)
    ensures After(limit, window, RequestsAt(key, times)).Keys <= {key}
  {
    if times != [] {
      var front := times[..|times| - 1];
      assert RequestsAt(key, times)[..|front|] == RequestsAt(key, front);
      AloneInTable(limit, window, key, front);
      CleanedSmaller(After(limit, window, RequestsAt(key, front)), times[|front|]);
    }
  }

  /** A key that has the limiter to itself is never refused for lack of room. */
  lemma {:induction false} AloneAdmitted(limit: int, window: int, key: Key, times: seq<nat>)
    ensures Admitted(limit, window, RequestsAt(key, times), key) == times
  {
    if times != [] {
      var front := times[..|times| - 1];
      assert RequestsAt(key, times)[..|front|] == RequestsAt(key, front);
      AloneAdmitted(limit, window, key, front);
      AloneInTable(limit, window, key, front);
      SubsetSize(After(limit, window, RequestsAt(key, front)).Keys, {key});
      AdmittedStep(limit, window, RequestsAt(key, times), key);
      assert times == front + [times[|front|]];
    }
  }

  lemma HitsAlone(limit: int, window: int, key: Key, times: seq<nat>, from: int, to: int)
    requires Ordered(times)
    ensures InOrder(RequestsAt(key, times))
    ensures Hits(limit, window, RequestsAt(key, times), key, from, to) == IdealHits(limit, window, times, from, to)
  {
    AloneAdmitted(limit, window, key, times);
    HitsAreIdeal(limit, window, RequestsAt(key, times), key, from, to);
  }

  lemma SharpHits(limit: int, window: nat, n: nat, key: Key, to: int)
    requires window >= 2 && to >= 2 && Multiple(n, window) < to
    ensures InOrder(RequestsAt(key, SharpTimes(limit, window, n)))
    ensures Hits(limit, window, RequestsAt(key, SharpTimes(limit, window, n)), key, 1, to) ==
            PerWindow(limit) - 1 + Multiple(n, PerWindow(limit))
  {
    SharpTimesOrdered(limit, window, n);
    SharpTimesHit(limit, window, n, to);
    HitsAlone(limit, window, key, SharpTimes(limit, window, n), 1, to);
  }

  /** The bound is reached: for every limit, every number of windows, and every window of two nanoseconds or more. */
  lemma BoundIsReached(limit: int, window: nat, n: nat, key: Key) returns (requests: seq<Request>)
    requires window >= 2 && n >= 1
    ensures InOrder(requests)
    ensures Hits(limit, window, requests, key, 1, 1 + n * window) == (n + 1) * PerWindow(limit) - 1
  {
    requests := RequestsAt(key, SharpTimes(limit, window, n));
    MultipleIs(n, window);
    MultipleIs(n, PerWindow(limit));
    Grows(1, n, window);
    SharpHits(limit, window, n, key, 1 + n * window);
    assert (n + 1) * PerWindow(limit) == n * PerWindow(limit) + PerWindow(limit);
  }
}
