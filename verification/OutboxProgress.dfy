/** Progress of a single worker, over any sequence of turns between which new rows may arrive. */
module OutboxProgress {
  import opened Basics
  import opened Videos
  import opened Outbox
  import opened Backoff
  import opened OutboxWorker

  /** The claims a row can still take before it is processed or failed; a row still to arrive can take them all. */
  function Weight(rows: Rows, e: EventId): nat {
    if e !in rows then MAX_ATTEMPTS
    else if !Live(rows[e]) then 0
    else if rows[e].attempts < MAX_ATTEMPTS then MAX_ATTEMPTS - rows[e].attempts
    else 1
  }

  ghost function Potential(rows: Rows, ids: set<EventId>): nat {
    if ids == {} then 0 else var e :| e in ids; Weight(rows, e) + Potential(rows, ids - {e})
  }

  lemma {:induction false} PotentialPick(rows: Rows, ids: set<EventId>, e: EventId)
    requires e in ids
    ensures Potential(rows, ids) == Weight(rows, e) + Potential(rows, ids - {e})
    decreases ids
  {
    var x :| x in ids && Potential(rows, ids) == Weight(rows, x) + Potential(rows, ids - {x});
    if x != e {
      PotentialPick(rows, ids - {x}, e);
      PotentialPick(rows, ids - {e}, x);
      assert ids - {x} - {e} == ids - {e} - {x};
    }
  }

  lemma {:induction false} PotentialAtMost(rows: Rows, ids: set<EventId>)
    ensures Potential(rows, ids) <= 5 * |ids|
    ensures Potential(rows, ids) == 0 ==> forall e | e in ids :: e in rows && !Live(rows[e])
    decreases ids
  {
    if ids != {} {
      var x :| x in ids;
      PotentialPick(rows, ids, x);
      PotentialAtMost(rows, ids - {x});
    }
  }

  /** One turn of the worker: the rows it saw, when, what it claimed, the rows it left, its count, and its end. */
  datatype Round = Round(before: Rows, now: nat, claimed: seq<EventId>, after: Rows, processed: nat, end: nat)

  /** A turn is one batch under the conditions, and a second's pause when it finished nothing. */
  predicate TurnUnder(c: Conditions, r: Round) {
    && BatchLeft(c, r.before, r.now, r.claimed, r.after, r.end)
    && Counted(c, r.after, r.claimed, r.processed)
    && (r.processed == 0 ==> r.now + SECOND <= r.end)
  }

  /** A turn in which invalidations and marks may fail, but no other repository call. */
  predicate TurnRan(r: Round) {
    TurnUnder(CacheFlaky, r)
  }

  lemma TurnWeaker(c: Conditions, r: Round)
    requires TurnUnder(c, r) && !c.AllFlaky?
    ensures TurnRan(r)
  {
    BatchWeaker(c, r.before, r.now, r.claimed, r.after, r.end);
  }

  /** Between two turns rows as inserts leave them arrive, and nothing else changes. */
  predicate Arrived(rows: Rows, rows': Rows) {
    && (forall e | e in rows :: e in rows' && rows'[e] == rows[e])
    && (forall e | e in rows' && e !in rows :: Fresh(rows'[e]))
  }

  predicate Follows(r: Round, next: Round) {
    Arrived(r.after, next.before) && r.end <= next.now
  }

  predicate LinkedAt(rounds: seq<Round>, i: nat) {
    0 < i < |rounds| && Follows(rounds[i - 1], rounds[i])
  }

  predicate Linked(rounds: seq<Round>) {
    forall i | 0 < i < |rounds| :: LinkedAt(rounds, i)
  }

  predicate RanAt(c: Conditions, rounds: seq<Round>, i: nat) {
    i < |rounds| && TurnUnder(c, rounds[i])
  }

  predicate Under(c: Conditions, rounds: seq<Round>) {
    forall i | 0 <= i < |rounds| :: RanAt(c, rounds, i)
  }

  predicate Rounds(rounds: seq<Round>) {
    Under(CacheFlaky, rounds) && Linked(rounds)
  }

  lemma Prefix(rounds: seq<Round>, n: nat)
    requires Rounds(rounds) && n <= |rounds|
    ensures Rounds(rounds[..n])
  {
    forall i | 0 <= i < n ensures RanAt(CacheFlaky, rounds[..n], i) { assert RanAt(CacheFlaky, rounds, i); }
    forall i | 0 < i < n ensures LinkedAt(rounds[..n], i) { assert LinkedAt(rounds, i); }
  }

  lemma WeightDrops(r: Round, e: EventId)
    requires TurnRan(r)
    ensures Weight(r.after, e) + (if e in r.claimed then 1 else 0) <= Weight(r.before, e)
  {
    if e in r.claimed {
      assert Settled(Claimed(r.before[e], r.now), r.after[e], r.now, r.end);
    }
  }

  lemma SharedStep(ids: set<EventId>, claimed: seq<EventId>, e: EventId)
    requires e in ids
    ensures |ids * Members(claimed)| == |(ids - {e}) * Members(claimed)| + if e in claimed then 1 else 0
  {
    var rest := (ids - {e}) * Members(claimed);
    assert ids * Members(claimed) == if e in claimed then rest + {e} else rest;
  }

  /** Rows the turn claimed lose at least one unit each; the others keep theirs. */
  lemma {:induction false} BatchDrops(r: Round, ids: set<EventId>)
    requires TurnRan(r)
    ensures Potential(r.after, ids) + |ids * Members(r.claimed)| <= Potential(r.before, ids)
    decreases ids
  {
    if ids != {} {
      var e :| e in ids;
      PotentialPick(r.before, ids, e);
      PotentialPick(r.after, ids, e);
      BatchDrops(r, ids - {e});
      WeightDrops(r, e);
      SharedStep(ids, r.claimed, e);
    }
  }

  lemma {:induction false} ArrivalsDrop(rows: Rows, rows': Rows, ids: set<EventId>)
    requires Arrived(rows, rows')
    ensures Potential(rows', ids) <= Potential(rows, ids)
    decreases ids
  {
    if ids != {} {
      var e :| e in ids;
      PotentialPick(rows, ids, e);
      PotentialPick(rows', ids, e);
      ArrivalsDrop(rows, rows', ids - {e});
    }
  }

  /** Claims, over all rounds, of rows among the given ones. */
  function ClaimsOf(rounds: seq<Round>, ids: set<EventId>): nat {
    if rounds == [] then 0
    else ClaimsOf(rounds[..|rounds| - 1], ids) + |ids * Members(rounds[|rounds| - 1].claimed)|
  }

  lemma {:induction false} ClaimsPaid(rounds: seq<Round>, ids: set<EventId>)
    requires Rounds(rounds) && rounds != []
    ensures Potential(rounds[|rounds| - 1].after, ids) + ClaimsOf(rounds, ids) <= Potential(rounds[0].before, ids)
  {
    var last := |rounds| - 1;
    assert RanAt(CacheFlaky, rounds, last);
    BatchDrops(rounds[last], ids);
    if last > 0 {
      Prefix(rounds, last);
      assert LinkedAt(rounds, last);
      ClaimsPaid(rounds[..last], ids);
      ArrivalsDrop(rounds[last - 1].after, rounds[last].before, ids);
    } else {
      assert rounds[..last] == [];
    }
  }

  lemma {:induction false} KeysKept(rounds: seq<Round>)
    requires Rounds(rounds) && rounds != []
    ensures rounds[0].before.Keys <= rounds[|rounds| - 1].before.Keys == rounds[|rounds| - 1].after.Keys
  {
    var last := |rounds| - 1;
    assert RanAt(CacheFlaky, rounds, last);
    if last > 0 {
      Prefix(rounds, last);
      KeysKept(rounds[..last]);
      assert LinkedAt(rounds, last);
    }
  }

  /** A row that is live after the rounds was live all along. */
  lemma LiveBefore(r: Round, e: EventId)
    requires TurnRan(r) && e in r.before && Live(r.after[e])
    ensures Live(r.before[e])
  {
    if e !in r.claimed { assert r.after[e] == r.before[e]; }
  }

  /** No lock of a live row reaches further than so many seconds past the moment. */
  predicate LocksEnd(rows: Rows, now: nat, seconds: nat) {
    forall e | e in rows && Live(rows[e]) && rows[e].lockedUntil.Some? ::
      rows[e].lockedUntil.value < now + Multiple(seconds, SECOND)
  }

  // One more second than the lease and the longest backoff.
  const LONGEST_WAIT: nat := 31

  lemma LongestWait()
    ensures Multiple(LONGEST_WAIT, SECOND) == LEASE + SECOND && MAX_RETRY_BACKOFF == LEASE
  {
    MultipleIs(LONGEST_WAIT, SECOND);
  }

  /** The query claims something as soon as one live row is no longer locked. */
  lemma EmptyClaim(r: Round)
    requires TurnRan(r)
    ensures r.claimed == [] <==> forall e | e in r.before :: !Eligible(r.before[e], r.now)
  {
    var all := Claimable(r.before, r.now, {});
    if r.claimed == [] {
      forall e | e in r.before ensures !Eligible(r.before[e], r.now) {
        assert |all| == 0;
        assert e !in all;
      }
    } else {
      assert r.claimed[0] in r.claimed;
    }
  }

  lemma UnclaimedKept(r: Round)
    requires TurnRan(r) && r.claimed == []
    ensures r.after == r.before && r.now + SECOND <= r.end
  {
    assert Finished(r.after, r.claimed) == {};
  }

  /** After a turn with claims every lock ends within the longest wait. */
  lemma LocksAfterClaims(r: Round, seconds: nat)
    requires TurnRan(r) && seconds <= LONGEST_WAIT && LocksEnd(r.before, r.now, seconds)
    ensures LocksEnd(r.after, r.end, LONGEST_WAIT)
  {
    LongestWait();
    MultipleGrows(seconds, LONGEST_WAIT, SECOND);
    forall e | e in r.after && Live(r.after[e]) && r.after[e].lockedUntil.Some?
      ensures r.after[e].lockedUntil.value < r.end + Multiple(LONGEST_WAIT, SECOND)
    {
      if e in r.claimed {
        assert Settled(Claimed(r.before[e], r.now), r.after[e], r.now, r.end);
        BackoffMonotone(r.before[e].attempts + 1, r.before[e].attempts + 1);
      } else {
        assert r.after[e] == r.before[e];
      }
    }
  }

  /** While a row is live, a turn either claims something or waits a second, and there is only so much of both. */
  lemma TurnPays(r: Round, all: set<EventId>, e: EventId, seconds: nat) returns (left: nat)
    requires TurnRan(r) && r.before.Keys <= all && e in r.before && Live(r.before[e])
    requires seconds <= LONGEST_WAIT && LocksEnd(r.before, r.now, seconds)
    ensures left <= LONGEST_WAIT && LocksEnd(r.after, r.end, left)
    ensures 32 * Potential(r.after, all) + left < 32 * Potential(r.before, all) + seconds
  {
    EmptyClaim(r);
    if r.claimed == [] {
      UnclaimedKept(r);
      left := seconds - 1;
    } else {
      BatchDrops(r, all);
      assert r.claimed[0] in r.claimed && r.claimed[0] in all * Members(r.claimed);
      LocksAfterClaims(r, seconds);
      left := LONGEST_WAIT;
    }
  }

  lemma {:induction false} TurnsPaid(rounds: seq<Round>, all: set<EventId>, e: EventId, j: nat) returns (left: nat)
    requires Rounds(rounds) && j < |rounds| && rounds[j].before.Keys <= all
    requires e in rounds[0].before && e in rounds[j].after && Live(rounds[j].after[e])
    requires LocksEnd(rounds[0].before, rounds[0].now, LONGEST_WAIT)
    ensures left <= LONGEST_WAIT && LocksEnd(rounds[j].after, rounds[j].end, left)
    ensures j + 1 + 32 * Potential(rounds[j].after, all) + left <= 32 * Potential(rounds[0].before, all) + LONGEST_WAIT
    decreases j
  {
    var r := rounds[j];
    assert RanAt(CacheFlaky, rounds, j);
    if j == 0 {
      LiveBefore(r, e);
      left := TurnPays(r, all, e, LONGEST_WAIT);
    } else {
      RowStays(rounds, e, j - 1);
      assert LinkedAt(rounds, j) && RanAt(CacheFlaky, rounds, j - 1);
      LiveAcross(rounds[j - 1], r, e);
      left := TurnsPaid(rounds, all, e, j - 1);
      left := NextTurnPays(rounds[j - 1], r, all, e, left);
    }
  }

  lemma NextTurnPays(was: Round, r: Round, all: set<EventId>, e: EventId, seconds: nat) returns (left: nat)
    requires TurnRan(r) && Follows(was, r) && r.before.Keys <= all && LiveAt(r.before, e)
    requires seconds <= LONGEST_WAIT && LocksEnd(was.after, was.end, seconds)
    ensures left <= LONGEST_WAIT && LocksEnd(r.after, r.end, left)
    ensures 32 * Potential(r.after, all) + left < 32 * Potential(was.after, all) + seconds
  {
    ArrivalsDrop(was.after, r.before, all);
    left := TurnPays(r, all, e, seconds);
  }

  /**
   * However the cache behaves and whatever rows arrive meanwhile: once the worker has taken 160 turns for every row the
   * table then has, all the rows it began with are processed or failed, after at most five claims each.
   */
  lemma {:induction false} Termination(rounds: seq<Round>)
    requires Rounds(rounds) && rounds != [] && LocksWithinLease(rounds[0].before, rounds[0].now)
    ensures var ids, last := rounds[0].before.Keys, rounds[|rounds| - 1].after;
            && ids <= last.Keys
            && ClaimsOf(rounds, ids) <= 5 * |ids|
            && (|rounds| >= 160 * |last| ==> forall e | e in ids :: !Live(last[e]))
  {
    var ids, last := rounds[0].before.Keys, rounds[|rounds| - 1].after;
    LongestWait();
    KeysKept(rounds);
    ClaimsPaid(rounds, ids);
    PotentialAtMost(rounds[0].before, ids);
    forall e | e in ids && Live(last[e]) ensures |rounds| < 160 * |last| {
      var left := TurnsPaid(rounds, last.Keys, e, |rounds| - 1);
      PotentialAtMost(rounds[0].before, last.Keys);
      PotentialAtMost(last, last.Keys);
    }
  }

  /** The round could have claimed the row, and did not. */
  predicate PassedOver(round: Round, e: EventId) {
    e in round.before && Eligible(round.before[e], round.now) && e !in round.claimed
  }

  function TimesPassedOver(rounds: seq<Round>, e: EventId): nat {
    if rounds == [] then 0
    else TimesPassedOver(rounds[..|rounds| - 1], e) + if PassedOver(rounds[|rounds| - 1], e) then 1 else 0
  }

  /** The rows the query would take before e. */
  function Ahead(rows: Rows, e: EventId): set<EventId>
    requires e in rows
  {
    set x | x in rows && x != e && ClaimedBefore(rows, x, e)
  }

  /** The rows that arrived did not arrive ahead of e. */
  predicate ArrivedBehind(was: Rows, now: Rows, e: EventId) {
    e in was && e in now && Ahead(now, e) <= was.Keys
  }

  predicate NoneAhead(rounds: seq<Round>, e: EventId) {
    forall i | 0 < i < |rounds| :: ArrivedBehind(rounds[i - 1].after, rounds[i].before, e)
  }

  lemma ArrivalKeepsAhead(was: Rows, now: Rows, e: EventId)
    requires Arrived(was, now) && ArrivedBehind(was, now, e)
    ensures Ahead(now, e) == Ahead(was, e)
  {}

  lemma {:induction false} AheadKept(rounds: seq<Round>, e: EventId)
    requires Rounds(rounds) && rounds != [] && e in rounds[0].before && NoneAhead(rounds, e)
    ensures e in rounds[|rounds| - 1].before && Ahead(rounds[|rounds| - 1].before, e) == Ahead(rounds[0].before, e)
  {
    var last := |rounds| - 1;
    assert RanAt(CacheFlaky, rounds, last);
    if last > 0 {
      Prefix(rounds, last);
      AheadKept(rounds[..last], e);
      assert RanAt(CacheFlaky, rounds, last - 1);
      BatchKeepsAhead(rounds[last - 1], e);
      assert LinkedAt(rounds, last);
      ArrivalKeepsAhead(rounds[last - 1].after, rounds[last].before, e);
    }
  }

  lemma BatchKeepsAhead(r: Round, e: EventId)
    requires TurnRan(r) && e in r.before
    ensures e in r.after && Ahead(r.after, e) == Ahead(r.before, e)
  {}

  /** A fetch that passes a row over claims a full batch of rows ahead of it. */
  lemma PassingClaims(r: Round, e: EventId)
    requires TurnRan(r) && PassedOver(r, e)
    ensures |Ahead(r.before, e) * Members(r.claimed)| == 16
  {
    var all := Claimable(r.before, r.now, {});
    DistinctSize(r.claimed);
    assert Members(r.claimed) <= all - {e};
    SubsetSize(Members(r.claimed), all - {e});
    assert Members(r.claimed) <= Ahead(r.before, e);
    assert Ahead(r.before, e) * Members(r.claimed) == Members(r.claimed);
  }

  lemma {:induction false} PassesAreClaims(rounds: seq<Round>, e: EventId)
    requires Rounds(rounds) && rounds != [] && e in rounds[0].before && NoneAhead(rounds, e)
    ensures 16 * TimesPassedOver(rounds, e) <= ClaimsOf(rounds, Ahead(rounds[0].before, e))
  {
    var last := |rounds| - 1;
    assert RanAt(CacheFlaky, rounds, last);
    AheadKept(rounds, e);
    if PassedOver(rounds[last], e) { PassingClaims(rounds[last], e); }
    if last > 0 {
      Prefix(rounds, last);
      PassesAreClaims(rounds[..last], e);
    } else {
      assert rounds[..last] == [];
    }
  }

  /** A row with k rows ahead of it is passed over by at most floor(5k / 16) fetches. */
  lemma {:induction false} BoundedOvertaking(rounds: seq<Round>, e: EventId)
    requires Rounds(rounds) && rounds != [] && e in rounds[0].before && NoneAhead(rounds, e)
    ensures TimesPassedOver(rounds, e) <= 5 * |Ahead(rounds[0].before, e)| / 16
  {
    var ahead := Ahead(rounds[0].before, e);
    PassesAreClaims(rounds, e);
    ClaimsPaid(rounds, ahead);
    PotentialAtMost(rounds[0].before, ahead);
  }

  /** The round finds one of the rows ready to be claimed. */
  predicate FindsOne(r: Round, ids: set<EventId>) {
    exists e :: e in ids && e in r.before && Eligible(r.before[e], r.now)
  }

  /** A round that finds one of the first rows ready claims one of them: this one, or some ahead of it. */
  lemma FoundIsClaimed(rounds: seq<Round>, ids: set<EventId>)
    requires Rounds(rounds) && rounds != [] && ids == rounds[0].before.Keys
    requires forall e | e in ids :: NoneAhead(rounds, e)
    requires FindsOne(rounds[|rounds| - 1], ids)
    ensures |ids * Members(rounds[|rounds| - 1].claimed)| >= 1
  {
    var r := rounds[|rounds| - 1];
    assert RanAt(CacheFlaky, rounds, |rounds| - 1);
    var e :| e in ids && e in r.before && Eligible(r.before[e], r.now);
    AheadKept(rounds, e);
    if e in r.claimed {
      assert e in ids * Members(r.claimed);
    } else {
      PassingClaims(r, e);
      SubsetSize(Ahead(r.before, e) * Members(r.claimed), ids * Members(r.claimed));
    }
  }

  lemma {:induction false} FoundAreClaims(rounds: seq<Round>, ids: set<EventId>)
    requires Rounds(rounds) && rounds != [] && ids == rounds[0].before.Keys
    requires forall e | e in ids :: NoneAhead(rounds, e)
    requires forall i | 0 <= i < |rounds| :: FindsOne(rounds[i], ids)
    ensures ClaimsOf(rounds, ids) >= |rounds|
  {
    var last := |rounds| - 1;
    assert RanAt(CacheFlaky, rounds, last);
    FoundIsClaimed(rounds, ids);
    if last > 0 {
      Prefix(rounds, last);
      FoundAreClaims(rounds[..last], ids);
    } else {
      assert rounds[..last] == [];
    }
  }

  lemma {:induction false} RowStays(rounds: seq<Round>, e: EventId, j: nat)
    requires Rounds(rounds) && j < |rounds| && e in rounds[0].before
    ensures e in rounds[j].before
  {
    if j > 0 {
      assert RanAt(CacheFlaky, rounds, j - 1);
      RowStays(rounds, e, j - 1);
      assert LinkedAt(rounds, j);
    }
  }

  /** A row that was there before and is live after a turn was live before it. */
  lemma LiveAcross(was: Round, r: Round, e: EventId)
    requires TurnRan(was) && TurnRan(r) && Follows(was, r) && e in was.before && LiveAt(r.after, e)
    ensures LiveAt(r.before, e) && LiveAt(was.after, e)
  {
    LiveBefore(r, e);
  }

  lemma LiveOneBack(rounds: seq<Round>, e: EventId, j: nat)
    requires Rounds(rounds) && j < |rounds| && e in rounds[0].before && LiveAt(rounds[j].after, e)
    ensures LiveAt(rounds[j].before, e) && (j > 0 ==> LiveAt(rounds[j - 1].after, e))
  {
    RowStays(rounds, e, j);
    assert RanAt(CacheFlaky, rounds, j);
    LiveBefore(rounds[j], e);
    if j > 0 {
      RowStays(rounds, e, j - 1);
      assert LinkedAt(rounds, j) && RanAt(CacheFlaky, rounds, j - 1);
      LiveAcross(rounds[j - 1], rounds[j], e);
    }
  }

  lemma {:induction false} LiveThroughout(rounds: seq<Round>, e: EventId, i: nat, j: nat)
    requires Rounds(rounds) && i <= j < |rounds| && e in rounds[0].before && LiveAt(rounds[j].after, e)
    ensures LiveAt(rounds[i].before, e)
    decreases j
  {
    LiveOneBack(rounds, e, j);
    if i < j { LiveThroughout(rounds, e, i, j - 1); }
  }

  predicate LiveAt(rows: Rows, e: EventId) {
    e in rows && Live(rows[e])
  }

  predicate SomeLive(rows: Rows, ids: set<EventId>) {
    exists e :: e in ids && LiveAt(rows, e)
  }

  /**
   * However many rows keep arriving, as long as none arrives ahead of the first n: if every turn finds one of the n
   * rows ready while one of them is live, then 5n turns leave all of them processed or failed.
   */
  lemma {:induction false} FirstRowsFinish(rounds: seq<Round>)
    requires Rounds(rounds) && rounds != []
    requires forall e | e in rounds[0].before :: NoneAhead(rounds, e)
    requires forall i | 0 <= i < |rounds| && SomeLive(rounds[i].before, rounds[0].before.Keys) ::
               FindsOne(rounds[i], rounds[0].before.Keys)
    ensures var ids, last := rounds[0].before.Keys, rounds[|rounds| - 1].after;
            ids <= last.Keys && (|rounds| >= 5 * |ids| ==> forall e | e in ids :: !Live(last[e]))
  {
    var ids, last := rounds[0].before.Keys, rounds[|rounds| - 1].after;
    KeysKept(rounds);
    forall e | e in ids && Live(last[e]) ensures |rounds| < 5 * |ids| {
      forall i | 0 <= i < |rounds| ensures FindsOne(rounds[i], ids) {
        LiveThroughout(rounds, e, i, |rounds| - 1);
      }
      FoundAreClaims(rounds, ids);
      ClaimsPaid(rounds, ids);
      PotentialAtMost(rounds[0].before, ids);
      PotentialAtMost(last, ids);
    }
  }

  lemma BatchKeepsSaturated(r: Round)
    requires TurnRan(r) && Saturated(r.before)
    ensures Saturated(r.after)
  {
    var e :| e in r.before && r.before[e].attempts >= MAX_INT32;
    assert e in r.after && r.after[e].attempts >= MAX_INT32;
  }

  /** The rounds are the turns of the worker, one for each arrival, each seeing the rows that arrived before it. */
  predicate RoundsOf(rounds: seq<Round>, arrivals: seq<Rows>, turns: nat) {
    |rounds| == turns <= |arrivals| && forall i | 0 <= i < turns :: arrivals[i].Keys <= rounds[i].before.Keys
  }

  /** After some turns: the rounds so far, and how they connect the table at the start with the table now. */
  ghost predicate RunAt(rounds: seq<Round>, arrivals: seq<Rows>, turns: nat, start: Rows, rows: Rows, now: nat) {
    && Rounds(rounds) && (RoundsOf(rounds, arrivals, turns) || Saturated(rows))
    && if rounds == [] then Arrived(start, rows)
       else
         var last := rounds[|rounds| - 1];
         Arrived(start, rounds[0].before) && Arrived(last.after, rows) && last.end <= now
  }

  lemma Arrivals(rows: Rows, more: Rows)
    requires AllFresh(more)
    ensures Arrived(rows, more + rows)
  {}

  lemma ArrivedTransitive(a: Rows, b: Rows, c: Rows)
    requires Arrived(a, b) && Arrived(b, c)
    ensures Arrived(a, c)
  {}

  lemma RoundsExtend(rounds: seq<Round>, r: Round)
    requires Rounds(rounds) && TurnRan(r)
    requires rounds != [] ==> Follows(rounds[|rounds| - 1], r)
    ensures Rounds(rounds + [r])
  {
    UnderExtend(CacheFlaky, rounds, r);
    forall i | 0 < i < |rounds + [r]| ensures LinkedAt(rounds + [r], i) {
      if i < |rounds| { assert LinkedAt(rounds, i); }
    }
  }

  lemma UnderExtend(c: Conditions, rounds: seq<Round>, r: Round)
    requires Under(c, rounds) && TurnUnder(c, r)
    ensures Under(c, rounds + [r])
  {
    forall i | 0 <= i < |rounds + [r]| ensures RanAt(c, rounds + [r], i) {
      if i < |rounds| { assert RanAt(c, rounds, i); }
    }
  }

  lemma RoundsOfExtend(rounds: seq<Round>, arrivals: seq<Rows>, turns: nat, r: Round)
    requires RoundsOf(rounds, arrivals, turns) && turns < |arrivals| && arrivals[turns].Keys <= r.before.Keys
    ensures RoundsOf(rounds + [r], arrivals, turns + 1)
  {}

  lemma RunStep(rounds: seq<Round>, arrivals: seq<Rows>, turns: nat, start: Rows, rows: Rows, now: nat, r: Round)
    requires RunAt(rounds, arrivals, turns, start, rows, now) && turns < |arrivals| && AllFresh(arrivals[turns])
    requires TurnRan(r) && r.before == arrivals[turns] + rows && now <= r.now
             && (Saturated(rows) ==> Saturated(r.after))
    ensures RunAt(rounds + [r], arrivals, turns + 1, start, r.after, r.end)
  {
    Arrivals(rows, arrivals[turns]);
    ArrivedTransitive(if rounds == [] then start else rounds[|rounds| - 1].after, rows, r.before);
    RoundsExtend(rounds, r);
    assert (rounds + [r])[0] == if rounds == [] then r else rounds[0];
    if RoundsOf(rounds, arrivals, turns) { RoundsOfExtend(rounds, arrivals, turns, r); }
  }

  /** One turn of the loop: a batch, and a pause when it finished nothing. */
  method Turn(table: Table, more: Rows) returns (ok: bool, round: Round)
    requires !table.conditions.AllFlaky?
    modifies table
    ensures round.before == more + old(table.rows) && table.rows == round.after
    ensures old(table.now) <= round.now && round.end == table.now >= old(table.now)
    ensures ok ==> TurnRan(round) && TurnUnder(table.conditions, round)
    ensures !ok ==> round.after == round.before && Saturated(table.rows)
    ensures Saturated(old(table.rows)) ==> Saturated(table.rows)
  {
    table.Arrive(more);
    ghost var saturated := Saturated(table.rows);
    var before, now := table.rows, table.now;
    var claimed, processed;
    ok, claimed, processed := ProcessBatch(table);
    if processed == 0 {
      table.Pass(SECOND);
    }
    round := Round(before, now, claimed, table.rows, processed, table.now);
    if ok { TurnWeaker(table.conditions, round); }
    if ok && saturated { BatchKeepsSaturated(round); }
  }

  /** OutboxWorker.Run, for as many turns as it is left running; new rows arrive before each turn. */
  method Run(table: Table, arrivals: seq<Rows>) returns (rounds: seq<Round>)
    requires !table.conditions.AllFlaky? && forall i | 0 <= i < |arrivals| :: AllFresh(arrivals[i])
    modifies table
    ensures RunAt(rounds, arrivals, |arrivals|, old(table.rows), table.rows, table.now)
    ensures Under(table.conditions, rounds)
  {
    rounds := [];
    var turn := 0;
    while turn < |arrivals|
      invariant Under(table.conditions, rounds)
      invariant turn <= |arrivals| && RunAt(rounds, arrivals, turn, old(table.rows), table.rows, table.now)
    {
      ghost var rows, now := table.rows, table.now;
      var ok, round := Turn(table, arrivals[turn]);
      if ok {
        RunStep(rounds, arrivals, turn, old(table.rows), rows, now, round);
        UnderExtend(table.conditions, rounds, round);
        rounds := rounds + [round];
      }
      turn := turn + 1;
    }
  }
}
