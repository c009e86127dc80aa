/** The code of the outbox worker over a table of its own, with the repository failing or not. */
module OutboxWorker {
  import opened Basics
  import opened Videos
  import opened Outbox
  import opened Backoff

  datatype Event = Event(id: EventId, kind: EventKind, attempts: nat)

  function Ids(events: seq<Event>): (ids: seq<EventId>)
    ensures |ids| == |events| && forall i | 0 <= i < |ids| :: ids[i] == events[i].id
  {
    seq(|events|, i requires 0 <= i < |events| => events[i].id)
  }

  /**
   * What processing a claim between two moments leaves of its row: processed, failed at the limit or as unsupported, or
   * released with its backoff counted from a moment in between.
   */
  predicate Settled(r: Row, r': Row, since: nat, until: nat) {
    && SameEvent(r, r')
    && (Live(r') ==>
          && Live(r) && r.attempts <= 4 && r'.processingAt.None? && r'.lockedUntil.Some?
          && since + RetryBackoff(r.attempts) <= r'.lockedUntil.value <= until + RetryBackoff(r.attempts))
    && (r'.failedAt.Some? ==> r.attempts >= 5 || r.kind.Unsupported?)
  }

  predicate SameEvent(r: Row, r': Row) {
    && r'.kind == r.kind && r'.video == r.video && r'.views == r.views && r'.createdAt == r.createdAt
    && r'.attempts == r.attempts
  }

  /** A claim given up: the row is released with attempts left, and failed without. */
  predicate GivenUp(r: Row, r': Row, since: nat, until: nat) {
    && Settled(r, r', since, until)
    && r'.processedAt == r.processedAt && (if r.attempts <= 4 then Live(r') else r'.failedAt.Some?)
  }

  /**
   * What may fail while a worker runs: nothing; every invalidation; invalidations and marks at will; any call at will.
   */
  datatype Conditions = AllWell | CacheDown | CacheFlaky | AllFlaky

  /** What becomes of a claimed row. Only when the statement that should settle the claim is lost, it stays claimed. */
  predicate Handled(c: Conditions, r: Row, r': Row, since: nat, until: nat) {
    && (Settled(r, r', since, until) || (c.AllFlaky? && r' == r))
    && match r.kind
       case InvalidateVideosList =>
         && (c.AllWell? ==> r'.processedAt.Some? && r'.failedAt == r.failedAt)
         && (c.CacheDown? ==> GivenUp(r, r', since, until))
       case Unsupported(_) =>
         r'.processedAt == r.processedAt && (r'.failedAt.Some? || (c.AllFlaky? && r' == r))
  }

  /** One batch: the rows the query picks are claimed, then each is handled; the others are not touched. */
  predicate BatchLeft(c: Conditions, rows: Rows, now: nat, claimed: seq<EventId>, rows': Rows, end: nat) {
    && Picks(rows, now, BATCH_SIZE, {}, claimed)
    && rows'.Keys == rows.Keys && now <= end
    && (forall e | e in rows && e !in claimed :: rows'[e] == rows[e])
    && (forall e | e in claimed :: Handled(c, Claimed(rows[e], now), rows'[e], now, end))
  }

  /** A batch with no repository call lost but marks: every claim is settled. */
  predicate BatchRan(rows: Rows, now: nat, claimed: seq<EventId>, rows': Rows, end: nat) {
    BatchLeft(CacheFlaky, rows, now, claimed, rows', end)
  }

  lemma BatchWeaker(c: Conditions, rows: Rows, now: nat, claimed: seq<EventId>, rows': Rows, end: nat)
    requires BatchLeft(c, rows, now, claimed, rows', end) && !c.AllFlaky?
    ensures BatchRan(rows, now, claimed, rows', end)
  {}

  /** The first row of a nonempty set in the order of the claiming query. */
  method FirstOf(rows: Rows, ids: set<EventId>) returns (first: EventId)
    requires ids != {} && ids <= rows.Keys
    ensures first in ids && forall e | e in ids && e != first :: ClaimedBefore(rows, first, e)
  {
    first :| first in ids;
    var seen, todo := {first}, ids - {first};
    while todo != {}
      invariant first in seen && seen + todo == ids
      invariant forall e | e in seen && e != first :: ClaimedBefore(rows, first, e)
    {
      var e :| e in todo;
      if ClaimedBefore(rows, e, first) {
        first := e;
      }
      seen, todo := seen + {e}, todo - {e};
    }
  }

  /** The candidates still to pick from, after the first rows were picked. */
  predicate Picking(rows: Rows, now: nat, picked: seq<EventId>, candidates: set<EventId>) {
    && Distinct(picked) && Members(picked) !! candidates && Members(picked) + candidates == Claimable(rows, now, {})
    && (forall e | e in picked :: e in rows && rows[e].attempts < MAX_INT32)
    && (forall e, later | e in picked && later in candidates :: ClaimedBefore(rows, e, later))
  }

  lemma PickingStep(rows: Rows, now: nat, picked: seq<EventId>, candidates: set<EventId>, e: EventId)
    requires Picking(rows, now, picked, candidates) && e in candidates && rows[e].attempts < MAX_INT32
    requires forall later | later in candidates && later != e :: ClaimedBefore(rows, e, later)
    ensures Picking(rows, now, picked + [e], candidates - {e})
  {}

  lemma PickingDone(rows: Rows, now: nat, limit: nat, picked: seq<EventId>, candidates: set<EventId>)
    requires Picking(rows, now, picked, candidates) && |picked| <= limit && (|picked| == limit || candidates == {})
    ensures Picks(rows, now, limit, {}, picked)
  {
    var all := Claimable(rows, now, {});
    DistinctSize(picked);
    assert |Members(picked) + candidates| == |picked| + |candidates|;
    forall e | e in picked ensures e in all { assert e in Members(picked); }
    forall later | later in all && later !in picked ensures later in candidates { assert later !in Members(picked); }
  }

  /** The rows the claiming query picks, first to last. */
  method PickRows(rows: Rows, now: nat, limit: nat) returns (ok: bool, picked: seq<EventId>)
    ensures ok ==> Picks(rows, now, limit, {}, picked)
    ensures ok ==> forall e, later | e in picked && later in rows && later !in picked && Eligible(rows[later], now) ::
      var first, next := rows[e].createdAt, rows[later].createdAt; first < next || (first == next && e < later)
    ensures ok || exists e :: e in Claimable(rows, now, {}) && rows[e].attempts >= MAX_INT32
  {
    var candidates := Claimable(rows, now, {});
    picked := [];
    while |picked| < limit && candidates != {}
      invariant |picked| <= limit && Picking(rows, now, picked, candidates)
      decreases candidates
    {
      assert candidates <= Claimable(rows, now, {});
      var e := FirstOf(rows, candidates);
      if rows[e].attempts >= MAX_INT32 {
        return false, picked;
      }
      PickingStep(rows, now, picked, candidates, e);
      picked, candidates := picked + [e], candidates - {e};
    }
    PickingDone(rows, now, limit, picked, candidates);
    ok := true;
  }

  /** A row as an insert leaves it. */
  predicate Fresh(r: Row) {
    Live(r) && r.processingAt.None? && r.lockedUntil.None? && r.attempts == 0
  }

  predicate AllFresh(rows: Rows) {
    forall e | e in rows :: Fresh(rows[e])
  }

  /** What the claiming query returned: distinct rows of the table, with their type and their counter one up. */
  predicate Fetched(rows: Rows, events: seq<Event>) {
    && Distinct(Ids(events))
    && forall i | 0 <= i < |events| ::
         && events[i].id in rows && events[i].kind == rows[events[i].id].kind
         && events[i].attempts == rows[events[i].id].attempts + 1
  }

  /** A counter at the top of INTEGER: the only reason for the claiming query itself to fail. */
  ghost predicate Saturated(rows: Rows) {
    exists e :: e in rows && rows[e].attempts >= MAX_INT32
  }

  /** The query claimed some batch that nobody will handle, because its reply was lost. */
  ghost predicate ClaimLost(rows: Rows, now: nat, limit: nat, rows': Rows) {
    exists batch :: Picks(rows, now, limit, {}, batch) && rows' == ClaimAll(rows, batch, now)
  }

  /**
   * The rows of the outbox and the clock of the database; nothing else writes to them while a batch runs. The
   * conditions say which calls can fail; a call that fails may have taken effect.
   */
  class Table {
    const conditions: Conditions
    var rows: Rows
    var now: nat

    constructor (conditions: Conditions, rows: Rows, now: nat)
      ensures this.conditions == conditions && this.rows == rows && this.now == now
    {
      this.conditions, this.rows, this.now := conditions, rows, now;
    }

    /** The invalidation of the list, as far as the worker sees it. */
    method Invalidate() returns (deleted: bool)
      ensures conditions.AllWell? ==> deleted
      ensures conditions.CacheDown? ==> !deleted
    {
      var answered: bool := *;
      deleted := conditions.AllWell? || (answered && !conditions.CacheDown?);
    }

    /** At least this much time passes. */
    method Pass(atLeast: nat)
      modifies this`now
      ensures now >= old(now) + atLeast
    {
      var more: int := *;
      now := now + atLeast + if more > 0 then more else 0;
    }

    /** Transactions elsewhere commit new rows. */
    method Arrive(more: Rows)
      modifies this`rows
      ensures rows == more + old(rows)
    {
      rows := more + rows;
    }

    /** The claiming query. It fails as a whole, without effect, when a counter would leave INTEGER. */
    method FetchUnprocessed(limit: nat) returns (ok: bool, events: seq<Event>)
      modifies this`rows
      ensures ok ==> Picks(old(rows), now, limit, {}, Ids(events)) && rows == ClaimAll(old(rows), Ids(events), now)
      ensures ok ==> Fetched(old(rows), events)
      ensures ok ==> forall i | 0 <= i < |events| ::
        && events[i].id in rows && rows[events[i].id].attempts == events[i].attempts
        && rows[events[i].id].lockedUntil == Some(now + 30 * SECOND) && rows[events[i].id].processingAt == Some(now)
      ensures !ok ==> events == []
      ensures !ok ==> rows == old(rows) || (conditions.AllFlaky? && ClaimLost(old(rows), now, limit, rows))
      ensures ok || conditions.AllFlaky? || Saturated(rows)
    {
      var picked: seq<EventId>;
      ok, picked := PickRows(rows, now, limit);
      var arrived: bool := *;
      if !ok || (conditions.AllFlaky? && !arrived) {
        return false, [];
      }
      var table := rows;
      forall e | e in picked ensures e in table {}
      rows := ClaimAll(table, picked, now);
      var replied: bool := *;
      if conditions.AllFlaky? && !replied {
        return false, [];
      }
      events := seq(|picked|, i requires 0 <= i < |picked| =>
        assert picked[i] in picked; Event(picked[i], table[picked[i]].kind, table[picked[i]].attempts + 1));
      assert Ids(events) == picked;
      forall i | 0 <= i < |events| ensures events[i].id in table {
        assert picked[i] in picked;
      }
    }

    /** A statement; when it may fail, it does so before or after it took effect. */
    method Run(statement: Statement, mayFail: bool) returns (ok: bool)
      modifies this`rows
      ensures rows == Execute(old(rows), statement, now) || (mayFail && !ok && rows == old(rows))
      ensures ok || mayFail
    {
      var arrived: bool := *;
      if mayFail && !arrived {
        return false;
      }
      rows := Execute(rows, statement, now);
      var replied: bool := *;
      ok := replied || !mayFail;
    }
  }

  /** The event's row is the only one that may have changed. */
  predicate OnlyRow(rows: Rows, rows': Rows, e: EventId) {
    e in rows && rows'.Keys == rows.Keys && rows' == rows[e := rows'[e]]
  }

  /**
   * releaseOrFail: give the claim back with a delay, or fail its row after the last attempt. A row that is no longer
   * live is left alone.
   */
  method ReleaseOrFail(table: Table, event: Event) returns (ok: bool)
    requires event.id in table.rows && event.attempts == table.rows[event.id].attempts
    modifies table
    ensures table.now >= old(table.now) && (ok || table.conditions.AllFlaky?)
    ensures OnlyRow(old(table.rows), table.rows, event.id)
    ensures var r, r' := old(table.rows)[event.id], table.rows[event.id];
            if Live(r) then GivenUp(r, r', old(table.now), table.now) || (!ok && r' == r) else r' == r
  {
    table.Pass(0);
    ok := table.Run(SettleStatement(event.id, event.attempts, table.now), table.conditions.AllFlaky?);
  }

  /** processEvent. */
  method ProcessEvent(table: Table, event: Event) returns (ok: bool)
    requires event.id in table.rows && Live(table.rows[event.id])
    requires event.attempts == table.rows[event.id].attempts && event.kind == table.rows[event.id].kind
    modifies table
    ensures table.now >= old(table.now)
    ensures OnlyRow(old(table.rows), table.rows, event.id)
    ensures Handled(table.conditions, old(table.rows)[event.id], table.rows[event.id], old(table.now), table.now)
    ensures Reported(table.conditions, event.kind, table.rows[event.id], ok)
  {
    table.Pass(0);
    if event.kind.Unsupported? {
      ok := table.Run(MarkFailed(event.id), table.conditions.AllFlaky?);
      return;
    }
    var deleted := table.Invalidate();
    if deleted {
      ok := table.Run(MarkProcessed(event.id), !table.conditions.AllWell?);
      if ok {
        return;
      }
    }
    var settled := ReleaseOrFail(table, event);
    ok := false;
  }

  /** What a claim reports, and what that means for its row. */
  predicate Reported(c: Conditions, kind: EventKind, r: Row, ok: bool) {
    match kind
    case InvalidateVideosList => (ok ==> r.processedAt.Some?) && (c.AllWell? ==> ok) && (c.CacheDown? ==> !ok)
    case Unsupported(_) => (ok ==> r.failedAt.Some?) && (!c.AllFlaky? ==> ok)
  }

  /** The claimed rows that are now processed or failed. */
  function Finished(rows: Rows, claimed: seq<EventId>): set<EventId> {
    set e | e in claimed && e in rows && !Live(rows[e])
  }

  /** The claimed rows of a type the worker does not know. */
  function Unknown(rows: Rows, claimed: seq<EventId>): set<EventId> {
    set e | e in claimed && e in rows && rows[e].kind.Unsupported?
  }

  /** The first n claims are handled, the others as the query left them; finished holds those reported as done. */
  predicate BatchAt(
    c: Conditions, before: Rows, start: nat, events: seq<Event>, n: nat, rows: Rows, now: nat, finished: set<EventId>)
    requires Fetched(before, events)
  {
    && n <= |events| && rows.Keys == before.Keys && start <= now
    && (forall e | e in before && e !in Ids(events) :: rows[e] == before[e])
    && (forall j | 0 <= j < n :: Handled(c, Claimed(before[events[j].id], start), rows[events[j].id], start, now))
    && (forall j | n <= j < |events| :: rows[events[j].id] == Claimed(before[events[j].id], start))
    && (forall e | e in finished :: e in Ids(events)[..n])
    && (forall j | 0 <= j < n :: Reported(c, events[j].kind, rows[events[j].id], events[j].id in finished))
  }

  lemma BatchStep(
    c: Conditions, before: Rows, start: nat, events: seq<Event>, n: nat, rows: Rows, now: nat, finished: set<EventId>,
    rows': Rows, now': nat, done: bool)
    requires Fetched(before, events) && BatchAt(c, before, start, events, n, rows, now, finished) && n < |events|
    requires now <= now' && OnlyRow(rows, rows', events[n].id)
    requires Handled(c, rows[events[n].id], rows'[events[n].id], now, now')
    requires Reported(c, events[n].kind, rows'[events[n].id], done)
    ensures var finished' := if done then finished + {events[n].id} else finished;
            BatchAt(c, before, start, events, n + 1, rows', now', finished')
    ensures events[n].id !in finished
  {
    var ids := Ids(events);
    assert forall j | 0 <= j < |ids| && j != n :: ids[j] != ids[n];
    assert ids[..n + 1] == ids[..n] + [ids[n]];
    forall j | 0 <= j < n + 1
      ensures Handled(c, Claimed(before[events[j].id], start), rows'[events[j].id], start, now')
    {
      var was := Claimed(before[events[j].id], start);
      if j < n {
        assert rows'[events[j].id] == rows[events[j].id];
        HandledWithin(c, was, rows[events[j].id], start, now, start, now');
      } else {
        HandledWithin(c, was, rows'[events[j].id], now, now', start, now');
      }
    }
    var finished' := if done then finished + {ids[n]} else finished;
    forall j | 0 <= j < n + 1 ensures Reported(c, events[j].kind, rows'[events[j].id], events[j].id in finished') {
      if j < n { assert rows'[events[j].id] == rows[events[j].id]; }
    }
  }

  lemma HandledWithin(c: Conditions, r: Row, r': Row, since: nat, until: nat, earlier: nat, later: nat)
    requires Handled(c, r, r', since, until) && earlier <= since && until <= later
    ensures Handled(c, r, r', earlier, later)
  {}

  /** The count of a batch, between what must have finished and what has. */
  predicate Counted(c: Conditions, rows: Rows, claimed: seq<EventId>, processed: nat) {
    && processed <= |Finished(rows, claimed)| && processed <= |claimed|
    && (!c.AllFlaky? ==> |Unknown(rows, claimed)| <= processed)
    && (c.AllWell? ==> processed == |claimed|)
    && (c.CacheDown? ==> processed == |Unknown(rows, claimed)|)
  }

  lemma BatchDone(
    c: Conditions, before: Rows, start: nat, events: seq<Event>, rows: Rows, now: nat, finished: set<EventId>)
    requires Fetched(before, events) && BatchAt(c, before, start, events, |events|, rows, now, finished)
    requires Picks(before, start, BATCH_SIZE, {}, Ids(events))
    ensures BatchLeft(c, before, start, Ids(events), rows, now)
    ensures Counted(c, rows, Ids(events), |finished|)
  {
    var ids := Ids(events);
    DistinctSize(ids);
    SubsetSize(finished, Finished(rows, ids));
    SubsetSize(finished, Members(ids));
    if !c.AllFlaky? { SubsetSize(Unknown(rows, ids), finished); }
    if c.AllWell? { assert finished == Members(ids); }
    if c.CacheDown? { assert finished == Unknown(rows, ids); }
  }

  /** ProcessBatch: claim, then handle each claim in turn, counting the ones that finished without an error. */
  method ProcessBatch(table: Table) returns (ok: bool, claimed: seq<EventId>, processed: nat)
    modifies table
    ensures table.now >= old(table.now)
    ensures ok ==> BatchLeft(table.conditions, old(table.rows), old(table.now), claimed, table.rows, table.now)
    ensures ok ==> |claimed| == Min(16, |Claimable(old(table.rows), old(table.now), {})|)
    ensures ok ==> Counted(table.conditions, table.rows, claimed, processed)
    ensures !ok ==> processed == 0
    ensures !ok ==> (
      || table.rows == old(table.rows)
      || (table.conditions.AllFlaky? && ClaimLost(old(table.rows), old(table.now), BATCH_SIZE, table.rows)))
    ensures ok || table.conditions.AllFlaky? || Saturated(table.rows)
  {
    var events: seq<Event>;
    ghost var before, start := table.rows, table.now;
    ok, events := table.FetchUnprocessed(BATCH_SIZE);
    claimed, processed := Ids(events), 0;
    if !ok {
      return;
    }
    ghost var finished: set<EventId> := {};
    var i := 0;
    while i < |events|
      invariant i <= |events| && |finished| == processed
      invariant BatchAt(table.conditions, before, start, events, i, table.rows, table.now, finished)
    {
      ghost var rows, now := table.rows, table.now;
      var done := ProcessEvent(table, events[i]);
      BatchStep(table.conditions, before, start, events, i, rows, now, finished, table.rows, table.now, done);
      if done {
        processed := processed + 1;
        finished := finished + {events[i].id};
      }
      i := i + 1;
    }
    BatchDone(table.conditions, before, start, events, table.rows, table.now, finished);
  }
}
