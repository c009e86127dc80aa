/** Rows of outbox_events and the SQL statements that move them. Each statement is one atomic step. */
module Outbox {
  import opened Basics
  import opened Videos
  import opened Backoff

  const LEASE: nat := 30 * SECOND
  const MAX_ATTEMPTS: nat := 5
  const BATCH_SIZE: nat := 16

  datatype EventKind = InvalidateVideosList | Unsupported(name: string)

  datatype Row = Row(
    kind: EventKind, video: VideoId, views: nat, createdAt: int,
    processedAt: Option<nat>, processingAt: Option<nat>, lockedUntil: Option<nat>, failedAt: Option<nat>,
    attempts: nat)

  type Rows = map<EventId, Row>

  function NewRow(kind: EventKind, video: VideoId, views: nat, createdAt: int): Row {
    Row(kind, video, views, createdAt, None, None, None, None, 0)
  }

  predicate Live(r: Row) {
    r.processedAt.None? && r.failedAt.None?
  }

  /** The WHERE clause of the claiming query. */
  predicate Eligible(r: Row, now: nat) {
    Live(r) && (r.lockedUntil.None? || r.lockedUntil.value < now)
  }

  /** ORDER BY created_at, id. */
  predicate ClaimedBefore(rows: Rows, a: EventId, b: EventId)
    requires a in rows && b in rows
  {
    rows[a].createdAt < rows[b].createdAt || (rows[a].createdAt == rows[b].createdAt && a < b)
  }

  /** The rows the claiming query can see: eligible, and not row-locked by another transaction (SKIP LOCKED). */
  function Claimable(rows: Rows, now: nat, locked: set<EventId>): set<EventId> {
    set e | e in rows && Eligible(rows[e], now) && e !in locked
  }

  predicate Distinct<T(==)>(xs: seq<T>) {
    forall i, j | 0 <= i < j < |xs| :: xs[i] != xs[j]
  }

  /**
   * What one execution of the claiming query may return: the first rows of its order, up to the limit. RETURNING
   * promises no order. A row whose counter is at the top of INTEGER makes the whole statement fail, so none is picked.
   */
  predicate Picks(rows: Rows, now: nat, limit: nat, locked: set<EventId>, batch: seq<EventId>) {
    && Distinct(batch)
    && (forall e | e in batch :: e in Claimable(rows, now, locked) && rows[e].attempts < MAX_INT32)
    && |batch| == Min(limit, |Claimable(rows, now, locked)|)
    && (forall e, later | e in batch && later in Claimable(rows, now, locked) && later !in batch ::
          ClaimedBefore(rows, e, later))
  }

  function Claimed(r: Row, now: nat): Row {
    r.(processingAt := Some(now), lockedUntil := Some(now + LEASE), attempts := r.attempts + 1)
  }

  function ClaimAll(rows: Rows, batch: seq<EventId>, now: nat): Rows {
    map e | e in rows :: if e in batch then Claimed(rows[e], now) else rows[e]
  }

  datatype Statement =
    | MarkProcessed(event: EventId)
    | MarkFailed(event: EventId)
    | Release(event: EventId, until: nat)

  /** releaseOrFail: the statement that gives a claim back, or fails its row after the last attempt. */
  function SettleStatement(event: EventId, attempts: nat, now: nat): Statement {
    if attempts >= MAX_ATTEMPTS then MarkFailed(event) else Release(event, now + RetryBackoff(attempts))
  }

  function Updated(r: Row, statement: Statement, now: nat): Row {
    match statement
    case MarkProcessed(_) =>
      if r.processedAt.None? then r.(processedAt := Some(now), processingAt := None, lockedUntil := None) else r
    case MarkFailed(_) =>
      if Live(r) then r.(failedAt := Some(now), processingAt := None, lockedUntil := None) else r
    case Release(_, until) =>
      if Live(r) then r.(processingAt := None, lockedUntil := Some(until)) else r
  }

  function Execute(rows: Rows, statement: Statement, now: nat): Rows {
    var e := statement.event;
    if e in rows then rows[e := Updated(rows[e], statement, now)] else rows
  }

  /** What holds of every row at every moment. */
  predicate RowInv(r: Row) {
    && (!Live(r) ==> r.processingAt.None? && r.lockedUntil.None?)
    && (r.processingAt.Some? ==> Live(r) && r.lockedUntil.Some? && r.attempts >= 1)
  }

  /** No live row is locked for longer than a lease from now. */
  predicate LocksWithinLease(rows: Rows, now: nat) {
    forall e | e in rows && Live(rows[e]) && rows[e].lockedUntil.Some? :: rows[e].lockedUntil.value <= now + LEASE
  }

  /** How a row may change over any stretch of time: processed is final, and failed can only become processed. */
  predicate Advances(r: Row, r': Row) {
    && r'.kind == r.kind && r'.video == r.video && r'.views == r.views && r'.createdAt == r.createdAt
    && r.attempts <= r'.attempts
    && (r.processedAt.Some? ==> r' == r)
    && (r.failedAt.Some? ==>
          r'.failedAt == r.failedAt && r'.attempts == r.attempts && (r' == r || r'.processedAt.Some?))
  }

  predicate RowsAdvance(rows: Rows, rows': Rows) {
    forall e | e in rows :: e in rows' && Advances(rows[e], rows'[e])
  }

  lemma StatementsAdvance(rows: Rows, statement: Statement, now: nat)
    requires forall e | e in rows :: RowInv(rows[e])
    ensures var rows' := Execute(rows, statement, now);
            rows'.Keys == rows.Keys && RowsAdvance(rows, rows') && forall e | e in rows' :: RowInv(rows'[e])
  {}

  lemma ClaimsAdvance(rows: Rows, batch: seq<EventId>, now: nat)
    requires forall e | e in rows :: RowInv(rows[e])
    requires forall e | e in batch :: e in rows && Live(rows[e])
    ensures var rows' := ClaimAll(rows, batch, now);
            rows'.Keys == rows.Keys && RowsAdvance(rows, rows') && forall e | e in rows' :: RowInv(rows'[e])
  {}

  function Members<T>(xs: seq<T>): set<T> {
    set x | x in xs
  }

  lemma {:induction false} DistinctSize<T>(xs: seq<T>)
    requires Distinct(xs)
    ensures |Members(xs)| == |xs|
  {
    if xs != [] {
      var front, last := xs[..|xs| - 1], xs[|xs| - 1];
      DistinctSize(front);
      assert Members(xs) == Members(front) + {last};
      assert last !in front;
    }
  }

  lemma SameSizeSubset<T>(a: set<T>, b: set<T>)
    requires a <= b && |a| == |b|
    ensures a == b
  {
    assert |b - a| == |b| - |a|;
  }

  /** The query decides which rows are claimed; only their order is left open. */
  lemma PicksUnique(rows: Rows, now: nat, limit: nat, locked: set<EventId>, a: seq<EventId>, b: seq<EventId>)
    requires Picks(rows, now, limit, locked, a) && Picks(rows, now, limit, locked, b)
    ensures Members(a) == Members(b)
  {
    DistinctSize(a);
    DistinctSize(b);
    // A row picked only by a comes before every claimable row that a leaves out.
    forall x, y | x in a && x !in b && y in b ensures y in a {
      assert x in Claimable(rows, now, locked) && y in Claimable(rows, now, locked);
    }
    if Members(a) <= Members(b) {
      SameSizeSubset(Members(a), Members(b));
    } else {
      var x :| x in a && x !in b;
      SameSizeSubset(Members(b), Members(a));
    }
  }
}
