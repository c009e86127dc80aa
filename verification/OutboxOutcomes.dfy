/** What the single worker makes of the rows, when nothing fails and when every invalidation does. */
module OutboxOutcomes {
  import opened Videos
  import opened Outbox
  import opened OutboxWorker
  import opened OutboxProgress

  predicate Known(rows: Rows, e: EventId) {
    e in rows && rows[e].kind.InvalidateVideosList?
  }

  predicate FailedIn(rows: Rows, e: EventId) {
    e in rows && rows[e].failedAt.Some?
  }

  /** When nothing fails, a row of the known type that has failed had failed before the first turn. */
  lemma {:induction false} NoneFails(rounds: seq<Round>, e: EventId, j: nat)
    requires Linked(rounds) && Under(AllWell, rounds) && j < |rounds|
    requires Known(rounds[j].after, e) && FailedIn(rounds[j].after, e)
    ensures FailedIn(rounds[0].before, e)
    decreases j
  {
    var r := rounds[j];
    assert RanAt(AllWell, rounds, j);
    assert FailedIn(r.before, e) by {
      if e in r.claimed { assert Handled(AllWell, Claimed(r.before[e], r.now), r.after[e], r.now, r.end); }
    }
    if j > 0 {
      assert LinkedAt(rounds, j) && RanAt(AllWell, rounds, j - 1);
      NoneFails(rounds, e, j - 1);
    }
  }

  /** When nothing fails, the turn that claims a row of the known type processes it. */
  lemma ClaimProcesses(r: Round, e: EventId)
    requires TurnUnder(AllWell, r) && e in r.claimed && Known(r.before, e)
    ensures e in r.after && r.after[e].processedAt.Some? && r.processed == |r.claimed|
  {
    assert Handled(AllWell, Claimed(r.before[e], r.now), r.after[e], r.now, r.end);
  }

  /**
   * With a working cache and no call lost, no row of the known type fails, and in the end all that were live at the
   * start are processed.
   */
  lemma {:induction false} WellRunProcesses(rounds: seq<Round>, e: EventId)
    requires Rounds(rounds) && rounds != [] && Under(AllWell, rounds)
    ensures var first, last := rounds[0].before, rounds[|rounds| - 1].after;
            && (Known(last, e) && FailedIn(last, e) ==> FailedIn(first, e))
            && (Known(first, e) && Live(first[e]) && LocksWithinLease(first, rounds[0].now) && |rounds| >= 160 * |last|
                ==> e in last && last[e].processedAt.Some?)
  {
    var first, last := rounds[0].before, rounds[|rounds| - 1].after;
    if Known(last, e) && FailedIn(last, e) { NoneFails(rounds, e, |rounds| - 1); }
    if Known(first, e) && Live(first[e]) && LocksWithinLease(first, rounds[0].now) && |rounds| >= 160 * |last| {
      Termination(rounds);
      KindKept(rounds, e, |rounds| - 1);
    }
  }

  lemma {:induction false} KindKept(rounds: seq<Round>, e: EventId, j: nat)
    requires Rounds(rounds) && j < |rounds| && Known(rounds[0].before, e)
    ensures Known(rounds[j].before, e) && Known(rounds[j].after, e)
    decreases j
  {
    assert RanAt(CacheFlaky, rounds, j);
    if j > 0 {
      KindKept(rounds, e, j - 1);
      assert LinkedAt(rounds, j);
    }
    if e in rounds[j].claimed {
      assert Settled(Claimed(rounds[j].before[e], rounds[j].now), rounds[j].after[e], rounds[j].now, rounds[j].end);
    }
  }

  /** A row no invalidation of which succeeds, after so many claims. */
  predicate Tried(rows: Rows, e: EventId, claims: nat) {
    && Known(rows, e) && rows[e].attempts == claims <= 5 && rows[e].processedAt.None?
    && (rows[e].failedAt.Some? <==> claims == 5)
  }

  lemma TriedAgain(r: Round, e: EventId, claims: nat)
    requires TurnUnder(CacheDown, r) && Tried(r.before, e, claims)
    ensures Tried(r.after, e, claims + |{e} * Members(r.claimed)|)
  {
    if e in r.claimed {
      assert {e} * Members(r.claimed) == {e};
      assert Handled(CacheDown, Claimed(r.before[e], r.now), r.after[e], r.now, r.end);
      assert e in Claimable(r.before, r.now, {});
    } else {
      assert {e} * Members(r.claimed) == {};
    }
  }

  lemma {:induction false} TriedThroughout(rounds: seq<Round>, e: EventId, j: nat)
    requires Linked(rounds) && j < |rounds| && Under(CacheDown, rounds) && Tried(rounds[0].before, e, 0)
    ensures Tried(rounds[j].after, e, ClaimsOf(rounds[..j + 1], {e}))
    decreases j
  {
    assert rounds[..j + 1][..j] == rounds[..j];
    if j > 0 {
      TriedThroughout(rounds, e, j - 1);
      assert LinkedAt(rounds, j);
    }
    assert RanAt(CacheDown, rounds, j);
    TriedAgain(rounds[j], e, ClaimsOf(rounds[..j], {e}));
  }

  lemma {:induction false} ClaimsSplit(rounds: seq<Round>, ids: set<EventId>, e: EventId)
    requires e in ids
    ensures ClaimsOf(rounds, ids) == ClaimsOf(rounds, ids - {e}) + ClaimsOf(rounds, {e})
  {
    if rounds != [] {
      var last := Members(rounds[|rounds| - 1].claimed);
      ClaimsSplit(rounds[..|rounds| - 1], ids, e);
      assert ids * last == (ids - {e}) * last + {e} * last;
    }
  }

  lemma {:induction false} FiveEach(rounds: seq<Round>, ids: set<EventId>)
    requires forall e | e in ids :: ClaimsOf(rounds, {e}) == 5
    ensures ClaimsOf(rounds, ids) == 5 * |ids|
    decreases ids
  {
    if ids == {} {
      ClaimsOfNone(rounds);
    } else {
      var e :| e in ids;
      ClaimsSplit(rounds, ids, e);
      FiveEach(rounds, ids - {e});
    }
  }

  lemma {:induction false} ClaimsOfNone(rounds: seq<Round>)
    ensures ClaimsOf(rounds, {}) == 0
  {
    if rounds != [] {
      ClaimsOfNone(rounds[..|rounds| - 1]);
      assert {} * Members(rounds[|rounds| - 1].claimed) == {};
    }
  }

  /** The rows are as inserts left them, each asking for an invalidation. */
  predicate AllToDo(rows: Rows) {
    forall e | e in rows :: Fresh(rows[e]) && Known(rows, e)
  }

  /**
   * With every invalidation failing, a row fails by its fifth claim and not before, and is never processed; so the 5n
   * claims that n rows can take are all taken.
   */
  lemma {:induction false} DownRunFails(rounds: seq<Round>)
    requires Rounds(rounds) && rounds != [] && Under(CacheDown, rounds) && AllToDo(rounds[0].before)
    ensures var ids, last := rounds[0].before.Keys, rounds[|rounds| - 1].after;
            && (forall e | e in ids ::
                  && e in last && last[e].processedAt.None? && last[e].attempts == ClaimsOf(rounds, {e}) <= 5
                  && (last[e].failedAt.Some? <==> ClaimsOf(rounds, {e}) == 5))
            && (|rounds| >= 160 * |last| ==>
                  ClaimsOf(rounds, ids) == 5 * |ids| && forall e | e in ids :: FailedIn(last, e))
  {
    var ids, last := rounds[0].before.Keys, rounds[|rounds| - 1].after;
    forall e | e in ids ensures Tried(last, e, ClaimsOf(rounds, {e})) {
      TriedThroughout(rounds, e, |rounds| - 1);
      assert rounds[..|rounds|] == rounds;
    }
    if |rounds| >= 160 * |last| {
      Termination(rounds);
      forall e | e in ids ensures ClaimsOf(rounds, {e}) == 5 {
        assert Tried(last, e, ClaimsOf(rounds, {e}));
      }
      FiveEach(rounds, ids);
    }
  }
}
