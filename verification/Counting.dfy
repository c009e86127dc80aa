/** Conservation over every run of the protocol: views against outbox rows and calls, claims against releases. */
module Counting {
  import opened Basics
  import opened Videos
  import opened Backoff
  import opened Protocol
  import opened ProtocolInvariant
  import opened Theorems

  /** The invalidation rows recorded for a video. */
  function RowsOf(s: State, id: VideoId): set<EventId> {
    set e | e in s.rows && s.rows[e].kind.InvalidateVideosList? && s.rows[e].video == id
  }

  function EventsOf(history: seq<Commit>, id: VideoId): set<EventId> {
    set i | 0 <= i < |history| && history[i].video == id :: history[i].event
  }

  predicate DistinctEvents(history: seq<Commit>) {
    forall i, j | 0 <= i < j < |history| :: history[i].event != history[j].event
  }

  lemma {:induction false} EventsCounted(history: seq<Commit>, id: VideoId)
    requires DistinctEvents(history)
    ensures |EventsOf(history, id)| == Increments(history, id)
  {
    if history == [] {
      assert EventsOf(history, id) == {};
    } else {
      var front, last := history[..|history| - 1], history[|history| - 1];
      EventsCounted(front, id);
      EventsSplit(history, id);
      assert last.event !in EventsOf(front, id);
    }
  }

  lemma EventsSplit(history: seq<Commit>, id: VideoId)
    requires history != []
    ensures var front, last := history[..|history| - 1], history[|history| - 1];
            EventsOf(history, id) == EventsOf(front, id) + if last.video == id then {last.event} else {}
  {}

  lemma RowsAreEvents(s: State, id: VideoId)
    requires Inv(s)
    ensures RowsOf(s, id) == EventsOf(s.history, id) && DistinctEvents(s.history)
  {
    forall e | e in RowsOf(s, id) ensures e in EventsOf(s.history, id) {
      assert Recorded(s, e);
      var i :| 0 <= i < |s.history| && s.history[i].event == e;
      assert CommitInv(s, i);
    }
    forall e | e in EventsOf(s.history, id) ensures e in RowsOf(s, id) {
      var i :| 0 <= i < |s.history| && s.history[i].video == id && s.history[i].event == e;
      assert CommitInv(s, i);
    }
  }

  /** A video's counter has grown by exactly the rows recorded for it; a missing video has none. */
  lemma ViewConservation(start: State, steps: seq<Step>, id: VideoId)
    requires Init(start) && Valid(start, steps)
    ensures var s := Exec(start, steps);
            && s.videos.Keys == start.videos.Keys
            && (id in start.videos ==>
                  s.videos[id] == start.videos[id].(views := start.videos[id].views + |RowsOf(s, id)|))
            && (id !in start.videos ==> RowsOf(s, id) == {})
  {
    var s := Exec(start, steps);
    ReachableInv(start, steps);
    ReplayCounts(s.initial, s.history);
    RowsAreEvents(s, id);
    EventsCounted(s.history, id);
    if id !in start.videos {
      forall i | 0 <= i < |s.history| ensures s.history[i].video != id {
        assert CommitInv(s, i);
      }
    }
  }

  lemma {:induction false} IncrementsGrow(history: seq<Commit>, id: VideoId, m: nat, n: nat)
    requires m <= n <= |history|
    ensures Increments(history[..m], id) <= Increments(history[..n], id)
    ensures m < n && history[n - 1].video == id ==> Increments(history[..m], id) < Increments(history[..n], id)
    decreases n - m
  {
    if m < n {
      IncrementsGrow(history, id, m, n - 1);
      assert history[..n][..n - 1] == history[..n - 1];
    }
  }

  lemma {:induction false} IncrementAt(history: seq<Commit>, id: VideoId, n: nat) returns (i: nat)
    requires 1 <= n <= Increments(history, id)
    ensures i < |history| && history[i].video == id && Increments(history[..i + 1], id) == n
    decreases |history|
  {
    var last := |history| - 1;
    if n == Increments(history, id) && history[last].video == id {
      i := last;
      assert history[..last + 1] == history;
    } else {
      i := IncrementAt(history[..last], id, n);
      assert history[..last][..i + 1] == history[..i + 1];
    }
  }

  /** The commit that recorded a row. */
  lemma IndexOf(s: State, e: EventId) returns (i: nat)
    requires Inv(s) && e in s.rows && s.rows[e].kind.InvalidateVideosList?
    ensures i < |s.history| && s.history[i].event == e && CommitInv(s, i)
  {
    assert Recorded(s, e);
    i :| 0 <= i < |s.history| && s.history[i].event == e;
    assert CommitInv(s, i);
  }

  predicate ValueRecorded(s: State, id: VideoId, views: nat) {
    exists e :: e in RowsOf(s, id) && s.rows[e].views == views
  }

  lemma RowInRange(s: State, id: VideoId, e: EventId)
    requires Inv(s) && e in RowsOf(s, id)
    ensures id in s.initial && s.initial[id].views < s.rows[e].views <= s.initial[id].views + Increments(s.history, id)
  {
    var i := IndexOf(s, e);
    assert s.history[..|s.history|] == s.history;
    IncrementsGrow(s.history, id, 0, i + 1);
    IncrementsGrow(s.history, id, i + 1, |s.history|);
  }

  lemma RowsDiffer(s: State, id: VideoId, e: EventId, e': EventId)
    requires Inv(s) && e in RowsOf(s, id) && e' in RowsOf(s, id) && e != e'
    ensures s.rows[e].views != s.rows[e'].views
  {
    var i := IndexOf(s, e);
    var j := IndexOf(s, e');
    IncrementsGrow(s.history, id, Min(i, j) + 1, Max(i, j) + 1);
  }

  /** The rows of a video carry each value its counter has taken, once each. */
  lemma ViewsRecordedOnce(start: State, steps: seq<Step>, id: VideoId)
    requires Init(start) && Valid(start, steps) && id in start.videos
    ensures var s := Exec(start, steps);
            && id in s.videos
            && (forall e | e in RowsOf(s, id) :: start.videos[id].views < s.rows[e].views <= s.videos[id].views)
            && (forall e, e' | e in RowsOf(s, id) && e' in RowsOf(s, id) && e != e' ::
               s.rows[e].views != s.rows[e'].views)
            && (forall views: nat | start.videos[id].views < views <= s.videos[id].views :: ValueRecorded(s, id, views))
  {
    var s := Exec(start, steps);
    ReachableInv(start, steps);
    ReplayCounts(s.initial, s.history);
    forall e | e in RowsOf(s, id) ensures start.videos[id].views < s.rows[e].views <= s.videos[id].views {
      RowInRange(s, id, e);
    }
    forall e, e' | e in RowsOf(s, id) && e' in RowsOf(s, id) && e != e' ensures s.rows[e].views != s.rows[e'].views {
      RowsDiffer(s, id, e, e');
    }
    forall views: nat | start.videos[id].views < views <= s.videos[id].views ensures ValueRecorded(s, id, views) {
      var i := IncrementAt(s.history, id, views - start.videos[id].views);
      assert CommitInv(s, i);
      assert s.history[i].event in RowsOf(s, id);
    }
  }

  function CallsFor(s: State, id: VideoId): set<CallId> {
    set c: CallId | c < |s.calls| && s.calls[c].Increment? && s.calls[c].video == id
  }

  function SuccessesFor(s: State, id: VideoId): set<CallId> {
    set c: CallId | c < |s.calls| && s.calls[c].Increment? && s.calls[c].video == id
      && s.calls[c].incrementPc.Succeeded?
  }

  /** The row a call's commit recorded. */
  function RecordOf(s: State, c: CallId): EventId {
    if c < |s.calls| && s.calls[c].Increment? && s.calls[c].commit.Some? && s.calls[c].commit.value < |s.history|
    then s.history[s.calls[c].commit.value].event else 0
  }

  /** The call whose commit recorded the row. */
  ghost function CallerOf(s: State, e: EventId): CallId {
    if Recorded(s, e) then var i :| 0 <= i < |s.history| && s.history[i].event == e; s.history[i].caller else 0
  }

  lemma CallerKnown(s: State, i: nat)
    requires Inv(s) && i < |s.history|
    ensures CallerOf(s, s.history[i].event) == s.history[i].caller
  {}

  lemma SuccessesRecorded(s: State, id: VideoId)
    requires Inv(s)
    ensures |SuccessesFor(s, id)| <= |RowsOf(s, id)|
  {
    var recorded := map c | c in SuccessesFor(s, id) :: RecordOf(s, c);
    forall c | c in SuccessesFor(s, id) ensures recorded[c] in RowsOf(s, id) && CallerOf(s, recorded[c]) == c {
      assert CallInv(s, c);
      assert CommitInv(s, s.calls[c].commit.value);
      CallerKnown(s, s.calls[c].commit.value);
    }
    InjectionBound(SuccessesFor(s, id), RowsOf(s, id), recorded);
  }

  lemma RowsCalled(s: State, id: VideoId)
    requires Inv(s)
    ensures |RowsOf(s, id)| <= |CallsFor(s, id)|
  {
    var caller := map e | e in RowsOf(s, id) :: CallerOf(s, e);
    forall e | e in RowsOf(s, id) ensures caller[e] in CallsFor(s, id) && RecordOf(s, caller[e]) == e {
      var i := IndexOf(s, e);
      CallerKnown(s, i);
      assert CallInv(s, s.history[i].caller);
    }
    InjectionBound(RowsOf(s, id), CallsFor(s, id), caller);
  }

  /** Every successful call counted a view and no call counted two: successes <= recorded views <= calls. */
  lemma CallsBracketViews(start: State, steps: seq<Step>, id: VideoId)
    requires Init(start) && Valid(start, steps)
    ensures var s := Exec(start, steps);
            |SuccessesFor(s, id)| <= |RowsOf(s, id)| <= |CallsFor(s, id)|
  {
    ReachableInv(start, steps);
    SuccessesRecorded(Exec(start, steps), id);
    RowsCalled(Exec(start, steps), id);
  }

  /** The call is a request to release the row, made by the call that handled one of its claims. */
  predicate IsRelease(s: State, c: CallId, e: EventId) {
    && c < |s.calls| && s.calls[c].Sql? && s.calls[c].statement.Release? && s.calls[c].statement.event == e
    && s.calls[c].issuer < |s.calls| && s.calls[s.calls[c].issuer].Handle?
  }

  function ClaimAttempts(s: State, c: CallId, e: EventId): nat
    requires IsRelease(s, c, e)
  {
    s.calls[s.calls[c].issuer].attempts
  }

  /** Releases of the row requested by the first n calls, executed or not. */
  function ReleasesRequested(s: State, e: EventId, n: nat): nat {
    if n == 0 then 0 else ReleasesRequested(s, e, n - 1) + if IsRelease(s, n - 1, e) then 1 else 0
  }

  /** The retry delays those releases asked for. */
  function DelayRequested(s: State, e: EventId, n: nat): nat {
    if n == 0 then 0
    else DelayRequested(s, e, n - 1) + if IsRelease(s, n - 1, e) then RetryBackoff(ClaimAttempts(s, n - 1, e)) else 0
  }

  /** Whether this call releases the row for a claim with the given attempts value. */
  function Hit(s: State, c: CallId, e: EventId, attempts: nat): nat {
    if IsRelease(s, c, e) && ClaimAttempts(s, c, e) == attempts then 1 else 0
  }

  function Tally(s: State, e: EventId, n: nat, attempts: nat): nat {
    if n == 0 then 0 else Tally(s, e, n - 1, attempts) + Hit(s, n - 1, e, attempts)
  }

  /** Two releases of a row come from claims with different attempts values. */
  lemma ReleasesDiffer(s: State, c: CallId, c': CallId, e: EventId)
    requires Inv(s) && IsRelease(s, c, e) && IsRelease(s, c', e) && c != c'
    ensures ClaimAttempts(s, c, e) != ClaimAttempts(s, c', e)
  {
    assert CallInv(s, c) && CallInv(s, c');
  }

  lemma {:induction false} TallyAtMostOne(s: State, e: EventId, n: nat, attempts: nat)
    requires Inv(s)
    ensures Tally(s, e, n, attempts) <= 1
    ensures Tally(s, e, n, attempts) == 1 ==> exists c: CallId :: c < n && Hit(s, c, e, attempts) == 1
  {
    if n > 0 {
      TallyAtMostOne(s, e, n - 1, attempts);
      if Tally(s, e, n - 1, attempts) == 1 {
        var c: CallId :| c < n - 1 && Hit(s, c, e, attempts) == 1;
        if IsRelease(s, n - 1, e) { ReleasesDiffer(s, c, n - 1, e); }
      } else if Hit(s, n - 1, e, attempts) == 1 {
        assert n - 1 < n;
      }
    }
  }

  /** The delays of the releases made for claims with one, two, three and four attempts. */
  function TalliedDelay(s: State, e: EventId, n: nat): nat {
    Multiple(Tally(s, e, n, 1), RetryBackoff(1)) + Multiple(Tally(s, e, n, 2), RetryBackoff(2))
    + Multiple(Tally(s, e, n, 3), RetryBackoff(3)) + Multiple(Tally(s, e, n, 4), RetryBackoff(4))
  }

  lemma ReleaseWithinLimit(s: State, c: CallId, e: EventId)
    requires Inv(s) && IsRelease(s, c, e)
    ensures 1 <= ClaimAttempts(s, c, e) <= 4
  {
    assert CallInv(s, c) && CallInv(s, s.calls[c].issuer);
  }

  lemma {:induction false} ReleasesTallied(s: State, e: EventId, n: nat)
    requires Inv(s)
    ensures ReleasesRequested(s, e, n) == Tally(s, e, n, 1) + Tally(s, e, n, 2) + Tally(s, e, n, 3) + Tally(s, e, n, 4)
    ensures DelayRequested(s, e, n) == TalliedDelay(s, e, n)
  {
    if n > 0 {
      ReleasesTallied(s, e, n - 1);
      if IsRelease(s, n - 1, e) { ReleaseWithinLimit(s, n - 1, e); }
    }
  }

  /** Whatever workers do, a row is released at most four times, for fifteen seconds of retry delay in all. */
  lemma AtMostFourReleases(start: State, steps: seq<Step>, e: EventId)
    requires Init(start) && Valid(start, steps)
    ensures var s := Exec(start, steps);
            ReleasesRequested(s, e, |s.calls|) <= 4 && DelayRequested(s, e, |s.calls|) <= 15 * SECOND
  {
    var s := Exec(start, steps);
    ReachableInv(start, steps);
    ReleasesTallied(s, e, |s.calls|);
    TallyAtMostOne(s, e, |s.calls|, 1);
    TallyAtMostOne(s, e, |s.calls|, 2);
    TallyAtMostOne(s, e, |s.calls|, 3);
    TallyAtMostOne(s, e, |s.calls|, 4);
    FirstBackoffs();
  }
}
