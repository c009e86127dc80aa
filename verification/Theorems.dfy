/** What the list cache and the outbox guarantee over every run of the protocol. */
module Theorems {
  import opened Basics
  import opened Videos
  import opened Outbox
  import opened Backoff
  import opened Protocol
  import opened ProtocolInvariant
  import opened ProtocolSteps
  import opened DatabaseSteps

  /** The list is the listing of the database after some of its commits, the first n among them. */
  ghost predicate HoldsCommits(s: State, videos: seq<Video>, n: nat) {
    exists at :: n <= at <= |s.history| && IsListing(Replay(s.initial, s.history[..at]), videos)
  }

  lemma ReachableInv(start: State, steps: seq<Step>)
    requires Init(start) && Valid(start, steps)
    ensures Inv(Exec(start, steps)) && Evolves(start, Exec(start, steps))
  {
    InitInv(start);
    RunKeepsInv(start, steps);
  }

  predicate AllProcessed(s: State) {
    forall e | e in s.rows && s.rows[e].kind.InvalidateVideosList? :: s.rows[e].processedAt.Some?
  }

  /** The row of the newest commit is processed, if there is a commit. */
  predicate NewestProcessed(s: State) {
    s.history == [] ||
      var e := s.history[|s.history| - 1].event; e in s.rows && s.rows[e].processedAt.Some?
  }

  /**
   * Once the row of the newest commit is processed, whatever became of the others, a well-formed cached payload is the
   * current listing.
   */
  lemma NewestCoherence(start: State, steps: seq<Step>, listing: seq<Video>)
    requires Init(start) && Valid(start, steps)
    requires NewestProcessed(Exec(start, steps))
    requires IsListing(Exec(start, steps).videos, listing)
    requires Exec(start, steps).entry.Some? && Exec(start, steps).entry.value.payload.Listed?
    ensures Exec(start, steps).entry.value.payload.snapshot.videos == listing
  {
    var s := Exec(start, steps);
    ReachableInv(start, steps);
    if s.history != [] {
      assert CommitInv(s, |s.history| - 1);
    }
    var snapshot := s.entry.value.payload.snapshot;
    assert s.history[..snapshot.at] == s.history;
    ReplayCounts(s.initial, s.history);
    ListingUnique(s.videos, snapshot.videos, listing);
  }

  /** Once every invalidation row is processed, a well-formed cached payload is the current listing. */
  lemma QuiescentCoherence(start: State, steps: seq<Step>, listing: seq<Video>)
    requires Init(start) && Valid(start, steps)
    requires AllProcessed(Exec(start, steps))
    requires IsListing(Exec(start, steps).videos, listing)
    requires Exec(start, steps).entry.Some? && Exec(start, steps).entry.value.payload.Listed?
    ensures Exec(start, steps).entry.value.payload.snapshot.videos == listing
  {
    var s := Exec(start, steps);
    ReachableInv(start, steps);
    if s.history != [] { assert CommitInv(s, |s.history| - 1); }
    NewestCoherence(start, steps, listing);
  }

  /** The call could still store a snapshot, and that snapshot lacks one of the first n commits. */
  predicate StaleLoader(s: State, c: CallId, n: nat) {
    && Executing(s, c) && s.calls[c].Get?
    && (s.calls[c].getPc.Loaded? || s.calls[c].getPc.Lost?) && s.calls[c].getPc.snapshot.at < n
  }

  /**
   * Once the two commands of an invalidation have executed, and from then on: the cached list holds every commit made
   * before that invalidation began, and a loader that missed one of them fails its compare-and-set.
   */
  lemma VersionFence(start: State, before: seq<Step>, d: CallId, after: seq<Step>)
    requires Init(start) && Valid(start, before) && DelAt(Exec(start, before), d, Executed)
    requires Valid(Exec(start, before), after)
    ensures var covers := Exec(start, before).calls[d].covers;
            var s := Exec(Exec(start, before), after);
            && (s.entry.Some? && s.entry.value.payload.Listed? ==>
               HoldsCommits(s, s.entry.value.payload.snapshot.videos, covers))
            && (forall c | StaleLoader(s, c, covers) ::
                  Enabled(s, OfGet(c, CompareAndSet)) && Apply(s, OfGet(c, CompareAndSet)).entry == s.entry)
  {
    var mid := Exec(start, before);
    var s := Exec(mid, after);
    ReachableInv(start, before);
    RunKeepsInv(mid, after);
    assert CallInv(mid, d);
    assert mid.calls[d].covers <= s.fence;
    forall c | StaleLoader(s, c, mid.calls[d].covers)
      ensures Enabled(s, OfGet(c, CompareAndSet)) && Apply(s, OfGet(c, CompareAndSet)).entry == s.entry
    {
      StaleStoreFails(s, c);
    }
  }

  lemma StaleStoreFails(s: State, c: CallId)
    requires Inv(s) && StaleLoader(s, c, s.fence)
    ensures GetEnabled(s, c, CompareAndSet) && ApplyGet(s, c, CompareAndSet).entry == s.entry
  {
    assert CallInv(s, c);
  }

  /** Every store that passes the version check runs within d of the read of what it stores. */
  predicate PromptStores(s: State, steps: seq<Step>, d: nat)
    requires Valid(s, steps)
    decreases |steps|
  {
    steps == [] || (
      && (steps[0].OfGet? && steps[0].getAct.CompareAndSet? ==>
            var pc := s.calls[steps[0].call].getPc;
            pc.version == Counter(s.version) ==> s.now <= pc.snapshot.readAt + d)
      && PromptStores(Apply(s, steps[0]), steps[1..], d))
  }

  lemma {:induction false} PromptLag(s: State, steps: seq<Step>, d: nat)
    requires Valid(s, steps) && PromptStores(s, steps, d) && s.lag <= d
    ensures Exec(s, steps).lag <= d
    decreases |steps|
  {
    if steps != [] {
      PromptStep(s, steps[0], d);
      PromptLag(Apply(s, steps[0]), steps[1..], d);
    }
  }

  lemma PromptStep(s: State, step: Step, d: nat)
    requires Enabled(s, step) && s.lag <= d
    requires step.OfGet? && step.getAct.CompareAndSet? ==>
      var pc := s.calls[step.call].getPc; pc.version == Counter(s.version) ==> s.now <= pc.snapshot.readAt + d
    ensures Apply(s, step).lag <= d
  {
    match step
    case OfGet(c, act) => GetLag(s, c, act);
    case OfDel(c, act) => DelKeepsRows(s, c, act);
    case _ =>
  }

  lemma GetLag(s: State, c: CallId, act: GetAct)
    requires GetEnabled(s, c, act)
    ensures var lag := ApplyGet(s, c, act).lag;
            if act.CompareAndSet? && s.calls[c].getPc.version == Counter(s.version) then
              var readAt := s.calls[c].getPc.snapshot.readAt;
              lag == Max(s.lag, if readAt <= s.now then s.now - readAt else 0)
            else lag == s.lag
  {}

  /** An entry lives the time to live cut to whole milliseconds, but at least one. */
  lemma EntryLifeTruncates(ttl: nat)
    ensures MILLISECOND <= EntryLife(ttl) && EntryLife(ttl) % MILLISECOND == 0
    ensures if ttl < MILLISECOND then EntryLife(ttl) == MILLISECOND else ttl - MILLISECOND < EntryLife(ttl) <= ttl
  {
    var millis := ttl / MILLISECOND;
    assert ttl == millis * MILLISECOND + ttl % MILLISECOND;
  }

  /**
   * Whatever the outbox does, a payload that a reader can still hit is the exact state of the database at one moment
   * less than d plus the entry's life ago, so it holds every commit at least that old.
   */
  lemma BoundedStaleness(start: State, steps: seq<Step>, d: nat)
    requires Init(start) && Valid(start, steps) && PromptStores(start, steps, d)
    ensures var s := Exec(start, steps);
            s.entry.Some? && s.entry.value.payload.Listed? && s.now < s.entry.value.expiresAt ==>
              var snapshot := s.entry.value.payload.snapshot;
              && s.now < snapshot.readAt + d + EntryLife(s.ttl)
              && SnapshotInv(s, snapshot)
              && (forall i | 0 <= i < |s.history| && s.history[i].time + d + EntryLife(s.ttl) <= s.now ::
                 i < snapshot.at)
  {
    ReachableInv(start, steps);
    PromptLag(start, steps, d);
  }

  /** A raised fence was raised by an invalidation that executed both commands. */
  ghost predicate FenceWitness(s: State) {
    s.fence == 0 || exists d: CallId :: DelAt(s, d, Executed) && s.calls[d].covers == s.fence
  }

  lemma FenceSteps(s: State, step: Step)
    requires Enabled(s, step)
    ensures var s' := Apply(s, step);
            || s'.fence == s.fence
            || (step.OfDel? && DelAt(s', step.call, Executed) && s'.calls[step.call].covers == s'.fence)
  {
    if step.OfGet? { GetMovesAlways(s, step.call, step.getAct); }
  }

  lemma FenceRaised(s: State, step: Step)
    requires Inv(s) && Enabled(s, step) && FenceWitness(s)
    ensures FenceWitness(Apply(s, step))
  {
    var s' := Apply(s, step);
    StepEvolves(s, step);
    FenceSteps(s, step);
    if s'.fence == s.fence != 0 {
      var d: CallId :| DelAt(s, d, Executed) && s.calls[d].covers == s.fence;
      assert CallEvolves(s.calls[d], s'.calls[d]);
    }
  }

  lemma {:induction false} FenceAlwaysWitnessed(s: State, steps: seq<Step>)
    requires Inv(s) && Valid(s, steps) && FenceWitness(s)
    ensures FenceWitness(Exec(s, steps))
    decreases |steps|
  {
    if steps != [] {
      FenceRaised(s, steps[0]);
      StepKeepsInv(s, steps[0]);
      FenceAlwaysWitnessed(Apply(s, steps[0]), steps[1..]);
    }
  }

  /**
   * A processed row has had its cache invalidated: some Del that began after the row's increment committed has
   * executed its INCR and then its DEL.
   */
  lemma ProcessedMeansInvalidated(start: State, steps: seq<Step>, i: nat) returns (d: CallId)
    requires Init(start) && Valid(start, steps) && i < |Exec(start, steps).history|
    requires var s := Exec(start, steps); s.history[i].event in s.rows && s.rows[s.history[i].event].processedAt.Some?
    ensures DelAt(Exec(start, steps), d, Executed) && i < Exec(start, steps).calls[d].covers
  {
    var s := Exec(start, steps);
    ReachableInv(start, steps);
    InitInv(start);
    FenceAlwaysWitnessed(start, steps);
    assert CommitInv(s, i);
    d :| DelAt(s, d, Executed) && s.calls[d].covers == s.fence;
  }

  /** A list loaded through an instance holds every commit made before a Del that had executed on that instance. */
  lemma GetAfterDelIsFresh(start: State, before: seq<Step>, d: CallId, after: seq<Step>)
    requires Init(start) && Valid(start, before) && DelAt(Exec(start, before), d, Executed)
    requires var s := Exec(start, before);
             Enabled(s, BeginGet(s.calls[d].instance)) && Valid(Apply(s, BeginGet(s.calls[d].instance)), after)
    ensures var s := Exec(start, before);
            var s' := Exec(Apply(s, BeginGet(s.calls[d].instance)), after);
            && |s.calls| < |s'.calls| && s'.calls[|s.calls|].Get?
            && var pc := s'.calls[|s.calls|].getPc;
               pc.Returned? ==> HoldsCommits(s', pc.snapshot.videos, s.calls[d].covers)
  {
    var s := Exec(start, before);
    var step := BeginGet(s.calls[d].instance);
    var s' := Exec(Apply(s, step), after);
    ReachableInv(start, before);
    StepKeepsInv(s, step);
    RunKeepsInv(Apply(s, step), after);
    assert CallInv(s, d) && CallInv(s', |s.calls|);
    assert CallEvolves(Apply(s, step).calls[|s.calls|], s'.calls[|s.calls|]);
  }

  /**
   * What ListVideos answers, to the leader of a flight and to all who join it, holds every increment that returned
   * success on the instance before the leader began.
   */
  lemma ListHoldsSuccessfulIncrements(
    start: State, before: seq<Step>, increment: CallId, after: seq<Step>, list: CallId)
    requires Init(start) && Valid(start, before)
    requires var s := Exec(start, before);
             && increment < |s.calls| && s.calls[increment].Increment? && s.calls[increment].incrementPc.Succeeded?
             && var k := s.calls[increment].instance;
                Enabled(s, BeginList(k)) && s.instances[k].listFlight.None? && Valid(Apply(s, BeginList(k)), after)
    requires var s := Exec(start, before);
             var s' := Exec(Apply(s, BeginList(s.calls[increment].instance)), after);
             && list < |s'.calls| && s'.calls[list].List? && s'.calls[list].leader == |s.calls|
             && s'.calls[list].listPc.Answered?
    ensures var s := Exec(start, before);
            var s' := Exec(Apply(s, BeginList(s.calls[increment].instance)), after);
            && s.calls[increment].commit.Some?
            && HoldsCommits(s', s'.calls[list].listPc.snapshot.videos, s.calls[increment].commit.value + 1)
  {
    var s := Exec(start, before);
    var step := BeginList(s.calls[increment].instance);
    var s' := Exec(Apply(s, step), after);
    ReachableInv(start, before);
    StepKeepsInv(s, step);
    RunKeepsInv(Apply(s, step), after);
    assert CallInv(s, increment) && CallInv(s', list);
    assert CallEvolves(Apply(s, step).calls[|s.calls|], s'.calls[|s.calls|]);
  }

  /** Rows only move forward: processed is final, failed can only become processed, and neither is claimed again. */
  lemma RowLifecycle(start: State, before: seq<Step>, after: seq<Step>, e: EventId, fetch: Step)
    requires Init(start) && Valid(start, before) && e in Exec(start, before).rows
    requires Valid(Exec(start, before), after)
    requires fetch.Fetch? && Enabled(Exec(Exec(start, before), after), fetch)
    ensures var r, s' := Exec(start, before).rows[e], Exec(Exec(start, before), after);
            && RowInv(r) && e in s'.rows && RowInv(s'.rows[e]) && Advances(r, s'.rows[e])
            && (!Live(r) ==> e !in fetch.batch)
  {
    ReachableInv(start, before);
    RunKeepsInv(Exec(start, before), after);
  }

  /** No release of the row executes in the run. */
  predicate NoRelease(s: State, steps: seq<Step>, e: EventId)
    requires Valid(s, steps)
    decreases |steps|
  {
    steps == [] || (
      && !(steps[0].ExecuteSql? && s.calls[steps[0].call].statement.Release?
         && s.calls[steps[0].call].statement.event == e)
      && NoRelease(Apply(s, steps[0]), steps[1..], e))
  }

  predicate LeasedUntil(rows: Rows, e: EventId, until: nat) {
    e in rows && (Live(rows[e]) ==> rows[e].lockedUntil.Some? && until <= rows[e].lockedUntil.value)
  }

  lemma {:induction false} LeaseKept(s: State, steps: seq<Step>, e: EventId, until: nat)
    requires Inv(s) && Valid(s, steps) && NoRelease(s, steps, e)
    requires LeasedUntil(s.rows, e, until) && until <= s.now + LEASE
    ensures LeasedUntil(Exec(s, steps).rows, e, until)
    decreases |steps|
  {
    if steps != [] {
      LeaseStep(s, steps[0], e, until);
      StepKeepsInv(s, steps[0]);
      StepEvolves(s, steps[0]);
      LeaseKept(Apply(s, steps[0]), steps[1..], e, until);
    }
  }

  /** Only the claiming query and the statements of the worker change a row that exists. */
  lemma RowsKept(s: State, step: Step, e: EventId)
    requires Enabled(s, step) && e in s.rows && !step.Fetch? && !step.ExecuteSql?
    ensures e in Apply(s, step).rows && Apply(s, step).rows[e] == s.rows[e]
  {
    match step
    case OfGet(c, act) => GetMovesAlways(s, c, act);
    case OfDel(c, act) => DelKeepsRows(s, c, act);
    case _ =>
  }

  lemma DelKeepsRows(s: State, c: CallId, act: DelAct)
    requires DelEnabled(s, c, act)
    ensures ApplyDel(s, c, act).rows == s.rows && ApplyDel(s, c, act).lag == s.lag
  {}

  lemma LeaseStep(s: State, step: Step, e: EventId, until: nat)
    requires Enabled(s, step) && LeasedUntil(s.rows, e, until) && until <= s.now + LEASE
    requires !(step.ExecuteSql? && s.calls[step.call].statement.Release? && s.calls[step.call].statement.event == e)
    ensures LeasedUntil(Apply(s, step).rows, e, until)
  {
    match step
    case Fetch(_, _, _) =>
    case ExecuteSql(_) =>
    case _ => RowsKept(s, step, e);
  }

  /** Every lock and every release on its way ends within a lease. */
  predicate LocksInv(s: State) {
    && LocksWithinLease(s.rows, s.now)
    && forall c | 0 <= c < |s.calls| :: ReleaseWithinLease(s.calls[c], s.now)
  }

  predicate ReleaseWithinLease(c: Call, now: nat) {
    c.Sql? && c.statement.Release? ==> c.statement.until <= now + LEASE
  }

  lemma LocksHandle(s: State, c: CallId, act: HandleAct)
    requires LocksInv(s) && HandleEnabled(s, c, act)
    ensures LocksInv(ApplyHandle(s, c, act))
  {
    BackoffMonotone(s.calls[c].attempts, s.calls[c].attempts);
  }

  lemma LocksExecute(s: State, c: CallId)
    requires LocksInv(s) && Enabled(s, ExecuteSql(c))
    ensures LocksInv(Apply(s, ExecuteSql(c)))
  {
    assert ReleaseWithinLease(s.calls[c], s.now);
  }

  lemma LocksCache(s: State, step: Step)
    requires LocksInv(s) && Enabled(s, step) && (step.OfGet? || step.OfDel?)
    ensures LocksInv(Apply(s, step))
  {
    if step.OfGet? { GetMovesAlways(s, step.call, step.getAct); }
  }

  lemma LocksStep(s: State, step: Step)
    requires LocksInv(s) && Enabled(s, step)
    ensures LocksInv(Apply(s, step))
  {
    match step
    case OfHandle(c, act) => LocksHandle(s, c, act);
    case ExecuteSql(c) => LocksExecute(s, c);
    case OfGet(_, _) => LocksCache(s, step);
    case OfDel(_, _) => LocksCache(s, step);
    case _ =>
  }

  lemma {:induction false} LocksKept(s: State, steps: seq<Step>)
    requires LocksInv(s) && Valid(s, steps)
    ensures LocksInv(Exec(s, steps))
    decreases |steps|
  {
    if steps != [] {
      LocksStep(s, steps[0]);
      LocksKept(Apply(s, steps[0]), steps[1..]);
    }
  }

  /** At no moment is a live row locked for longer than a lease from then. */
  lemma LocksAreShort(start: State, steps: seq<Step>)
    requires Init(start) && Valid(start, steps)
    ensures LocksWithinLease(Exec(start, steps).rows, Exec(start, steps).now)
    ensures var s := Exec(start, steps);
            forall e | e in s.rows && Live(s.rows[e]) && s.rows[e].lockedUntil.Some? ::
              s.rows[e].lockedUntil.value <= s.now + 30 * SECOND
  {
    LocksKept(start, steps);
  }

  /** Two claims of a row with no release between them are more than thirty seconds apart. */
  lemma ClaimSeparation(start: State, before: seq<Step>, first: Step, between: seq<Step>, second: Step, e: EventId)
    requires Init(start) && Valid(start, before)
    requires first.Fetch? && e in first.batch && Enabled(Exec(start, before), first)
    requires Valid(Apply(Exec(start, before), first), between)
             && NoRelease(Apply(Exec(start, before), first), between, e)
    requires second.Fetch? && e in second.batch && Enabled(Exec(Apply(Exec(start, before), first), between), second)
    ensures Exec(Apply(Exec(start, before), first), between).now > Exec(start, before).now + 30 * SECOND
  {
    var s := Exec(start, before);
    ReachableInv(start, before);
    StepKeepsInv(s, first);
    LeaseKept(Apply(s, first), between, e, s.now + LEASE);
  }
}
