/** That the cache works: what is loaded undisturbed is stored and served, and a flight ends with its load. */
module Caching {
  import opened Basics
  import opened Videos
  import opened Protocol
  import opened ProtocolInvariant
  import opened ProtocolSteps
  import opened DatabaseSteps
  import opened Theorems

  /** An INCR of the version executes. */
  predicate Counts(step: Step) {
    step.RepeatIncr? || (step.OfDel? && step.delAct.Incr?)
  }

  predicate NoCount(steps: seq<Step>) {
    forall i | 0 <= i < |steps| :: !Counts(steps[i])
  }

  lemma CountStep(s: State, step: Step)
    requires Enabled(s, step)
    ensures Counter(Apply(s, step).version) == Counter(s.version) + if Counts(step) then 1 else 0
    ensures Apply(s, step).ttl == s.ttl
  {
    if step.OfGet? { GetMovesAlways(s, step.call, step.getAct); }
    else if step.OfDel? { DelCounts(s, step.call, step.delAct); }
  }

  lemma DelCounts(s: State, c: CallId, act: DelAct)
    requires DelEnabled(s, c, act)
    ensures Counter(ApplyDel(s, c, act).version) == Counter(s.version) + if act.Incr? then 1 else 0
    ensures ApplyDel(s, c, act).ttl == s.ttl
  {}

  /** The version is the same after a run just when no INCR executed in it. */
  lemma {:induction false} CountRun(s: State, steps: seq<Step>)
    requires Valid(s, steps)
    ensures Counter(s.version) <= Counter(Exec(s, steps).version) && Exec(s, steps).ttl == s.ttl
    ensures Counter(s.version) == Counter(Exec(s, steps).version) <==> NoCount(steps)
    decreases |steps|
  {
    if steps != [] {
      CountStep(s, steps[0]);
      CountRun(Apply(s, steps[0]), steps[1..]);
      NoCountSplit(steps);
    }
  }

  lemma NoCountSplit(steps: seq<Step>)
    requires steps != []
    ensures NoCount(steps) <==> !Counts(steps[0]) && NoCount(steps[1..])
  {
    assert forall i | 1 <= i < |steps| :: steps[i] == steps[1..][i - 1];
  }

  predicate GetIs(s: State, g: CallId, pc: GetPc) {
    g < |s.calls| && Executing(s, g) && s.calls[g].Get? && s.calls[g].getPc == pc
  }

  lemma GetStays(s: State, steps: seq<Step>, g: CallId, pc: GetPc)
    requires Inv(s) && Valid(s, steps) && NoneOf(steps, {g}) && GetIs(s, g, pc)
    ensures GetIs(Exec(s, steps), g, pc)
  {
    OthersLeaveCalls(s, steps, {g});
    RunKeepsInv(s, steps);
  }

  /** Between its version read and its script the loader holds the version and the list it read. */
  lemma LoadHolds(s: State, g: CallId, between: seq<Step>, videos: seq<Video>, later: seq<Step>)
    requires Inv(s) && GetIs(s, g, Loading)
    requires Valid(Apply(s, OfGet(g, ReadVersion)), between) && NoneOf(between, {g})
    requires var read := Exec(Apply(s, OfGet(g, ReadVersion)), between);
             Enabled(read, OfGet(g, ReadVideos(videos))) && Valid(Apply(read, OfGet(g, ReadVideos(videos))), later)
    requires NoneOf(later, {g})
    ensures var read := Exec(Apply(s, OfGet(g, ReadVersion)), between);
            var done := Exec(Apply(read, OfGet(g, ReadVideos(videos))), later);
            && GetIs(done, g, Loaded(Counter(s.version), Snapshot(videos, |read.history|, read.now)))
            && (Counter(done.version) == Counter(s.version) <==> NoCount(between) && NoCount(later))
            && done.ttl == s.ttl && Inv(done)
  {
    var begun := Apply(s, OfGet(g, ReadVersion));
    var read := Exec(begun, between);
    StepKeepsInv(s, OfGet(g, ReadVersion));
    GetStays(begun, between, g, Versioned(Counter(s.version)));
    RunKeepsInv(begun, between);
    ListRead(read, g, videos);
    var listed := Apply(read, OfGet(g, ReadVideos(videos)));
    GetStays(listed, later, g, Loaded(Counter(s.version), Snapshot(videos, |read.history|, read.now)));
    RunKeepsInv(listed, later);
    CountStep(s, OfGet(g, ReadVersion));
    CountRun(begun, between);
    CountStep(read, OfGet(g, ReadVideos(videos)));
    CountRun(listed, later);
  }

  lemma ListRead(s: State, g: CallId, videos: seq<Video>)
    requires Inv(s) && Enabled(s, OfGet(g, ReadVideos(videos)))
    ensures Inv(Apply(s, OfGet(g, ReadVideos(videos))))
    ensures GetIs(Apply(s, OfGet(g, ReadVideos(videos))), g,
                  Loaded(s.calls[g].getPc.version, Snapshot(videos, |s.history|, s.now)))
  {
    StepKeepsInv(s, OfGet(g, ReadVideos(videos)));
  }

  /** What a script leaves: the list with its full life when the version is still the one read, else what was there. */
  lemma ScriptStores(s: State, g: CallId, version: nat, snapshot: Snapshot)
    requires GetIs(s, g, Loaded(version, snapshot))
    ensures Enabled(s, OfGet(g, CompareAndSet))
    ensures var s' := Apply(s, OfGet(g, CompareAndSet));
            && s'.now == s.now && GetIs(s', g, Returned(snapshot))
            && s'.entry == if Counter(s.version) == version then
                             Some(Entry(Listed(snapshot), s.now, s.now + EntryLife(s.ttl)))
                           else s.entry
  {
    GetMovesAlways(s, g, CompareAndSet);
  }

  /** A script stored the list with its full life, or left the entry as it was. */
  predicate Stored(s: State, s': State, snapshot: Snapshot, stores: bool) {
    s'.entry == if stores then Some(Entry(Listed(snapshot), s.now, s.now + EntryLife(s.ttl))) else s.entry
  }

  /**
   * A lookup that reads the version, then the list, then runs its script is answered with that list. The list is cached
   * with its full life if no INCR executed from the version read to the script; if one did, the entry stays as it was.
   */
  lemma LoadIsCached(
    start: State, before: seq<Step>, g: CallId, between: seq<Step>, videos: seq<Video>, later: seq<Step>)
    requires Init(start) && Valid(start, before) && GetIs(Exec(start, before), g, Loading)
    requires Valid(Apply(Exec(start, before), OfGet(g, ReadVersion)), between) && NoneOf(between, {g})
    requires var read := Exec(Apply(Exec(start, before), OfGet(g, ReadVersion)), between);
             Enabled(read, OfGet(g, ReadVideos(videos))) && Valid(Apply(read, OfGet(g, ReadVideos(videos))), later)
    requires NoneOf(later, {g})
    ensures var read := Exec(Apply(Exec(start, before), OfGet(g, ReadVersion)), between);
            var done := Exec(Apply(read, OfGet(g, ReadVideos(videos))), later);
            var snapshot := Snapshot(videos, |read.history|, read.now);
            && IsListing(read.videos, videos) && Enabled(done, OfGet(g, CompareAndSet))
            && GetIs(Apply(done, OfGet(g, CompareAndSet)), g, Returned(snapshot))
            && Stored(done, Apply(done, OfGet(g, CompareAndSet)), snapshot, NoCount(between) && NoCount(later))
  {
    ReachableInv(start, before);
    LoadStores(Exec(start, before), g, between, videos, later);
  }

  lemma LoadStores(s: State, g: CallId, between: seq<Step>, videos: seq<Video>, later: seq<Step>)
    requires Inv(s) && GetIs(s, g, Loading)
    requires Valid(Apply(s, OfGet(g, ReadVersion)), between) && NoneOf(between, {g})
    requires var read := Exec(Apply(s, OfGet(g, ReadVersion)), between);
             Enabled(read, OfGet(g, ReadVideos(videos))) && Valid(Apply(read, OfGet(g, ReadVideos(videos))), later)
    requires NoneOf(later, {g})
    ensures var read := Exec(Apply(s, OfGet(g, ReadVersion)), between);
            var done := Exec(Apply(read, OfGet(g, ReadVideos(videos))), later);
            var snapshot := Snapshot(videos, |read.history|, read.now);
            && Enabled(done, OfGet(g, CompareAndSet))
            && GetIs(Apply(done, OfGet(g, CompareAndSet)), g, Returned(snapshot))
            && Stored(done, Apply(done, OfGet(g, CompareAndSet)), snapshot, NoCount(between) && NoCount(later))
  {
    LoadHolds(s, g, between, videos, later);
    var read := Exec(Apply(s, OfGet(g, ReadVersion)), between);
    var done := Exec(Apply(read, OfGet(g, ReadVideos(videos))), later);
    ScriptStores(done, g, Counter(s.version), Snapshot(videos, |read.history|, read.now));
  }

  /** The step may put something else in place of the entry, or nothing. */
  predicate Displaces(step: Step) {
    || step.EvictEntry? || step.CorruptEntry?
    || (step.OfDel? && step.delAct.DeleteKey?) || (step.OfGet? && step.getAct.CompareAndSet?)
  }

  lemma EntryStays(s: State, step: Step)
    requires Enabled(s, step) && !Displaces(step)
    ensures Apply(s, step).entry == s.entry
  {}

  lemma {:induction false} EntryStaysLong(s: State, steps: seq<Step>)
    requires Valid(s, steps) && forall i | 0 <= i < |steps| :: !Displaces(steps[i])
    ensures Exec(s, steps).entry == s.entry
    decreases |steps|
  {
    if steps != [] {
      EntryStays(s, steps[0]);
      EntryStaysLong(Apply(s, steps[0]), steps[1..]);
    }
  }

  /** Until a step displaces it, a cached list is served to every lookup before it expires, and missed from then on. */
  lemma CachedIsServed(s: State, steps: seq<Step>, snapshot: Snapshot, h: CallId)
    requires s.entry.Some? && s.entry.value.payload == Listed(snapshot)
    requires Valid(s, steps) && forall i | 0 <= i < |steps| :: !Displaces(steps[i])
    requires GetIs(Exec(s, steps), h, Looking)
    ensures var s' := Exec(s, steps);
            && Enabled(s', OfGet(h, ReadEntry))
            && GetIs(Apply(s', OfGet(h, ReadEntry)), h,
                     if s'.now < s.entry.value.expiresAt then Returned(snapshot) else Missed)
  {
    EntryStaysLong(s, steps);
  }

  /** An open flight is a load of the instance that has not returned. */
  predicate InProgress(s: State, k: InstanceId, f: CallId) {
    && f < |s.calls| && s.calls[f].Get? && s.calls[f].instance == k
    && (s.calls[f].getPc.Loading? || s.calls[f].getPc.Versioned? || s.calls[f].getPc.Loaded?)
  }

  predicate FlightsInv(s: State) {
    forall k | 0 <= k < |s.instances| && s.instances[k].flight.Some? :: InProgress(s, k, s.instances[k].flight.value)
  }

  predicate FlightFollows(s: State, s': State, k: InstanceId, c: CallId) {
    k < |s'.instances| && s'.instances[k].flight.Some? ==>
      || (k < |s.instances| && s'.instances[k].flight == s.instances[k].flight && s'.instances[k].flight != Some(c))
      || InProgress(s', k, s'.instances[k].flight.value)
  }

  lemma GetFlightFollows(s: State, c: CallId, act: GetAct, k: InstanceId)
    requires GetEnabled(s, c, act) && FlightsInv(s) && k < |s.instances|
    ensures FlightFollows(s, ApplyGet(s, c, act), k, c)
  {
    if k == s.calls[c].instance { GetOwnFlight(s, c, act); } else { GetOtherFlight(s, c, act, k); }
  }

  lemma GetOwnFlight(s: State, c: CallId, act: GetAct)
    requires GetEnabled(s, c, act) && FlightsInv(s)
    ensures FlightFollows(s, ApplyGet(s, c, act), s.calls[c].instance, c)
  {}

  lemma GetOtherFlight(s: State, c: CallId, act: GetAct, k: InstanceId)
    requires GetEnabled(s, c, act) && FlightsInv(s) && k < |s.instances| && k != s.calls[c].instance
    ensures FlightFollows(s, ApplyGet(s, c, act), k, c)
  {}

  lemma OtherFlight(s: State, step: Step, k: InstanceId)
    requires Enabled(s, step) && !step.OfGet? && k < |Apply(s, step).instances|
    ensures var flight := Apply(s, step).instances[k].flight;
            flight.None? || (k < |s.instances| && flight == s.instances[k].flight)
  {
    if step.OfDel? { DelFlight(s, step.call, step.delAct, k); }
    else if step.BeginList? || step.FinishList? { ListFlight(s, step, k); }
  }

  lemma ListFlight(s: State, step: Step, k: InstanceId)
    requires Enabled(s, step) && (step.BeginList? || step.FinishList?) && k < |Apply(s, step).instances|
    ensures k < |s.instances| && Apply(s, step).instances[k].flight == s.instances[k].flight
  {}

  lemma DelFlight(s: State, c: CallId, act: DelAct, k: InstanceId)
    requires DelEnabled(s, c, act) && k < |ApplyDel(s, c, act).instances|
    ensures var flight := ApplyDel(s, c, act).instances[k].flight;
            flight.None? || (k < |s.instances| && flight == s.instances[k].flight)
  {}

  lemma FlightStep(s: State, step: Step, k: InstanceId)
    requires FlightsInv(s) && Enabled(s, step) && k < |Apply(s, step).instances|
             && Apply(s, step).instances[k].flight.Some?
    ensures InProgress(Apply(s, step), k, Apply(s, step).instances[k].flight.value)
  {
    var f := Apply(s, step).instances[k].flight.value;
    if step.OfGet? {
      GetMovesAlways(s, step.call, step.getAct);
      GetFlightFollows(s, step.call, step.getAct, k);
      if f != step.call && s.instances[k].flight == Some(f) { OthersLeaveCall(s, step, f); }
    } else {
      OtherFlight(s, step, k);
      OthersLeaveCall(s, step, f);
    }
  }

  lemma {:induction false} FlightsKept(s: State, steps: seq<Step>)
    requires FlightsInv(s) && Valid(s, steps)
    ensures FlightsInv(Exec(s, steps))
    decreases |steps|
  {
    if steps != [] {
      var t := Apply(s, steps[0]);
      forall k | 0 <= k < |t.instances| && t.instances[k].flight.Some?
        ensures InProgress(t, k, t.instances[k].flight.value)
      {
        FlightStep(s, steps[0], k);
      }
      FlightsKept(t, steps[1..]);
    }
  }

  /**
   * In every reachable state an open flight is still loading: the first lookup that misses after it leads a new one.
   */
  lemma {:induction false} FlightsEnd(start: State, steps: seq<Step>, k: InstanceId)
    requires Init(start) && Valid(start, steps) && k < |Exec(start, steps).instances|
    requires Exec(start, steps).instances[k].flight.Some?
    ensures InProgress(Exec(start, steps), k, Exec(start, steps).instances[k].flight.value)
  {
    FlightsKept(start, steps);
  }
}
