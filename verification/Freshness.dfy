/**
 * Exactly when a list can still miss a commit. Take the first n commits to be covered by an invalidation that executed,
 * on any instance. A lookup, or a ListVideos call that joins an open flight, can be answered without one of them if and
 * only if a load it waits for, or would join, holds a list that was read before that commit.
 */
module Freshness {
  import opened Videos
  import opened Protocol
  import opened ProtocolInvariant
  import opened ProtocolSteps
  import opened DatabaseSteps
  import opened Theorems
  import opened Counting

  /** A list in hand that lacks one of the first n commits, and that a caller may still be given. */
  predicate StalePc(pc: GetPc, n: nat) {
    (pc.Loaded? || pc.Returned?) && pc.snapshot.at < n
  }

  predicate StaleLoad(s: State, f: CallId, n: nat) {
    f < |s.calls| && s.calls[f].Get? && StalePc(s.calls[f].getPc, n)
  }

  /** The open flight of the instance holds such a list. */
  predicate StaleFlight(s: State, k: InstanceId, n: nat) {
    k < |s.instances| && s.instances[k].flight.Some? && StaleLoad(s, s.instances[k].flight.value, n)
  }

  /** The condition, for a lookup: its own load, the flight it joined, or the flight it would join. */
  predicate MayMiss(s: State, g: CallId, n: nat) {
    && g < |s.calls| && s.calls[g].Get?
    && var pc := s.calls[g].getPc;
       || StalePc(pc, n)
       || (pc.Joined? && StaleLoad(s, pc.flight, n))
       || (BeforeFlight(pc) && StaleFlight(s, s.calls[g].instance, n))
  }

  predicate BeforeFlight(pc: GetPc) {
    pc.Looking? || pc.Missed?
  }

  predicate CannotMiss(s: State, g: CallId, n: nat) {
    g < |s.calls| && s.calls[g].Get? && !MayMiss(s, g, n)
  }

  /** The lookup has returned a list that lacks one of the first n commits. */
  ghost predicate ReturnedWithout(s: State, g: CallId, n: nat) {
    && g < |s.calls| && s.calls[g].Get? && s.calls[g].getPc.Returned?
    && !HoldsCommits(s, s.calls[g].getPc.snapshot.videos, n)
  }

  /** A snapshot holds the first n commits just when it was read after them: no two moments have the same listing. */
  lemma HoldsWhenRead(s: State, snapshot: Snapshot, n: nat)
    requires Inv(s) && SnapshotInv(s, snapshot) && n <= |s.history|
    ensures HoldsCommits(s, snapshot.videos, n) <==> n <= snapshot.at
  {
    if snapshot.at < n {
      forall at | n <= at <= |s.history| ensures !IsListing(Replay(s.initial, s.history[..at]), snapshot.videos) {
        ListingsDiffer(s, snapshot.at, at, snapshot.videos);
      }
    }
  }

  lemma ListingsDiffer(s: State, a: nat, b: nat, videos: seq<Video>)
    requires Inv(s) && a < b <= |s.history| && IsListing(Replay(s.initial, s.history[..a]), videos)
    ensures !IsListing(Replay(s.initial, s.history[..b]), videos)
  {
    var id := s.history[a].video;
    assert CommitInv(s, a);
    ReplayCounts(s.initial, s.history[..a]);
    ReplayCounts(s.initial, s.history[..b]);
    IncrementsGrow(s.history, id, a, a + 1);
    IncrementsGrow(s.history, id, a + 1, b);
    var v := Replay(s.initial, s.history[..a])[id];
    assert v in videos && v.id == id;
  }

  /** No load in hand is stale, and the calls it may become keep it so. */
  predicate FreshLoad(s: State, f: CallId, n: nat) {
    f < |s.calls| && s.calls[f].Get? && HasBorn(s.calls[f].getPc) && !StalePc(s.calls[f].getPc, n)
  }

  lemma LoadStaysFresh(s: State, step: Step, f: CallId, n: nat)
    requires Inv(s) && n <= s.fence && Enabled(s, step) && FreshLoad(s, f, n)
    ensures FreshLoad(Apply(s, step), f, n)
  {
    if StepOf(step, {f}) {
      LoadMovesFresh(s, f, step.getAct, n);
    } else {
      OthersLeaveCall(s, step, f);
    }
  }

  lemma LoadMovesFresh(s: State, f: CallId, act: GetAct, n: nat)
    requires Inv(s) && n <= s.fence && GetEnabled(s, f, act) && FreshLoad(s, f, n)
    ensures FreshLoad(ApplyGet(s, f, act), f, n)
  {
    assert CallInv(s, f);
  }

  /** What a step does to the open flight of an instance: nothing, it ends, or a load of its own opens it. */
  predicate FlightAfter(s: State, s': State, k: InstanceId)
    requires k < |s.instances|
  {
    && k < |s'.instances|
    && var was, flight := s.instances[k].flight, s'.instances[k].flight;
       || flight == was || flight.None?
       || (flight.value < |s'.calls| && s'.calls[flight.value].Get? && s'.calls[flight.value].getPc.Loading?)
  }

  lemma FlightMoved(s: State, step: Step, k: InstanceId)
    requires Enabled(s, step) && k < |s.instances|
    ensures FlightAfter(s, Apply(s, step), k)
  {
    if step.OfGet? { FlightMovedByGet(s, step.call, step.getAct, k); }
    else if step.OfDel? { FlightMovedByDel(s, step.call, step.delAct, k); }
  }

  lemma FlightMovedByGet(s: State, c: CallId, act: GetAct, k: InstanceId)
    requires GetEnabled(s, c, act) && k < |s.instances|
    ensures FlightAfter(s, ApplyGet(s, c, act), k)
  {
    GetMovesAlways(s, c, act);
    var s' := ApplyGet(s, c, act);
    assert s'.instances[k] == s.instances[k] || FlightMoves(s, s', c, k);
  }

  lemma FlightMovedByDel(s: State, c: CallId, act: DelAct, k: InstanceId)
    requires DelEnabled(s, c, act) && k < |s.instances|
    ensures FlightAfter(s, ApplyDel(s, c, act), k)
  {}

  lemma FlightStaysFresh(s: State, step: Step, k: InstanceId, n: nat)
    requires Inv(s) && n <= s.fence && Enabled(s, step) && k < |s.instances| && !StaleFlight(s, k, n)
    ensures !StaleFlight(Apply(s, step), k, n)
  {
    var flight := s.instances[k].flight;
    FlightMoved(s, step, k);
    assert InstanceInv(s, k);
    if flight.Some? { LoadStaysFresh(s, step, flight.value, n); }
  }

  /** A lookup that cannot miss never will. */
  lemma StaysFresh(s: State, step: Step, g: CallId, n: nat)
    requires Inv(s) && n <= s.fence && Enabled(s, step) && CannotMiss(s, g, n)
    ensures CannotMiss(Apply(s, step), g, n)
  {
    var pc := s.calls[g].getPc;
    assert CallInv(s, g);
    if StepOf(step, {g}) {
      OwnStepStaysFresh(s, g, step.getAct, n);
    } else {
      OthersLeaveCall(s, step, g);
      if pc.Joined? { LoadStaysFresh(s, step, pc.flight, n); }
      if BeforeFlight(pc) { FlightStaysFresh(s, step, s.calls[g].instance, n); }
    }
  }

  lemma OwnStepStaysFresh(s: State, g: CallId, act: GetAct, n: nat)
    requires Inv(s) && n <= s.fence && GetEnabled(s, g, act) && CannotMiss(s, g, n)
    ensures CannotMiss(ApplyGet(s, g, act), g, n)
  {
    var pc := s.calls[g].getPc;
    if HasBorn(pc) {
      LoadMovesFresh(s, g, act, n);
    } else if pc.Joined? {
      ReceiveStaysFresh(s, g, act, n);
    } else if BeforeFlight(pc) {
      LookFindsFresh(s, g, act, n);
    } else {
      RepairStaysFresh(s, g, act, n);
    }
  }

  lemma RepairStaysFresh(s: State, g: CallId, act: GetAct, n: nat)
    requires GetEnabled(s, g, act) && s.calls[g].getPc.Repairing?
    ensures CannotMiss(ApplyGet(s, g, act), g, n)
  {}

  lemma ReceiveStaysFresh(s: State, g: CallId, act: GetAct, n: nat)
    requires Inv(s) && GetEnabled(s, g, act) && CannotMiss(s, g, n) && s.calls[g].getPc.Joined?
    ensures CannotMiss(ApplyGet(s, g, act), g, n)
  {}

  lemma LookFindsFresh(s: State, g: CallId, act: GetAct, n: nat)
    requires Inv(s) && n <= s.fence && GetEnabled(s, g, act) && CannotMiss(s, g, n) && BeforeFlight(s.calls[g].getPc)
    ensures CannotMiss(ApplyGet(s, g, act), g, n)
  {
    FlightStaysFresh(s, OfGet(g, act), s.calls[g].instance, n);
    LookStaysFresh(s, g, act, n);
  }

  lemma LookStaysFresh(s: State, g: CallId, act: GetAct, n: nat)
    requires Inv(s) && n <= s.fence && GetEnabled(s, g, act) && CannotMiss(s, g, n) && BeforeFlight(s.calls[g].getPc)
    requires !StaleFlight(ApplyGet(s, g, act), s.calls[g].instance, n)
    ensures CannotMiss(ApplyGet(s, g, act), g, n)
  {}

  lemma {:induction false} NeverMisses(s: State, steps: seq<Step>, g: CallId, n: nat)
    requires Inv(s) && n <= s.fence && Valid(s, steps) && CannotMiss(s, g, n)
    ensures !ReturnedWithout(Exec(s, steps), g, n)
    decreases |steps|
  {
    if steps == [] {
      assert CallInv(s, g);
      if s.calls[g].getPc.Returned? { HoldsWhenRead(s, s.calls[g].getPc.snapshot, n); }
    } else {
      StaysFresh(s, steps[0], g, n);
      StepKeepsInv(s, steps[0]);
      StepEvolves(s, steps[0]);
      NeverMisses(Apply(s, steps[0]), steps[1..], g, n);
    }
  }

  /** A run of lookups and evictions alone. */
  predicate Quiet(steps: seq<Step>) {
    forall i | 0 <= i < |steps| :: steps[i].OfGet? || steps[i].EvictEntry?
  }

  /** From here, some such run has the lookup return a list without one of the first n commits. */
  ghost predicate CanMiss(s: State, g: CallId, n: nat) {
    exists steps :: Valid(s, steps) && Quiet(steps) && ReturnedWithout(Exec(s, steps), g, n)
  }

  lemma {:induction false} FirstStep(s: State, step: Step, g: CallId, n: nat)
    requires Enabled(s, step) && (step.OfGet? || step.EvictEntry?) && CanMiss(Apply(s, step), g, n)
    ensures CanMiss(s, g, n)
  {
    var rest :| Valid(Apply(s, step), rest) && Quiet(rest) && ReturnedWithout(Exec(Apply(s, step), rest), g, n);
    assert ([step] + rest)[1..] == rest;
    assert Valid(s, [step] + rest) && Quiet([step] + rest);
  }

  lemma {:induction false} ReturnedMisses(s: State, g: CallId, n: nat)
    requires Inv(s) && n <= s.fence && StaleLoad(s, g, n) && s.calls[g].getPc.Returned?
    ensures CanMiss(s, g, n)
  {
    assert CallInv(s, g);
    HoldsWhenRead(s, s.calls[g].getPc.snapshot, n);
    assert Valid(s, []) && Quiet([]) && Exec(s, []) == s;
  }

  /** A loader that holds a stale list returns it, whatever its compare-and-set finds. */
  lemma {:induction false} LoadedReturns(s: State, g: CallId, n: nat)
    requires Inv(s) && n <= s.fence && StaleLoad(s, g, n) && s.calls[g].getPc.Loaded?
    ensures Enabled(s, OfGet(g, CompareAndSet))
    ensures var s' := Apply(s, OfGet(g, CompareAndSet));
            Inv(s') && n <= s'.fence && StaleLoad(s', g, n) && s'.calls[g].getPc.Returned?
    ensures var s' := Apply(s, OfGet(g, CompareAndSet)); forall c | 0 <= c < |s.calls| && c != g :: CallKept(s, s', c)
  {
    assert CallInv(s, g);
    StepKeepsInv(s, OfGet(g, CompareAndSet));
    GetMovesAlways(s, g, CompareAndSet);
  }

  lemma {:induction false} LoadMisses(s: State, g: CallId, n: nat)
    requires Inv(s) && n <= s.fence && StaleLoad(s, g, n)
    ensures CanMiss(s, g, n)
  {
    if s.calls[g].getPc.Loaded? {
      LoadedReturns(s, g, n);
      ReturnedMisses(Apply(s, OfGet(g, CompareAndSet)), g, n);
      FirstStep(s, OfGet(g, CompareAndSet), g, n);
    } else {
      ReturnedMisses(s, g, n);
    }
  }

  lemma {:induction false} ReceiverMisses(s: State, g: CallId, n: nat)
    requires Inv(s) && n <= s.fence && g < |s.calls| && s.calls[g].Get? && s.calls[g].getPc.Joined?
    requires StaleLoad(s, s.calls[g].getPc.flight, n) && s.calls[s.calls[g].getPc.flight].getPc.Returned?
    ensures CanMiss(s, g, n)
  {
    var step := OfGet(g, Receive);
    assert CallInv(s, g);
    StepKeepsInv(s, step);
    ReturnedMisses(Apply(s, step), g, n);
    FirstStep(s, step, g, n);
  }

  lemma {:induction false} JoinedMisses(s: State, g: CallId, n: nat)
    requires Inv(s) && n <= s.fence && g < |s.calls| && s.calls[g].Get? && s.calls[g].getPc.Joined?
    requires StaleLoad(s, s.calls[g].getPc.flight, n)
    ensures CanMiss(s, g, n)
  {
    var f := s.calls[g].getPc.flight;
    if s.calls[f].getPc.Loaded? {
      LoadedReturns(s, f, n);
      assert CallKept(s, Apply(s, OfGet(f, CompareAndSet)), g);
      ReceiverMisses(Apply(s, OfGet(f, CompareAndSet)), g, n);
      FirstStep(s, OfGet(f, CompareAndSet), g, n);
    } else {
      ReceiverMisses(s, g, n);
    }
  }

  lemma {:induction false} MissedJoins(s: State, g: CallId, n: nat)
    requires Inv(s) && n <= s.fence && g < |s.calls| && s.calls[g].Get? && s.calls[g].getPc.Missed?
    requires StaleFlight(s, s.calls[g].instance, n)
    ensures CanMiss(s, g, n)
  {
    var step := OfGet(g, EnterFlight);
    StepKeepsInv(s, step);
    JoinedMisses(Apply(s, step), g, n);
    FirstStep(s, step, g, n);
  }

  /** With nothing cached, or after what is cached has been evicted, the lookup joins the flight. */
  lemma {:induction false} LookingJoins(s: State, g: CallId, n: nat)
    requires Inv(s) && n <= s.fence && g < |s.calls| && s.calls[g].Get? && s.calls[g].getPc.Looking?
    requires StaleFlight(s, s.calls[g].instance, n)
    ensures CanMiss(s, g, n)
    decreases s.entry.Some?
  {
    var step := if s.entry.Some? then EvictEntry else OfGet(g, ReadEntry);
    StepKeepsInv(s, step);
    if s.entry.Some? { LookingJoins(Apply(s, step), g, n); } else { MissedJoins(Apply(s, step), g, n); }
    FirstStep(s, step, g, n);
  }

  lemma {:induction false} MissesWhenMayMiss(s: State, g: CallId, n: nat)
    requires Inv(s) && n <= s.fence && MayMiss(s, g, n)
    ensures CanMiss(s, g, n)
  {
    var pc := s.calls[g].getPc;
    if pc.Looking? { LookingJoins(s, g, n); }
    else if pc.Missed? { MissedJoins(s, g, n); }
    else if pc.Joined? { JoinedMisses(s, g, n); }
    else { LoadMisses(s, g, n); }
  }

  /** From here, some run has the lookup return a list without one of the first n commits. */
  ghost predicate MissesInSomeRun(s: State, g: CallId, n: nat) {
    exists after :: Valid(s, after) && ReturnedWithout(Exec(s, after), g, n)
  }

  lemma {:induction false} MissesExactly(s: State, g: CallId, n: nat)
    requires Inv(s) && n <= s.fence && g < |s.calls| && s.calls[g].Get?
    ensures MissesInSomeRun(s, g, n) <==> MayMiss(s, g, n)
  {
    if MayMiss(s, g, n) {
      MissesWhenMayMiss(s, g, n);
    } else {
      forall after | Valid(s, after) ensures !ReturnedWithout(Exec(s, after), g, n) {
        NeverMisses(s, after, g, n);
      }
    }
  }

  /**
   * A lookup on any instance can still return a list without one of the first n commits, all of them covered by an
   * executed invalidation, if and only if it holds a stale load, waits for one, or would join one.
   */
  lemma {:induction false} LookupMissesWhen(start: State, before: seq<Step>, g: CallId, n: nat)
    requires Init(start) && Valid(start, before)
    requires var s := Exec(start, before); n <= s.fence && g < |s.calls| && s.calls[g].Get?
    ensures MissesInSomeRun(Exec(start, before), g, n) <==> MayMiss(Exec(start, before), g, n)
  {
    ReachableInv(start, before);
    MissesExactly(Exec(start, before), g, n);
  }

  /** A lookup that begins now can miss one of them if and only if the open flight of its instance is stale. */
  lemma {:induction false} NewLookupMissesWhen(start: State, before: seq<Step>, k: InstanceId, n: nat)
    requires Init(start) && Valid(start, before)
    requires n <= Exec(start, before).fence && k < |Exec(start, before).instances|
    ensures var s := Exec(start, before);
            MissesInSomeRun(Apply(s, BeginGet(k)), |s.calls|, n) <==> StaleFlight(s, k, n)
  {
    var s := Exec(start, before);
    ReachableInv(start, before);
    StepKeepsInv(s, BeginGet(k));
    MissesExactly(Apply(s, BeginGet(k)), |s.calls|, n);
    assert InstanceInv(s, k);
  }

  /** On the instance that ran the invalidation no flight is stale: it was forgotten. */
  lemma {:induction false} OwnFlightIsFresh(s: State, k: InstanceId, n: nat)
    requires Inv(s) && k < |s.instances| && n <= s.instances[k].deleted
    ensures n <= s.fence && !StaleFlight(s, k, n)
  {
    assert InstanceInv(s, k);
    if s.instances[k].flight.Some? { assert CallInv(s, s.instances[k].flight.value); }
  }
}
