/** The steps of increments, of the outbox and of the environment keep the invariant too; so do whole runs. */
module DatabaseSteps {
  import opened Basics
  import opened Videos
  import opened Outbox
  import opened Protocol
  import opened ProtocolInvariant
  import opened ProtocolSteps

  /** Begun calls are answered for by the step; the others did not move. */
  lemma CallsBegun(s: State, s': State)
    requires CallsInv(s) && Evolves(s, s') && s.calls <= s'.calls
    requires forall c | |s.calls| <= c < |s'.calls| :: CallInv(s', c)
    ensures CallsInv(s')
  {
    forall c | 0 <= c < |s'.calls| ensures CallInv(s', c) {
      if c < |s.calls| { CallStable(s, s', c); }
    }
  }

  /** One call moved, and at most one was begun. */
  lemma CallMoved(s: State, s': State, c: CallId)
    requires CallsInv(s) && Evolves(s, s') && c < |s.calls| <= |s'.calls| <= |s.calls| + 1
    requires forall x | 0 <= x < |s.calls| && x != c :: s'.calls[x] == s.calls[x]
    requires CallInv(s', c) && (|s'.calls| > |s.calls| ==> CallInv(s', |s.calls|))
    ensures CallsInv(s')
  {
    if |s'.calls| > |s.calls| { CallsStable(s, s', {c, |s.calls|}); } else { CallsStable(s, s', {c}); }
  }

  predicate MarkCovered(s: State, s': State, i: nat)
    requires i < |s.history|
  {
    var e := s.history[i].event;
    e in s'.rows && s'.rows[e].processedAt.Some? ==> i < s'.fence
  }

  /** Statements move rows forward; what the commits say of their rows survives. */
  lemma RowsMoved(s: State, s': State)
    requires DatabaseInv(s) && Evolves(s, s')
    requires s'.history == s.history && s'.videos == s.videos
    requires forall e | e in s'.rows :: RowInv(s'.rows[e]) && (e in s.rows || s'.rows[e].kind.Unsupported?)
    requires forall i | 0 <= i < |s.history| :: MarkCovered(s, s', i)
    ensures DatabaseInv(s')
  {
    forall i | 0 <= i < |s'.history| ensures CommitInv(s', i) {
      var c := s.history[i];
      assert CommitInv(s, i) && MarkCovered(s, s', i);
      assert CallEvolves(s.calls[c.caller], s'.calls[c.caller]);
      assert Advances(s.rows[c.event], s'.rows[c.event]);
    }
    forall e | e in s'.rows && s'.rows[e].kind.InvalidateVideosList? ensures Recorded(s', e) {
      assert Advances(s.rows[e], s'.rows[e]);
      assert Recorded(s, e);
    }
  }

  lemma CommitEvolves(s: State, c: CallId, act: IncrementAct)
    requires IncrementEnabled(s, c, act) && act.CommitTx?
    ensures Evolves(s, ApplyIncrement(s, c, act))
  {}

  lemma CommitKeepsDatabase(s: State, c: CallId, act: IncrementAct)
    requires DatabaseInv(s) && IncrementEnabled(s, c, act) && act.CommitTx?
    ensures DatabaseInv(ApplyIncrement(s, c, act))
  {
    var s' := ApplyIncrement(s, c, act);
    var n := |s.history|;
    var video := s.calls[c].video;
    assert s'.history[..n] == s.history;
    assert s'.history[..n + 1] == s'.history;
    ReplayCounts(s.initial, s.history);
    forall i | 0 <= i < |s'.history| ensures CommitInv(s', i) {
      if i < n {
        assert CommitInv(s, i);
        assert s'.history[..i + 1] == s.history[..i + 1];
      }
    }
    forall i, j | 0 <= i < j < |s'.history| ensures s'.history[i].event != s'.history[j].event {
      assert CommitInv(s, i);
      if j < n { assert CommitInv(s, j); }
    }
    forall e | e in s'.rows && s'.rows[e].kind.InvalidateVideosList? ensures Recorded(s', e) {
      if e == act.event {
        assert s'.history[n].event == e;
      } else {
        assert Recorded(s, e);
        var i :| 0 <= i < n && s.history[i].event == e;
        assert s'.history[i].event == e;
      }
    }
  }

  lemma CommitKeepsInv(s: State, c: CallId, act: IncrementAct)
    requires Inv(s) && IncrementEnabled(s, c, act) && act.CommitTx?
    ensures Inv(ApplyIncrement(s, c, act))
  {
    var s' := ApplyIncrement(s, c, act);
    CommitEvolves(s, c, act);
    CommitKeepsDatabase(s, c, act);
    InstancesStable(s, s', {});
    EntryStable(s, s');
    ClaimsStable(s, s');
    CommitKeepsCalls(s, s', c);
  }

  lemma CommitKeepsCalls(s: State, s': State, c: CallId)
    requires CallsInv(s) && Evolves(s, s') && c < |s.calls| == |s'.calls| && s.calls[c].Increment?
    requires |s'.history| == |s.history| + 1 && s'.history[|s.history|].caller == c
             && s'.history[|s.history|].video == s.calls[c].video
    requires s.calls[c].incrementPc.Calling? || s.calls[c].incrementPc.Errored?
    requires s'.calls == s.calls[c := s.calls[c].(commit := Some(|s.history|))]
    ensures CallsInv(s')
  {
    assert CallInv(s, c);
    CallMoved(s, s', c);
  }

  lemma IncrementEvolves(s: State, c: CallId, act: IncrementAct)
    requires IncrementEnabled(s, c, act) && !act.CommitTx?
    ensures Evolves(s, ApplyIncrement(s, c, act))
  {}

  lemma IncrementKeepsCalls(s: State, c: CallId, act: IncrementAct)
    requires CallsInv(s) && InstancesInv(s) && DatabaseInv(s) && IncrementEnabled(s, c, act) && !act.CommitTx?
    ensures CallsInv(ApplyIncrement(s, c, act))
  {
    var s' := ApplyIncrement(s, c, act);
    IncrementEvolves(s, c, act);
    assert CallInv(s, c);
    ReplayCounts(s.initial, s.history);
    if s.calls[c].commit.Some? { assert CommitInv(s, s.calls[c].commit.value); }
    if act.Finish? { assert CallInv(s, s.calls[c].incrementPc.del); }
    CallMoved(s, s', c);
  }

  lemma IncrementKeepsInv(s: State, c: CallId, act: IncrementAct)
    requires Inv(s) && IncrementEnabled(s, c, act)
    ensures Inv(ApplyIncrement(s, c, act))
  {
    var s' := ApplyIncrement(s, c, act);
    if act.CommitTx? {
      CommitKeepsInv(s, c, act);
    } else {
      IncrementEvolves(s, c, act);
      IncrementKeepsCalls(s, c, act);
      CallsOnly(s, s');
    }
  }

  /** Nothing moved but calls, none of them a claim. */
  lemma CallsOnly(s: State, s': State)
    requires Inv(s) && Evolves(s, s') && CallsInv(s')
    requires s'.history == s.history && s'.rows == s.rows && s'.videos == s.videos && s'.entry == s.entry
    requires s'.fence == s.fence && s'.floor == s.floor && s'.instances == s.instances
    requires forall c | |s.calls| <= c < |s'.calls| :: !s'.calls[c].Handle?
    ensures Inv(s')
  {
    DatabaseUntouched(s, s');
    ClaimsStable(s, s');
    EntryStable(s, s');
    InstancesStable(s, s', {});
  }

  lemma HandleEvolves(s: State, c: CallId, act: HandleAct)
    requires CallsInv(s) && HandleEnabled(s, c, act)
    ensures Evolves(s, ApplyHandle(s, c, act))
  {
    assert CallInv(s, c);
    RowsReflexive(s.rows);
  }

  lemma MarkKeepsCalls(s: State, c: CallId)
    requires CallsInv(s) && HandleEnabled(s, c, DelReturned)
    ensures CallsInv(ApplyHandle(s, c, DelReturned))
  {
    var s' := ApplyHandle(s, c, DelReturned);
    HandleEvolves(s, c, DelReturned);
    assert CallInv(s, c) && CallInv(s, s.calls[c].handlePc.del);
    CallMoved(s, s', c);
  }

  lemma HandleKeepsCalls(s: State, c: CallId, act: HandleAct)
    requires CallsInv(s) && DatabaseInv(s) && HandleEnabled(s, c, act)
    ensures CallsInv(ApplyHandle(s, c, act))
  {
    if act.DelReturned? {
      MarkKeepsCalls(s, c);
    } else {
      HandleEvolves(s, c, act);
      assert CallInv(s, c);
      CallMoved(s, ApplyHandle(s, c, act), c);
    }
  }

  lemma HandleKeepsInv(s: State, c: CallId, act: HandleAct)
    requires Inv(s) && HandleEnabled(s, c, act)
    ensures Inv(ApplyHandle(s, c, act))
  {
    HandleEvolves(s, c, act);
    HandleKeepsCalls(s, c, act);
    CallsOnly(s, ApplyHandle(s, c, act));
  }

  lemma ExecuteEvolves(s: State, c: CallId)
    requires Inv(s) && Enabled(s, ExecuteSql(c))
    ensures Evolves(s, Apply(s, ExecuteSql(c)))
  {}

  /** A row is marked processed only when every commit it records is below the fence. */
  lemma ExecuteKeepsDatabase(s: State, c: CallId)
    requires CallsInv(s) && DatabaseInv(s) && Enabled(s, ExecuteSql(c)) && Evolves(s, Apply(s, ExecuteSql(c)))
    ensures DatabaseInv(Apply(s, ExecuteSql(c)))
  {
    var s' := Apply(s, ExecuteSql(c));
    assert CallInv(s, c);
    StatementsAdvance(s.rows, s.calls[c].statement, s.now);
    forall i | 0 <= i < |s.history| ensures MarkCovered(s, s', i) {
      assert CommitInv(s, i);
    }
    RowsMoved(s, s');
  }

  lemma ExecuteKeepsCalls(s: State, c: CallId)
    requires CallsInv(s) && Enabled(s, ExecuteSql(c)) && Evolves(s, Apply(s, ExecuteSql(c)))
    ensures CallsInv(Apply(s, ExecuteSql(c)))
  {
    var s' := Apply(s, ExecuteSql(c));
    var q := s.calls[c];
    assert CallInv(s, c);
    if q.statement.MarkProcessed? { CoversStable(s, s', q.statement.event, s.fence, s'.fence); }
    if q.statement.Release? { assert CallEvolves(s.calls[q.issuer], s'.calls[q.issuer]); }
    CallMoved(s, s', c);
  }

  lemma ExecuteKeepsInv(s: State, c: CallId)
    requires Inv(s) && Enabled(s, ExecuteSql(c))
    ensures Inv(Apply(s, ExecuteSql(c)))
  {
    var s' := Apply(s, ExecuteSql(c));
    ExecuteEvolves(s, c);
    ExecuteKeepsDatabase(s, c);
    ExecuteKeepsCalls(s, c);
    ClaimsStable(s, s');
    EntryStable(s, s');
    InstancesStable(s, s', {});
  }

  lemma FetchEvolves(s: State, step: Step)
    requires Inv(s) && Enabled(s, step) && step.Fetch?
    ensures Evolves(s, Apply(s, step))
  {}

  lemma FetchKeepsClaims(s: State, step: Step)
    requires Inv(s) && Enabled(s, step) && step.Fetch?
    ensures ClaimsOrdered(Apply(s, step))
  {
    var s' := Apply(s, step);
    var n := |s.calls|;
    forall c, c' | 0 <= c < c' < |s'.calls| && s'.calls[c].Handle? && s'.calls[c'].Handle?
      && s'.calls[c].event == s'.calls[c'].event
      ensures s'.calls[c].attempts < s'.calls[c'].attempts
    {
      if c < n { assert CallInv(s, c); }
      if c' >= n { assert s'.calls[c'].event == step.batch[c' - n]; }
    }
  }

  lemma FetchKeepsInv(s: State, step: Step)
    requires Inv(s) && Enabled(s, step) && step.Fetch?
    ensures Inv(Apply(s, step))
  {
    var s' := Apply(s, step);
    FetchEvolves(s, step);
    FetchKeepsClaims(s, step);
    ClaimsAdvance(s.rows, step.batch, s.now);
    forall i | 0 <= i < |s.history| ensures MarkCovered(s, s', i) {
      assert CommitInv(s, i);
    }
    RowsMoved(s, s');
    EntryStable(s, s');
    InstancesStable(s, s', {});
    forall c | |s.calls| <= c < |s'.calls| ensures CallInv(s', c) {
      assert step.batch[c - |s.calls|] in step.batch;
    }
    CallsBegun(s, s');
  }

  /** One instance's list flight moved. */
  lemma ListFlightMoved(s: State, s': State, k: InstanceId)
    requires InstancesInv(s) && Evolves(s, s') && s'.fence == s.fence && s'.floor == s.floor && s'.history == s.history
    requires k < |s.instances| == |s'.instances|
    requires forall x | 0 <= x < |s.instances| && x != k :: s'.instances[x] == s.instances[x]
    requires s'.instances[k].(listFlight := None) == s.instances[k].(listFlight := None)
    requires var f := s'.instances[k].listFlight; f.Some? ==> f.value < |s'.calls| && s'.calls[f.value].List?
    ensures InstancesInv(s')
  {
    var flight := s.instances[k].flight;
    assert InstanceInv(s, k);
    if flight.Some? { assert CallEvolves(s.calls[flight.value], s'.calls[flight.value]); }
    InstancesStable(s, s', {k});
  }

  lemma ListBeginEvolves(s: State, k: InstanceId)
    requires Enabled(s, BeginList(k))
    ensures Evolves(s, ApplyBeginList(s, k))
  {}

  lemma ListBeginKeepsInv(s: State, k: InstanceId)
    requires Inv(s) && Enabled(s, BeginList(k))
    ensures Inv(ApplyBeginList(s, k))
  {
    var s' := ApplyBeginList(s, k);
    ListBeginEvolves(s, k);
    ListBeginCalls(s, k);
    DatabaseUntouched(s, s');
    ClaimsStable(s, s');
    EntryStable(s, s');
    assert InstanceInv(s, k);
    ListFlightMoved(s, s', k);
  }

  lemma ListBeginCalls(s: State, k: InstanceId)
    requires CallsInv(s) && InstancesInv(s) && Enabled(s, BeginList(k)) && Evolves(s, ApplyBeginList(s, k))
    ensures CallsInv(ApplyBeginList(s, k))
  {
    assert InstanceInv(s, k);
    if s.instances[k].listFlight.Some? { assert CallInv(s, s.instances[k].listFlight.value); }
    CallsBegun(s, ApplyBeginList(s, k));
  }

  lemma ListFinishEvolves(s: State, c: CallId)
    requires ListEnabled(s, c)
    ensures Evolves(s, ApplyFinishList(s, c))
  {}

  lemma ListFinishCalls(s: State, c: CallId)
    requires CallsInv(s) && ListEnabled(s, c) && Evolves(s, ApplyFinishList(s, c))
    ensures CallsInv(ApplyFinishList(s, c))
  {
    var s' := ApplyFinishList(s, c);
    var l := s.calls[c];
    assert CallInv(s, c);
    if l.listPc.Awaiting? { assert CallInv(s, l.listPc.get); } else { assert CallInv(s, l.leader); }
    if s'.calls[c].listPc.Answered? { SnapshotStable(s, s', s'.calls[c].listPc.snapshot); }
    CallMoved(s, s', c);
  }

  lemma ListFinishKeepsInv(s: State, c: CallId)
    requires Inv(s) && ListEnabled(s, c)
    ensures Inv(ApplyFinishList(s, c))
  {
    var s' := ApplyFinishList(s, c);
    ListFinishEvolves(s, c);
    ListFinishCalls(s, c);
    DatabaseUntouched(s, s');
    ClaimsStable(s, s');
    EntryStable(s, s');
    assert InstanceInv(s, s.calls[c].instance);
    ListFlightMoved(s, s', s.calls[c].instance);
  }

  predicate Environment(step: Step) {
    step.Tick? || step.StartInstance? || step.CorruptEntry? || step.EvictEntry? || step.InsertForeign?
      || step.RepeatIncr?
  }

  lemma EnvironmentKeepsInv(s: State, step: Step)
    requires Inv(s) && Enabled(s, step) && Environment(step)
    ensures Evolves(s, Apply(s, step)) && Inv(Apply(s, step))
  {
    var s' := Apply(s, step);
    RowsReflexive(s.rows);
    assert Evolves(s, s');
    CallsBegun(s, s');
    forall i | 0 <= i < |s.history| ensures MarkCovered(s, s', i) {
      assert CommitInv(s, i);
    }
    RowsMoved(s, s');
    ClaimsStable(s, s');
    EnvironmentKeepsEntry(s, step);
    InstancesStable(s, s', if step.StartInstance? then {|s.instances|} else {});
  }

  lemma EnvironmentKeepsEntry(s: State, step: Step)
    requires EntryInv(s) && Enabled(s, step) && Environment(step) && Evolves(s, Apply(s, step))
    ensures EntryInv(Apply(s, step))
  {}

  lemma BeginKeepsInv(s: State, step: Step)
    requires Inv(s) && Enabled(s, step)
             && (step.BeginDel? || step.BeginGet? || step.BeginIncrement? || step.RepeatScript?)
    ensures Evolves(s, Apply(s, step)) && Inv(Apply(s, step))
  {
    var s' := Apply(s, step);
    if step.RepeatScript? { assert CallInv(s, step.call); } else { assert InstanceInv(s, step.instance); }
    RowsReflexive(s.rows);
    assert Evolves(s, s');
    CallsBegun(s, s');
    CallsOnly(s, s');
  }

  predicate CacheStep(step: Step) {
    step.OfDel? || step.OfGet? || step.BeginList? || step.FinishList?
  }

  lemma CacheStepEvolves(s: State, step: Step)
    requires Enabled(s, step) && CacheStep(step)
    ensures Evolves(s, Apply(s, step))
  {
    match step
    case OfDel(c, act) => DelEvolves(s, c, act);
    case OfGet(c, act) => GetMovesAlways(s, c, act); MovesEvolves(s, Apply(s, step), c);
    case BeginList(k) => ListBeginEvolves(s, k);
    case FinishList(c) => ListFinishEvolves(s, c);
  }

  predicate DatabaseStep(step: Step) {
    step.Fetch? || step.OfIncrement? || step.OfHandle? || step.ExecuteSql?
  }

  lemma DatabaseStepEvolves(s: State, step: Step)
    requires Inv(s) && Enabled(s, step) && DatabaseStep(step)
    ensures Evolves(s, Apply(s, step))
  {
    match step
    case Fetch(_, _, _) => FetchEvolves(s, step);
    case OfIncrement(c, act) => if act.CommitTx? { CommitEvolves(s, c, act); } else { IncrementEvolves(s, c, act); }
    case OfHandle(c, act) => HandleEvolves(s, c, act);
    case ExecuteSql(c) => ExecuteEvolves(s, c);
  }

  lemma StepEvolves(s: State, step: Step)
    requires Inv(s) && Enabled(s, step)
    ensures Evolves(s, Apply(s, step))
  {
    if CacheStep(step) { CacheStepEvolves(s, step); }
    else if DatabaseStep(step) { DatabaseStepEvolves(s, step); }
    else if Environment(step) { EnvironmentKeepsInv(s, step); }
    else { BeginKeepsInv(s, step); }
  }

  lemma CacheStepKeepsInv(s: State, step: Step)
    requires Inv(s) && Enabled(s, step) && CacheStep(step)
    ensures Inv(Apply(s, step))
  {
    match step
    case OfDel(c, act) => DelKeepsInv(s, c, act);
    case OfGet(c, act) => GetKeepsInv(s, c, act);
    case BeginList(k) => ListBeginKeepsInv(s, k);
    case FinishList(c) => ListFinishKeepsInv(s, c);
  }

  lemma DatabaseStepKeepsInv(s: State, step: Step)
    requires Inv(s) && Enabled(s, step) && DatabaseStep(step)
    ensures Inv(Apply(s, step))
  {
    match step
    case Fetch(_, _, _) => FetchKeepsInv(s, step);
    case OfIncrement(c, act) => IncrementKeepsInv(s, c, act);
    case OfHandle(c, act) => HandleKeepsInv(s, c, act);
    case ExecuteSql(c) => ExecuteKeepsInv(s, c);
  }

  lemma StepKeepsInv(s: State, step: Step)
    requires Inv(s) && Enabled(s, step)
    ensures Inv(Apply(s, step))
  {
    if CacheStep(step) { CacheStepKeepsInv(s, step); }
    else if DatabaseStep(step) { DatabaseStepKeepsInv(s, step); }
    else if Environment(step) { EnvironmentKeepsInv(s, step); }
    else { BeginKeepsInv(s, step); }
  }

  lemma InitInv(s: State)
    requires Init(s)
    ensures Inv(s)
  {}

  /** The invariant holds after every run, and every run moves the state only as Evolves allows. */
  lemma {:induction false} RunKeepsInv(s: State, steps: seq<Step>)
    requires Inv(s) && Valid(s, steps)
    ensures Inv(Exec(s, steps)) && Evolves(s, Exec(s, steps))
    decreases |steps|
  {
    if steps == [] {
      RowsReflexive(s.rows);
    } else {
      var t := Apply(s, steps[0]);
      StepKeepsInv(s, steps[0]);
      StepEvolves(s, steps[0]);
      RunKeepsInv(t, steps[1..]);
      EvolvesTransitive(s, t, Exec(s, steps));
    }
  }

  predicate CallKept(s: State, s': State, c: CallId) {
    c < |s.calls| && c < |s'.calls| && s'.calls[c] == s.calls[c]
  }

  lemma CacheLeavesCall(s: State, step: Step, c: CallId)
    requires Enabled(s, step) && (step.OfDel? || step.OfGet?) && c < |s.calls| && c != step.call
    ensures CallKept(s, Apply(s, step), c)
  {
    if step.OfGet? { GetMovesAlways(s, step.call, step.getAct); }
  }

  lemma ServiceLeavesCall(s: State, step: Step, c: CallId)
    requires Enabled(s, step) && (step.OfIncrement? || step.OfHandle?) && c < |s.calls| && c != step.call
    ensures CallKept(s, Apply(s, step), c)
  {}

  /** A step of another call leaves this one as it is. */
  lemma OthersLeaveCall(s: State, step: Step, c: CallId)
    requires Enabled(s, step) && c < |s.calls| && !StepOf(step, {c})
    ensures CallKept(s, Apply(s, step), c)
  {
    if step.OfDel? || step.OfGet? { CacheLeavesCall(s, step, c); }
    else if step.OfIncrement? || step.OfHandle? { ServiceLeavesCall(s, step, c); }
  }

  /** No step of the run belongs to these calls. */
  predicate NoneOf(steps: seq<Step>, mine: set<CallId>) {
    forall i | 0 <= i < |steps| :: !StepOf(steps[i], mine)
  }

  lemma {:induction false} OthersLeaveCalls(s: State, steps: seq<Step>, mine: set<CallId>)
    requires Valid(s, steps) && NoneOf(steps, mine)
    ensures forall c | c in mine && c < |s.calls| :: c < |Exec(s, steps).calls| && Exec(s, steps).calls[c] == s.calls[c]
    decreases |steps|
  {
    if steps != [] {
      forall c | c in mine && c < |s.calls| ensures CallKept(s, Apply(s, steps[0]), c) {
        OthersLeaveCall(s, steps[0], c);
      }
      OthersLeaveCalls(Apply(s, steps[0]), steps[1..], mine);
    }
  }

  /** A call that claims a row or sends a statement. */
  predicate WorkerCall(c: Call) {
    c.Handle? || c.Sql?
  }

  lemma CacheBeginsCall(s: State, step: Step, c: CallId)
    requires Enabled(s, step) && (step.OfDel? || step.OfGet?) && |s.calls| <= c < |Apply(s, step).calls|
    ensures !WorkerCall(Apply(s, step).calls[c])
  {
    if step.OfGet? { GetMovesAlways(s, step.call, step.getAct); }
  }

  lemma ServiceBeginsCall(s: State, step: Step, c: CallId)
    requires Enabled(s, step) && (step.OfIncrement? || step.BeginList? || step.FinishList?)
    requires |s.calls| <= c < |Apply(s, step).calls|
    ensures !WorkerCall(Apply(s, step).calls[c])
  {}

  /** Only the claiming query and the handlers of claims begin such calls. */
  lemma BeginsWorkerCall(s: State, step: Step, c: CallId)
    requires Enabled(s, step) && !step.Fetch? && !step.OfHandle? && |s.calls| <= c < |Apply(s, step).calls|
    ensures !WorkerCall(Apply(s, step).calls[c])
  {
    if step.OfDel? || step.OfGet? { CacheBeginsCall(s, step, c); }
    else if step.OfIncrement? || step.BeginList? || step.FinishList? { ServiceBeginsCall(s, step, c); }
  }
}
