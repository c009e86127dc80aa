/** Every step of the protocol keeps the invariant. */
module ProtocolSteps {
  import opened Basics
  import opened Videos
  import opened Outbox
  import opened Protocol
  import opened ProtocolInvariant

  lemma RowsReflexive(rows: Rows)
    ensures RowsAdvance(rows, rows)
  {}

  /** A step that leaves the database alone keeps what holds of it. */
  lemma DatabaseUntouched(s: State, s': State)
    requires DatabaseInv(s) && Evolves(s, s')
    requires s'.history == s.history && s'.rows == s.rows && s'.videos == s.videos
    ensures DatabaseInv(s')
  {
    forall i | 0 <= i < |s'.history| ensures CommitInv(s', i) {
      assert CommitInv(s, i);
      assert CallEvolves(s.calls[s.history[i].caller], s'.calls[s.history[i].caller]);
    }
    forall e | e in s'.rows && s'.rows[e].kind.InvalidateVideosList? ensures Recorded(s', e) {
      assert Recorded(s, e);
    }
  }

  /** No claim was added. */
  lemma ClaimsStable(s: State, s': State)
    requires ClaimsOrdered(s) && Evolves(s, s')
    requires forall c | |s.calls| <= c < |s'.calls| :: !s'.calls[c].Handle?
    ensures ClaimsOrdered(s')
  {}

  /** A cached listing stays valid while the fence does not pass it. */
  lemma EntryStable(s: State, s': State)
    requires EntryInv(s) && Evolves(s, s')
    requires s'.entry.Some? ==> s'.entry == s.entry && s'.fence == s.fence
    ensures EntryInv(s')
  {
    if s'.entry.Some? && s.entry.value.payload.Listed? {
      SnapshotStable(s, s', s.entry.value.payload.snapshot);
    }
  }

  lemma InstancesStable(s: State, s': State, moved: set<InstanceId>)
    requires InstancesInv(s) && Evolves(s, s') && s'.fence <= s'.floor <= |s'.history|
    requires forall k | 0 <= k < |s'.instances| && k !in moved :: k < |s.instances| && s'.instances[k] == s.instances[k]
    requires forall k | k in moved :: k < |s'.instances| && InstanceInv(s', k)
    ensures InstancesInv(s')
  {
    forall k | 0 <= k < |s'.instances| ensures InstanceInv(s', k) {
      if k !in moved {
        var i := s.instances[k];
        assert InstanceInv(s, k);
        if i.flight.Some? { assert CallEvolves(s.calls[i.flight.value], s'.calls[i.flight.value]); }
        if i.listFlight.Some? { assert CallEvolves(s.calls[i.listFlight.value], s'.calls[i.listFlight.value]); }
      }
    }
  }

  lemma DelEvolves(s: State, c: CallId, act: DelAct)
    requires DelEnabled(s, c, act)
    ensures Evolves(s, ApplyDel(s, c, act))
  {}

  lemma DelKeepsCalls(s: State, c: CallId, act: DelAct)
    requires Inv(s) && DelEnabled(s, c, act)
    ensures CallsInv(ApplyDel(s, c, act))
  {
    var s' := ApplyDel(s, c, act);
    DelEvolves(s, c, act);
    assert CallInv(s, c);
    CallsStable(s, s', {c});
  }

  lemma DelKeepsInstances(s: State, c: CallId, act: DelAct)
    requires CallsInv(s) && InstancesInv(s) && DelEnabled(s, c, act)
    ensures InstancesInv(ApplyDel(s, c, act))
  {
    var s' := ApplyDel(s, c, act);
    DelEvolves(s, c, act);
    assert CallInv(s, c);
    assert InstanceInv(s, s.calls[c].instance);
    InstancesStable(s, s', {s.calls[c].instance});
  }

  lemma DelKeepsEntry(s: State, c: CallId, act: DelAct)
    requires EntryInv(s) && DelEnabled(s, c, act)
    ensures EntryInv(ApplyDel(s, c, act))
  {}

  lemma DelKeepsInv(s: State, c: CallId, act: DelAct)
    requires Inv(s) && DelEnabled(s, c, act)
    ensures Inv(ApplyDel(s, c, act))
  {
    DelEvolves(s, c, act);
    DelKeepsCalls(s, c, act);
    DelKeepsInstances(s, c, act);
    DelKeepsEntry(s, c, act);
    DatabaseUntouched(s, ApplyDel(s, c, act));
    ClaimsStable(s, ApplyDel(s, c, act));
  }

  /** What a step of a Get call changes besides the entry: the call, the flight of its instance, a repair it begins. */
  predicate GetMoves(s: State, s': State, c: CallId) {
    && c < |s.calls| <= |s'.calls| <= |s.calls| + 1 && s.calls[c].Get? && CallEvolves(s.calls[c], s'.calls[c])
    && (forall x | 0 <= x < |s.calls| && x != c :: s'.calls[x] == s.calls[x])
    && (forall x | |s.calls| <= x < |s'.calls| :: s'.calls[x] == NewDel(s, s.calls[c].instance))
    && s'.initial == s.initial && s'.ttl == s.ttl && s'.now == s.now && s.lag <= s'.lag
    && s'.videos == s.videos && s'.history == s.history && s'.rows == s.rows
    && s'.version == s.version && s'.floor == s.floor && s'.fence == s.fence
    && |s.instances| == |s'.instances|
    && (forall k | 0 <= k < |s.instances| :: s'.instances[k] == s.instances[k] || FlightMoves(s, s', c, k))
  }

  predicate FlightMoves(s: State, s': State, c: CallId, k: InstanceId)
    requires c < |s.calls| <= |s'.calls| && s'.calls[c].Get? && k < |s.instances| == |s'.instances|
  {
    || s'.instances[k] == s.instances[k].(flight := None)
    || (s'.instances[k] == s.instances[k].(flight := Some(c)) && s'.calls[c].getPc.Loading?
       && s'.calls[c].born == |s.history|)
  }

  predicate LoadStep(act: GetAct) {
    act.CompareAndSet? || act.FailGet?
  }

  lemma LookMoves(s: State, c: CallId, act: GetAct)
    requires GetEnabled(s, c, act) && (act.ReadEntry? || act.EnterFlight?)
    ensures GetMoves(s, ApplyGet(s, c, act), c)
  {}

  lemma OtherGetMoves(s: State, c: CallId, act: GetAct)
    requires GetEnabled(s, c, act) && !LoadStep(act)
    ensures GetMoves(s, ApplyGet(s, c, act), c)
  {
    if act.ReadEntry? || act.EnterFlight? { LookMoves(s, c, act); }
  }

  lemma StoreMoves(s: State, c: CallId, act: GetAct)
    requires GetEnabled(s, c, act) && act.CompareAndSet?
    ensures GetMoves(s, ApplyGet(s, c, act), c)
  {}

  lemma FailMoves(s: State, c: CallId, act: GetAct)
    requires GetEnabled(s, c, act) && act.FailGet?
    ensures GetMoves(s, ApplyGet(s, c, act), c)
  {}

  lemma LoadGetMoves(s: State, c: CallId, act: GetAct)
    requires GetEnabled(s, c, act) && LoadStep(act)
    ensures GetMoves(s, ApplyGet(s, c, act), c)
  {
    if act.CompareAndSet? { StoreMoves(s, c, act); } else { FailMoves(s, c, act); }
  }

  lemma GetMovesAlways(s: State, c: CallId, act: GetAct)
    requires GetEnabled(s, c, act)
    ensures GetMoves(s, ApplyGet(s, c, act), c)
  {
    if LoadStep(act) { LoadGetMoves(s, c, act); } else { OtherGetMoves(s, c, act); }
  }

  lemma MovesEvolves(s: State, s': State, c: CallId)
    requires GetMoves(s, s', c)
    ensures Evolves(s, s')
  {}

  lemma MovesInstances(s: State, s': State, c: CallId)
    requires GetMoves(s, s', c) && InstancesInv(s)
    ensures InstancesInv(s')
  {
    forall k | 0 <= k < |s'.instances| ensures InstanceInv(s', k) {
      var i := s.instances[k];
      assert InstanceInv(s, k);
      assert s'.instances[k] == i || FlightMoves(s, s', c, k);
      if i.flight.Some? && i.flight.value == c { assert CallEvolves(s.calls[c], s'.calls[c]); }
    }
  }

  lemma MovesCalls(s: State, s': State, c: CallId)
    requires GetMoves(s, s', c) && CallsInv(s) && CallInv(s', c) && InstancesInv(s')
    ensures CallsInv(s')
  {
    MovesEvolves(s, s', c);
    assert CallInv(s, c);
    forall x | |s.calls| <= x < |s'.calls| ensures CallInv(s', x) {}
    if |s'.calls| > |s.calls| { CallsStable(s, s', {c, |s.calls|}); } else { CallsStable(s, s', {c}); }
  }

  lemma LookKeepsCall(s: State, c: CallId, act: GetAct)
    requires Inv(s) && GetEnabled(s, c, act) && !LoadStep(act) && !act.ReadVideos?
    ensures CallInv(ApplyGet(s, c, act), c)
  {
    var s' := ApplyGet(s, c, act);
    var g := s.calls[c];
    OtherGetMoves(s, c, act);
    MovesEvolves(s, s', c);
    assert CallInv(s, c) && InstanceInv(s, g.instance);
    match act {
      case ReadEntry => if s'.calls[c].getPc.Returned? { SnapshotStable(s, s', s.entry.value.payload.snapshot); }
      case Receive =>
        assert CallInv(s, g.getPc.flight);
        if s'.calls[c].getPc.Returned? { SnapshotStable(s, s', s'.calls[c].getPc.snapshot); }
      case _ =>
    }
  }

  /** The snapshot a loader reads is newer than every INCR executed so far. */
  lemma ReadKeepsCall(s: State, c: CallId, act: GetAct)
    requires Inv(s) && GetEnabled(s, c, act) && act.ReadVideos?
    ensures CallInv(ApplyGet(s, c, act), c)
  {
    OtherGetMoves(s, c, act);
    assert CallInv(s, c);
    assert s.history[..|s.history|] == s.history;
    forall i | 0 <= i < |s.history| ensures s.history[i].time <= s.now { assert CommitInv(s, i); }
  }

  lemma LoadKeepsCall(s: State, c: CallId, act: GetAct)
    requires Inv(s) && GetEnabled(s, c, act) && LoadStep(act)
    ensures CallInv(ApplyGet(s, c, act), c)
  {
    var s' := ApplyGet(s, c, act);
    LoadGetMoves(s, c, act);
    MovesEvolves(s, s', c);
    assert CallInv(s, c);
    if s.calls[c].getPc.Loaded? || s.calls[c].getPc.Lost? { SnapshotStable(s, s', s.calls[c].getPc.snapshot); }
  }

  lemma GetKeepsCall(s: State, c: CallId, act: GetAct)
    requires Inv(s) && GetEnabled(s, c, act)
    ensures CallInv(ApplyGet(s, c, act), c)
  {
    if LoadStep(act) { LoadKeepsCall(s, c, act); }
    else if act.ReadVideos? { ReadKeepsCall(s, c, act); }
    else { LookKeepsCall(s, c, act); }
  }

  /** A store that passes the version check holds every commit below the fence. */
  lemma GetKeepsEntry(s: State, c: CallId, act: GetAct)
    requires Inv(s) && GetEnabled(s, c, act)
    ensures EntryInv(ApplyGet(s, c, act))
  {
    var s' := ApplyGet(s, c, act);
    GetMovesAlways(s, c, act);
    MovesEvolves(s, s', c);
    if act.CompareAndSet? && Counter(s.version) == s.calls[c].getPc.version {
      assert CallInv(s, c);
      SnapshotStable(s, s', s.calls[c].getPc.snapshot);
    } else {
      EntryStable(s, s');
    }
  }

  lemma GetKeepsInv(s: State, c: CallId, act: GetAct)
    requires Inv(s) && GetEnabled(s, c, act)
    ensures Inv(ApplyGet(s, c, act))
  {
    GetKeepsCall(s, c, act);
    GetMovesAlways(s, c, act);
    GetKeepsEntry(s, c, act);
    MovesKeepInv(s, ApplyGet(s, c, act), c);
  }

  lemma MovesKeepInv(s: State, s': State, c: CallId)
    requires Inv(s) && GetMoves(s, s', c) && CallInv(s', c) && EntryInv(s')
    ensures Inv(s')
  {
    MovesEvolves(s, s', c);
    MovesInstances(s, s', c);
    MovesCalls(s, s', c);
    DatabaseUntouched(s, s');
    ClaimsStable(s, s');
  }
}
