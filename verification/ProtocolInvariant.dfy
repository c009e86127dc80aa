/** What every reachable state of the protocol satisfies, and how a state may change over any run. */
module ProtocolInvariant {
  import opened Basics
  import opened Videos
  import opened Outbox
  import opened Protocol

  /** The snapshot is the exact listing of the database at its read. */
  predicate SnapshotInv(s: State, snapshot: Snapshot) {
    && snapshot.at <= |s.history| && snapshot.readAt <= s.now
    && IsListing(Replay(s.initial, s.history[..snapshot.at]), snapshot.videos)
    && (forall i | 0 <= i < snapshot.at :: s.history[i].time <= snapshot.readAt)
    && (forall i | snapshot.at <= i < |s.history| :: snapshot.readAt <= s.history[i].time)
  }

  /** Every commit of the row is among the first n. */
  predicate Covers(s: State, event: EventId, n: nat) {
    forall i | 0 <= i < |s.history| && s.history[i].event == event :: i < n
  }

  /** The call has fixed its born mark. */
  predicate HasBorn(pc: GetPc) {
    pc.Loading? || pc.Versioned? || pc.Loaded? || pc.Lost? || pc.Returned? || pc.Failed?
  }

  predicate DelInv(s: State, d: Call)
    requires d.Del?
  {
    && d.instance < |s.instances| && d.covers <= |s.history|
    && (!d.delPc.Begun? ==> d.covers <= s.instances[d.instance].forgot)
    && (d.delPc.Bumped? || d.delPc.Executed? ==> d.covers <= s.floor)
    && (d.delPc.Executed? ==> d.covers <= s.fence && d.covers <= s.instances[d.instance].deleted)
  }

  /** The heart of the fence: a loader that could still store holds every commit below the floor. */
  predicate LoadInv(s: State, g: Call, version: nat, snapshot: Snapshot)
    requires g.Get?
  {
    && g.need <= g.born <= snapshot.at && SnapshotInv(s, snapshot) && version <= Counter(s.version)
    && (version == Counter(s.version) ==> s.floor <= snapshot.at)
  }

  predicate GetInv(s: State, g: Call)
    requires g.Get?
  {
    && g.instance < |s.instances| && g.need <= s.instances[g.instance].deleted && g.born <= |s.history|
    && (!HasBorn(g.getPc) ==> g.born == 0)
    && match g.getPc
       case Loading => g.need <= g.born
       case Versioned(v) => g.need <= g.born && v <= Counter(s.version)
       case Loaded(v, snapshot) => LoadInv(s, g, v, snapshot)
       case Lost(v, snapshot) => LoadInv(s, g, v, snapshot)
       case Joined(f) => f < |s.calls| && s.calls[f].Get? && HasBorn(s.calls[f].getPc) && g.need <= s.calls[f].born
       case Returned(snapshot) => g.need <= snapshot.at && g.born <= snapshot.at && SnapshotInv(s, snapshot)
       case _ => true
  }

  predicate IncrementInv(s: State, c: CallId, i: Call)
    requires i.Increment?
  {
    && i.instance < |s.instances|
    && (i.commit.Some? ==>
          && i.commit.value < |s.history| && s.history[i.commit.value].caller == c
          && s.history[i.commit.value].video == i.video)
    && match i.incrementPc
       case Invalidating(d) =>
         && i.commit.Some? && d < |s.calls| && s.calls[d].Del? && s.calls[d].instance == i.instance
         && i.commit.value < s.calls[d].covers
       case Succeeded => i.commit.Some? && i.commit.value < s.instances[i.instance].deleted
       case NotFound => i.commit.None?
       case _ => true
  }

  predicate HandleInv(s: State, c: CallId, h: Call)
    requires h.Handle?
  {
    && h.instance < |s.instances| && h.event in s.rows && h.kind == s.rows[h.event].kind
       && 1 <= h.attempts <= s.rows[h.event].attempts
    && (h.settle.Some? ==> h.handlePc.Settling? || h.handlePc.Handled?)
    && (h.handlePc.Deleting? ==>
          var d := h.handlePc.del; d < |s.calls| && s.calls[d].Del? && Covers(s, h.event, s.calls[d].covers))
  }

  predicate SqlInv(s: State, c: CallId, q: Call)
    requires q.Sql?
  {
    && q.statement.event in s.rows
    && (q.statement.MarkProcessed? ==> Covers(s, q.statement.event, s.fence))
    && (q.statement.Release? ==>
          && q.issuer < |s.calls| && s.calls[q.issuer].Handle? && s.calls[q.issuer].event == q.statement.event
          && s.calls[q.issuer].settle == Some(c) && s.calls[q.issuer].attempts < MAX_ATTEMPTS)
  }

  predicate ListInv(s: State, c: CallId, l: Call)
    requires l.List?
  {
    && l.instance < |s.instances|
    && l.leader < |s.calls| && s.calls[l.leader].List? && s.calls[l.leader].since == l.since
    && match l.listPc
       case Awaiting(g) => g < |s.calls| && s.calls[g].Get? && l.since <= s.calls[g].need
       case Answered(snapshot) => l.since <= snapshot.at && SnapshotInv(s, snapshot)
       case _ => true
  }

  predicate CallInv(s: State, c: CallId)
    requires c < |s.calls|
  {
    match s.calls[c]
    case Del(_, _, _) => DelInv(s, s.calls[c])
    case Get(_, _, _, _) => GetInv(s, s.calls[c])
    case Increment(_, _, _, _) => IncrementInv(s, c, s.calls[c])
    case Handle(_, _, _, _, _, _) => HandleInv(s, c, s.calls[c])
    case Sql(_, _, _) => SqlInv(s, c, s.calls[c])
    case List(_, _, _, _) => ListInv(s, c, s.calls[c])
  }

  predicate CallsInv(s: State) {
    forall c | 0 <= c < |s.calls| :: CallInv(s, c)
  }

  /** Later claims of a row carry larger attempts values. */
  predicate ClaimsOrdered(s: State) {
    forall c, c' | 0 <= c < c' < |s.calls| && s.calls[c].Handle? && s.calls[c'].Handle?
      && s.calls[c].event == s.calls[c'].event ::
      s.calls[c].attempts < s.calls[c'].attempts
  }

  predicate InstanceInv(s: State, k: InstanceId)
    requires k < |s.instances|
  {
    var i := s.instances[k];
    && i.deleted <= i.forgot <= |s.history| && i.deleted <= s.fence
    && (i.flight.Some? ==>
          var f := i.flight.value;
          f < |s.calls| && s.calls[f].Get? && HasBorn(s.calls[f].getPc) && i.forgot <= s.calls[f].born)
    && (i.listFlight.Some? ==> i.listFlight.value < |s.calls| && s.calls[i.listFlight.value].List?)
  }

  predicate InstancesInv(s: State) {
    && s.fence <= s.floor <= |s.history|
    && forall k | 0 <= k < |s.instances| :: InstanceInv(s, k)
  }

  /** A cached listing holds every commit below the fence. */
  predicate EntryInv(s: State) {
    s.entry.Some? && s.entry.value.payload.Listed? ==>
      var e := s.entry.value; var snapshot := e.payload.snapshot;
      && SnapshotInv(s, snapshot) && s.fence <= snapshot.at
      && snapshot.readAt <= e.setAt <= s.now && e.setAt - snapshot.readAt <= s.lag
         && e.expiresAt == e.setAt + EntryLife(s.ttl)
  }

  predicate CommitInv(s: State, i: nat)
    requires i < |s.history|
  {
    var c := s.history[i];
    && c.event in s.rows && s.rows[c.event].kind.InvalidateVideosList?
    && s.rows[c.event].video == c.video && s.rows[c.event].views == c.views
    && c.video in s.initial && c.views == s.initial[c.video].views + Increments(s.history[..i + 1], c.video)
    && c.time <= s.now
    && c.caller < |s.calls| && s.calls[c.caller].Increment? && s.calls[c.caller].commit == Some(i)
    && (s.rows[c.event].processedAt.Some? ==> i < s.fence)
  }

  predicate DatabaseInv(s: State) {
    && Keyed(s.initial) && s.videos == Replay(s.initial, s.history)
    && (forall e | e in s.rows :: RowInv(s.rows[e]))
    && (forall i | 0 <= i < |s.history| :: CommitInv(s, i))
    && (forall i, j | 0 <= i < j < |s.history| :: s.history[i].event != s.history[j].event)
    && (forall e | e in s.rows && s.rows[e].kind.InvalidateVideosList? :: Recorded(s, e))
  }

  predicate Recorded(s: State, e: EventId) {
    exists i :: 0 <= i < |s.history| && s.history[i].event == e
  }

  predicate Inv(s: State) {
    InstancesInv(s) && EntryInv(s) && CallsInv(s) && ClaimsOrdered(s) && DatabaseInv(s)
  }

  /** How one call may change over any run. */
  predicate CallEvolves(c: Call, c': Call) {
    match c
    case Del(k, covers, pc) => c'.Del? && c'.instance == k && c'.covers == covers && (pc.Executed? ==> c' == c)
    case Get(k, need, born, pc) =>
      && c'.Get? && c'.instance == k && c'.need == need
      && (HasBorn(pc) ==> HasBorn(c'.getPc) && c'.born == born) && (pc.Returned? ==> c' == c)
    case Increment(k, video, commit, pc) =>
      && c'.Increment? && c'.instance == k && c'.video == video && (commit.Some? ==> c'.commit == commit)
      && (pc.Succeeded? ==> c' == c)
    case Handle(k, event, kind, attempts, settle, _) =>
      && c'.Handle? && c'.instance == k && c'.event == event && c'.kind == kind && c'.attempts == attempts
      && (settle.Some? ==> c'.settle == settle)
    case Sql(statement, issuer, executed) =>
      c'.Sql? && c'.statement == statement && c'.issuer == issuer && (executed ==> c'.executed)
    case List(k, leader, since, pc) =>
      c'.List? && c'.instance == k && c'.leader == leader && c'.since == since && (pc.Answered? ==> c' == c)
  }

  /** How the whole state may change over any run. */
  predicate Evolves(s: State, s': State) {
    && s'.initial == s.initial && s'.ttl == s.ttl && s.now <= s'.now
    && s.history <= s'.history
    && (forall i | |s.history| <= i < |s'.history| :: s'.history[i].event !in s.rows && s.now <= s'.history[i].time)
    && RowsAdvance(s.rows, s'.rows)
    && Counter(s.version) <= Counter(s'.version) && s.floor <= s'.floor && s.fence <= s'.fence && s.lag <= s'.lag
    && (Counter(s'.version) == Counter(s.version) ==> s'.floor == s.floor)
    && |s.instances| <= |s'.instances|
    && (forall k | 0 <= k < |s.instances| ::
          s.instances[k].forgot <= s'.instances[k].forgot && s.instances[k].deleted <= s'.instances[k].deleted)
    && |s.calls| <= |s'.calls|
    && (forall c | 0 <= c < |s.calls| :: CallEvolves(s.calls[c], s'.calls[c]))
  }

  lemma EvolvesTransitive(s: State, t: State, u: State)
    requires Evolves(s, t) && Evolves(t, u)
    ensures Evolves(s, u)
  {}

  lemma SnapshotStable(s: State, s': State, snapshot: Snapshot)
    requires Evolves(s, s') && SnapshotInv(s, snapshot)
    ensures SnapshotInv(s', snapshot)
  {
    assert s'.history[..snapshot.at] == s.history[..snapshot.at];
    forall i | snapshot.at <= i < |s'.history| ensures snapshot.readAt <= s'.history[i].time {
      if i < |s.history| { assert s'.history[i] == s.history[i]; }
    }
  }

  lemma CoversStable(s: State, s': State, event: EventId, n: nat, n': nat)
    requires Evolves(s, s') && event in s.rows && Covers(s, event, n) && n <= n'
    ensures Covers(s', event, n')
  {}

  /** A call that does not move keeps its invariant whatever the others do. */
  lemma CallStable(s: State, s': State, c: CallId)
    requires Evolves(s, s') && c < |s.calls| && s'.calls[c] == s.calls[c] && CallInv(s, c)
    ensures CallInv(s', c)
  {
    var call := s.calls[c];
    match call
    case Del(k, _, _) => assert s.instances[k].forgot <= s'.instances[k].forgot;
    case Get(k, _, _, pc) =>
      assert s.instances[k].forgot <= s'.instances[k].forgot;
      match pc {
        case Loaded(_, snapshot) => SnapshotStable(s, s', snapshot);
        case Lost(_, snapshot) => SnapshotStable(s, s', snapshot);
        case Returned(snapshot) => SnapshotStable(s, s', snapshot);
        case Joined(f) => assert CallEvolves(s.calls[f], s'.calls[f]);
        case _ =>
      }
    case Increment(k, _, commit, pc) =>
      assert s.instances[k].forgot <= s'.instances[k].forgot;
      if commit.Some? { assert s'.history[commit.value] == s.history[commit.value]; }
      if pc.Invalidating? { assert CallEvolves(s.calls[pc.del], s'.calls[pc.del]); }
    case Handle(_, e, _, _, _, pc) =>
      assert Advances(s.rows[e], s'.rows[e]);
      if pc.Deleting? {
        assert CallEvolves(s.calls[pc.del], s'.calls[pc.del]);
        CoversStable(s, s', e, s.calls[pc.del].covers, s'.calls[pc.del].covers);
      }
    case Sql(statement, h, _) =>
      if statement.MarkProcessed? { CoversStable(s, s', statement.event, s.fence, s'.fence); }
      if statement.Release? { assert CallEvolves(s.calls[h], s'.calls[h]); }
    case List(k, leader, _, pc) =>
      assert CallEvolves(s.calls[leader], s'.calls[leader]);
      if pc.Awaiting? { assert CallEvolves(s.calls[pc.get], s'.calls[pc.get]); }
      if pc.Answered? { SnapshotStable(s, s', pc.snapshot); }
  }

  /** The calls that did not move are stable; the step answers for the others. */
  lemma CallsStable(s: State, s': State, moved: set<CallId>)
    requires CallsInv(s) && Evolves(s, s')
    requires forall c | 0 <= c < |s'.calls| && c !in moved :: c < |s.calls| && s'.calls[c] == s.calls[c]
    requires forall c | c in moved :: c < |s'.calls| && CallInv(s', c)
    ensures CallsInv(s')
  {
    forall c | 0 <= c < |s'.calls| ensures CallInv(s', c) {
      if c !in moved { CallStable(s, s', c); }
    }
  }
}
