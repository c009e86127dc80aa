/** The outbox worker's code for one claim, statement by statement, in the shared system of the list cache. */
module WorkerCode {
  import opened Basics
  import opened Videos
  import opened Outbox
  import opened Backoff
  import opened Protocol
  import opened ProtocolInvariant
  import opened DatabaseSteps
  import opened CacheCode
  import OutboxWorker

  /** The call still handles the claim it handled. */
  predicate SameClaim(s: State, s': State, h: CallId)
    requires h < |s.calls| && s.calls[h].Handle?
  {
    && h < |s'.calls| && s'.calls[h].Handle? && s'.calls[h].instance == s.calls[h].instance
    && s'.calls[h].event == s.calls[h].event && s'.calls[h].kind == s.calls[h].kind
    && s'.calls[h].attempts == s.calls[h].attempts
  }

  /** The call handles a claim, and is one of the caller's own. */
  predicate Handles(s: State, h: CallId, mine: set<CallId>) {
    h in mine && Executing(s, h) && s.calls[h].Handle? && forall c | c in mine :: c < |s.calls|
  }

  predicate StatementAt(s: State, q: CallId, statement: Statement) {
    q < |s.calls| && s.calls[q].Sql? && s.calls[q].statement == statement
  }

  lemma HandleHasRow(s: State, h: CallId)
    requires Inv(s) && h < |s.calls| && s.calls[h].Handle?
    ensures s.calls[h].event in s.rows
  {
    assert CallInv(s, h);
  }

  /** What the row shows right after the statement executed. */
  predicate Took(rows: Rows, statement: Statement) {
    && statement.event in rows
    && var r := rows[statement.event];
       match statement
       case MarkProcessed(_) => r.processedAt.Some?
       case MarkFailed(_) => !Live(r)
       case Release(_, until) => Live(r) ==> r.processingAt.None? && r.lockedUntil == Some(until)
  }

  lemma ExecuteTook(s: State, q: CallId)
    requires Inv(s) && Enabled(s, ExecuteSql(q))
    ensures Took(Apply(s, ExecuteSql(q)).rows, s.calls[q].statement)
  {
    assert CallInv(s, q);
  }

  /** Send a statement and wait for the reply. When none comes, the statement may execute later, or never. */
  method RunStatement(system: System, q: CallId, mine: set<CallId>) returns (ok: bool)
    requires system.Sound() && q in mine && q < |system.state.calls|
    requires system.state.calls[q].Sql? && !system.state.calls[q].executed
    modifies system
    ensures system.Sound() && Undisturbed(old(system.state), system.state, mine - {q})
    ensures StatementAt(system.state, q, old(system.state).calls[q].statement)
    ensures ok ==> system.state.calls[q].executed && Took(system.state.rows, system.state.calls[q].statement)
    ensures system.reliable ==> ok
  {
    system.Others(mine);
    ok := system.Arrives();
    if ok {
      ExecuteTook(system.state, q);
      system.Do(ExecuteSql(q));
    }
  }

  /** The claim asked to be released or failed: released, with its delay, just when attempts are left. */
  predicate SettleAsked(s: State, h: CallId, since: nat) {
    && h < |s.calls| && s.calls[h].Handle? && s.calls[h].settle.Some?
    && var event, attempts, q := s.calls[h].event, s.calls[h].attempts, s.calls[h].settle.value;
       && q < |s.calls| && s.calls[q].Sql?
       && if attempts >= 5 then s.calls[q].statement == MarkFailed(event)
          else
            && s.calls[q].statement.Release? && s.calls[q].statement.event == event
            && since + RetryBackoff(attempts) <= s.calls[q].statement.until <= s.now + RetryBackoff(attempts)
  }

  /** releaseOrFail. */
  method ReleaseOrFail(system: System, h: CallId, mine: set<CallId>)
    requires system.Sound() && Handles(system.state, h, mine)
    requires system.state.calls[h].handlePc.Deleting? || system.state.calls[h].handlePc.Marking?
    modifies system
    ensures system.Sound() && Undisturbed(old(system.state), system.state, mine - {h})
    ensures SameClaim(old(system.state), system.state, h) && SettleAsked(system.state, h, old(system.state).now)
    ensures system.reliable ==>
      Took(system.state.rows, system.state.calls[system.state.calls[h].settle.value].statement)
  {
    system.Others(mine);
    var q := |system.state.calls|;
    HandleHasRow(system.state, h);
    system.Do(OfHandle(h, Settle));
    var replied := RunStatement(system, q, mine + {q});
  }

  /** An event type the worker does not know: its row is marked failed. */
  method FailUnsupported(system: System, h: CallId, mine: set<CallId>) returns (ok: bool)
    requires system.Sound() && Handles(system.state, h, mine)
    requires system.state.calls[h].handlePc.Received? && system.state.calls[h].kind.Unsupported?
    modifies system
    ensures system.Sound() && Undisturbed(old(system.state), system.state, mine - {h})
    ensures SameClaim(old(system.state), system.state, h)
    ensures var q := system.state.calls[h].settle;
            q.Some? && StatementAt(system.state, q.value, MarkFailed(system.state.calls[h].event))
    ensures ok ==> Took(system.state.rows, MarkFailed(system.state.calls[h].event))
    ensures system.reliable ==> ok
  {
    var q := |system.state.calls|;
    HandleHasRow(system.state, h);
    system.Do(OfHandle(h, StartHandle));
    ok := RunStatement(system, q, mine + {q});
  }

  /** The invalidation that processing the claim runs. */
  method InvalidateList(system: System, h: CallId, mine: set<CallId>) returns (ok: bool, d: CallId)
    requires system.Sound() && Handles(system.state, h, mine)
    requires system.state.calls[h].handlePc.Received? && system.state.calls[h].kind.InvalidateVideosList?
    modifies system
    ensures system.Sound() && Undisturbed(old(system.state), system.state, mine - {h})
    ensures h < |system.state.calls| && system.state.calls[h] == old(system.state).calls[h].(handlePc := Deleting(d))
    ensures d == |old(system.state).calls|
    ensures ok ==> DelAt(system.state, d, Executed) && |old(system.state).history| <= system.state.calls[d].covers
    ensures system.reliable ==> ok || VersionFull(system.state)
  {
    d := |system.state.calls|;
    HandleHasRow(system.state, h);
    system.Do(OfHandle(h, StartHandle));
    ok := ForgetAndInvalidate(system, d, mine);
  }

  /** A whole invalidation that began when the database held n commits has executed. */
  predicate InvalidatedSince(s: State, d: CallId, n: nat) {
    DelAt(s, d, Executed) && n <= s.calls[d].covers
  }

  method MarkAfterDelete(system: System, h: CallId, mine: set<CallId>) returns (ok: bool)
    requires system.Sound() && Handles(system.state, h, mine)
    requires system.state.calls[h].handlePc.Deleting?
    requires DelAt(system.state, system.state.calls[h].handlePc.del, Executed)
    modifies system
    ensures system.Sound() && Undisturbed(old(system.state), system.state, mine - {h})
    ensures SameClaim(old(system.state), system.state, h)
    ensures system.state.calls[h].handlePc.Marking? && system.state.calls[h].settle == old(system.state).calls[h].settle
    ensures ok ==> Took(system.state.rows, MarkProcessed(system.state.calls[h].event))
    ensures system.reliable ==> ok
  {
    var q := |system.state.calls|;
    HandleHasRow(system.state, h);
    system.Do(OfHandle(h, DelReturned));
    ok := RunStatement(system, q, mine + {q});
  }

  /** What processing the claim of an invalidation comes to. */
  predicate InvalidationDone(s: State, h: CallId, ok: bool, d: CallId, before: State) {
    && h < |s.calls| && s.calls[h].Handle?
    && if ok then
         && Took(s.rows, MarkProcessed(s.calls[h].event)) && s.calls[h].settle.None?
         && d >= |before.calls| && InvalidatedSince(s, d, |before.history|)
       else SettleAsked(s, h, before.now)
  }

  method ProcessInvalidation(system: System, h: CallId, mine: set<CallId>) returns (ok: bool, d: CallId)
    requires system.Sound() && Handles(system.state, h, mine)
    requires system.state.calls[h].handlePc.Received? && system.state.calls[h].settle.None?
    requires system.state.calls[h].kind.InvalidateVideosList?
    modifies system
    ensures system.Sound() && Undisturbed(old(system.state), system.state, mine - {h})
    ensures SameClaim(old(system.state), system.state, h) && InvalidationDone(system.state, h, ok, d, old(system.state))
    ensures system.reliable ==> ok || VersionFull(system.state)
  {
    ok, d := InvalidateList(system, h, mine);
    if ok {
      ok := MarkAfterDelete(system, h, mine + {d});
    }
    if !ok {
      ReleaseOrFail(system, h, mine);
    }
  }

  /**
   * processEvent. A claim reported as done is one whose row was marked after a whole invalidation that this claim
   * began, or marked failed because its type is unknown; any other claim asked, once, to be released or failed.
   */
  method ProcessEvent(system: System, h: CallId, mine: set<CallId>) returns (ok: bool, d: CallId)
    requires system.Sound() && Handles(system.state, h, mine)
    requires system.state.calls[h].handlePc.Received? && system.state.calls[h].settle.None?
    modifies system
    ensures system.Sound() && Undisturbed(old(system.state), system.state, mine - {h})
    ensures SameClaim(old(system.state), system.state, h)
    ensures var s := system.state;
            if s.calls[h].kind.Unsupported? then
              && s.calls[h].settle.Some? && StatementAt(s, s.calls[h].settle.value, MarkFailed(s.calls[h].event))
              && (ok ==> Took(s.rows, MarkFailed(s.calls[h].event)))
            else InvalidationDone(s, h, ok, d, old(system.state))
    ensures system.reliable ==> ok || (system.state.calls[h].kind.InvalidateVideosList? && VersionFull(system.state))
  {
    system.Others(mine);
    if system.state.calls[h].kind.Unsupported? {
      ok := FailUnsupported(system, h, mine);
      d := h;
    } else {
      ok, d := ProcessInvalidation(system, h, mine);
    }
  }

  /** The act of a claim's handler that issues a statement. */
  predicate Issues(s: State, h: CallId, act: HandleAct) {
    && HandleEnabled(s, h, act)
    && (act.Settle? || act.DelReturned? || (act.StartHandle? && s.calls[h].kind.Unsupported?))
  }

  /** The statements the handler of a claim can issue at a moment. */
  predicate Answers(statement: Statement, h: Call, now: nat)
    requires h.Handle?
  {
    || statement == MarkProcessed(h.event)
    || statement == SettleStatement(h.event, h.attempts, now)
    || (statement == MarkFailed(h.event) && h.kind.Unsupported?)
  }

  lemma IssuedAnswers(s: State, h: CallId, act: HandleAct)
    requires Issues(s, h, act)
    ensures StatementIn(Apply(s, OfHandle(h, act)), |s.calls|, s.calls[h], s.now)
  {}

  predicate StatementIn(s: State, q: CallId, h: Call, now: nat)
    requires h.Handle?
  {
    q < |s.calls| && s.calls[q].Sql? && Answers(s.calls[q].statement, h, now)
  }

  /** A statement that has been issued stays what it was, and time only passes. */
  lemma IssuedStays(s: State, h: CallId, act: HandleAct, between: seq<Step>)
    requires Inv(s) && Issues(s, h, act) && Valid(Apply(s, OfHandle(h, act)), between)
    ensures var s' := Exec(Apply(s, OfHandle(h, act)), between);
            StatementIn(s', |s.calls|, s.calls[h], s.now) && s.now <= s'.now
  {
    var issued, q := Apply(s, OfHandle(h, act)), |s.calls|;
    IssuedAnswers(s, h, act);
    StepKeepsInv(s, OfHandle(h, act));
    RunKeepsInv(issued, between);
    assert CallEvolves(issued.calls[q], Exec(issued, between).calls[q]);
  }

  /**
   * The single worker's table and this system agree: a statement issued for the newest claim of a live row, executing
   * at any later time, leaves the row as the single worker's does, and no other row changed.
   */
  lemma StatementSettles(s: State, q: CallId, h: Call, issued: nat)
    requires h.Handle? && StatementIn(s, q, h, issued) && issued <= s.now && Enabled(s, ExecuteSql(q))
    requires h.event in s.rows && Live(s.rows[h.event])
    requires s.rows[h.event].attempts == h.attempts && s.rows[h.event].kind == h.kind
    ensures var rows := Apply(s, ExecuteSql(q)).rows;
            && OutboxWorker.Settled(s.rows[h.event], rows[h.event], issued, s.now)
            && OutboxWorker.OnlyRow(s.rows, rows, h.event)
  {}
}
