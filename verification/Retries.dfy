/** That no invalidation is given up early: over every run, the fifth claim of a row is the first that may fail it. */
module Retries {
  import opened Videos
  import opened Outbox
  import opened Protocol
  import opened ProtocolInvariant
  import opened ProtocolSteps
  import opened DatabaseSteps
  import opened Theorems

  predicate FailedLate(s: State, e: EventId) {
    e in s.rows && s.rows[e].kind.InvalidateVideosList? && s.rows[e].failedAt.Some? ==> s.rows[e].attempts >= 5
  }

  predicate FailsLate(s: State, c: CallId)
    requires c < |s.calls|
  {
    s.calls[c].Sql? && s.calls[c].statement.MarkFailed? ==>
      var e := s.calls[c].statement.event;
      e in s.rows && s.rows[e].kind.InvalidateVideosList? ==> s.rows[e].attempts >= 5
  }

  /** A settled claim with attempts one to four asked for a release, any other for a failure. */
  predicate SettledInTurn(s: State, h: CallId)
    requires h < |s.calls|
  {
    s.calls[h].Handle? && s.calls[h].kind.InvalidateVideosList? && s.calls[h].settle.Some? ==>
      && s.calls[h].settle.value < |s.calls| && s.calls[s.calls[h].settle.value].Sql?
      && var statement := s.calls[s.calls[h].settle.value].statement;
         && statement.event == s.calls[h].event
         && (if 1 <= s.calls[h].attempts <= 4 then statement.Release? else statement.MarkFailed?)
  }

  predicate RetriesInv(s: State) {
    && (forall e | e in s.rows :: FailedLate(s, e))
    && (forall c | 0 <= c < |s.calls| :: FailsLate(s, c) && SettledInTurn(s, c))
  }

  lemma FailedStaysLate(s: State, step: Step, e: EventId)
    requires Inv(s) && RetriesInv(s) && Enabled(s, step)
    ensures FailedLate(Apply(s, step), e)
  {
    if step.ExecuteSql? {
      assert CallInv(s, step.call) && FailsLate(s, step.call);
    } else if e in s.rows && !step.Fetch? {
      RowsKept(s, step, e);
    } else {
      NewRowsLive(s, step, e);
    }
  }

  lemma NewRowsLive(s: State, step: Step, e: EventId)
    requires Inv(s) && RetriesInv(s) && Enabled(s, step) && (step.Fetch? || e !in s.rows) && !step.ExecuteSql?
    ensures FailedLate(Apply(s, step), e)
  {
    if step.OfGet? { GetMovesAlways(s, step.call, step.getAct); }
    else if step.OfDel? { DelKeepsRows(s, step.call, step.delAct); }
    else if step.Fetch? { ClaimedRowsLive(s, step, e); }
  }

  lemma ClaimedRowsLive(s: State, step: Step, e: EventId)
    requires RetriesInv(s) && Enabled(s, step) && step.Fetch?
    ensures FailedLate(Apply(s, step), e)
  {
    assert e in s.rows ==> FailedLate(s, e);
  }

  /** The statement a handler issues for its claim. */
  lemma HandlerAsks(s: State, h: CallId, act: HandleAct, c: CallId)
    requires Inv(s) && RetriesInv(s) && HandleEnabled(s, h, act)
    requires (c == h || c >= |s.calls|) && c < |ApplyHandle(s, h, act).calls|
    ensures FailsLate(ApplyHandle(s, h, act), c) && SettledInTurn(ApplyHandle(s, h, act), c)
  {
    assert CallInv(s, h) && SettledInTurn(s, h);
    if s.calls[h].settle.Some? { assert s.calls[h].settle.value != h; }
  }

  /** No other step issues a statement of a claim or settles one. */
  predicate Quiescent(c: Call) {
    !c.Sql? && (c.Handle? ==> c.settle.None?)
  }

  lemma NewCallsQuiescent(s: State, step: Step, c: CallId)
    requires Enabled(s, step) && !step.OfHandle? && |s.calls| <= c < |Apply(s, step).calls|
    ensures Quiescent(Apply(s, step).calls[c])
  {
    if !step.Fetch? { BeginsWorkerCall(s, step, c); }
  }

  lemma OwnCallQuiescent(s: State, step: Step, c: CallId)
    requires Enabled(s, step) && !step.OfHandle? && !step.ExecuteSql? && c < |s.calls| && StepOf(step, {c})
    ensures c < |Apply(s, step).calls| && Quiescent(Apply(s, step).calls[c])
  {
    if step.OfGet? { GetMovesAlways(s, step.call, step.getAct); }
  }

  /** A call that did not move keeps its statement's or its settlement's promise. */
  lemma KeptCallStays(s: State, s': State, c: CallId)
    requires CallsInv(s) && RetriesInv(s) && Evolves(s, s') && c < |s.calls| && c < |s'.calls|
    requires s'.calls[c] == s.calls[c] || (s.calls[c].Sql? && s'.calls[c] == s.calls[c].(executed := true))
    ensures FailsLate(s', c) && SettledInTurn(s', c)
  {
    assert CallInv(s, c) && FailsLate(s, c) && SettledInTurn(s, c);
    if s.calls[c].Sql? {
      var e := s.calls[c].statement.event;
      assert Advances(s.rows[e], s'.rows[e]);
    }
    if s.calls[c].Handle? && s.calls[c].settle.Some? && s.calls[c].kind.InvalidateVideosList? {
      var q := s.calls[c].settle.value;
      assert CallEvolves(s.calls[q], s'.calls[q]);
    }
  }

  lemma CallStaysInTurn(s: State, step: Step, c: CallId)
    requires Inv(s) && RetriesInv(s) && Enabled(s, step) && c < |Apply(s, step).calls|
    ensures FailsLate(Apply(s, step), c) && SettledInTurn(Apply(s, step), c)
  {
    StepEvolves(s, step);
    if step.OfHandle? && (c == step.call || c >= |s.calls|) {
      HandlerAsks(s, step.call, step.handleAct, c);
    } else if c >= |s.calls| {
      NewCallsQuiescent(s, step, c);
    } else if !StepOf(step, {c}) {
      OthersLeaveCall(s, step, c);
      KeptCallStays(s, Apply(s, step), c);
    } else if step.ExecuteSql? {
      KeptCallStays(s, Apply(s, step), c);
    } else {
      OwnCallQuiescent(s, step, c);
    }
  }

  lemma RetriesStep(s: State, step: Step)
    requires Inv(s) && RetriesInv(s) && Enabled(s, step)
    ensures RetriesInv(Apply(s, step))
  {
    var s' := Apply(s, step);
    forall e | e in s'.rows ensures FailedLate(s', e) { FailedStaysLate(s, step, e); }
    forall c | 0 <= c < |s'.calls| ensures FailsLate(s', c) && SettledInTurn(s', c) { CallStaysInTurn(s, step, c); }
  }

  lemma {:induction false} RetriesKept(s: State, steps: seq<Step>)
    requires Inv(s) && RetriesInv(s) && Valid(s, steps)
    ensures RetriesInv(Exec(s, steps))
    decreases |steps|
  {
    if steps != [] {
      RetriesStep(s, steps[0]);
      StepKeepsInv(s, steps[0]);
      RetriesKept(Apply(s, steps[0]), steps[1..]);
    }
  }

  /** In every reachable state a failed invalidation row has been claimed at least five times. */
  lemma {:induction false} NoEarlyFailure(start: State, steps: seq<Step>, e: EventId)
    requires Init(start) && Valid(start, steps)
    requires var rows := Exec(start, steps).rows;
             e in rows && rows[e].kind.InvalidateVideosList? && rows[e].failedAt.Some?
    ensures Exec(start, steps).rows[e].attempts >= 5
  {
    InitInv(start);
    RetriesKept(start, steps);
    assert FailedLate(Exec(start, steps), e);
  }

  /**
   * In every reachable state, a claim of an invalidation row that was settled was released at its first four
   * attempts.
   */
  lemma {:induction false} SettledClaims(start: State, steps: seq<Step>, h: CallId)
    requires Init(start) && Valid(start, steps) && h < |Exec(start, steps).calls|
    requires var c := Exec(start, steps).calls[h]; c.Handle? && c.kind.InvalidateVideosList? && c.settle.Some?
    ensures var s := Exec(start, steps);
            var c := s.calls[h];
            && c.settle.value < |s.calls| && s.calls[c.settle.value].Sql?
            && var statement := s.calls[c.settle.value].statement;
               && statement.event == c.event
               && (statement.Release? <==> 1 <= c.attempts <= 4) && (statement.MarkFailed? <==> c.attempts >= 5)
  {
    var s := Exec(start, steps);
    InitInv(start);
    RetriesKept(start, steps);
    ReachableInv(start, steps);
    assert SettledInTurn(s, h) && CallInv(s, h);
  }
}
