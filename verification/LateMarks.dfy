/**
 * When a row becomes processed, and that a failed row still can: the statement that marks a row processed does not look
 * at failed_at, and a worker whose lease has run out may still send it.
 */
module LateMarks {
  import opened Basics
  import opened Videos
  import opened Outbox
  import opened Protocol
  import opened ProtocolInvariant
  import opened ProtocolSteps
  import opened DatabaseSteps
  import opened Theorems
  import opened Runs

  predicate Marks(s: State, step: Step, e: EventId)
    requires Enabled(s, step)
  {
    step.ExecuteSql? && s.calls[step.call].statement == MarkProcessed(e)
  }

  /** A statement that marks the row processed executes in the run. */
  predicate MarkedIn(s: State, steps: seq<Step>, e: EventId)
    requires Valid(s, steps)
    decreases |steps|
  {
    steps != [] && (Marks(s, steps[0], e) || MarkedIn(Apply(s, steps[0]), steps[1..], e))
  }

  predicate Unprocessed(s: State, e: EventId) {
    e in s.rows && s.rows[e].processedAt.None?
  }

  lemma MarkStep(s: State, step: Step, e: EventId)
    requires Enabled(s, step) && Unprocessed(s, e)
    ensures Unprocessed(Apply(s, step), e) <==> !Marks(s, step, e)
  {
    if !step.Fetch? && !step.ExecuteSql? { RowsKept(s, step, e); }
  }

  lemma {:induction false} MarkRun(s: State, steps: seq<Step>, e: EventId)
    requires Inv(s) && Valid(s, steps) && Unprocessed(s, e)
    ensures Unprocessed(Exec(s, steps), e) <==> !MarkedIn(s, steps, e)
    decreases |steps|
  {
    if steps != [] {
      var t := Apply(s, steps[0]);
      MarkStep(s, steps[0], e);
      StepKeepsInv(s, steps[0]);
      if Unprocessed(t, e) {
        MarkRun(t, steps[1..], e);
      } else {
        RunKeepsInv(t, steps[1..]);
        StepEvolves(s, steps[0]);
        assert Advances(s.rows[e], t.rows[e]);
      }
    }
  }

  /** An unprocessed row is processed later just when such a statement executed in between; a failed row stays so. */
  lemma ProcessedWhenMarked(start: State, before: seq<Step>, after: seq<Step>, e: EventId)
    requires Init(start) && Valid(start, before) && Unprocessed(Exec(start, before), e)
    requires Valid(Exec(start, before), after)
    ensures var s, s' := Exec(start, before), Exec(Exec(start, before), after);
            && e in s'.rows && (s'.rows[e].processedAt.Some? <==> MarkedIn(s, after, e))
            && (s.rows[e].failedAt.Some? ==> s'.rows[e].failedAt == s.rows[e].failedAt)
  {
    var s := Exec(start, before);
    ReachableInv(start, before);
    RunKeepsInv(s, after);
    MarkRun(s, after, e);
    assert Advances(s.rows[e], Exec(s, after).rows[e]);
  }

  /** The invalidation can still execute both its commands, or has. */
  predicate MayExecute(s: State, d: CallId) {
    && d < |s.calls| && s.calls[d].Del?
    && var pc := s.calls[d].delPc;
       pc.Executed? || pc.Bumped? || ((pc.Begun? || pc.Forgotten?) && Counter(s.version) < MAX_INT64)
  }

  /** The call is a mark on its way, or handles a claim of the row that may still send one. */
  predicate MayMark(s: State, c: CallId, e: EventId) {
    && c < |s.calls|
    && match s.calls[c]
       case Sql(statement, _, executed) => statement == MarkProcessed(e) && !executed
       case Handle(_, event, kind, _, _, pc) =>
         && event == e
         && ((pc.Received? && kind.InvalidateVideosList? && Counter(s.version) < MAX_INT64)
             || (pc.Deleting? && MayExecute(s, pc.del)))
       case _ => false
  }

  /** The condition, in the state in which a row has failed. */
  predicate MarkPending(s: State, e: EventId) {
    exists c: CallId :: c < |s.calls| && MayMark(s, c, e)
  }

  predicate FailedRow(s: State, e: EventId) {
    Unprocessed(s, e) && s.rows[e].failedAt.Some?
  }

  ghost predicate ProcessedInSomeRun(s: State, e: EventId) {
    exists after :: Valid(s, after) && e in Exec(s, after).rows && Exec(s, after).rows[e].processedAt.Some?
  }

  lemma ExecuteStays(s: State, step: Step, d: CallId)
    requires Inv(s) && Enabled(s, step) && d < |s.calls| && MayExecute(Apply(s, step), d)
    ensures MayExecute(s, d)
  {
    StepEvolves(s, step);
    assert CallEvolves(s.calls[d], Apply(s, step).calls[d]);
    if StepOf(step, {d}) { DelStays(s, d, step.delAct); } else { OthersLeaveCall(s, step, d); }
  }

  lemma DelStays(s: State, d: CallId, act: DelAct)
    requires DelEnabled(s, d, act) && MayExecute(ApplyDel(s, d, act), d)
    ensures MayExecute(s, d)
  {}

  /** A call of this step may mark the row only if one may already. */
  lemma HandleStays(s: State, h: CallId, act: HandleAct, c: CallId, e: EventId)
    requires Inv(s) && HandleEnabled(s, h, act) && MayMark(ApplyHandle(s, h, act), c, e) && (c == h || c >= |s.calls|)
    ensures MayMark(s, h, e)
  {
    assert CallInv(s, h);
  }

  lemma FetchStays(s: State, step: Step, c: CallId, e: EventId)
    requires Inv(s) && Enabled(s, step) && step.Fetch? && c >= |s.calls| && MayMark(Apply(s, step), c, e)
    ensures e in s.rows && Live(s.rows[e])
  {
    assert step.batch[c - |s.calls|] in step.batch;
  }

  /** Neither a new call nor the call that took the step. */
  lemma OtherStays(s: State, step: Step, c: CallId, e: EventId)
    requires Inv(s) && Enabled(s, step) && c < |s.calls| && !StepOf(step, {c}) && MayMark(Apply(s, step), c, e)
    ensures MayMark(s, c, e)
  {
    OthersLeaveCall(s, step, c);
    StepEvolves(s, step);
    assert CallInv(s, c);
    var call := s.calls[c];
    if call.Handle? && call.handlePc.Deleting? { ExecuteStays(s, step, call.handlePc.del); }
  }

  /** Only handling a claim and the claiming query begin calls that may mark a row. */
  lemma NewStays(s: State, step: Step, c: CallId, e: EventId)
    requires Enabled(s, step) && c >= |s.calls| && MayMark(Apply(s, step), c, e)
    ensures step.Fetch? || step.OfHandle?
  {
    if !step.Fetch? && !step.OfHandle? { BeginsWorkerCall(s, step, c); }
  }

  lemma OwnStays(s: State, step: Step, c: CallId, e: EventId)
    requires Enabled(s, step) && c < |s.calls| && StepOf(step, {c}) && !step.OfHandle?
    ensures !MayMark(Apply(s, step), c, e)
  {
    if step.OfGet? { GetMovesAlways(s, step.call, step.getAct); }
  }

  lemma CallStays(s: State, step: Step, c: CallId, e: EventId)
    requires Inv(s) && Enabled(s, step) && FailedRow(s, e) && MayMark(Apply(s, step), c, e)
    ensures MarkPending(s, e)
  {
    if c >= |s.calls| { NewStays(s, step, c, e); }
    if c >= |s.calls| && step.Fetch? { FetchStays(s, step, c, e); }
    else if step.OfHandle? && (c == step.call || c >= |s.calls|) { HandleStays(s, step.call, step.handleAct, c, e); }
    else if StepOf(step, {c}) { OwnStays(s, step, c, e); }
    else { OtherStays(s, step, c, e); }
  }

  lemma RowStaysFailed(s: State, step: Step, e: EventId)
    requires Inv(s) && Enabled(s, step) && FailedRow(s, e) && !MarkPending(s, e)
    ensures FailedRow(Apply(s, step), e)
  {
    FailureStays(s, step, e);
    MarkStep(s, step, e);
    if Marks(s, step, e) { assert MayMark(s, step.call, e); }
  }

  lemma FailureStays(s: State, step: Step, e: EventId)
    requires Inv(s) && Enabled(s, step) && FailedRow(s, e)
    ensures e in Apply(s, step).rows && Apply(s, step).rows[e].failedAt.Some?
  {
    StepEvolves(s, step);
    assert Advances(s.rows[e], Apply(s, step).rows[e]);
  }

  lemma PendingStep(s: State, step: Step, e: EventId)
    requires Inv(s) && Enabled(s, step) && FailedRow(s, e) && !MarkPending(s, e)
    ensures FailedRow(Apply(s, step), e) && !MarkPending(Apply(s, step), e)
  {
    RowStaysFailed(s, step, e);
    forall c: CallId | MayMark(Apply(s, step), c, e) ensures false { CallStays(s, step, c, e); }
  }

  lemma {:induction false} NeverProcessed(s: State, steps: seq<Step>, e: EventId)
    requires Inv(s) && Valid(s, steps) && FailedRow(s, e) && !MarkPending(s, e)
    ensures FailedRow(Exec(s, steps), e)
    decreases |steps|
  {
    if steps != [] {
      PendingStep(s, steps[0], e);
      StepKeepsInv(s, steps[0]);
      NeverProcessed(Apply(s, steps[0]), steps[1..], e);
    }
  }

  lemma FirstOfRun(s: State, step: Step, e: EventId)
    requires Enabled(s, step) && ProcessedInSomeRun(Apply(s, step), e)
    ensures ProcessedInSomeRun(s, e)
  {
    var rest :| Valid(Apply(s, step), rest) && e in Exec(Apply(s, step), rest).rows
      && Exec(Apply(s, step), rest).rows[e].processedAt.Some?;
    assert ([step] + rest)[1..] == rest;
    assert Valid(s, [step] + rest) && Exec(s, [step] + rest) == Exec(Apply(s, step), rest);
  }

  lemma SentMarks(s: State, q: CallId, e: EventId)
    requires Inv(s) && q < |s.calls| && s.calls[q].Sql? && s.calls[q].statement == MarkProcessed(e)
             && !s.calls[q].executed
    ensures ProcessedInSomeRun(s, e)
  {
    assert CallInv(s, q);
    var s' := Apply(s, ExecuteSql(q));
    assert Valid(s', []) && Exec(s', []) == s';
    FirstOfRun(s, ExecuteSql(q), e);
  }

  lemma DeletedMarks(s: State, h: CallId, e: EventId)
    requires Inv(s) && h < |s.calls| && s.calls[h].Handle? && s.calls[h].event == e
    requires s.calls[h].handlePc.Deleting? && DelAt(s, s.calls[h].handlePc.del, Executed)
    ensures ProcessedInSomeRun(s, e)
  {
    assert CallInv(s, h);
    StepKeepsInv(s, OfHandle(h, DelReturned));
    SentMarks(Apply(s, OfHandle(h, DelReturned)), |s.calls|, e);
    FirstOfRun(s, OfHandle(h, DelReturned), e);
  }

  function NextAct(pc: DelPc): DelAct {
    match pc
    case Begun => Forget
    case Forgotten => Incr
    case _ => DeleteKey
  }

  function Remaining(pc: DelPc): nat {
    match pc
    case Begun => 3
    case Forgotten => 2
    case Bumped => 1
    case _ => 0
  }

  lemma DeletionProceeds(s: State, d: CallId)
    requires Inv(s) && MayExecute(s, d) && !s.calls[d].delPc.Executed?
    ensures Enabled(s, OfDel(d, NextAct(s.calls[d].delPc)))
    ensures var s' := Apply(s, OfDel(d, NextAct(s.calls[d].delPc)));
            MayExecute(s', d) && Remaining(s'.calls[d].delPc) < Remaining(s.calls[d].delPc)
  {
    assert CallInv(s, d);
  }

  lemma DeletingMarks(s: State, h: CallId, e: EventId)
    requires Inv(s) && h < |s.calls| && s.calls[h].Handle? && s.calls[h].event == e
    requires s.calls[h].handlePc.Deleting? && MayExecute(s, s.calls[h].handlePc.del)
    ensures ProcessedInSomeRun(s, e)
    decreases Remaining(s.calls[s.calls[h].handlePc.del].delPc)
  {
    var d := s.calls[h].handlePc.del;
    if s.calls[d].delPc.Executed? {
      DeletedMarks(s, h, e);
    } else {
      var step := OfDel(d, NextAct(s.calls[d].delPc));
      DeletionProceeds(s, d);
      StepKeepsInv(s, step);
      OthersLeaveCall(s, step, h);
      DeletingMarks(Apply(s, step), h, e);
      FirstOfRun(s, step, e);
    }
  }

  lemma PendingMarks(s: State, c: CallId, e: EventId)
    requires Inv(s) && MayMark(s, c, e)
    ensures ProcessedInSomeRun(s, e)
  {
    assert CallInv(s, c);
    if s.calls[c].Sql? {
      SentMarks(s, c, e);
    } else if s.calls[c].handlePc.Deleting? {
      DeletingMarks(s, c, e);
    } else {
      StepKeepsInv(s, OfHandle(c, StartHandle));
      DeletingMarks(Apply(s, OfHandle(c, StartHandle)), c, e);
      FirstOfRun(s, OfHandle(c, StartHandle), e);
    }
  }

  /**
   * A failed row can still become processed if and only if a mark is on its way, or a call that handles an old claim of
   * it may still send one.
   */
  lemma FailedMayBeProcessed(start: State, before: seq<Step>, e: EventId)
    requires Init(start) && Valid(start, before) && FailedRow(Exec(start, before), e)
    ensures ProcessedInSomeRun(Exec(start, before), e) <==> MarkPending(Exec(start, before), e)
  {
    var s := Exec(start, before);
    ReachableInv(start, before);
    if MarkPending(s, e) {
      var c: CallId :| c < |s.calls| && MayMark(s, c, e);
      PendingMarks(s, c, e);
    } else {
      forall after | Valid(s, after) ensures FailedRow(Exec(s, after), e) {
        NeverProcessed(s, after, e);
      }
    }
  }

  /** The time of the n-th claim: each a second after the lease of the one before. */
  function ClaimTime(n: nat): nat {
    if n == 0 then 0 else ClaimTime(n - 1) + LEASE + 1
  }

  /** One increment was committed, and its row has been claimed n times by calls that then did nothing. */
  function ClaimedTimes(n: nat): State {
    var row := NewRow(InvalidateVideosList, 0, 1, 0);
    var claimed := if n == 0 then row else row.(attempts := n - 1);
    Start().(
      now := ClaimTime(n), videos := map[0 := UNSEEN.(views := 1)], history := [Commit(0, 0, 1, 0, 0)],
      rows := map[0 := if n == 0 then row else Claimed(claimed, ClaimTime(n))],
      instances := [Instance(None, None, 0, 0)], calls := [Increment(0, 0, Some(0), Calling)] + Claims(n))
  }

  function Claims(n: nat): (calls: seq<Call>)
    ensures |calls| == n
  {
    if n == 0 then [] else Claims(n - 1) + [Handle(0, 0, InvalidateVideosList, n, None, Received)]
  }

  lemma Started()
    ensures Reaches(Start(), Start().(instances := [Instance(None, None, 0, 0)]))
  {
    Nowhere(Start());
    Take(Start(), Start(), StartInstance);
  }

  lemma ClaimedNever()
    ensures Reaches(Start(), ClaimedTimes(0))
  {
    var start := Start();
    var started := start.(instances := [Instance(None, None, 0, 0)]);
    Started();
    var called := started.(calls := [Increment(0, 0, None, Calling)]);
    Take(start, started, BeginIncrement(0, 0));
    assert Apply(started, BeginIncrement(0, 0)) == called;
    Take(start, called, OfIncrement(0, CommitTx(0, 0)));
    assert Apply(called, OfIncrement(0, CommitTx(0, 0))) == ClaimedTimes(0);
  }

  lemma ClaimedAgain(n: nat)
    requires n < 5 && Reaches(Start(), ClaimedTimes(n))
    ensures Reaches(Start(), ClaimedTimes(n + 1))
  {
    var s := ClaimedTimes(n);
    var later := s.(now := ClaimTime(n + 1));
    Take(Start(), s, Tick(LEASE + 1));
    assert Apply(s, Tick(LEASE + 1)) == later;
    PicksOnly(later);
    Take(Start(), later, Fetch(0, {}, [0]));
    FetchClaims(n, later);
  }

  lemma PicksOnly(s: State)
    requires s.rows.Keys == {0} && Eligible(s.rows[0], s.now) && s.rows[0].attempts < MAX_INT32
    ensures Picks(s.rows, s.now, BATCH_SIZE, {}, [0])
  {
    assert Claimable(s.rows, s.now, {}) == {0};
  }

  lemma FetchClaims(n: nat, s: State)
    requires s == ClaimedTimes(n).(now := ClaimTime(n + 1)) && Enabled(s, Fetch(0, {}, [0]))
    ensures Apply(s, Fetch(0, {}, [0])) == ClaimedTimes(n + 1)
  {
    var s' := Apply(s, Fetch(0, {}, [0]));
    assert s'.rows == ClaimedTimes(n + 1).rows;
    assert s'.calls == ClaimedTimes(n + 1).calls;
  }

  lemma ClaimsAre(n: nat, i: nat)
    requires 1 <= i <= n
    ensures Claims(n)[i - 1] == Handle(0, 0, InvalidateVideosList, i, None, Received)
  {
    if i < n { ClaimsAre(n - 1, i); }
  }

  /** A claim with no attempts left gives its invalidation up and asks for the row to be failed. */
  lemma ClaimGivesUp(start: State, s: State, h: CallId) returns (s': State)
    requires Reaches(start, s) && h < |s.calls| && s.calls[h].Handle? && s.calls[h].instance < |s.instances|
    requires s.calls[h].event in s.rows && s.calls[h].handlePc.Received? && s.calls[h].kind.InvalidateVideosList?
    requires s.calls[h].attempts >= MAX_ATTEMPTS
    ensures Reaches(start, s') && s'.rows == s.rows && s'.version == s.version && |s'.calls| == |s.calls| + 2
    ensures s'.calls[|s.calls| + 1] == Sql(MarkFailed(s.calls[h].event), h, false)
    ensures forall c | 0 <= c < |s.calls| && c != h :: s'.calls[c] == s.calls[c]
  {
    Take(start, s, OfHandle(h, StartHandle));
    var begun := Apply(s, OfHandle(h, StartHandle));
    Take(start, begun, OfHandle(h, Settle));
    s' := Apply(begun, OfHandle(h, Settle));
  }

  lemma FailExecutes(start: State, s: State, q: CallId, h: CallId, e: EventId)
    requires Reaches(start, s) && q < |s.calls| && s.calls[q] == Sql(MarkFailed(e), h, false)
    requires e in s.rows && Live(s.rows[e])
    ensures Enabled(s, ExecuteSql(q)) && Reaches(start, Apply(s, ExecuteSql(q)))
            && FailedRow(Apply(s, ExecuteSql(q)), e)
  {
    Take(start, s, ExecuteSql(q));
  }

  /** The fifth claim fails the row, while the first has not begun its invalidation. */
  lemma FifthClaimFails() returns (s: State)
    ensures Reaches(Start(), s) && FailedRow(s, 0) && MarkPending(s, 0)
  {
    ClaimedNever();
    ClaimedAgain(0);
    ClaimedAgain(1);
    ClaimedAgain(2);
    ClaimedAgain(3);
    ClaimedAgain(4);
    ClaimsAre(5, 1);
    ClaimsAre(5, 5);
    var claimed := ClaimedTimes(5);
    assert claimed.calls[5] == Claims(5)[4] && claimed.calls[1] == Claims(5)[0];
    var asked := ClaimGivesUp(Start(), claimed, 5);
    FailExecutes(Start(), asked, 7, 5, 0);
    s := Apply(asked, ExecuteSql(7));
    assert MayMark(s, 1, 0);
  }

  /** So a row can end up both failed and processed: this run fails it, and then marks it processed. */
  lemma FailedAndProcessed() returns (before: seq<Step>, after: seq<Step>)
    ensures Init(Start()) && Valid(Start(), before) && FailedRow(Exec(Start(), before), 0)
    ensures Valid(Exec(Start(), before), after)
    ensures var s := Exec(Exec(Start(), before), after);
            0 in s.rows && s.rows[0].processedAt.Some? && s.rows[0].failedAt.Some?
  {
    var failed := FifthClaimFails();
    before :| Valid(Start(), before) && Exec(Start(), before) == failed;
    FailedMayBeProcessed(Start(), before, 0);
    after :| Valid(failed, after) && 0 in Exec(failed, after).rows && Exec(failed, after).rows[0].processedAt.Some?;
    ReachableInv(Start(), before);
    RunKeepsInv(failed, after);
    assert Advances(failed.rows[0], Exec(failed, after).rows[0]);
  }
}
