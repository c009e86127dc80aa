/** Exactly when a ListVideos call can still miss a commit: the condition of its lookup, or of the one it waits for. */
module ListFreshness {
  import opened Basics
  import opened Videos
  import opened Protocol
  import opened ProtocolInvariant
  import opened ProtocolSteps
  import opened DatabaseSteps
  import opened Theorems
  import opened Runs
  import opened Freshness

  /** The leader of an open list flight still waits for its lookup. */
  predicate LeadsList(s: State, k: InstanceId, l: CallId) {
    && l < |s.calls| && s.calls[l].List? && s.calls[l].instance == k && s.calls[l].leader == l
       && s.calls[l].listPc.Awaiting?
  }

  predicate LeadersInv(s: State) {
    forall k | 0 <= k < |s.instances| && s.instances[k].listFlight.Some? ::
      LeadsList(s, k, s.instances[k].listFlight.value)
  }

  lemma ListFlightKept(s: State, step: Step, k: InstanceId)
    requires Enabled(s, step) && !step.BeginList? && !step.FinishList? && k < |Apply(s, step).instances|
    ensures Apply(s, step).instances[k].listFlight == if k < |s.instances| then s.instances[k].listFlight else None
  {
    if step.OfGet? { ListFlightKeptByGet(s, step.call, step.getAct, k); }
    else if step.OfDel? { ListFlightKeptByDel(s, step.call, step.delAct, k); }
  }

  lemma ListFlightKeptByGet(s: State, c: CallId, act: GetAct, k: InstanceId)
    requires GetEnabled(s, c, act) && k < |ApplyGet(s, c, act).instances|
    ensures k < |s.instances| && ApplyGet(s, c, act).instances[k].listFlight == s.instances[k].listFlight
  {
    GetMovesAlways(s, c, act);
  }

  lemma ListFlightKeptByDel(s: State, c: CallId, act: DelAct, k: InstanceId)
    requires DelEnabled(s, c, act) && k < |ApplyDel(s, c, act).instances|
    ensures k < |s.instances| && ApplyDel(s, c, act).instances[k].listFlight == s.instances[k].listFlight
  {}

  lemma LeadersStep(s: State, step: Step)
    requires LeadersInv(s) && Enabled(s, step)
    ensures LeadersInv(Apply(s, step))
  {
    var s' := Apply(s, step);
    if !step.BeginList? && !step.FinishList? {
      forall k | 0 <= k < |s'.instances| && s'.instances[k].listFlight.Some?
        ensures LeadsList(s', k, s'.instances[k].listFlight.value)
      {
        ListFlightKept(s, step, k);
        var l := s.instances[k].listFlight.value;
        OthersLeaveCall(s, step, l);
      }
    }
  }

  lemma {:induction false} LeadersKept(s: State, steps: seq<Step>)
    requires LeadersInv(s) && Valid(s, steps)
    ensures LeadersInv(Exec(s, steps))
    decreases |steps|
  {
    if steps != [] {
      LeadersStep(s, steps[0]);
      LeadersKept(Apply(s, steps[0]), steps[1..]);
    }
  }

  /** The call has been answered with a list that lacks one of the first n commits. */
  ghost predicate AnsweredWithout(s: State, c: CallId, n: nat) {
    && c < |s.calls| && s.calls[c].List? && s.calls[c].listPc.Answered?
    && !HoldsCommits(s, s.calls[c].listPc.snapshot.videos, n)
  }

  ghost predicate AnsweredWithoutInSomeRun(s: State, c: CallId, n: nat) {
    exists after :: Valid(s, after) && AnsweredWithout(Exec(s, after), c, n)
  }

  /** The leader waits for lookup g, or has taken its outcome over. */
  predicate LeaderFresh(s: State, l: CallId, g: CallId, n: nat) {
    && l < |s.calls| && s.calls[l].List? && s.calls[l].leader == l
    && match s.calls[l].listPc
       case Awaiting(get) => get == g && CannotMiss(s, g, n)
       case Answered(snapshot) => n <= snapshot.at
       case Unanswered => true
       case Following => false
  }

  predicate JoinerFresh(s: State, c: CallId, l: CallId, n: nat) {
    && c < |s.calls| && s.calls[c].List? && s.calls[c].leader == l
    && match s.calls[c].listPc
       case Awaiting(_) => c == l
       case Answered(snapshot) => n <= snapshot.at
       case _ => true
  }

  predicate BothFresh(s: State, c: CallId, l: CallId, g: CallId, n: nat) {
    LeaderFresh(s, l, g, n) && JoinerFresh(s, c, l, n)
  }

  lemma LeaderStaysFresh(s: State, step: Step, l: CallId, g: CallId, n: nat)
    requires Inv(s) && n <= s.fence && Enabled(s, step) && LeaderFresh(s, l, g, n)
    ensures LeaderFresh(Apply(s, step), l, g, n)
  {
    if step != FinishList(l) {
      OthersLeaveCall(s, step, l);
      if s.calls[l].listPc.Awaiting? { StaysFresh(s, step, g, n); }
    }
  }

  lemma JoinerStaysFresh(s: State, step: Step, c: CallId, l: CallId, g: CallId, n: nat)
    requires Inv(s) && n <= s.fence && Enabled(s, step) && BothFresh(s, c, l, g, n) && c != l
    ensures JoinerFresh(Apply(s, step), c, l, n)
  {
    if step != FinishList(c) { OthersLeaveCall(s, step, c); }
  }

  lemma {:induction false} NeverAnsweredWithout(s: State, steps: seq<Step>, c: CallId, l: CallId, g: CallId, n: nat)
    requires Inv(s) && n <= s.fence && Valid(s, steps) && BothFresh(s, c, l, g, n)
    ensures !AnsweredWithout(Exec(s, steps), c, n)
    decreases |steps|
  {
    if steps == [] {
      assert CallInv(s, c);
      if s.calls[c].listPc.Answered? { HoldsWhenRead(s, s.calls[c].listPc.snapshot, n); }
    } else {
      var t := Apply(s, steps[0]);
      LeaderStaysFresh(s, steps[0], l, g, n);
      if c != l { JoinerStaysFresh(s, steps[0], c, l, g, n); }
      StepKeepsInv(s, steps[0]);
      StepEvolves(s, steps[0]);
      NeverAnsweredWithout(t, steps[1..], c, l, g, n);
    }
  }

  /** Call c waits for the leader l, which waits for lookup g; the leader may be the call itself. */
  predicate Waits(s: State, c: CallId, l: CallId, g: CallId) {
    && l < |s.calls| && s.calls[l].List? && s.calls[l].leader == l && s.calls[l].listPc == Awaiting(g)
    && s.calls[l].instance < |s.instances|
    && c < |s.calls| && s.calls[c].List? && s.calls[c].leader == l && (c == l || s.calls[c].listPc.Following?)
    && s.calls[c].instance < |s.instances|
  }

  lemma {:induction false} QuietKeepsWaiting(s: State, steps: seq<Step>, c: CallId, l: CallId, g: CallId)
    requires Valid(s, steps) && Quiet(steps) && Waits(s, c, l, g)
    ensures Waits(Exec(s, steps), c, l, g)
    decreases |steps|
  {
    if steps != [] {
      OthersLeaveCall(s, steps[0], c);
      OthersLeaveCall(s, steps[0], l);
      if steps[0].OfGet? { GetMovesAlways(s, steps[0].call, steps[0].getAct); }
      QuietKeepsWaiting(Apply(s, steps[0]), steps[1..], c, l, g);
    }
  }

  /** The leader takes over what its lookup returned. */
  lemma LeaderAnswers(s: State, c: CallId, l: CallId, g: CallId, n: nat)
    requires Waits(s, c, l, g) && ReturnedWithout(s, g, n)
    ensures Enabled(s, FinishList(l)) && AnsweredWithout(Apply(s, FinishList(l)), l, n)
    ensures c != l ==> CallKept(s, Apply(s, FinishList(l)), c) && |Apply(s, FinishList(l)).instances| == |s.instances|
  {}

  lemma JoinerAnswers(s: State, c: CallId, l: CallId, n: nat)
    requires c < |s.calls| && s.calls[c].List? && s.calls[c].leader == l && s.calls[c].listPc.Following?
    requires s.calls[c].instance < |s.instances| && AnsweredWithout(s, l, n)
    ensures Enabled(s, FinishList(c)) && AnsweredWithout(Apply(s, FinishList(c)), c, n)
  {}

  lemma WaiterMisses(s: State, c: CallId, l: CallId, g: CallId, n: nat)
    requires Waits(s, c, l, g) && CanMiss(s, g, n)
    ensures AnsweredWithoutInSomeRun(s, c, n)
  {
    var steps :| Valid(s, steps) && Quiet(steps) && ReturnedWithout(Exec(s, steps), g, n);
    QuietKeepsWaiting(s, steps, c, l, g);
    LeaderAnswers(Exec(s, steps), c, l, g, n);
    ExecAppend(s, steps, FinishList(l));
    var after := steps + [FinishList(l)];
    if c != l {
      JoinerAnswers(Exec(s, after), c, l, n);
      ExecAppend(s, after, FinishList(c));
    }
  }

  lemma WaiterMissesExactly(s: State, c: CallId, l: CallId, g: CallId, n: nat)
    requires Inv(s) && n <= s.fence && Waits(s, c, l, g) && g < |s.calls| && s.calls[g].Get?
    ensures AnsweredWithoutInSomeRun(s, c, n) <==> MayMiss(s, g, n)
  {
    if MayMiss(s, g, n) {
      MissesWhenMayMiss(s, g, n);
      WaiterMisses(s, c, l, g, n);
    } else {
      forall after | Valid(s, after) ensures !AnsweredWithout(Exec(s, after), c, n) {
        NeverAnsweredWithout(s, after, c, l, g, n);
      }
    }
  }

  /** The condition when a ListVideos call begins: of the lookup the open flight waits for, or of the one it begins. */
  predicate ListMayMiss(s: State, k: InstanceId, n: nat)
    requires k < |s.instances|
  {
    var l := s.instances[k].listFlight;
    if l.Some? then l.value < |s.calls| && s.calls[l.value].List? && s.calls[l.value].listPc.Awaiting?
                    && MayMiss(s, s.calls[l.value].listPc.get, n)
    else StaleFlight(s, k, n)
  }

  lemma ListMissesExactly(s: State, k: InstanceId, n: nat)
    requires Inv(s) && LeadersInv(s) && n <= s.fence && k < |s.instances|
    ensures AnsweredWithoutInSomeRun(Apply(s, BeginList(k)), |s.calls|, n) <==> ListMayMiss(s, k, n)
  {
    var s', c := Apply(s, BeginList(k)), |s.calls|;
    var l := if s.instances[k].listFlight.Some? then s.instances[k].listFlight.value else c;
    StepKeepsInv(s, BeginList(k));
    var g := s'.calls[l].listPc.get;
    assert InstanceInv(s, k) && CallInv(s', l);
    WaiterMissesExactly(s', c, l, g, n);
    if l == c {
      LeaderLooks(s, k, n);
    } else {
      assert CallInv(s, l);
      JoinChangesNothing(s, k, g, n);
    }
  }

  /** A joiner begins no call but itself, so the leader's lookup stands as it stood. */
  lemma JoinChangesNothing(s: State, k: InstanceId, g: CallId, n: nat)
    requires Inv(s) && k < |s.instances| && s.instances[k].listFlight.Some? && g < |s.calls| && s.calls[g].Get?
    ensures MayMiss(Apply(s, BeginList(k)), g, n) <==> MayMiss(s, g, n)
  {
    assert CallInv(s, g) && InstanceInv(s, s.calls[g].instance);
  }

  lemma LeaderLooks(s: State, k: InstanceId, n: nat)
    requires Inv(s) && k < |s.instances| && s.instances[k].listFlight.None?
    ensures MayMiss(Apply(s, BeginList(k)), |s.calls| + 1, n) <==> StaleFlight(s, k, n)
  {
    assert InstanceInv(s, k);
  }

  /**
   * A ListVideos call, on any instance, can still be answered without an increment that has returned success, on any
   * instance, if and only if the lookup its flight waits for holds, waits for or would join a list read before that
   * increment; a call that leads a new flight, if and only if it would join one.
   */
  lemma ListMissesWhen(start: State, before: seq<Step>, increment: CallId, k: InstanceId)
    requires Init(start) && Valid(start, before) && k < |Exec(start, before).instances|
    requires var s := Exec(start, before);
             increment < |s.calls| && s.calls[increment].Increment? && s.calls[increment].incrementPc.Succeeded?
    ensures var s := Exec(start, before);
            && s.calls[increment].commit.Some?
            && var n := s.calls[increment].commit.value + 1;
               AnsweredWithoutInSomeRun(Apply(s, BeginList(k)), |s.calls|, n) <==> ListMayMiss(s, k, n)
  {
    var s := Exec(start, before);
    ReachableInv(start, before);
    LeadersKept(start, before);
    assert CallInv(s, increment) && InstanceInv(s, s.calls[increment].instance);
    ListMissesExactly(s, k, s.calls[increment].commit.value + 1);
  }
}
