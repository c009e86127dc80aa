/**
 * The list cache and the transactional outbox as one transition system: any number of application instances, calls and
 * outbox workers take atomic steps in any order. A call that stops taking steps has crashed. A remote command is split
 * from the reply to it: a caller may give up at any time, and the command may still be executed later.
 */
module Protocol {
  import opened Basics
  import opened Videos
  import opened Outbox

  type InstanceId = nat

  /** A listing, with two facts kept for the proofs: how many commits the database held at the read, and when. */
  datatype Snapshot = Snapshot(videos: seq<Video>, at: nat, readAt: nat)

  datatype Payload = Corrupt | Listed(snapshot: Snapshot)

  datatype Entry = Entry(payload: Payload, setAt: nat, expiresAt: nat)

  /**
   * One application process: the open flights of Cache.group and VideoService.listGroup for the list key. The last two
   * fields are kept for the proofs: the most commits covered by a Del that forgot the flight, or executed, here.
   */
  datatype Instance = Instance(flight: Option<CallId>, listFlight: Option<CallId>, forgot: nat, deleted: nat)

  // Cache.Del and the repair of a corrupt payload: forget the flight, then the two commands of the pipeline.
  datatype DelPc = Begun | Forgotten | Bumped | NotBumped | Executed | KeyDeleted

  // Cache.GetOrLoadVideos. Lost is a failed call whose compare-and-set may still reach the server.
  datatype GetPc =
    | Looking | Repairing(del: CallId) | Missed
    | Loading | Versioned(version: nat)
    | Loaded(version: nat, snapshot: Snapshot) | Lost(version: nat, snapshot: Snapshot)
    | Joined(flight: CallId)
    | Returned(snapshot: Snapshot) | Failed

  // VideoService.IncrementViews.
  datatype IncrementPc = Calling | Invalidating(del: CallId) | Succeeded | Errored | NotFound

  // OutboxWorker.processEvent, one call per claimed row.
  datatype HandlePc = Received | Deleting(del: CallId) | Marking(sql: CallId) | Settling | Handled

  // VideoService.ListVideos.
  datatype ListPc = Awaiting(get: CallId) | Following | Answered(snapshot: Snapshot) | Unanswered

  datatype Call =
    // covers: the commits in the database when the call began.
    | Del(instance: InstanceId, covers: nat, delPc: DelPc)
    // need: the instance's deleted mark when the call began; born: the commits when it began to load.
    | Get(instance: InstanceId, need: nat, born: nat, getPc: GetPc)
    | Increment(instance: InstanceId, video: VideoId, commit: Option<nat>, incrementPc: IncrementPc)
    // settle: the statement that released or failed the claim, once issued.
    | Handle(
        instance: InstanceId, event: EventId, kind: EventKind, attempts: nat,
        settle: Option<CallId>, handlePc: HandlePc)
    | Sql(statement: Statement, issuer: CallId, executed: bool)
    // since: the deleted mark when the leader of the flight began.
    | List(instance: InstanceId, leader: CallId, since: nat, listPc: ListPc)

  /**
   * floor, fence and lag are kept for the proofs: the most commits covered by a Del whose INCR has executed, by a Del
   * whose INCR and then DEL have executed, and the longest delay from a database read to its successful store.
   */
  datatype State = State(
    initial: Library, ttl: nat, now: nat,
    videos: Library, history: seq<Commit>, rows: Rows,
    version: Option<nat>, entry: Option<Entry>,
    instances: seq<Instance>, calls: seq<Call>,
    floor: nat, fence: nat, lag: nat)

  predicate Init(s: State) {
    && Keyed(s.initial) && s.videos == s.initial && s.history == [] && s.rows == map[]
    && s.ttl > 0 && s.entry.None? && s.instances == [] && s.calls == []
    && s.floor == s.fence == s.lag == 0 && Counter(s.version) <= MAX_INT64
  }

  /** A missing version key reads as zero. */
  function Counter(version: Option<nat>): nat {
    if version.None? then 0 else version.value
  }

  /** ttl.Milliseconds(), at least one. */
  function EntryLife(ttl: nat): nat {
    Max(ttl / MILLISECOND, 1) * MILLISECOND
  }

  datatype DelAct = Forget | Incr | IncrFails | DeleteKey

  datatype GetAct =
    | ReadEntry | Repaired | EnterFlight
    | ReadVersion | ReadVideos(videos: seq<Video>) | CompareAndSet
    | Receive | FailGet

  datatype IncrementAct = CommitTx(event: EventId, createdAt: int) | MissVideo | Invalidate | Finish | FailIncrement

  datatype HandleAct = StartHandle | DelReturned | Settle | FinishHandle

  datatype Step =
    // the environment
    | Tick(elapsed: nat)
    | StartInstance
    | CorruptEntry
    | EvictEntry
    | InsertForeign(event: EventId, name: string, createdAt: int)
    // a Redis client that got no reply sent its commands twice: an INCR arrives again, a compare-and-set may yet
    | RepeatIncr
    | RepeatScript(call: CallId)
    // a new call; Fetch is the claiming query, with the calls that will handle what it returned
    | BeginDel(instance: InstanceId)
    | BeginGet(instance: InstanceId)
    | BeginIncrement(instance: InstanceId, video: VideoId)
    | BeginList(instance: InstanceId)
    | Fetch(instance: InstanceId, locked: set<EventId>, batch: seq<EventId>)
    // a step of an open call
    | OfDel(call: CallId, delAct: DelAct)
    | OfGet(call: CallId, getAct: GetAct)
    | OfIncrement(call: CallId, incrementAct: IncrementAct)
    | OfHandle(call: CallId, handleAct: HandleAct)
    | ExecuteSql(call: CallId)
    | FinishList(call: CallId)

  /** The step belongs to one of the given calls. */
  predicate StepOf(step: Step, calls: set<CallId>) {
    (step.OfDel? || step.OfGet? || step.OfIncrement? || step.OfHandle? || step.ExecuteSql? || step.FinishList?)
    && step.call in calls
  }

  predicate DelAt(s: State, c: CallId, pc: DelPc) {
    c < |s.calls| && s.calls[c].Del? && s.calls[c].delPc == pc
  }

  predicate Executing(s: State, c: CallId) {
    c < |s.calls| && (s.calls[c].Sql? || s.calls[c].instance < |s.instances|)
  }

  predicate Landed(pc: GetPc) {
    pc.Returned? || pc.Failed? || pc.Lost?
  }

  predicate SqlExecuted(s: State, c: CallId) {
    c < |s.calls| && s.calls[c].Sql? && s.calls[c].executed
  }

  predicate DelEnabled(s: State, c: CallId, act: DelAct) {
    && Executing(s, c)
    && match act
       case Forget => DelAt(s, c, Begun)
       case Incr => DelAt(s, c, Forgotten) && Counter(s.version) < MAX_INT64
       case IncrFails => DelAt(s, c, Forgotten)
       case DeleteKey => DelAt(s, c, Bumped) || DelAt(s, c, NotBumped)
  }

  predicate GetEnabled(s: State, c: CallId, act: GetAct) {
    && Executing(s, c) && s.calls[c].Get?
    && var pc := s.calls[c].getPc;
       match act
       case ReadEntry => pc.Looking?
       case Repaired => pc.Repairing? && DelAt(s, pc.del, Executed)
       case EnterFlight => pc.Missed?
       case ReadVersion => pc.Loading?
       case ReadVideos(videos) => pc.Versioned? && IsListing(s.videos, videos)
       case CompareAndSet => pc.Loaded? || pc.Lost?
       case Receive => pc.Joined? && pc.flight < |s.calls| && s.calls[pc.flight].Get?
         && Landed(s.calls[pc.flight].getPc)
       case FailGet => pc.Looking? || pc.Repairing? || pc.Loading? || pc.Versioned? || pc.Loaded?
  }

  predicate IncrementEnabled(s: State, c: CallId, act: IncrementAct) {
    && Executing(s, c) && s.calls[c].Increment?
    && var pc, video := s.calls[c].incrementPc, s.calls[c].video;
       match act
       case CommitTx(e, _) =>
         && (pc.Calling? || pc.Errored?) && s.calls[c].commit.None?
         && video in s.videos && s.videos[video].views < MAX_INT64 && e !in s.rows
       case MissVideo => pc.Calling? && video !in s.videos
       case Invalidate => pc.Calling? && s.calls[c].commit.Some?
       case Finish => pc.Invalidating? && DelAt(s, pc.del, Executed)
       case FailIncrement => pc.Calling? || pc.Invalidating?
  }

  predicate HandleEnabled(s: State, c: CallId, act: HandleAct) {
    && Executing(s, c) && s.calls[c].Handle? && s.calls[c].event in s.rows
    && var pc := s.calls[c].handlePc;
       match act
       case StartHandle => pc.Received?
       case DelReturned => pc.Deleting? && DelAt(s, pc.del, Executed)
       case Settle => pc.Deleting? || pc.Marking?
       case FinishHandle =>
         || (pc.Marking? && SqlExecuted(s, pc.sql))
         || (pc.Settling? && s.calls[c].settle.Some? && SqlExecuted(s, s.calls[c].settle.value))
  }

  predicate ListEnabled(s: State, c: CallId) {
    && Executing(s, c) && s.calls[c].List?
    && var l := s.calls[c];
       || (l.listPc.Awaiting? && l.listPc.get < |s.calls| && s.calls[l.listPc.get].Get?
          && Landed(s.calls[l.listPc.get].getPc))
       || (l.listPc.Following? && l.leader < |s.calls| && s.calls[l.leader].List?
           && (s.calls[l.leader].listPc.Answered? || s.calls[l.leader].listPc.Unanswered?))
  }

  /** When a step can be taken. */
  predicate Enabled(s: State, step: Step) {
    match step
    case Tick(_) => true
    case StartInstance => true
    case CorruptEntry => s.entry.Some?
    case EvictEntry => s.entry.Some?
    case InsertForeign(e, _, _) => e !in s.rows
    case RepeatIncr => Counter(s.version) < MAX_INT64
    case RepeatScript(c) => c < |s.calls| && s.calls[c].Get? && (s.calls[c].getPc.Loaded? || s.calls[c].getPc.Lost?)
    case BeginDel(k) => k < |s.instances|
    case BeginGet(k) => k < |s.instances|
    case BeginIncrement(k, _) => k < |s.instances|
    case BeginList(k) => k < |s.instances|
    case Fetch(k, locked, batch) => k < |s.instances| && Picks(s.rows, s.now, BATCH_SIZE, locked, batch)
    case OfDel(c, act) => DelEnabled(s, c, act)
    case OfGet(c, act) => GetEnabled(s, c, act)
    case OfIncrement(c, act) => IncrementEnabled(s, c, act)
    case OfHandle(c, act) => HandleEnabled(s, c, act)
    case ExecuteSql(c) => c < |s.calls| && s.calls[c].Sql? && !s.calls[c].executed
    case FinishList(c) => ListEnabled(s, c)
  }

  function With(s: State, c: CallId, call: Call): State
    requires c < |s.calls|
  {
    s.(calls := s.calls[c := call])
  }

  function Begin(s: State, call: Call): State {
    s.(calls := s.calls + [call])
  }

  function NewDel(s: State, k: InstanceId): Call {
    Del(k, |s.history|, Begun)
  }

  function OnInstance(s: State, k: InstanceId, i: Instance): State
    requires k < |s.instances|
  {
    s.(instances := s.instances[k := i])
  }

  /** The flight of the call, if it still leads one, is over. */
  function Land(s: State, k: InstanceId, c: CallId): State
    requires k < |s.instances|
  {
    if s.instances[k].flight == Some(c) then OnInstance(s, k, s.instances[k].(flight := None)) else s
  }

  function ApplyDel(s: State, c: CallId, act: DelAct): State
    requires DelEnabled(s, c, act)
  {
    var d := s.calls[c];
    var i := s.instances[d.instance];
    match act
    case Forget =>
      OnInstance(With(s, c, d.(delPc := Forgotten)), d.instance, i.(flight := None, forgot := Max(i.forgot, d.covers)))
    case Incr =>
      With(s, c, d.(delPc := Bumped)).(version := Some(Counter(s.version) + 1), floor := Max(s.floor, d.covers))
    case IncrFails => With(s, c, d.(delPc := NotBumped))
    case DeleteKey =>
      if d.delPc.NotBumped? then With(s, c, d.(delPc := KeyDeleted)).(entry := None)
      else OnInstance(With(s, c, d.(delPc := Executed)), d.instance, i.(deleted := Max(i.deleted, d.covers))).(
             entry := None, fence := Max(s.fence, d.covers))
  }

  /** SET with PX, when the version is the one the loader read. */
  function Store(s: State, version: nat, snapshot: Snapshot): State {
    if Counter(s.version) != version then s
    else s.(entry := Some(Entry(Listed(snapshot), s.now, s.now + EntryLife(s.ttl))),
            lag := Max(s.lag, if snapshot.readAt <= s.now then s.now - snapshot.readAt else 0))
  }

  function ApplyGet(s: State, c: CallId, act: GetAct): State
    requires GetEnabled(s, c, act)
  {
    var g := s.calls[c];
    var k := g.instance;
    match act
    case ReadEntry =>
      if s.entry.None? || s.entry.value.expiresAt <= s.now then With(s, c, g.(getPc := Missed))
      else if s.entry.value.payload.Corrupt? then Begin(With(s, c, g.(getPc := Repairing(|s.calls|))), NewDel(s, k))
      else With(s, c, g.(getPc := Returned(s.entry.value.payload.snapshot)))
    case Repaired => With(s, c, g.(getPc := Loading, born := |s.history|))
    case EnterFlight =>
      var flight := s.instances[k].flight;
      if flight.Some? then With(s, c, g.(getPc := Joined(flight.value)))
      else OnInstance(With(s, c, g.(getPc := Loading, born := |s.history|)), k, s.instances[k].(flight := Some(c)))
    case ReadVersion => With(s, c, g.(getPc := Versioned(Counter(s.version))))
    case ReadVideos(videos) =>
      With(s, c, g.(getPc := Loaded(g.getPc.version, Snapshot(videos, |s.history|, s.now))))
    case CompareAndSet =>
      var pc := if g.getPc.Loaded? then Returned(g.getPc.snapshot) else Failed;
      Land(Store(With(s, c, g.(getPc := pc)), g.getPc.version, g.getPc.snapshot), k, c)
    case Receive =>
      var leader := s.calls[g.getPc.flight].getPc;
      With(s, c, g.(getPc := if leader.Returned? then leader else Failed))
    case FailGet =>
      var pc := if g.getPc.Loaded? then Lost(g.getPc.version, g.getPc.snapshot) else Failed;
      Land(With(s, c, g.(getPc := pc)), k, c)
  }

  function ApplyIncrement(s: State, c: CallId, act: IncrementAct): State
    requires IncrementEnabled(s, c, act)
  {
    var i := s.calls[c];
    match act
    case CommitTx(e, createdAt) =>
      var videos := Bump(s.videos, i.video);
      var views := videos[i.video].views;
      With(s, c, i.(commit := Some(|s.history|))).(
        videos := videos,
        rows := s.rows[e := NewRow(InvalidateVideosList, i.video, views, createdAt)],
        history := s.history + [Commit(e, i.video, views, c, s.now)])
    case MissVideo => With(s, c, i.(incrementPc := NotFound))
    case Invalidate => Begin(With(s, c, i.(incrementPc := Invalidating(|s.calls|))), NewDel(s, i.instance))
    case Finish => With(s, c, i.(incrementPc := Succeeded))
    case FailIncrement => With(s, c, i.(incrementPc := Errored))
  }

  /** One call per claimed row, carrying the event type and the attempts value that the claim returned. */
  function Handles(k: InstanceId, rows: Rows, batch: seq<EventId>): seq<Call>
    requires forall e | e in batch :: e in rows
  {
    seq(|batch|, i requires 0 <= i < |batch| =>
      Handle(k, batch[i], rows[batch[i]].kind, rows[batch[i]].attempts, None, Received))
  }

  function IssueSettle(s: State, c: CallId, statement: Statement): State
    requires c < |s.calls| && s.calls[c].Handle?
  {
    Begin(With(s, c, s.calls[c].(handlePc := Settling, settle := Some(|s.calls|))), Sql(statement, c, false))
  }

  function ApplyHandle(s: State, c: CallId, act: HandleAct): State
    requires HandleEnabled(s, c, act)
  {
    var h := s.calls[c];
    match act
    case StartHandle =>
      if h.kind.InvalidateVideosList? then
        Begin(With(s, c, h.(handlePc := Deleting(|s.calls|))), NewDel(s, h.instance))
      else IssueSettle(s, c, MarkFailed(h.event))
    case DelReturned =>
      Begin(With(s, c, h.(handlePc := Marking(|s.calls|))), Sql(MarkProcessed(h.event), c, false))
    case Settle => IssueSettle(s, c, SettleStatement(h.event, h.attempts, s.now))
    case FinishHandle => With(s, c, h.(handlePc := Handled))
  }

  function ApplyBeginList(s: State, k: InstanceId): State
    requires k < |s.instances|
  {
    var i := s.instances[k];
    var c := |s.calls|;
    if i.listFlight.Some? then
      var l := i.listFlight.value;
      Begin(s, List(k, l, if l < |s.calls| && s.calls[l].List? then s.calls[l].since else 0, Following))
    else
      OnInstance(s, k, i.(listFlight := Some(c))).(
        calls := s.calls + [List(k, c, i.deleted, Awaiting(c + 1)), Get(k, i.deleted, 0, Looking)])
  }

  function ApplyFinishList(s: State, c: CallId): State
    requires ListEnabled(s, c)
  {
    var l := s.calls[c];
    if l.listPc.Following? then With(s, c, l.(listPc := s.calls[l.leader].listPc))
    else
      var pc := s.calls[l.listPc.get].getPc;
      OnInstance(With(s, c, l.(listPc := if pc.Returned? then Answered(pc.snapshot) else Unanswered)),
                 l.instance, s.instances[l.instance].(listFlight := None))
  }

  /** A second copy of a loader's compare-and-set; nobody waits for its reply. */
  function Resent(g: Call): Call
    requires g.Get? && (g.getPc.Loaded? || g.getPc.Lost?)
  {
    g.(getPc := Lost(g.getPc.version, g.getPc.snapshot))
  }

  function Apply(s: State, step: Step): State
    requires Enabled(s, step)
  {
    match step
    case Tick(elapsed) => s.(now := s.now + elapsed)
    case StartInstance => s.(instances := s.instances + [Instance(None, None, 0, 0)])
    case CorruptEntry => s.(entry := Some(s.entry.value.(payload := Corrupt)))
    case EvictEntry => s.(entry := None)
    case InsertForeign(e, name, createdAt) => s.(rows := s.rows[e := NewRow(Unsupported(name), 0, 0, createdAt)])
    case RepeatIncr => s.(version := Some(Counter(s.version) + 1))
    case RepeatScript(c) => Begin(s, Resent(s.calls[c]))
    case BeginDel(k) => Begin(s, NewDel(s, k))
    case BeginGet(k) => Begin(s, Get(k, s.instances[k].deleted, 0, Looking))
    case BeginIncrement(k, video) => Begin(s, Increment(k, video, None, Calling))
    case BeginList(k) => ApplyBeginList(s, k)
    case Fetch(k, _, batch) =>
      var rows := ClaimAll(s.rows, batch, s.now);
      s.(rows := rows, calls := s.calls + Handles(k, rows, batch))
    case OfDel(c, act) => ApplyDel(s, c, act)
    case OfGet(c, act) => ApplyGet(s, c, act)
    case OfIncrement(c, act) => ApplyIncrement(s, c, act)
    case OfHandle(c, act) => ApplyHandle(s, c, act)
    case ExecuteSql(c) =>
      With(s, c, s.calls[c].(executed := true)).(rows := Execute(s.rows, s.calls[c].statement, s.now))
    case FinishList(c) => ApplyFinishList(s, c)
  }

  /** A run: every step is enabled where it is taken. */
  predicate Valid(s: State, steps: seq<Step>)
    decreases |steps|
  {
    steps == [] || (Enabled(s, steps[0]) && Valid(Apply(s, steps[0]), steps[1..]))
  }

  function Exec(s: State, steps: seq<Step>): State
    requires Valid(s, steps)
    decreases |steps|
  {
    if steps == [] then s else Exec(Apply(s, steps[0]), steps[1..])
  }
}
