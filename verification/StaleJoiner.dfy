/**
 * Why the freshness of ListVideos is promised to the leader of a flight and not to those who join it: the flight of
 * VideoService.listGroup is never forgotten, so a call that joins a slow one can miss an increment that had already
 * returned success.
 */
module StaleJoiner {
  import opened Basics
  import opened Videos
  import opened Outbox
  import opened Protocol
  import opened Runs
  import opened Freshness
  import opened ListFreshness

  const READ: Snapshot := Snapshot([UNSEEN], 0, 0)

  /** The leader of the list flight is call 0; it waits for call 1, which looks the list up. */
  function Leading(flight: Option<CallId>, pc: GetPc): State {
    Start().(instances := [Instance(flight, Some(0), 0, 0)], calls := [List(0, 0, 0, Awaiting(1)), Get(0, 0, 0, pc)])
  }

  lemma LeaderBegins()
    ensures Reaches(Start(), Leading(None, Missed))
  {
    var start := Start();
    var started := start.(instances := [Instance(None, None, 0, 0)]);
    Nowhere(start);
    Take(start, start, StartInstance);
    assert Apply(start, StartInstance) == started;
    Take(start, started, BeginList(0));
    assert Apply(started, BeginList(0)) == Leading(None, Looking);
    Take(start, Leading(None, Looking), OfGet(1, ReadEntry));
    assert Apply(Leading(None, Looking), OfGet(1, ReadEntry)) == Leading(None, Missed);
  }

  lemma LeaderLoads()
    ensures Reaches(Start(), Leading(Some(1), Versioned(0)))
  {
    var start := Start();
    LeaderBegins();
    Take(start, Leading(None, Missed), OfGet(1, EnterFlight));
    assert Apply(Leading(None, Missed), OfGet(1, EnterFlight)) == Leading(Some(1), Loading);
    Take(start, Leading(Some(1), Loading), OfGet(1, ReadVersion));
    assert Apply(Leading(Some(1), Loading), OfGet(1, ReadVersion)) == Leading(Some(1), Versioned(0));
  }

  lemma LeaderReads()
    ensures Reaches(Start(), Leading(Some(1), Loaded(0, READ)))
  {
    var start := Start();
    LeaderLoads();
    Take(start, Leading(Some(1), Versioned(0)), OfGet(1, ReadVideos([UNSEEN])));
    assert Apply(Leading(Some(1), Versioned(0)), OfGet(1, ReadVideos([UNSEEN]))) == Leading(Some(1), Loaded(0, READ));
  }

  /** Call 2 increments the video, with call 3 as its invalidation, while call 1 holds the list it has read. */
  function Incrementing(forgot: nat, deleted: nat, floor: nat, others: seq<Call>): State {
    var row := NewRow(InvalidateVideosList, 0, 1, 0);
    var flight := if forgot == 0 then Some(1) else None;
    Start().(
      videos := map[0 := UNSEEN.(views := 1)], history := [Commit(0, 0, 1, 2, 0)], rows := map[0 := row],
      instances := [Instance(flight, Some(0), forgot, deleted)],
      calls := [List(0, 0, 0, Awaiting(1)), Get(0, 0, 0, Loaded(0, READ))] + others,
      version := if floor == 0 then None else Some(1), floor := floor, fence := deleted)
  }

  function Caller(pc: IncrementPc): Call {
    Increment(0, 0, Some(0), pc)
  }

  lemma IncrementBegins()
    ensures Reaches(Start(), Incrementing(0, 0, 0, [Caller(Calling)]))
  {
    var start := Start();
    LeaderReads();
    var read := Leading(Some(1), Loaded(0, READ));
    var called := read.(calls := read.calls + [Increment(0, 0, None, Calling)]);
    Take(start, read, BeginIncrement(0, 0));
    Take(start, called, OfIncrement(2, CommitTx(0, 0)));
    assert Apply(called, OfIncrement(2, CommitTx(0, 0))) == Incrementing(0, 0, 0, [Caller(Calling)]);
  }

  lemma IncrementInvalidates()
    ensures Reaches(Start(), Incrementing(1, 0, 0, [Caller(Invalidating(3)), Del(0, 1, Forgotten)]))
  {
    var start := Start();
    IncrementBegins();
    var begun := Incrementing(0, 0, 0, [Caller(Invalidating(3)), Del(0, 1, Begun)]);
    Take(start, Incrementing(0, 0, 0, [Caller(Calling)]), OfIncrement(2, Invalidate));
    assert Apply(Incrementing(0, 0, 0, [Caller(Calling)]), OfIncrement(2, Invalidate)) == begun;
    Take(start, begun, OfDel(3, Forget));
    assert Apply(begun, OfDel(3, Forget)) == Incrementing(1, 0, 0, [Caller(Invalidating(3)), Del(0, 1, Forgotten)]);
  }

  lemma InvalidationExecutes()
    ensures Reaches(Start(), Incrementing(1, 1, 1, [Caller(Invalidating(3)), Del(0, 1, Executed)]))
  {
    var start := Start();
    IncrementInvalidates();
    var forgotten := Incrementing(1, 0, 0, [Caller(Invalidating(3)), Del(0, 1, Forgotten)]);
    var bumped := Incrementing(1, 0, 1, [Caller(Invalidating(3)), Del(0, 1, Bumped)]);
    var executed := Incrementing(1, 1, 1, [Caller(Invalidating(3)), Del(0, 1, Executed)]);
    Take(start, forgotten, OfDel(3, Incr));
    assert Apply(forgotten, OfDel(3, Incr)) == bumped;
    Take(start, bumped, OfDel(3, DeleteKey));
    assert Apply(bumped, OfDel(3, DeleteKey)) == executed;
  }

  function Done(): State {
    Incrementing(1, 1, 1, [Caller(Succeeded), Del(0, 1, Executed)])
  }

  lemma IncrementSucceeds()
    ensures Reaches(Start(), Done())
  {
    var executed := Incrementing(1, 1, 1, [Caller(Invalidating(3)), Del(0, 1, Executed)]);
    InvalidationExecutes();
    Take(Start(), executed, OfIncrement(2, Finish));
    assert Apply(executed, OfIncrement(2, Finish)) == Done();
  }

  /**
   * In some run an increment has returned success when a ListVideos call begins on the same instance, and that call is
   * answered with a list that misses it. The call joined a flight whose leader had read before the increment.
   */
  lemma JoinerCanMiss() returns (before: seq<Step>, after: seq<Step>)
    ensures Init(Start()) && Valid(Start(), before)
    ensures var s := Exec(Start(), before);
            && |s.calls| == 4 && s.calls[2].Increment? && s.calls[2].incrementPc.Succeeded?
               && s.calls[2].commit == Some(0)
            && s.calls[2].instance == 0 && Enabled(s, BeginList(0)) && Valid(Apply(s, BeginList(0)), after)
            && AnsweredWithout(Exec(Apply(s, BeginList(0)), after), 4, 1)
  {
    IncrementSucceeds();
    before :| Valid(Start(), before) && Exec(Start(), before) == Done();
    assert |Done().instances| == 1 && Done().calls[2] == Caller(Succeeded);
    ListMissesWhen(Start(), before, 2, 0);
    assert StalePc(Done().calls[1].getPc, 1) && ListMayMiss(Done(), 0, 1);
    after :| Valid(Apply(Done(), BeginList(0)), after)
      && AnsweredWithout(Exec(Apply(Done(), BeginList(0)), after), 4, 1);
  }
}
