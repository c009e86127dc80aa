/**
 * The code of the list cache and of the video service, statement by statement. Every remote command is one step of the
 * protocol, and between any two of them the other calls may take any number of steps.
 */
module CacheCode {
  import opened Basics
  import opened Videos
  import opened Outbox
  import opened Protocol
  import opened ProtocolInvariant
  import opened DatabaseSteps
  import opened Theorems

  /** What a call hands its caller; a call that waits on a flight that has not landed hands over nothing yet. */
  datatype Reply<+T> = Success(value: T) | Failure | Missing | Waiting

  /** What callers keep of a stretch of time: commits and deleted marks only grow. */
  predicate Later(s: State, s': State) {
    && s'.initial == s.initial && s.history <= s'.history && s.now <= s'.now
    && Counter(s.version) <= Counter(s'.version)
    && |s.instances| <= |s'.instances| && |s.calls| <= |s'.calls|
    && (forall k | 0 <= k < |s.instances| :: s.instances[k].deleted <= s'.instances[k].deleted)
  }

  lemma EvolvesLater(s: State, s': State)
    requires Evolves(s, s')
    ensures Later(s, s')
  {}

  /** These calls did not move. */
  predicate Still(s: State, s': State, mine: set<CallId>) {
    forall c | c in mine && c < |s.calls| :: c < |s'.calls| && s'.calls[c] == s.calls[c]
  }

  predicate Undisturbed(s: State, s': State, mine: set<CallId>) {
    Later(s, s') && Still(s, s', mine)
  }

  /** INCR fails on the version, which is at the top of its range. */
  predicate VersionFull(s: State) {
    Counter(s.version) >= MAX_INT64
  }

  /**
   * The shared world: database, Redis, every instance and every open call. With a reliable one, no command of the code
   * below is lost and no reply to one; what the other calls meet is left open.
   */
  class System {
    const reliable: bool
    var state: State

    ghost predicate Sound()
      reads this
    {
      Inv(state)
    }

    constructor (start: State, reliable: bool)
      requires Init(start)
      ensures Sound() && state == start && this.reliable == reliable
    {
      this.reliable := reliable;
      state := start;
      InitInv(start);
    }

    /** Whether a command or its reply arrives. */
    method Arrives() returns (ok: bool)
      ensures reliable ==> ok
    {
      var luck: bool := *;
      ok := luck || reliable;
    }

    /** One step of the caller's own. */
    method Do(step: Step)
      requires Sound() && Enabled(state, step)
      modifies this
      ensures Sound() && state == Apply(old(state), step) && Later(old(state), state)
    {
      StepKeepsInv(state, step);
      StepEvolves(state, step);
      EvolvesLater(state, Apply(state, step));
      state := Apply(state, step);
    }

    /** Any number of steps of everyone else. */
    method Others(mine: set<CallId>)
      requires Sound()
      modifies this
      ensures Sound() && Later(old(state), state)
      ensures Still(old(state), state, mine)
    {
      var steps: seq<Step> := *;
      if Valid(state, steps) && NoneOf(steps, mine) {
        RunKeepsInv(state, steps);
        EvolvesLater(state, Exec(state, steps));
        OthersLeaveCalls(state, steps, mine);
        state := Exec(state, steps);
      }
    }
  }

  /** INCR reaches the server; it fails there when the counter is at its top. */
  method IncrCommand(system: System, d: CallId) returns (counted: bool)
    requires system.Sound() && DelAt(system.state, d, Forgotten) && Executing(system.state, d)
    modifies system
    ensures system.Sound() && Later(old(system.state), system.state)
    ensures system.state.calls ==
            old(system.state).calls[d := old(system.state).calls[d].(delPc := if counted then Bumped else NotBumped)]
    ensures var was := old(system.state).version;
            system.state.version == if counted then Some(Counter(was) + 1) else was
    ensures system.state.entry == old(system.state).entry
    ensures system.reliable ==> counted || VersionFull(system.state)
  {
    counted := system.Arrives();
    if counted && Counter(system.state.version) < MAX_INT64 {
      system.Do(OfDel(d, Incr));
    } else {
      counted := false;
      system.Do(OfDel(d, IncrFails));
    }
  }

  /** DEL reaches the server. */
  method DelCommand(system: System, d: CallId)
    requires system.Sound() && Executing(system.state, d)
    requires DelAt(system.state, d, Bumped) || DelAt(system.state, d, NotBumped)
    modifies system
    ensures system.Sound() && Later(old(system.state), system.state)
    ensures var pc := if DelAt(old(system.state), d, Bumped) then Executed else KeyDeleted;
            system.state.calls == old(system.state).calls[d := old(system.state).calls[d].(delPc := pc)]
    ensures system.state.version == old(system.state).version && system.state.entry == None
  {
    system.Do(OfDel(d, DeleteKey));
  }

  /** The pipeline of INCR and DEL. It succeeds only when both commands executed and both replies arrived. */
  method BumpVersionAndDelete(system: System, d: CallId, mine: set<CallId>) returns (ok: bool)
    requires system.Sound() && DelAt(system.state, d, Forgotten) && Executing(system.state, d) && d !in mine
    modifies system
    ensures system.Sound() && Undisturbed(old(system.state), system.state, mine)
    ensures ok ==> DelAt(system.state, d, Executed)
    ensures ok ==> system.state.calls[d] == old(system.state).calls[d].(delPc := Executed)
    ensures system.reliable ==> ok || VersionFull(system.state)
  {
    system.Others(mine + {d});
    var sent := system.Arrives();
    if !sent {
      return false;
    }
    var counted := IncrCommand(system, d);
    system.Others(mine + {d});
    var connected := system.Arrives();
    if !connected {
      return false;
    }
    DelCommand(system, d);
    var replied := system.Arrives();
    ok := counted && replied;
  }

  /** Forget the flight, then run the pipeline. */
  method ForgetAndInvalidate(system: System, d: CallId, mine: set<CallId>) returns (ok: bool)
    requires system.Sound() && DelAt(system.state, d, Begun) && Executing(system.state, d) && d !in mine
    modifies system
    ensures system.Sound() && Undisturbed(old(system.state), system.state, mine)
    ensures ok ==> DelAt(system.state, d, Executed)
    ensures ok ==> system.state.calls[d] == old(system.state).calls[d].(delPc := Executed)
    ensures system.reliable ==> ok || VersionFull(system.state)
  {
    system.Others(mine + {d});
    system.Do(OfDel(d, Forget));
    ok := BumpVersionAndDelete(system, d, mine);
  }

  lemma ExecutedIsMarked(s: State, d: CallId)
    requires Inv(s) && DelAt(s, d, Executed)
    ensures s.calls[d].instance < |s.instances| && s.calls[d].covers <= s.instances[s.calls[d].instance].deleted
  {
    assert CallInv(s, d);
  }

  /** One turn of Cache.Del for the list key: after a success, the instance is marked with every commit before it. */
  method DelListKey(system: System, k: InstanceId, mine: set<CallId>) returns (ok: bool, d: CallId)
    requires system.Sound() && k < |system.state.instances|
    requires forall c | c in mine :: c < |system.state.calls|
    modifies system
    ensures system.Sound() && Undisturbed(old(system.state), system.state, mine)
    ensures ok ==> DelAt(system.state, d, Executed) && system.state.calls[d].instance == k
    ensures ok ==> |old(system.state).history| <= system.state.calls[d].covers
    ensures ok ==> Invalidated(system.state, k, |old(system.state).history|)
    ensures system.reliable ==> ok || VersionFull(system.state)
  {
    d := |system.state.calls|;
    system.Do(BeginDel(k));
    ok := ForgetAndInvalidate(system, d, mine);
    if ok { ExecutedIsMarked(system.state, d); }
  }

  /** The instance is marked with an executed invalidation of the first n commits. */
  predicate Invalidated(s: State, k: InstanceId, n: nat) {
    k < |s.instances| && n <= s.instances[k].deleted
  }

  const LIST_KEY: string := "videos:list"
  const VERSION_KEY: string := LIST_KEY + ":version"

  datatype DelReply = Deleted | NotConfigured | EmptyKey | CommandFailed

  /** The first n keys are not empty, and if the list key is among them the instance is marked. */
  predicate KeysDone(s: State, k: InstanceId, keys: seq<string>, n: nat, commits: nat)
    requires n <= |keys|
  {
    "" !in keys[..n] && (LIST_KEY in keys[..n] ==> Invalidated(s, k, commits))
  }

  /** Cache.Del: key after key, until one is empty or its commands fail. Other keys are no part of the system. */
  method Del(system: System, k: InstanceId, configured: bool, keys: seq<string>) returns (reply: DelReply, done: nat)
    requires system.Sound() && k < |system.state.instances| && VERSION_KEY !in keys
    modifies system
    ensures system.Sound() && Later(old(system.state), system.state)
    ensures reply.NotConfigured? <==> !configured
    ensures reply.NotConfigured? ==> system.state == old(system.state)
    ensures done <= |keys|
    ensures configured ==> KeysDone(system.state, k, keys, done, |old(system.state).history|)
    ensures reply.Deleted? ==> done == |keys|
    ensures reply.EmptyKey? ==> done < |keys| && keys[done] == ""
    ensures reply.CommandFailed? && system.reliable ==> VersionFull(system.state)
  {
    done := 0;
    if !configured {
      return NotConfigured, done;
    }
    ghost var n := |system.state.history|;
    while done < |keys|
      invariant done <= |keys| && system.Sound() && Later(old(system.state), system.state)
      invariant KeysDone(system.state, k, keys, done, n)
    {
      var ok: bool, d: CallId;
      if keys[done] == "" {
        return EmptyKey, done;
      } else if keys[done] == LIST_KEY {
        ok, d := DelListKey(system, k, {});
      } else {
        system.Others({});
        ok := system.Arrives();
      }
      if !ok {
        return CommandFailed, done;
      }
      assert keys[..done + 1] == keys[..done] + [keys[done]];
      done := done + 1;
    }
    reply := Deleted;
  }

  predicate GetAt(s: State, g: CallId, k: InstanceId, need: nat) {
    g < |s.calls| && s.calls[g].Get? && s.calls[g].instance == k < |s.instances| && s.calls[g].need == need
  }

  /** The lookup is running and has come this far. */
  predicate Runs(s: State, g: CallId) {
    Executing(s, g) && s.calls[g].Get?
  }

  /** It is still the lookup it was. */
  predicate SameGet(s: State, s': State, g: CallId)
    requires Runs(s, g)
  {
    GetAt(s', g, s.calls[g].instance, s.calls[g].need)
  }

  /** The call has returned exactly this list. */
  predicate Gave(s: State, g: CallId, videos: seq<Video>) {
    g < |s.calls| && s.calls[g].Get? && s.calls[g].getPc.Returned? && s.calls[g].getPc.snapshot.videos == videos
  }

  /** A list that a call returned holds what the call needed. */
  lemma GaveHolds(s: State, g: CallId, k: InstanceId, need: nat, videos: seq<Video>)
    requires Inv(s) && GetAt(s, g, k, need) && Gave(s, g, videos)
    ensures HoldsCommits(s, videos, need)
  {
    assert CallInv(s, g);
  }

  /** The call has failed. */
  predicate GaveUp(s: State, g: CallId) {
    g < |s.calls| && s.calls[g].Get? && (s.calls[g].getPc.Failed? || s.calls[g].getPc.Lost?)
  }

  /** The load that the call waited for has failed. */
  predicate LeaderFailed(s: State, g: CallId) {
    exists f: CallId :: f < |s.calls| && f != g && GaveUp(s, f)
  }

  /** The call waits for a flight that has not landed. */
  predicate Blocked(s: State, g: CallId) {
    && g < |s.calls| && s.calls[g].Get? && s.calls[g].getPc.Joined?
    && var f := s.calls[g].getPc.flight; f < |s.calls| && s.calls[f].Get? && !Landed(s.calls[f].getPc)
  }

  /** The reply is what became of the lookup. */
  predicate Concluded(s: State, g: CallId, reply: Reply<seq<Video>>) {
    match reply
    case Success(videos) => Gave(s, g, videos)
    case Failure => GaveUp(s, g)
    case Waiting => Blocked(s, g)
    case Missing => false
  }

  /** An error return: the caller learns nothing, and a store that was sent may still arrive. */
  method Fail(system: System, g: CallId)
    requires system.Sound() && GetEnabled(system.state, g, FailGet)
    modifies system
    ensures system.Sound() && Later(old(system.state), system.state) && GaveUp(system.state, g)
    ensures SameGet(old(system.state), system.state, g)
    ensures system.state.calls == old(system.state).calls[g := system.state.calls[g]]
  {
    system.Do(OfGet(g, FailGet));
  }

  method QueryVersion(system: System, g: CallId, mine: set<CallId>) returns (ok: bool)
    requires system.Sound() && g in mine && Runs(system.state, g) && system.state.calls[g].getPc.Loading?
    modifies system
    ensures system.Sound() && Undisturbed(old(system.state), system.state, mine - {g})
    ensures SameGet(old(system.state), system.state, g)
    ensures if ok then system.state.calls[g].getPc ==
            Versioned(Counter(system.state.version)) else GaveUp(system.state, g)
    ensures system.reliable ==> ok
  {
    system.Others(mine);
    ok := system.Arrives();
    if ok {
      system.Do(OfGet(g, ReadVersion));
    } else {
      Fail(system, g);
    }
  }

  method QueryVideos(system: System, g: CallId, mine: set<CallId>) returns (ok: bool, videos: seq<Video>)
    requires system.Sound() && g in mine && Runs(system.state, g) && system.state.calls[g].getPc.Versioned?
    modifies system
    ensures system.Sound() && Undisturbed(old(system.state), system.state, mine - {g})
    ensures SameGet(old(system.state), system.state, g)
    ensures var pc := system.state.calls[g].getPc;
            if ok then pc.Loaded? && pc.snapshot.videos == videos else GaveUp(system.state, g)
    ensures ok ==> IsListing(system.state.videos, videos)
    ensures ok ==> system.state.calls[g].getPc.version == old(system.state).calls[g].getPc.version
    ensures system.reliable ==> ok
  {
    system.Others(mine);
    ReplayCounts(system.state.initial, system.state.history);
    videos := SelectVideos(system.state.videos);
    ok := system.Arrives();
    if ok {
      system.Do(OfGet(g, ReadVideos(videos)));
    } else {
      Fail(system, g);
    }
  }

  /** The script reaches the server and its reply arrives: the loader returns its list, whether or not it was stored. */
  method ScriptCommand(system: System, g: CallId)
    requires system.Sound() && GetEnabled(system.state, g, CompareAndSet) && system.state.calls[g].getPc.Loaded?
    modifies system
    ensures system.Sound() && Later(old(system.state), system.state)
    ensures var before := old(system.state).calls[g];
            system.state.calls == old(system.state).calls[g := before.(getPc := Returned(before.getPc.snapshot))]
    ensures var was, pc := old(system.state), old(system.state).calls[g].getPc;
            && system.state.version == was.version
            && system.state.entry ==
               if Counter(was.version) != pc.version then was.entry
               else Some(Entry(Listed(pc.snapshot), was.now, was.now + EntryLife(was.ttl)))
  {
    system.Do(OfGet(g, CompareAndSet));
  }

  method StoreVideos(system: System, g: CallId, mine: set<CallId>) returns (ok: bool)
    requires system.Sound() && g in mine && Runs(system.state, g) && system.state.calls[g].getPc.Loaded?
    modifies system
    ensures system.Sound() && Undisturbed(old(system.state), system.state, mine - {g})
    ensures SameGet(old(system.state), system.state, g)
    ensures if ok then system.state.calls[g].getPc == Returned(old(system.state).calls[g].getPc.snapshot)
            else GaveUp(system.state, g)
    ensures system.reliable ==> ok
  {
    system.Others(mine);
    ok := system.Arrives();
    if ok {
      ScriptCommand(system, g);
    } else {
      Fail(system, g);
    }
  }

  /** Cache.loadAndCacheVideos: read the version, load, store if the version is still the same. */
  method LoadAndCacheVideos(system: System, g: CallId, mine: set<CallId>) returns (reply: Reply<seq<Video>>)
    requires system.Sound() && g in mine && Runs(system.state, g) && system.state.calls[g].getPc.Loading?
    modifies system
    ensures system.Sound() && Undisturbed(old(system.state), system.state, mine - {g})
    ensures SameGet(old(system.state), system.state, g) && Concluded(system.state, g, reply) && !reply.Waiting?
    ensures system.reliable ==> reply.Success?
  {
    var ok := QueryVersion(system, g, mine);
    if !ok {
      return Failure;
    }
    var videos: seq<Video>;
    ok, videos := QueryVideos(system, g, mine);
    if !ok {
      return Failure;
    }
    ok := StoreVideos(system, g, mine);
    reply := if ok then Success(videos) else Failure;
  }

  /** The corrupt path: forget the flight, invalidate, then load outside any flight. */
  method RepairAndLoad(system: System, g: CallId, mine: set<CallId>) returns (reply: Reply<seq<Video>>)
    requires system.Sound() && g in mine && Runs(system.state, g) && system.state.calls[g].getPc.Repairing?
    requires var d := system.state.calls[g].getPc.del;
             DelAt(system.state, d, Begun) && Executing(system.state, d) && d !in mine
    modifies system
    ensures system.Sound() && Undisturbed(old(system.state), system.state, mine - {g})
    ensures SameGet(old(system.state), system.state, g) && Concluded(system.state, g, reply) && !reply.Waiting?
    ensures system.reliable ==> reply.Success? || VersionFull(system.state)
  {
    var d := system.state.calls[g].getPc.del;
    var ok := ForgetAndInvalidate(system, d, mine);
    if !ok {
      Fail(system, g);
      return Failure;
    }
    system.Do(OfGet(g, Repaired));
    reply := LoadAndCacheVideos(system, g, mine);
  }

  /** Enter the flight of the key: lead it, or wait for the one that is open. */
  method EnterGroup(system: System, g: CallId)
    requires system.Sound() && Runs(system.state, g) && system.state.calls[g].getPc.Missed?
    modifies system
    ensures system.Sound() && Later(old(system.state), system.state) && SameGet(old(system.state), system.state, g)
    ensures system.state.calls == old(system.state).calls[g := system.state.calls[g]]
    ensures var pc, k := system.state.calls[g].getPc, system.state.calls[g].instance;
            var flight := old(system.state).instances[k].flight;
            if flight.Some? then pc == Joined(flight.value) else pc.Loading?
  {
    system.Do(OfGet(g, EnterFlight));
  }

  /** The miss path: lead the flight of the key, or wait for the one that is open. */
  method JoinOrLoad(system: System, g: CallId, mine: set<CallId>) returns (reply: Reply<seq<Video>>)
    requires system.Sound() && g in mine && Runs(system.state, g) && system.state.calls[g].getPc.Missed?
    modifies system
    ensures system.Sound() && Undisturbed(old(system.state), system.state, mine - {g})
    ensures SameGet(old(system.state), system.state, g) && Concluded(system.state, g, reply)
    ensures system.reliable && reply.Failure? ==> LeaderFailed(system.state, g)
  {
    system.Others(mine);
    EnterGroup(system, g);
    if system.state.calls[g].getPc.Loading? {
      reply := LoadAndCacheVideos(system, g, mine);
    } else {
      reply := Await(system, g, mine);
    }
  }

  /** Wait for the flight, and share what its leader returns. */
  method Await(system: System, g: CallId, mine: set<CallId>) returns (reply: Reply<seq<Video>>)
    requires system.Sound() && g in mine && Runs(system.state, g) && system.state.calls[g].getPc.Joined?
    modifies system
    ensures system.Sound() && Undisturbed(old(system.state), system.state, mine - {g})
    ensures SameGet(old(system.state), system.state, g) && Concluded(system.state, g, reply)
    ensures reply.Failure? ==> LeaderFailed(system.state, g)
  {
    system.Others(mine);
    JoinedIsGet(system.state, g);
    if !Landed(system.state.calls[system.state.calls[g].getPc.flight].getPc) {
      return Waiting;
    }
    var f := system.state.calls[g].getPc.flight;
    system.Do(OfGet(g, Receive));
    var pc := system.state.calls[g].getPc;
    reply := if pc.Returned? then Success(pc.snapshot.videos) else Failure;
    assert reply.Failure? ==> f != g && GaveUp(system.state, f);
  }

  lemma JoinedIsGet(s: State, g: CallId)
    requires Inv(s) && g < |s.calls| && s.calls[g].Get? && s.calls[g].getPc.Joined?
    ensures s.calls[g].getPc.flight < |s.calls| && s.calls[s.calls[g].getPc.flight].Get?
  {
    assert CallInv(s, g);
  }

  /** What the read of the entry leaves: a list, a repair that has begun, or a miss. */
  predicate Looked(s: State, s': State, g: CallId)
    requires Runs(s, g)
  {
    && SameGet(s, s', g) && |s.calls| <= |s'.calls| && s'.calls[..|s.calls|] == s.calls[g := s'.calls[g]]
    && var pc := s'.calls[g].getPc;
       || (pc.Returned? && s.entry.Some? && s.entry.value.payload == Listed(pc.snapshot)
           && s.now < s.entry.value.expiresAt)
       || (pc.Repairing? && s.entry.Some? && s.entry.value.payload.Corrupt?
           && pc.del == |s.calls| && DelAt(s', pc.del, Begun) && Executing(s', pc.del))
       || (pc.Missed? && (s.entry.None? || s.entry.value.expiresAt <= s.now))
  }

  method ReadCommand(system: System, g: CallId)
    requires system.Sound() && Runs(system.state, g) && system.state.calls[g].getPc.Looking?
    modifies system
    ensures system.Sound() && Later(old(system.state), system.state) && Looked(old(system.state), system.state, g)
  {
    system.Do(OfGet(g, ReadEntry));
  }

  lemma LookedStill(s: State, s': State, g: CallId, mine: set<CallId>)
    requires Runs(s, g) && Looked(s, s', g)
    ensures Still(s, s', mine - {g})
  {
    forall c | c in mine - {g} && c < |s.calls| ensures s'.calls[c] == s.calls[c] {
      assert s'.calls[..|s.calls|][c] == s.calls[c];
    }
  }

  /** The body of Cache.GetOrLoadVideos for a call that has begun: hit, corrupt payload, miss, or error. */
  method Lookup(system: System, g: CallId, mine: set<CallId>) returns (reply: Reply<seq<Video>>)
    requires system.Sound() && g in mine && Runs(system.state, g) && system.state.calls[g].getPc.Looking?
    requires forall c | c in mine :: c < |system.state.calls|
    modifies system
    ensures system.Sound() && Undisturbed(old(system.state), system.state, mine - {g})
    ensures SameGet(old(system.state), system.state, g) && Concluded(system.state, g, reply)
    ensures system.reliable && reply.Failure? ==> VersionFull(system.state) || LeaderFailed(system.state, g)
  {
    system.Others(mine);
    var replied := system.Arrives();
    if !replied {
      Fail(system, g);
      return Failure;
    }
    ghost var asked := system.state;
    ReadCommand(system, g);
    LookedStill(asked, system.state, g, mine);
    var pc := system.state.calls[g].getPc;
    if pc.Returned? {
      reply := Success(pc.snapshot.videos);
    } else if pc.Repairing? {
      reply := RepairAndLoad(system, g, mine);
    } else {
      reply := JoinOrLoad(system, g, mine);
    }
  }

  /** Cache.GetOrLoadVideos: an answer holds every commit made before any Del that had executed on the instance. */
  method GetOrLoadVideos(system: System, k: InstanceId) returns (reply: Reply<seq<Video>>)
    requires system.Sound() && k < |system.state.instances|
    modifies system
    ensures system.Sound() && Later(old(system.state), system.state)
    ensures reply.Success? ==> HoldsCommits(system.state, reply.value, old(system.state).instances[k].deleted)
    ensures !reply.Missing?
    ensures system.reliable && reply.Failure? ==>
      VersionFull(system.state) || LeaderFailed(system.state, |old(system.state).calls|)
  {
    var g := |system.state.calls|;
    system.Do(BeginGet(k));
    reply := Lookup(system, g, {g});
    if reply.Success? {
      GaveHolds(system.state, g, k, old(system.state).instances[k].deleted, reply.value);
    }
  }

  /** The statement that updates the counter and inserts the outbox row, committed; the row is read back before. */
  method CommitTransaction(system: System, c: CallId, event: EventId, createdAt: int) returns (v: Video)
    requires system.Sound() && IncrementEnabled(system.state, c, CommitTx(event, createdAt))
    modifies system
    ensures system.Sound() && Later(old(system.state), system.state)
    ensures var was := old(system.state);
            system.state.calls == was.calls[c := was.calls[c].(commit := Some(|was.history|))]
    ensures Counted(system.state, c, old(system.state).calls[c].video, |old(system.state).history|, v)
    ensures system.state.videos == old(system.state).videos[v.id := v] && v.id == old(system.state).calls[c].video
    ensures event !in old(system.state).rows
    ensures system.state.rows ==
            old(system.state).rows[event := Row(InvalidateVideosList, v.id, v.views, createdAt, None, None, None,
              None, 0)]
  {
    ReplayCounts(system.state.initial, system.state.history);
    system.Do(OfIncrement(c, CommitTx(event, createdAt)));
    CommitCounted(system.state, c);
    v := system.state.videos[system.state.calls[c].video];
  }

  /** An increment returns without a row: it failed, or there is no such video. */
  method EndIncrement(system: System, c: CallId, missing: bool)
    requires system.Sound() && IncrementEnabled(system.state, c, if missing then MissVideo else FailIncrement)
    modifies system
    ensures system.Sound() && Later(old(system.state), system.state)
    ensures var calls := old(system.state).calls;
            system.state.calls == calls[c := calls[c].(incrementPc := if missing then NotFound else Errored)]
    ensures system.state.rows == old(system.state).rows && system.state.videos == old(system.state).videos
    ensures system.state.version == old(system.state).version
  {
    system.Do(OfIncrement(c, if missing then MissVideo else FailIncrement));
  }

  /** The statement fails on the event's id, which is taken, or on the counter, which is at the top of BIGINT. */
  predicate CannotCommit(s: State, id: VideoId, event: EventId) {
    event in s.rows || (id in s.videos && s.videos[id].views >= MAX_INT64)
  }

  /** VideoRepository.IncrementViews: update and outbox row in one transaction, committed or rolled back. */
  method CommitViews(system: System, c: CallId, event: EventId, createdAt: int) returns (reply: Reply<Video>)
    requires system.Sound() && Executing(system.state, c)
    requires system.state.calls[c].Increment? && system.state.calls[c].commit.None?
    requires system.state.calls[c].incrementPc.Calling?
    modifies system
    ensures system.Sound() && Later(old(system.state), system.state)
    ensures c < |system.state.calls| && system.state.calls[c].Increment?
    ensures system.state.calls[c].instance == old(system.state).calls[c].instance
    ensures reply.Missing? ==>
      old(system.state).calls[c].video !in system.state.initial && system.state.calls[c].commit.None?
    ensures reply.Success? ==>
      && Counted(system.state, c, old(system.state).calls[c].video, |old(system.state).history|, reply.value)
      && system.state.calls[c].incrementPc.Calling?
    ensures reply.Success? || reply.Failure? || reply.Missing?
    ensures system.reliable ==>
      var id := old(system.state).calls[c].video;
      if id !in system.state.initial then reply.Missing?
      else reply.Success? || CannotCommit(system.state, id, event)
  {
    system.Others({c});
    ReplayCounts(system.state.initial, system.state.history);
    reply := Transact(system, c, event, createdAt);
    var replied := system.Arrives();
    if !replied {
      reply := Failure;
    }
    if !reply.Success? {
      EndIncrement(system, c, reply.Missing?);
    }
  }

  /** The transaction at the database: it commits, finds no video, or fails and rolls back. */
  method Transact(system: System, c: CallId, event: EventId, createdAt: int) returns (reply: Reply<Video>)
    requires system.Sound() && Executing(system.state, c)
    requires system.state.calls[c].Increment? && system.state.calls[c].commit.None?
    requires system.state.calls[c].incrementPc.Calling?
    modifies system
    ensures system.Sound() && Later(old(system.state), system.state)
    ensures c < |system.state.calls|
    ensures var id, call := old(system.state).calls[c].video, old(system.state).calls[c];
            match reply
            case Success(v) =>
              && Counted(system.state, c, id, |old(system.state).history|, v)
              && system.state.calls[c] == call.(commit := Some(|old(system.state).history|))
            case Missing => system.state == old(system.state) && id !in system.state.videos
            case Failure =>
              && system.state == old(system.state)
              && (system.reliable ==> id in system.state.videos && CannotCommit(system.state, id, event))
            case Waiting => false
  {
    ReplayCounts(system.state.initial, system.state.history);
    var id := system.state.calls[c].video;
    var arrived := system.Arrives();
    if arrived && id !in system.state.videos {
      reply := Missing;
    } else if arrived && event !in system.state.rows && system.state.videos[id].views < MAX_INT64 {
      var v := CommitTransaction(system, c, event, createdAt);
      reply := Success(v);
    } else {
      reply := Failure;
    }
  }

  /** The call committed one increment of the video, no earlier than commit n, and the row it read back shows it. */
  predicate Counted(s: State, c: CallId, id: VideoId, n: nat, v: Video) {
    && c < |s.calls| && s.calls[c].Increment? && s.calls[c].video == id && s.calls[c].commit.Some?
    && n <= s.calls[c].commit.value < |s.history| && s.history[s.calls[c].commit.value].video == id
    && id in s.initial
    && v == s.initial[id].(views := s.initial[id].views + Increments(s.history[..s.calls[c].commit.value + 1], id))
  }

  lemma CommitCounted(s: State, c: CallId)
    requires Inv(s) && c < |s.calls| && s.calls[c].Increment? && s.calls[c].commit == Some(|s.history| - 1)
    ensures s.calls[c].video in s.videos && Counted(s, c, s.calls[c].video, |s.history| - 1, s.videos[s.calls[c].video])
  {
    assert CallInv(s, c);
    assert CommitInv(s, |s.history| - 1);
    assert s.history[..|s.history|] == s.history;
    ReplayCounts(s.initial, s.history);
  }

  method InvalidateAfterCommit(system: System, c: CallId) returns (ok: bool)
    requires system.Sound() && Executing(system.state, c)
    requires system.state.calls[c].Increment? && system.state.calls[c].commit.Some?
    requires system.state.calls[c].incrementPc.Calling?
    modifies system
    ensures system.Sound() && Later(old(system.state), system.state)
    ensures ok ==> c < |system.state.calls|
    ensures ok ==> system.state.calls[c] == old(system.state).calls[c].(incrementPc := Succeeded)
    ensures system.reliable ==> ok || VersionFull(system.state)
  {
    system.Others({c});
    var d := |system.state.calls|;
    system.Do(OfIncrement(c, Invalidate));
    ok := ForgetAndInvalidate(system, d, {c});
    if ok {
      system.Do(OfIncrement(c, Finish));
    } else {
      EndIncrement(system, c, false);
    }
  }

  lemma SuccessIsMarked(s: State, c: CallId)
    requires Inv(s) && c < |s.calls| && s.calls[c].Increment? && s.calls[c].incrementPc.Succeeded?
    ensures s.calls[c].instance < |s.instances| && s.calls[c].commit.Some?
    ensures s.calls[c].commit.value < s.instances[s.calls[c].instance].deleted
  {
    assert CallInv(s, c);
  }

  /**
   * VideoService.IncrementViews: commit, then invalidate. A success reports one new commit of this video, with the
   * counter that commit gave it, and every later list of the instance holds it; a missing video changes nothing.
   */
  method IncrementViews(system: System, k: InstanceId, id: VideoId, event: EventId, createdAt: int)
    returns (reply: Reply<Video>, c: CallId)
    requires system.Sound() && k < |system.state.instances|
    modifies system
    ensures system.Sound() && Later(old(system.state), system.state)
    ensures reply.Missing? ==>
      && id !in system.state.initial
      && c < |system.state.calls| && system.state.calls[c].Increment? && system.state.calls[c].commit.None?
    ensures reply.Success? ==> Counted(system.state, c, id, |old(system.state).history|, reply.value)
    ensures reply.Success? ==> system.state.calls[c].commit.value < system.state.instances[k].deleted
    ensures reply.Success? || reply.Failure? || reply.Missing?
    ensures system.reliable ==>
      if id !in system.state.initial then reply.Missing?
      else reply.Success? || CannotCommit(system.state, id, event) || VersionFull(system.state)
  {
    c := |system.state.calls|;
    system.Do(BeginIncrement(k, id));
    reply := CommitViews(system, c, event, createdAt);
    if !reply.Success? {
      return;
    }
    ghost var committed := system.state;
    var ok := InvalidateAfterCommit(system, c);
    if !ok {
      return Failure, c;
    }
    SuccessIsMarked(system.state, c);
    CountedLater(committed, system.state, c, id, |old(system.state).history|, reply.value);
  }

  lemma CountedLater(s: State, s': State, c: CallId, id: VideoId, n: nat, v: Video)
    requires Counted(s, c, id, n, v) && Later(s, s')
    requires s'.calls[c] == s.calls[c].(incrementPc := Succeeded)
    ensures Counted(s', c, id, n, v)
  {
    var i := s.calls[c].commit.value;
    assert s'.history[..i + 1] == s.history[..i + 1];
  }

  /**
   * VideoService.ListVideos, through a flight that is never forgotten: the answer to the call that led the flight holds
   * every commit made before any Del that had executed on the instance when it began. Any other answer is still an
   * exact listing of some moment.
   */
  method ListVideos(system: System, k: InstanceId) returns (reply: Reply<seq<Video>>, led: bool)
    requires system.Sound() && k < |system.state.instances|
    modifies system
    ensures system.Sound() && Later(old(system.state), system.state)
    ensures reply.Success? ==>
      HoldsCommits(system.state, reply.value, if led then old(system.state).instances[k].deleted else 0)
    ensures led <==> old(system.state).instances[k].listFlight.None?
    ensures system.reliable && led && reply.Failure? ==>
      VersionFull(system.state) || LeaderFailed(system.state, |old(system.state).calls| + 1)
    ensures !led && reply.Failure? ==> LeaderUnanswered(system.state, |old(system.state).calls|)
  {
    var c := |system.state.calls|;
    led := system.state.instances[k].listFlight.None?;
    system.Do(BeginList(k));
    if led {
      reply := LeadList(system, c);
    } else {
      reply := FollowList(system, c);
    }
    if reply.Success? {
      AnsweredHolds(system.state, c, reply.value);
    }
  }

  predicate Answers(s: State, c: CallId, videos: seq<Video>) {
    c < |s.calls| && s.calls[c].List? && s.calls[c].listPc.Answered? && s.calls[c].listPc.snapshot.videos == videos
  }

  lemma AnsweredHolds(s: State, c: CallId, videos: seq<Video>)
    requires Inv(s) && Answers(s, c, videos)
    ensures HoldsCommits(s, videos, s.calls[c].since)
  {
    assert CallInv(s, c);
  }

  method LeadList(system: System, c: CallId) returns (reply: Reply<seq<Video>>)
    requires system.Sound() && Executing(system.state, c) && c + 1 < |system.state.calls|
    requires system.state.calls[c].List? && system.state.calls[c].listPc == Awaiting(c + 1)
    requires Runs(system.state, c + 1) && system.state.calls[c + 1].getPc.Looking?
    modifies system
    ensures system.Sound() && Later(old(system.state), system.state)
    ensures reply.Success? ==> Answers(system.state, c, reply.value)
    ensures reply.Success? ==> system.state.calls[c].since == old(system.state).calls[c].since
    ensures system.reliable && reply.Failure? ==> VersionFull(system.state) || LeaderFailed(system.state, c + 1)
  {
    reply := Lookup(system, c + 1, {c, c + 1});
    if !reply.Waiting? {
      ghost var failed := system.state;
      system.Do(FinishList(c));
      if LeaderFailed(failed, c + 1) { FailureKept(failed, system.state, c, c + 1); }
    }
  }

  lemma FailureKept(s: State, s': State, c: CallId, g: CallId)
    requires LeaderFailed(s, g) && c < |s.calls| && s.calls[c].List? && |s'.calls| == |s.calls|
    requires forall x | 0 <= x < |s.calls| && x != c :: s'.calls[x] == s.calls[x]
    ensures LeaderFailed(s', g)
  {
    var f: CallId :| f < |s.calls| && f != g && GaveUp(s, f);
    assert GaveUp(s', f);
  }

  /** The call joined a flight whose leader ended without an answer. */
  predicate LeaderUnanswered(s: State, c: CallId) {
    && c < |s.calls| && s.calls[c].List?
    && var l := s.calls[c].leader; l < |s.calls| && s.calls[l].List? && s.calls[l].listPc.Unanswered?
  }

  method FollowList(system: System, c: CallId) returns (reply: Reply<seq<Video>>)
    requires system.Sound() && Executing(system.state, c)
    requires system.state.calls[c].List? && system.state.calls[c].listPc.Following?
    modifies system
    ensures system.Sound() && Later(old(system.state), system.state)
    ensures reply.Success? ==> Answers(system.state, c, reply.value)
    ensures reply.Success? ==> system.state.calls[c].since == old(system.state).calls[c].since
    ensures reply.Failure? ==> LeaderUnanswered(system.state, c)
  {
    system.Others({c});
    if !ListEnabled(system.state, c) {
      return Waiting;
    }
    system.Do(FinishList(c));
    var pc := system.state.calls[c].listPc;
    reply := if pc.Answered? then Success(pc.snapshot.videos) else Failure;
  }
}
