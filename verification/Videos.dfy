/** The videos table, the listing query over it, and the history of committed view increments. */
module Videos {
  type VideoId = nat
  type EventId = nat
  type CallId = nat

  datatype Video = Video(id: VideoId, title: string, filePath: string, views: nat, createdAt: int)

  /** The videos table by primary key. */
  type Library = map<VideoId, Video>

  predicate Keyed(library: Library) {
    forall id | id in library :: library[id].id == id
  }

  /** ORDER BY created_at DESC, id. */
  predicate ListedBefore(a: Video, b: Video) {
    a.createdAt > b.createdAt || (a.createdAt == b.createdAt && a.id < b.id)
  }

  /** The listing holds every row of the table, nothing else, in the order of the query. */
  predicate IsListing(library: Library, videos: seq<Video>) {
    && (forall i, j | 0 <= i < j < |videos| :: ListedBefore(videos[i], videos[j]))
    && (forall v | v in videos :: v.id in library && library[v.id] == v)
    && (forall id | id in library :: library[id] in videos)
  }

  /** The order is total on ids, so one table has one listing. */
  lemma {:induction false} ListingUnique(library: Library, a: seq<Video>, b: seq<Video>)
    requires Keyed(library) && IsListing(library, a) && IsListing(library, b)
    ensures a == b
    decreases |a|
  {
    if a == [] {
      EmptyListing(library, a);
      EmptyListing(library, b);
    } else {
      var first := a[0];
      assert first in a && library[first.id] == first && first in b;
      assert b[0] in b && library[b[0].id] == b[0] && b[0] in a;
      assert first == b[0];
      var rest := library - {first.id};
      TailListing(library, a);
      TailListing(library, b);
      ListingUnique(rest, a[1..], b[1..]);
      assert a == [first] + a[1..] && b == [first] + b[1..];
    }
  }

  lemma EmptyListing(library: Library, videos: seq<Video>)
    requires IsListing(library, videos)
    ensures videos == [] <==> library.Keys == {}
  {
    if videos != [] {
      assert videos[0] in videos;
    }
  }

  lemma TailListing(library: Library, videos: seq<Video>)
    requires Keyed(library) && IsListing(library, videos) && videos != []
    ensures IsListing(library - {videos[0].id}, videos[1..])
  {}

  /** The listing query: every table has a listing. */
  method SelectVideos(library: Library) returns (videos: seq<Video>)
    requires Keyed(library)
    ensures IsListing(library, videos)
    ensures forall i, j | 0 <= i < j < |videos| ::
      var a, b := videos[i], videos[j]; a.createdAt > b.createdAt || (a.createdAt == b.createdAt && a.id < b.id)
  {
    videos := [];
    var done: Library := map[];
    var todo := library.Keys;
    while todo != {}
      invariant todo <= library.Keys && done.Keys == library.Keys - todo
      invariant forall id | id in done :: done[id] == library[id]
      invariant IsListing(done, videos)
    {
      var id :| id in todo;
      videos := InsertListed(done, library[id], videos);
      done, todo := done[id := library[id]], todo - {id};
    }
    assert done == library;
  }

  method InsertListed(library: Library, v: Video, others: seq<Video>) returns (videos: seq<Video>)
    requires Keyed(library) && IsListing(library, others) && v.id !in library
    ensures IsListing(library[v.id := v], videos)
  {
    var k := 0;
    while k < |others| && ListedBefore(others[k], v)
      invariant k <= |others|
      invariant forall i | 0 <= i < k :: ListedBefore(others[i], v)
    {
      k := k + 1;
    }
    videos := others[..k] + [v] + others[k..];
    InsertionListed(library, v, others, k);
  }

  lemma InsertionListed(library: Library, v: Video, others: seq<Video>, k: nat)
    requires Keyed(library) && IsListing(library, others) && v.id !in library && k <= |others|
    requires forall i | 0 <= i < k :: ListedBefore(others[i], v)
    requires k < |others| ==> !ListedBefore(others[k], v)
    ensures IsListing(library[v.id := v], others[..k] + [v] + others[k..])
  {}

  /** One committed increment: the outbox row it inserted, the video, the new counter, the call that made it, when. */
  datatype Commit = Commit(event: EventId, video: VideoId, views: nat, caller: CallId, time: nat)

  function Bump(library: Library, id: VideoId): Library {
    if id in library then library[id := library[id].(views := library[id].views + 1)] else library
  }

  /** The table after a history of increments. */
  function Replay(initial: Library, history: seq<Commit>): Library {
    if history == [] then initial
    else Bump(Replay(initial, history[..|history| - 1]), history[|history| - 1].video)
  }

  function Increments(history: seq<Commit>, id: VideoId): nat {
    if history == [] then 0
    else Increments(history[..|history| - 1], id) + if history[|history| - 1].video == id then 1 else 0
  }

  lemma {:induction false} ReplayCounts(initial: Library, history: seq<Commit>)
    requires Keyed(initial)
    ensures Keyed(Replay(initial, history)) && Replay(initial, history).Keys == initial.Keys
    ensures forall id | id in initial ::
      Replay(initial, history)[id] == initial[id].(views := initial[id].views + Increments(history, id))
  {
    if history != [] {
      ReplayCounts(initial, history[..|history| - 1]);
    }
  }
}
