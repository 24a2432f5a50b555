/** The discover page's mood recommendations: the time-of-day hint sent to
    the recommendation service, and the pipeline that turns the iTunes
    results of each suggested query into at most twenty tracks with
    distinct ids.  The service reply, the search responses and the random
    order are parameters. */
module Discover {
  import opened Wrappers
  import opened Catalog

  datatype TimeOfDay = Morning | Afternoon | Evening

  /** The time-of-day hint for an hour of the local clock. */
  function TimeOfDayAt(hour: int): (t: TimeOfDay)
    ensures t == Morning <==> hour < 12
    ensures t == Afternoon <==> 12 <= hour < 18
    ensures t == Evening <==> 18 <= hour
  {
    if hour < 12 then Morning else if hour < 18 then Afternoon else Evening
  }

  const DiscoverCover: string := "300x300"
  const MaxRecommendations: nat := 20

  /** The tracks gathered from the per-query results: query by query, and
      within a query in result order. */
  function Accumulated(results: seq<seq<ItunesItem>>): (r: seq<Track>)
    ensures forall t :: t in r ==> t.preview != ""
  {
    if results == [] then []
    else
      var last := MapPlayable(results[|results| - 1], DiscoverCover);
      assert forall t :: t in last ==> t.preview != "";
      Accumulated(results[..|results| - 1]) + last
  }

  /** The loop that pushes each query's mapped results onto `allTracks`. */
  method CollectTracks(results: seq<seq<ItunesItem>>) returns (allTracks: seq<Track>)
    ensures allTracks == Accumulated(results)
  {
    allTracks := [];
    for q := 0 to |results|
      invariant allTracks == Accumulated(results[..q])
    {
      assert results[..q + 1][..q] == results[..q];
      allTracks := allTracks + MapPlayable(results[q], DiscoverCover);
    }
    assert results[..|results|] == results;
  }

  /** `map.set(t.id, t)` on a `Map` kept as its values in insertion order:
      an existing key keeps its place and takes the new value; a new key
      goes to the end. */
  function MapSet(entries: seq<Track>, t: Track): (r: seq<Track>)
    ensures t in r
    ensures |entries| <= |r| <= |entries| + 1
    ensures forall j :: 0 <= j < |entries| ==> r[j].id == entries[j].id
    ensures forall j :: 0 <= j < |entries| && entries[j].id != t.id ==> r[j] == entries[j]
  {
    var i := IndexOfId(entries, t.id);
    if i == -1 then entries + [t]
    else
      assert entries[i := t][i] == t;
      entries[i := t]
  }

  /** `Array.from(new Map(tracks.map(t => [t.id, t])).values())`. */
  function UniqueById(tracks: seq<Track>): (r: seq<Track>)
    ensures |r| <= |tracks|
    ensures tracks != [] ==> tracks[|tracks| - 1] in r
  {
    if tracks == [] then [] else MapSet(UniqueById(tracks[..|tracks| - 1]), tracks[|tracks| - 1])
  }

  function Ids(tracks: seq<Track>): set<int> {
    set t | t in tracks :: t.id
  }

  /** The last track in `tracks` with the given id, if any. */
  function LastWithId(tracks: seq<Track>, id: int): Option<Track> {
    if tracks == [] then None
    else if tracks[|tracks| - 1].id == id then Some(tracks[|tracks| - 1])
    else LastWithId(tracks[..|tracks| - 1], id)
  }

  /** One `map.set` keeps the ids distinct. */
  lemma MapSetDistinct(entries: seq<Track>, t: Track)
    requires DistinctIds(entries)
    ensures DistinctIds(MapSet(entries, t))
  {
    var r := MapSet(entries, t);
    if IndexOfId(entries, t.id) != -1 {
      assert forall j :: 0 <= j < |r| ==> r[j].id == entries[j].id;
    }
  }

  /** One `map.set` adds the id of the track it sets. */
  lemma MapSetIds(entries: seq<Track>, t: Track)
    ensures Ids(MapSet(entries, t)) == Ids(entries) + {t.id}
  {
    var r := MapSet(entries, t);
    var i := IndexOfId(entries, t.id);
    if i == -1 {
      assert r == entries + [t];
    } else {
      assert entries[i] in entries;
      forall x | x in Ids(r) ensures x in Ids(entries) {
        var u :| u in r && u.id == x;
        var j :| 0 <= j < |r| && r[j] == u;
        assert entries[j] in entries && entries[j].id == x;
      }
      forall x | x in Ids(entries) ensures x in Ids(r) {
        var u :| u in entries && u.id == x;
        var j :| 0 <= j < |entries| && entries[j] == u;
        assert r[j] in r && r[j].id == x;
      }
    }
  }

  /** The last track with an id in `init + [t]`. */
  lemma LastWithIdSnoc(init: seq<Track>, t: Track, id: int)
    ensures LastWithId(init + [t], id) == if t.id == id then Some(t) else LastWithId(init, id)
  {
    var s := init + [t];
    assert s[..|s| - 1] == init;
  }

  /** If every entry is the last track seen with its id, that stays so
      after one more track is seen and set. */
  lemma MapSetKeepsLast(init: seq<Track>, entries: seq<Track>, t: Track)
    requires DistinctIds(entries)
    requires forall j :: 0 <= j < |entries| ==> LastWithId(init, entries[j].id) == Some(entries[j])
    ensures forall j :: 0 <= j < |MapSet(entries, t)| ==>
      LastWithId(init + [t], MapSet(entries, t)[j].id) == Some(MapSet(entries, t)[j])
  {
    var r := MapSet(entries, t);
    var i := IndexOfId(entries, t.id);
    forall j | 0 <= j < |r| ensures LastWithId(init + [t], r[j].id) == Some(r[j]) {
      LastWithIdSnoc(init, t, r[j].id);
      if i == -1 {
        if j < |entries| {
          assert r[j] == entries[j] && entries[j].id != t.id;
        }
      } else if j != i {
        assert r[j] == entries[j] && entries[i].id == t.id;
      }
    }
  }

  /** De-duplication leaves no two tracks with the same id, keeps exactly
      the ids that occurred, and for each id keeps the LAST track seen with
      it. */
  lemma {:induction false} UniqueByIdSpec(tracks: seq<Track>)
    ensures DistinctIds(UniqueById(tracks))
    ensures Ids(UniqueById(tracks)) == Ids(tracks)
    ensures forall j :: 0 <= j < |UniqueById(tracks)| ==>
      LastWithId(tracks, UniqueById(tracks)[j].id) == Some(UniqueById(tracks)[j])
  {
    if tracks != [] {
      var init, t := tracks[..|tracks| - 1], tracks[|tracks| - 1];
      assert tracks == init + [t];
      UniqueByIdSpec(init);
      var acc := UniqueById(init);
      MapSetDistinct(acc, t);
      MapSetIds(acc, t);
      MapSetKeepsLast(init, acc, t);
      assert Ids(tracks) == Ids(init) + {t.id};
    }
  }

  /** Every de-duplicated track is one of the gathered tracks. */
  lemma {:induction false} UniqueByIdDrawnFrom(tracks: seq<Track>)
    ensures forall t :: t in UniqueById(tracks) ==> t in tracks
  {
    if tracks != [] {
      var init, last := tracks[..|tracks| - 1], tracks[|tracks| - 1];
      UniqueByIdDrawnFrom(init);
      var acc := UniqueById(init);
      forall t | t in UniqueById(tracks) ensures t in tracks {
        if t != last {
          var i := IndexOfId(acc, last.id);
          assert t in acc by {
            if i != -1 {
              var j :| 0 <= j < |acc[i := last]| && acc[i := last][j] == t;
              assert acc[j] == t;
            }
          }
          assert t in init;
        }
      }
    }
  }

  /** After the random reordering (`shuffled`, any permutation of the
      de-duplicated list), the first twenty. */
  function Recommendations(allTracks: seq<Track>, shuffled: seq<Track>): (r: seq<Track>)
    requires multiset(shuffled) == multiset(UniqueById(allTracks))
    ensures |r| == if |shuffled| < MaxRecommendations then |shuffled| else MaxRecommendations
    ensures r == shuffled[..|r|]
  {
    if |shuffled| <= MaxRecommendations then shuffled else shuffled[..MaxRecommendations]
  }

  /** The recommendations are at most twenty de-duplicated tracks, each one
      of the gathered tracks and each the last gathered with its id. */
  lemma RecommendationsSpec(allTracks: seq<Track>, shuffled: seq<Track>)
    requires multiset(shuffled) == multiset(UniqueById(allTracks))
    ensures |Recommendations(allTracks, shuffled)| <= MaxRecommendations
    ensures forall t :: t in Recommendations(allTracks, shuffled) ==>
      t in UniqueById(allTracks) && t in allTracks && LastWithId(allTracks, t.id) == Some(t)
  {
    var r := Recommendations(allTracks, shuffled);
    var u := UniqueById(allTracks);
    UniqueByIdSpec(allTracks);
    UniqueByIdDrawnFrom(allTracks);
    forall t | t in r
      ensures t in u && t in allTracks && LastWithId(allTracks, t.id) == Some(t)
    {
      assert t in shuffled;
      assert t in multiset(shuffled);
      assert t in multiset(u);
      var j :| 0 <= j < |u| && u[j] == t;
    }
  }

  /** The page's state cells. */
  class DiscoverPage {
    var loading: bool
    var tracks: seq<Track>
    var selectedMood: Option<string>

    constructor ()
      ensures !loading && tracks == [] && selectedMood == None
    {
      loading := false;
      tracks := [];
      selectedMood := None;
    }

    /** `getRecommendations(mood)`: `results` holds, in query order, the
        iTunes results of each query the service suggested (`Err` when the
        service or a search failed); `shuffled` is the random order. */
    method GetRecommendations(mood: string, results: Result<seq<seq<ItunesItem>>>, shuffled: seq<Track>)
      requires results.Ok? ==> multiset(shuffled) == multiset(UniqueById(Accumulated(results.value)))
      modifies this
      ensures !loading && selectedMood == Some(mood)
      ensures results.Ok? ==> tracks == Recommendations(Accumulated(results.value), shuffled)
      ensures results.Err? ==> tracks == old(tracks)
    {
      loading := true;
      selectedMood := Some(mood);
      if results.Ok? {
        var allTracks := CollectTracks(results.value);
        tracks := Recommendations(allTracks, shuffled);
      }
      loading := false;
    }
  }
}
