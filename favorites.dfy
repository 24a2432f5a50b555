/** The favourites hook: the signed-in user's favourite track ids, loaded
    from the `favorites` table and toggled one track at a time.  Whether a
    user is signed in, and what the backend answers, are parameters. */
module Favorites {
  import opened Wrappers
  import opened Catalog
  import opened Text

  /** `ids.includes(id)`. */
  function Includes(ids: seq<int>, id: int): (r: bool)
    ensures r <==> id in ids
  {
    if ids == [] then false else ids[0] == id || Includes(ids[1..], id)
  }

  /** `ids.filter(x => x !== id)`. */
  function Without(ids: seq<int>, id: int): (r: seq<int>)
    ensures |r| <= |ids|
    ensures forall x :: x in r <==> x in ids && x != id
  {
    if ids == [] then []
    else if ids[0] == id then Without(ids[1..], id)
    else [ids[0]] + Without(ids[1..], id)
  }

  /** Filtering distributes over concatenation, so the ids that stay keep
      their order. */
  lemma {:induction false} WithoutConcat(a: seq<int>, b: seq<int>, id: int)
    ensures Without(a + b, id) == Without(a, id) + Without(b, id)
  {
    if a != [] {
      assert (a + b)[0] == a[0];
      assert (a + b)[1..] == a[1..] + b;
      WithoutConcat(a[1..], b, id);
    } else {
      assert a + b == b;
    }
  }

  /** Filtering out an id that is not there changes nothing. */
  lemma {:induction false} WithoutAbsent(ids: seq<int>, id: int)
    requires id !in ids
    ensures Without(ids, id) == ids
  {
    if ids != [] {
      assert id !in ids[1..];
      WithoutAbsent(ids[1..], id);
      assert [ids[0]] + ids[1..] == ids;
    }
  }

  /** The favourites list after a successful toggle of `id`: removed when
      it was a favourite, appended otherwise. */
  function Toggled(ids: seq<int>, id: int): (r: seq<int>)
    ensures id in r <==> id !in ids
    ensures forall x :: x != id ==> (x in r <==> x in ids)
  {
    if Includes(ids, id) then Without(ids, id) else ids + [id]
  }

  /** Adding a track and then removing it restores the list exactly. */
  lemma AddThenRemove(ids: seq<int>, id: int)
    requires id !in ids
    ensures Toggled(Toggled(ids, id), id) == ids
  {
    WithoutConcat(ids, [id], id);
    WithoutAbsent(ids, id);
    assert Without([id], id) == [];
  }

  /** Ids other than the toggled one keep their relative order: with the
      toggled id filtered out, the list is the same before and after. */
  lemma OthersKeepOrder(ids: seq<int>, id: int)
    ensures Without(Toggled(ids, id), id) == Without(ids, id)
  {
    if id in ids {
      WithoutAbsent(Without(ids, id), id);
    } else {
      WithoutConcat(ids, [id], id);
      assert Without([id], id) == [];
    }
  }

  /** Removing a favourite and adding it back moves it to the end of the
      list and drops any duplicate of it; the other ids keep their order. */
  lemma RemoveThenAdd(ids: seq<int>, id: int)
    requires id in ids
    ensures Toggled(Toggled(ids, id), id) == Without(ids, id) + [id]
  {
  }

  /** The write that a toggle sends to the `favorites` table. */
  datatype FavoriteWrite =
    | DeleteRow(trackId: int)
    | InsertRow(columns: TrackColumns)

  /** The write a toggle decides on from the list it sees when the button
      is pressed: a delete when the track is a favourite there, an insert
      of its row otherwise. */
  function Decision(ids: seq<int>, track: Track): (w: FavoriteWrite)
    ensures w.DeleteRow? <==> track.id in ids
    ensures w.DeleteRow? ==> w.trackId == track.id
    ensures w.InsertRow? ==> w.columns == ColumnsOf(track)
  {
    if Includes(ids, track.id) then DeleteRow(track.id) else InsertRow(ColumnsOf(track))
  }

  /** The list after the backend accepted a write, applied to whatever the
      list is when the reply arrives: a delete filters the id out, an
      insert appends the row's id. */
  function Applied(ids: seq<int>, w: FavoriteWrite): (r: seq<int>)
    ensures w.DeleteRow? ==> w.trackId !in r && forall x :: x != w.trackId ==> (x in r <==> x in ids)
    ensures w.InsertRow? ==> |r| == |ids| + 1 && r[..|ids|] == ids && r[|ids|] == w.columns.track_id
  {
    match w
    case DeleteRow(id) => Without(ids, id)
    case InsertRow(c) => ids + [c.track_id]
  }

  /** A toggle whose reply arrives before anything else changed the list
      is exactly `Toggled`. */
  lemma DecidedThenAppliedIsToggled(ids: seq<int>, track: Track)
    ensures Applied(ids, Decision(ids, track)) == Toggled(ids, track.id)
  {
  }

  /** Two presses on a track that is not a favourite, both made before
      either reply arrived, both decide on an insert; once both succeed the
      id is in the list twice. */
  lemma OverlappingAddsDuplicate(ids: seq<int>, track: Track)
    requires track.id !in ids
    ensures var w := Decision(ids, track);
      Applied(Applied(ids, w), w) == ids + [track.id, track.id]
  {
    var w := Decision(ids, track);
    assert Applied(ids, w) == ids + [track.id];
    assert (ids + [track.id]) + [track.id] == ids + [track.id, track.id];
  }

  /** By contrast, two sequential toggles restore the list. */
  lemma SequentialTogglesRestore(ids: seq<int>, track: Track)
    requires track.id !in ids
    ensures var once := Applied(ids, Decision(ids, track));
      Applied(once, Decision(once, track)) == ids
  {
    DecidedThenAppliedIsToggled(ids, track);
    var once := Applied(ids, Decision(ids, track));
    DecidedThenAppliedIsToggled(once, track);
    AddThenRemove(ids, track.id);
  }

  /** The toast shown after a toggle. */
  datatype Notice =
    | SignInRequired
    | RemovedNotice
    | AddedNotice
    | Failed(message: string)

  /** The toast text when a toggle fails without a message. */
  const UpdateFailedText: string := "Failed to update favorites"

  /** The hook's state cells. */
  class FavoriteList {
    var favorites: seq<int>
    var loading: bool

    constructor ()
      ensures favorites == [] && loading
    {
      favorites := [];
      loading := true;
    }

    /** `loadFavorites()`: without a user nothing happens; a backend error
        keeps the list; a reply replaces it (a missing reply reads as no
        favourites); loading ends either way. */
    method LoadFavorites(signedIn: bool, response: Result<Option<seq<int>>>)
      modifies this
      ensures !signedIn ==> favorites == old(favorites) && loading == old(loading)
      ensures signedIn ==> !loading
      ensures signedIn && response.Err? ==> favorites == old(favorites)
      ensures signedIn && response.Ok? ==> favorites == response.value.GetOr([])
    {
      if !signedIn {
        return;
      }
      if response.Ok? {
        favorites := response.value.GetOr([]);
      }
      loading := false;
    }

    /** The first half of `toggleFavorite(track)`, up to the request: the
        write to send (none without a user), decided from the list as it is
        when the button is pressed. */
    method BeginToggle(signedIn: bool, track: Track) returns (write: Option<FavoriteWrite>)
      ensures !signedIn ==> write == None
      ensures signedIn ==> write == Some(Decision(favorites, track))
    {
      if !signedIn {
        return None;
      }
      var isFavorite := Includes(favorites, track.id);
      if isFavorite {
        write := Some(DeleteRow(track.id));
      } else {
        write := Some(InsertRow(ColumnsOf(track)));
      }
    }

    /** The second half, when the backend's reply to `write` arrives: an
        error leaves the list alone and shows its message; success updates
        the list as it is now, which may differ from the one the write was
        decided on. */
    method CompleteToggle(write: FavoriteWrite, backendError: Option<string>) returns (notice: Notice)
      modifies this
      ensures loading == old(loading)
      ensures backendError.Some? ==>
        favorites == old(favorites) && notice == Failed(OrDefault(backendError.value, UpdateFailedText))
      ensures backendError.None? ==> favorites == Applied(old(favorites), write)
      ensures backendError.None? ==> notice == if write.DeleteRow? then RemovedNotice else AddedNotice
    {
      if backendError.Some? {
        return Failed(OrDefault(backendError.value, UpdateFailedText));
      }
      match write
      case DeleteRow(id) =>
        favorites := Without(favorites, id);
        notice := RemovedNotice;
      case InsertRow(c) =>
        favorites := favorites + [c.track_id];
        notice := AddedNotice;
    }

    /** `toggleFavorite(track)` when nothing else touches the list between
        the press and the reply: returns the write sent to the backend
        (none without a user) and the notice shown.  `backendError` is the
        error the backend answers the write with, if any. */
    method ToggleFavorite(signedIn: bool, track: Track, backendError: Option<string>)
      returns (write: Option<FavoriteWrite>, notice: Notice)
      modifies this
      ensures loading == old(loading)
      ensures !signedIn ==> write == None && notice == SignInRequired && favorites == old(favorites)
      ensures signedIn && track.id in old(favorites) ==> write == Some(DeleteRow(track.id))
      ensures signedIn && track.id !in old(favorites) ==> write == Some(InsertRow(ColumnsOf(track)))
      ensures signedIn && backendError.Some? ==>
        favorites == old(favorites) && notice == Failed(OrDefault(backendError.value, UpdateFailedText))
      ensures signedIn && backendError.None? ==> favorites == Toggled(old(favorites), track.id)
      ensures signedIn && backendError.None? ==>
        notice == if track.id in old(favorites) then RemovedNotice else AddedNotice
    {
      if !signedIn {
        return None, SignInRequired;
      }
      DecidedThenAppliedIsToggled(favorites, track);
      write := BeginToggle(signedIn, track);
      notice := CompleteToggle(write.value, backendError);
    }

    /** `isFavorite(trackId)`. */
    function IsFavorite(trackId: int): (r: bool)
      reads this
      ensures r <==> trackId in favorites
    {
      Includes(favorites, trackId)
    }
  }
}
