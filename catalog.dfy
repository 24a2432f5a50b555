/** Track records and the catalogue-result mapping shared by the pages.
    A `Track` is the value the player queues and plays; an `ItunesItem` is
    one entry of an iTunes Search API result, which the Home and Discover
    pages filter and map into tracks. */
module Catalog {
  import opened Wrappers
  import opened Text

  /** The `Track` record of the player (numeric id, display strings, cover
      image URL, preview audio URL, duration in whole seconds). */
  datatype Track = Track(
    id: int,
    title: string,
    artist: string,
    album: string,
    cover: string,
    preview: string,
    duration: int)

  /** The fields of an iTunes search result that the pages read.
      `previewUrl` is `None` when the field is missing or null. */
  datatype ItunesItem = ItunesItem(
    trackId: int,
    trackName: string,
    artistName: string,
    collectionName: string,
    artworkUrl100: string,
    previewUrl: Option<string>,
    trackTimeMillis: int)

  /** The truthiness test `item.previewUrl`: present and not the empty string. */
  predicate HasPreview(item: ItunesItem) {
    item.previewUrl.Some? && item.previewUrl.value != ""
  }

  /** `Math.floor(ms / 1000)`: whole seconds, rounded down. */
  function MillisToSeconds(ms: int): (s: int)
    ensures s * 1000 <= ms < (s + 1) * 1000
  {
    ms / 1000
  }

  /** `items.filter(item => item.previewUrl)`, order kept. */
  function KeepPlayable(items: seq<ItunesItem>): (r: seq<ItunesItem>)
    ensures |r| <= |items|
    ensures forall i :: 0 <= i < |r| ==> HasPreview(r[i])
    ensures forall x :: x in r <==> x in items && HasPreview(x)
  {
    if items == [] then []
    else if HasPreview(items[0]) then [items[0]] + KeepPlayable(items[1..])
    else KeepPlayable(items[1..])
  }

  /** Filtering distributes over concatenation: the kept results stay in
      input order, each as often as it occurs. */
  lemma {:induction false} KeepPlayableConcat(a: seq<ItunesItem>, b: seq<ItunesItem>)
    ensures KeepPlayable(a + b) == KeepPlayable(a) + KeepPlayable(b)
  {
    if a != [] {
      assert (a + b)[0] == a[0];
      assert (a + b)[1..] == a[1..] + b;
      KeepPlayableConcat(a[1..], b);
    } else {
      assert a + b == b;
    }
  }

  /** A single result is kept exactly when it has a preview. */
  lemma KeepPlayableOne(item: ItunesItem)
    ensures KeepPlayable([item]) == if HasPreview(item) then [item] else []
  {
    assert [item][1..] == [];
  }

  /** The artwork URL pattern that both pages rewrite. */
  const Thumbnail: string := "100x100"

  /** One result mapped to a track; `size` replaces the first "100x100" of
      the artwork URL ("600x600" on Home, "300x300" on Discover). */
  function FromItunes(item: ItunesItem, size: string): (t: Track)
    requires HasPreview(item)
    ensures t.id == item.trackId && t.preview == item.previewUrl.value && t.preview != ""
    ensures t.cover == ReplaceFirst(item.artworkUrl100, Thumbnail, size)
    ensures t.duration * 1000 <= item.trackTimeMillis < (t.duration + 1) * 1000
  {
    Track(
      item.trackId,
      item.trackName,
      item.artistName,
      item.collectionName,
      ReplaceFirst(item.artworkUrl100, Thumbnail, size),
      item.previewUrl.value,
      MillisToSeconds(item.trackTimeMillis))
  }

  /** `results.filter(previewUrl).map(...)` over one result list. */
  function MapPlayable(items: seq<ItunesItem>, size: string): (r: seq<Track>)
    ensures |r| == |KeepPlayable(items)|
    ensures forall i :: 0 <= i < |r| ==> r[i] == FromItunes(KeepPlayable(items)[i], size)
  {
    var kept := KeepPlayable(items);
    seq(|kept|, i requires 0 <= i < |kept| => FromItunes(kept[i], size))
  }

  /** The first position of a track with the given id, or -1. */
  function IndexOfId(tracks: seq<Track>, id: int): (i: int)
    ensures -1 <= i < |tracks|
    ensures i == -1 <==> forall k :: 0 <= k < |tracks| ==> tracks[k].id != id
    ensures 0 <= i ==> tracks[i].id == id && forall k :: 0 <= k < i ==> tracks[k].id != id
  {
    if tracks == [] then -1
    else if tracks[0].id == id then 0
    else
      var j := IndexOfId(tracks[1..], id);
      if j == -1 then -1 else j + 1
  }

  predicate DistinctIds(tracks: seq<Track>) {
    forall j, k :: 0 <= j < k < |tracks| ==> tracks[j].id != tracks[k].id
  }

  /** The `track_*` columns that the favourites and play-history tables
      store for a track. */
  datatype TrackColumns = TrackColumns(
    track_id: int,
    track_title: string,
    track_artist: string,
    track_album: string,
    track_cover: string,
    track_preview: string,
    track_duration: int)

  /** The row a track is stored as (the favourites insert). */
  function ColumnsOf(t: Track): (c: TrackColumns)
    ensures c.track_id == t.id && c.track_preview == t.preview
  {
    TrackColumns(t.id, t.title, t.artist, t.album, t.cover, t.preview, t.duration)
  }

  /** The track a stored row is played as (the history page's play button);
      it is the exact inverse of `ColumnsOf`. */
  function TrackOf(c: TrackColumns): (t: Track)
    ensures ColumnsOf(t) == c
  {
    Track(c.track_id, c.track_title, c.track_artist, c.track_album,
          c.track_cover, c.track_preview, c.track_duration)
  }

  /** Storing a track and playing the stored row gives back the same track. */
  lemma StoredTrackRoundTrip(t: Track)
    ensures TrackOf(ColumnsOf(t)) == t
  {
  }
}
