/** The home page's featured tracks: the first twelve playable results of a
    fixed iTunes search, with covers rewritten to 600x600.  The search
    response is a parameter; a failed fetch or an unreadable body is `Err`. */
module Home {
  import opened Wrappers
  import opened Catalog

  const FeaturedCount: nat := 12
  const FeaturedCover: string := "600x600"

  function Min(a: nat, b: nat): nat {
    if a < b then a else b
  }

  /** `results.filter(previewUrl).slice(0, 12).map(...)`. */
  function FeaturedTracks(items: seq<ItunesItem>): (r: seq<Track>)
    ensures |r| == Min(FeaturedCount, |KeepPlayable(items)|)
    ensures forall i :: 0 <= i < |r| ==> r[i] == FromItunes(KeepPlayable(items)[i], FeaturedCover)
  {
    var kept := KeepPlayable(items);
    var top := kept[..Min(FeaturedCount, |kept|)];
    seq(|top|, i requires 0 <= i < |top| => FromItunes(top[i], FeaturedCover))
  }

  /** Slicing before mapping is the same as mapping every playable result
      and keeping the first twelve: the featured list is a prefix, in order,
      of the whole mapped list. */
  lemma FeaturedIsPrefix(items: seq<ItunesItem>)
    ensures var all := MapPlayable(items, FeaturedCover);
      FeaturedTracks(items) == all[..Min(FeaturedCount, |all|)]
  {
  }

  /** Every featured track comes from a playable result: its preview is
      that result's (non-empty) preview URL and its cover that result's
      artwork URL with the first "100x100" made "600x600". */
  lemma FeaturedFromPlayable(items: seq<ItunesItem>)
    ensures forall t :: t in FeaturedTracks(items) ==>
      t.preview != "" &&
      exists item :: item in items && HasPreview(item) && t == FromItunes(item, FeaturedCover)
  {
    var r := FeaturedTracks(items);
    var kept := KeepPlayable(items);
    forall t | t in r
      ensures t.preview != "" &&
        exists item :: item in items && HasPreview(item) && t == FromItunes(item, FeaturedCover)
    {
      var i :| 0 <= i < |r| && r[i] == t;
      assert kept[i] in kept;
    }
  }

  /** The page's state cells. */
  class HomePage {
    var featuredTracks: seq<Track>
    var loading: bool

    constructor ()
      ensures featuredTracks == [] && loading
    {
      featuredTracks := [];
      loading := true;
    }

    /** `fetchFeaturedTracks`: on success the featured list is replaced; on
        error it is kept; either way loading ends. */
    method FetchFeaturedTracks(response: Result<seq<ItunesItem>>)
      modifies this
      ensures !loading
      ensures response.Ok? ==> featuredTracks == FeaturedTracks(response.value)
      ensures response.Err? ==> featuredTracks == old(featuredTracks)
    {
      if response.Ok? {
        featuredTracks := FeaturedTracks(response.value);
      }
      loading := false;
    }
  }
}
