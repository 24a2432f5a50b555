# Dark music player: a verified model of its core

This project models the core logic of a web music player written in
TypeScript with React and a Supabase backend. The app plays 30-second
preview clips from the iTunes catalogue. It keeps a play queue, colours its
player bar from the current cover art, stores favourites and a play
history, suggests tracks per mood, and runs an edge function that proxies
Spotify search. The model covers these parts:

- **Player engine** (`PlayerEngine`). The provider's state cells and its commands:
  - play, play/pause, next, previous, seek, volume, enqueue;
  - the audio element's `timeupdate`, `loadedmetadata` and `ended` callbacks.

  Each command is a transition function on a `PlayerState` value. The class `Player` holds the same cells as fields, and each of its methods is proved to perform exactly that transition. Every command keeps the audio element in step with the `isPlaying` and `volume` cells. The end of a clip does not: the element pauses itself while `isPlaying` stays set (see "Findings"). All transitions keep a weaker agreement, which the class maintains as its invariant.
- **Dominant colour** (`DominantColor`). The loop that averages the cover's bright pixels, and the RGB-to-HSL conversion with the lightness floor of 50. The conversion uses exact reals.
- **Player bar** (`PlayerView`). The `M:SS` clock text, and what the bar shows for a state.
- **History page** (`History`). The relative "played at" label, and the play button that turns a stored row back into a track.
- **Discover page** (`Discover`). The time-of-day hint, then the recommendation pipeline:
  1. filter playable results and map them to tracks;
  2. accumulate query by query;
  3. de-duplicate by id, the way a JavaScript `Map` does;
  4. shuffle and keep 20.
- **Home page** (`Home`). Keep the results that have a preview, take the first 12, and map them.
- **Favourites hook** (`Favorites`). The favourite-id list, with load, toggle and membership.
- **Spotify search function** (`SpotifySearch`). The module-level access-token cache with its early expiry. The request handler: query guard, defaults, error responses and track shaping.
- **Profile page** (`Profile`). The avatar file guards, and the storage path built from the file's extension.

Shared pieces:

- `Wrappers` holds `Option` and `Result`.
- `Text` holds decimal text, first-occurrence search and replace, `padStart` and `join`.
- `Catalog` holds the `Track` record, the iTunes result mapping and the stored `track_*` columns.

Everything outside the program becomes a parameter of the operation that reads it:

- the clock (`Date.now()`, `new Date()`);
- the signed-in user;
- environment variables;
- HTTP and database replies;
- the random order of the shuffle;
- the pixels of a loaded image.

Behaviours a reader might expect but the code does not have are listed at the end of "Left out"; the model does not add them. One defect of the code, at the end of a clip, is shown under "Findings" together with a corrected handler.

## Model

| member | source | states |
|---|---|---|
| Text.NatToDecimal | src/components/Layout/Player.tsx:25 | decimal text of a number: non-empty, digits only, one digit exactly below 10, no leading zero |
| Text.IntToDecimal | src/pages/History.tsx:70 | number-to-text conversion: the text is non-empty and starts with '-' exactly for a negative number; the digits after any sign read back as the magnitude |
| Text.DecimalRoundTrip | src/components/Layout/Player.tsx:25 | reading the decimal text of n back gives n |
| Text.FindFirst | src/pages/Home.tsx:38 | the first position where the pattern occurs, or None exactly when it occurs nowhere |
| Text.ReplaceFirst | src/pages/Home.tsx:38 | without an occurrence the text is unchanged; otherwise the text before the first occurrence is kept, the replacement follows, then the text after that occurrence, and the length changes by the difference |
| Text.ReplaceFirstAt | src/pages/Home.tsx:38 | `replace` with a string pattern rewrites only the first occurrence and leaves the rest of the text unchanged |
| Text.ReplaceFirstAbsent | src/pages/Discover.tsx:68 | a URL without the pattern is left unchanged |
| Text.PadStart | src/components/Layout/Player.tsx:25 | `padStart`: the length is the target length or more, the original is the suffix, and the fill characters come first |
| Text.StartsWith | src/pages/Profile.tsx:81 | `startsWith` holds exactly when the prefix fits and agrees character by character |
| Text.OrDefault | src/hooks/useFavorites.ts:83 | `message || fallback`: the message unless it is empty, else the fallback; the result is empty only if both are |
| Text.Join | supabase/functions/spotify-search/index.ts:91 | joining no parts gives "" and one part gives that part |
| Text.JoinLength | supabase/functions/spotify-search/index.ts:91 | `join` keeps every part and puts one separator between neighbours; joining no parts gives "" |
| Text.JoinEnds | supabase/functions/spotify-search/index.ts:91 | the joined text starts with the first part and ends with the last |
| Text.JoinSnoc | supabase/functions/spotify-search/index.ts:91 | joining one more part appends the separator and that part |
| Catalog.MillisToSeconds | src/pages/Home.tsx:40 | `Math.floor(ms / 1000)`: s*1000 <= ms < (s+1)*1000 |
| Catalog.KeepPlayable | src/pages/Home.tsx:31 | kept exactly the results with a non-empty preview URL, no more than there were |
| Catalog.KeepPlayableConcat | src/pages/Home.tsx:31 | filtering distributes over concatenation, so the kept results keep their input order and multiplicity |
| Catalog.KeepPlayableOne | src/pages/Home.tsx:31 | a single result is kept exactly when it has a preview |
| Catalog.FromItunes | src/pages/Home.tsx:33-41 | the track takes the result's id and preview; its cover is the artwork URL with the first "100x100" replaced; its duration is the floor of the milliseconds / 1000 |
| Catalog.MapPlayable | src/pages/Discover.tsx:61-71 | one track per playable result, in order, each the mapping of that result |
| Catalog.IndexOfId | src/contexts/PlayerContext.tsx:163 | `findIndex` by id: the first matching position, or -1 exactly when no entry matches |
| Catalog.ColumnsOf | src/hooks/useFavorites.ts:67-76 | the stored row carries the track's id and preview in `track_id` and `track_preview` |
| Catalog.TrackOf | src/pages/History.tsx:53-61 | the track built from a stored row is stored as exactly that row again |
| Catalog.StoredTrackRoundTrip | src/pages/History.tsx:52-62 | storing a track and playing the stored row gives back the same track |
| DominantColor.SumBrightPixels | src/contexts/PlayerContext.tsx:91-100 | the loop stepping 4 bytes computes the channel sums and count of pixels with r+g+b > 50, alpha ignored |
| DominantColor.BrightSums | src/contexts/PlayerContext.tsx:91-100 | the count of bright pixels lies between 0 and one per 4 bytes |
| DominantColor.BrightSumsBounded | src/contexts/PlayerContext.tsx:91-100 | at most one counted pixel per 4 bytes; each channel sum lies between 0 and 255 times the count |
| DominantColor.NoBrightPixel | src/contexts/PlayerContext.tsx:91-104 | the count is 0 exactly when no pixel has r+g+b > 50, which is when the divisions by count are unguarded |
| DominantColor.ChannelMean | src/contexts/PlayerContext.tsx:102-104 | for count > 0, `Math.floor(sum / count)` lies in 0..255 and is the floor of the mean |
| DominantColor.Round | src/contexts/PlayerContext.tsx:135-137 | `Math.round`: the result lies in (x - 0.5, x + 0.5], so halves round up |
| DominantColor.HueFraction | src/contexts/PlayerContext.tsx:123-131 | for a non-grey colour the hue fraction of the `switch` on the maximum lies in [0, 1] |
| DominantColor.SaturationFraction | src/contexts/PlayerContext.tsx:125 | the saturation fraction, chosen on l > 0.5, lies in [0, 1] |
| DominantColor.RgbToHsl | src/contexts/PlayerContext.tsx:114-139 | rounded hue lies in 0..360, saturation and lightness in 0..100; a grey input has hue and saturation 0 |
| DominantColor.ColorOf | src/contexts/PlayerContext.tsx:91-107 | the published colour is NaN exactly when no pixel was counted; otherwise it is in range, with lightness at least 50 |
| DominantColor.ColorOfValue | src/contexts/PlayerContext.tsx:102-107 | with a counted pixel, hue and saturation are those of the converted channel means, and the lightness is max(l, 50) |
| DominantColor.GreyImage | src/contexts/PlayerContext.tsx:121-137 | an image whose every pixel has equal channels, with a bright pixel, publishes hue 0 and saturation 0 |
| DominantColor.GreySums | src/contexts/PlayerContext.tsx:94-100 | on grey pixels the three channel sums are equal |
| PlayerEngine.FindIndex | src/contexts/PlayerContext.tsx:163 | index of the first entry with the current id; -1 exactly when there is no current track or its id is not queued |
| PlayerEngine.NextTarget | src/contexts/PlayerContext.tsx:161-168 | the next target is a queue entry; there is none exactly when the first match is the last entry (an empty queue included) |
| PlayerEngine.PrevTarget | src/contexts/PlayerContext.tsx:170-177 | the previous target is a queue entry whose id differs from the current track's; there is none exactly when the first match is the head or there is no match |
| PlayerEngine.EmptyQueueHasNoTarget | src/contexts/PlayerContext.tsx:161-177 | on an empty queue neither next nor previous plays anything |
| PlayerEngine.OutsideQueue | src/contexts/PlayerContext.tsx:161-177 | with no current track, or one not queued, next plays the head of the queue and previous does nothing |
| PlayerEngine.NavigatesFromFirstMatch | src/contexts/PlayerContext.tsx:161-177 | next plays queue[i+1] and previous plays queue[i-1], where i is the first entry with the current id; neither plays past either end |
| PlayerEngine.NoWrapAtEnd | src/contexts/PlayerContext.tsx:164 | next on the last entry plays nothing: there is no wrap-around |
| PlayerEngine.NextThenPrevious | src/contexts/PlayerContext.tsx:161-177 | with distinct ids, next from entry i reaches i+1 and previous from there returns to i |
| PlayerEngine.RepeatedIdLoops | src/contexts/PlayerContext.tsx:163-165 | a repeated id sends next back to the entry after its first copy |
| PlayerEngine.Mount | src/contexts/PlayerContext.tsx:42-59 | the mount effect creates the audio element once, at the stored volume; a second run changes nothing |
| PlayerEngine.Play | src/contexts/PlayerContext.tsx:141-148 | with an audio element: the track becomes current, playing is set and the element is loaded with the preview and plays; queue, volume, times and colour are unchanged; without an element nothing changes |
| PlayerEngine.Toggle | src/contexts/PlayerContext.tsx:150-159 | with an element: the playing flag is negated and the element paused or resumed to match; track, queue, time and source are unchanged |
| PlayerEngine.Next | src/contexts/PlayerContext.tsx:161-168 | queue, volume and time cell kept; with no target or no element nothing changes; otherwise the target becomes current and plays from its preview |
| PlayerEngine.Prev | src/contexts/PlayerContext.tsx:170-177 | queue, volume and time cell kept; with no target or no element nothing changes; otherwise the target becomes current and plays from its preview |
| PlayerEngine.SetVolume | src/contexts/PlayerContext.tsx:179-181 | the volume cell takes the value as given, and the volume effect passes it to the element; nothing else changes |
| PlayerEngine.SeekTo | src/contexts/PlayerContext.tsx:183-188 | with an element: the element position and the time cell take the value as given; nothing else changes |
| PlayerEngine.Enqueue | src/contexts/PlayerContext.tsx:190-192 | the queue becomes the old queue plus the track at the end; no other cell changes |
| PlayerEngine.TimeUpdate | src/contexts/PlayerContext.tsx:47-49 | the time cell follows the element's position; nothing else changes |
| PlayerEngine.MetadataLoaded | src/contexts/PlayerContext.tsx:51-53 | the duration cell takes the reported duration, or 0 when it is missing; nothing else changes |
| PlayerEngine.CoverLoaded | src/contexts/PlayerContext.tsx:79-108 | the colour cell takes the colour of the pixels, whose lightness is at least 50; nothing else changes |
| PlayerEngine.PausedAtEnd | src/contexts/PlayerContext.tsx:55 | an element whose clip ended is paused; nothing else changes |
| PlayerEngine.ClipEnded | src/contexts/PlayerContext.tsx:55-57 | the end of a clip keeps the queue, volume and time cell |
| PlayerEngine.ClipEndedIntended | src/contexts/PlayerContext.tsx:55-57 | the intended end of a clip keeps the queue, volume and time cell |
| PlayerEngine.PlayForgetsPriorTrack | src/contexts/PlayerContext.tsx:141-148 | playing a track gives the same state whatever track and play state came before |
| PlayerEngine.ToggleTwice | src/contexts/PlayerContext.tsx:150-159 | toggling twice restores the playing flag, with track, queue and time untouched; from an in-step state it restores the whole state |
| PlayerEngine.EmptyQueueNavigationIsNoOp | src/contexts/PlayerContext.tsx:161-177 | on an empty queue next and previous change nothing |
| PlayerEngine.TransitionsKeepSync | src/contexts/PlayerContext.tsx:42-192 | every command and callback except the end of a clip keeps the element paused exactly when not playing, and at the stored volume |
| PlayerEngine.TransitionsKeepCoherent | src/contexts/PlayerContext.tsx:42-192 | every command and callback, the end of a clip included, keeps the element at the stored volume and paused whenever the player is not playing |
| PlayerEngine.ClipEndNeverAdvances | src/contexts/PlayerContext.tsx:55-57 | as written, the end of a clip never changes track: the listener's `nextTrack` sees the first render's empty queue, so the element is paused and the track and playing flag stay |
| PlayerEngine.ClipEndDesyncs | src/contexts/PlayerContext.tsx:55-57 | queue [a, b] with a playing: at the clip end b is the next target, but a stays current with the flag set over a paused element; the first toggle only clears the flag |
| PlayerEngine.IntendedEndKeepsSync | src/contexts/PlayerContext.tsx:55-57 | the intended handling keeps the element in step with the flag: with a next target it is next itself, otherwise playing stops on the same track |
| PlayerEngine.QueueWalk | src/contexts/PlayerContext.tsx:141-192 | enqueue A and B, play A, seek to 30, then next plays B and previous plays A; the time cell stays 30 because changing track does not reset it |
| PlayerEngine.Player.constructor | src/contexts/PlayerContext.tsx:33-40 | initial cells: no track, not playing, volume 0.7, times 0, empty queue, colour 280 80% 60%, no element |
| PlayerEngine.Player.MountAudio | src/contexts/PlayerContext.tsx:42-59 | performs the mount transition and keeps the element in step |
| PlayerEngine.Player.PlayTrack | src/contexts/PlayerContext.tsx:141-148 | performs the play transition and keeps the element in step |
| PlayerEngine.Player.TogglePlay | src/contexts/PlayerContext.tsx:150-159 | performs the toggle transition and keeps the element in step |
| PlayerEngine.Player.NextTrack | src/contexts/PlayerContext.tsx:161-168 | the index arithmetic on the queue performs the next transition |
| PlayerEngine.Player.PreviousTrack | src/contexts/PlayerContext.tsx:170-177 | the index arithmetic on the queue performs the previous transition |
| PlayerEngine.Player.SetVolumeLevel | src/contexts/PlayerContext.tsx:179-181 | performs the volume transition, including the volume effect |
| PlayerEngine.Player.Seek | src/contexts/PlayerContext.tsx:183-188 | performs the seek transition |
| PlayerEngine.Player.AddToQueue | src/contexts/PlayerContext.tsx:190-192 | performs the enqueue transition |
| PlayerEngine.Player.OnTimeUpdate | src/contexts/PlayerContext.tsx:47-49 | performs the time-update transition |
| PlayerEngine.Player.OnLoadedMetadata | src/contexts/PlayerContext.tsx:51-53 | performs the metadata transition |
| PlayerEngine.Player.OnEnded | src/contexts/PlayerContext.tsx:55-57 | performs the clip-end transition as written and keeps the weaker agreement: the element is paused, while the track and the playing flag are unchanged |
| PlayerEngine.Player.OnCoverLoaded | src/contexts/PlayerContext.tsx:88-107 | the pixel loop, floor means, HSL conversion and lightness floor publish exactly the colour of the pixels |
| PlayerView.ClockFields | src/components/Layout/Player.tsx:22-26 | for t >= 0: minutes >= 0, seconds in 0..59, and minutes*60 + seconds is t without its fraction |
| PlayerView.Minutes | src/components/Layout/Player.tsx:23 | `Math.floor(time / 60)`: 60m <= time < 60(m+1) |
| PlayerView.Seconds | src/components/Layout/Player.tsx:24 | `Math.floor(time % 60)`: 0..59 for a non-negative time, -60..0 for a non-positive one |
| PlayerView.JsRemOfNonNegative | src/components/Layout/Player.tsx:24 | `%` with a positive modulus on a non-negative number lies in [0, m) |
| PlayerView.JsRemOfNonPositive | src/components/Layout/Player.tsx:24 | `%` with a positive modulus on a non-positive number lies in (-m, 0], the sign of the dividend |
| PlayerView.FormatTime | src/components/Layout/Player.tsx:22-26 | the text starts with the decimal minutes, then a colon, then at least two characters of seconds |
| PlayerView.WholeSeconds | src/components/Layout/Player.tsx:23-24 | for whole t >= 0, minutes*60 + seconds == t |
| PlayerView.TwoDigits | src/components/Layout/Player.tsx:25 | the seconds field is two digits that read back as the seconds |
| PlayerView.PaddedSeconds | src/components/Layout/Player.tsx:25 | the seconds text left-padded with '0' to 2 is exactly that two-digit field |
| PlayerView.ClockShape | src/components/Layout/Player.tsx:22-26 | for t >= 0 the text is decimal minutes, ':', then two digits of seconds |
| PlayerView.ClockTextRoundTrip | src/components/Layout/Player.tsx:25 | M:SS text built from minutes and seconds reads back as those two numbers |
| PlayerView.ClockRoundTrip | src/components/Layout/Player.tsx:22-26 | the clock text of t >= 0 reads back as exactly its minutes and seconds |
| PlayerView.Render | src/components/Layout/Player.tsx:28-96 | nothing is shown exactly when there is no track; otherwise the track's title, artist and cover, the pause icon exactly while playing, both clocks, and the muted icon exactly at volume 0 |
| History.HoursSince | src/pages/History.tsx:67 | hours elapsed, rounded down: h*3600000 <= now - played < (h+1)*3600000 |
| History.Classify | src/pages/History.tsx:69-72 | below 1 hour (the future included) "Just now"; 1..23 hours "{h}h ago"; 24..167 hours "{d}d ago" with d = floor(h/24) in 1..6; 168 and more the locale date; each both ways |
| History.LabelText | src/pages/History.tsx:68-72 | "Just now" and the locale date as given; an hour or day count reads back from its text as the same label |
| History.HoursSinceBands | src/pages/History.tsx:67-71 | the rounded-down hour count crosses 1, 24 and 168 exactly where the elapsed time crosses that many hours |
| History.FormatDate | src/pages/History.tsx:64-73 | under an hour since the play (or in the future): "Just now"; from 168 hours: the locale date; in between the text reads back as the whole hours, below a day, or as the whole days |
| History.EarlierPlayReadsOlder | src/pages/History.tsx:64-73 | a play that happened earlier never gets a label that reads newer |
| History.LabelRoundTrip | src/pages/History.tsx:69-71 | below a week the label text reads back as its bucket and count |
| History.HandlePlay | src/pages/History.tsx:52-62 | the track played has exactly the row's `track_*` fields, and its preview is loaded; the queue is unchanged |
| Discover.TimeOfDayAt | src/pages/Discover.tsx:44-45 | morning before 12, afternoon from 12 to before 18, evening from 18 |
| Discover.Accumulated | src/pages/Discover.tsx:54-74 | every gathered track has a non-empty preview |
| Discover.CollectTracks | src/pages/Discover.tsx:54-74 | the loop gathers tracks query by query, and within a query in result order |
| Discover.MapSet | src/pages/Discover.tsx:77 | after `map.set(t.id, t)` the track is present; at most one entry is added; every existing entry keeps its key in place, and the entries with other keys are unchanged |
| Discover.UniqueById | src/pages/Discover.tsx:77 | no more tracks than were gathered, and the last gathered track is among them |
| Discover.MapSetDistinct | src/pages/Discover.tsx:77 | one `Map.set` by id keeps the ids distinct |
| Discover.MapSetIds | src/pages/Discover.tsx:77 | one `Map.set` adds exactly the id it sets |
| Discover.MapSetKeepsLast | src/pages/Discover.tsx:77 | after `Map.set`, every entry is still the last track seen with its id |
| Discover.UniqueByIdSpec | src/pages/Discover.tsx:77 | after de-duplication no two tracks share an id, the ids are exactly the gathered ids, and each kept record is the last one seen with its id |
| Discover.UniqueByIdDrawnFrom | src/pages/Discover.tsx:77 | every de-duplicated track is one of the gathered tracks |
| Discover.Recommendations | src/pages/Discover.tsx:78-79 | the first min(20, n) tracks of the shuffled list, in that order |
| Discover.RecommendationsSpec | src/pages/Discover.tsx:77-79 | at most 20 tracks, each from the de-duplicated list and so a gathered track that was the last one seen with its id |
| Discover.DiscoverPage.constructor | src/pages/Discover.tsx:19-21 | not loading, no tracks, no mood |
| Discover.DiscoverPage.GetRecommendations | src/pages/Discover.tsx:39-89 | the mood is recorded and loading ends; on success the tracks are the recommendations of the gathered results; on failure they are unchanged |
| Home.FeaturedTracks | src/pages/Home.tsx:30-41 | min(12, number of playable results) tracks, each the mapping of the playable result at the same position |
| Home.FeaturedIsPrefix | src/pages/Home.tsx:30-41 | the featured list is a prefix, in order, of all playable results mapped |
| Home.FeaturedFromPlayable | src/pages/Home.tsx:30-41 | every featured track has a non-empty preview and is the mapping of some playable result |
| Home.HomePage.constructor | src/pages/Home.tsx:16-17 | no featured tracks, loading |
| Home.HomePage.FetchFeaturedTracks | src/pages/Home.tsx:24-49 | on success the list is the featured tracks of the response; on error it is unchanged; loading is false after every attempt |
| Favorites.Includes | src/hooks/useFavorites.ts:51 | `includes` holds exactly when the id is in the list |
| Favorites.Without | src/hooks/useFavorites.ts:62 | the filter keeps exactly the other ids, every occurrence of the removed id gone |
| Favorites.WithoutConcat | src/hooks/useFavorites.ts:62 | filtering works part by part, so the kept ids keep their order |
| Favorites.WithoutAbsent | src/hooks/useFavorites.ts:62 | filtering out an absent id changes nothing |
| Favorites.Toggled | src/hooks/useFavorites.ts:54-81 | a successful toggle flips the membership of its id and of no other |
| Favorites.OthersKeepOrder | src/hooks/useFavorites.ts:62-79 | with the toggled id filtered out, the list is the same before and after a toggle |
| Favorites.AddThenRemove | src/hooks/useFavorites.ts:54-81 | adding an absent id and then removing it restores the list exactly |
| Favorites.RemoveThenAdd | src/hooks/useFavorites.ts:54-81 | removing a present id and adding it back moves it, once, to the end |
| Favorites.FavoriteList.constructor | src/hooks/useFavorites.ts:18-19 | no favourites, loading |
| Favorites.FavoriteList.LoadFavorites | src/hooks/useFavorites.ts:27-43 | no user: nothing changes; error: list kept; reply: list replaced by the ids in row order, or [] when there is no data; loading ends |
| Favorites.Decision | src/hooks/useFavorites.ts:51-78 | the write is a delete of the track's id exactly when the id is in the list seen at the press, otherwise an insert of the track's row |
| Favorites.Applied | src/hooks/useFavorites.ts:62-79 | on the list current at the reply, a delete removes every copy of the id and keeps exactly the other ids; an insert appends the id after an unchanged list |
| Favorites.DecidedThenAppliedIsToggled | src/hooks/useFavorites.ts:51-79 | a write applied to the same list it was decided on is the toggle |
| Favorites.OverlappingAddsDuplicate | src/hooks/useFavorites.ts:51-79 | two presses on an absent track before either reply both insert, leaving the id in the list twice |
| Favorites.SequentialTogglesRestore | src/hooks/useFavorites.ts:51-79 | two toggles, each decided after the previous reply, restore the list |
| Favorites.FavoriteList.BeginToggle | src/hooks/useFavorites.ts:45-53 | no user: no write; otherwise the decision taken on the current list, which is not changed |
| Favorites.FavoriteList.CompleteToggle | src/hooks/useFavorites.ts:54-84 | a backend error keeps the list and shows its message or the fallback; success applies the write to the list as it is at the reply and shows the removed or added notice |
| Favorites.FavoriteList.ToggleFavorite | src/hooks/useFavorites.ts:45-85 | with nothing else touching the list between press and reply: no user: no write, sign-in notice, list unchanged; a present id sends a delete and an absent one an insert of the track's row; on a backend error the list is unchanged; otherwise the id is removed everywhere or appended at the end |
| Favorites.FavoriteList.IsFavorite | src/hooks/useFavorites.ts:87 | holds exactly when the id is in the list |
| SpotifySearch.Lookup | supabase/functions/spotify-search/index.ts:18-20 | the cached token is served exactly when there is one and the clock is before its expiry |
| SpotifySearch.Refreshed | supabase/functions/spotify-search/index.ts:44-48 | the new entry holds the new token and expires 300 s before the grant's lifetime ends |
| SpotifySearch.TokenStep | supabase/functions/spotify-search/index.ts:16-51 | cache hit: the token, with no fetch and no change; missing id or secret: the configuration error, with no fetch; the endpoint is called exactly otherwise; errors leave the cache unchanged; only a grant replaces it |
| SpotifySearch.RefreshedTokenServedUntilEarlyExpiry | supabase/functions/spotify-search/index.ts:16-51 | a token just fetched is served from the cache, with no credentials or fetch, exactly until now + (expires_in - 300) * 1000 |
| SpotifySearch.ShortGrantNeverCached | supabase/functions/spotify-search/index.ts:47 | a grant living 300 s or less is never served from the cache after it arrives |
| SpotifySearch.Shape | supabase/functions/spotify-search/index.ts:88-98 | artists joined by ", "; cover is the first image URL or ""; duration is the floor of ms / 1000; the preview stays null when absent |
| SpotifySearch.ArtistsListed | supabase/functions/spotify-search/index.ts:91 | one more artist adds ", " and that name to the artist text |
| SpotifySearch.QueryFor | supabase/functions/spotify-search/index.ts:59-73 | the query is sent as given; the type defaults to "track" |
| SpotifySearch.LimitReadsBack | supabase/functions/spotify-search/index.ts:59-73 | the limit defaults to "20", and a given limit's text reads back as that limit |
| SpotifySearch.Found | supabase/functions/spotify-search/index.ts:88-101 | one shaped track per item, in order; missing `tracks` or `items` gives []; missing total gives 0 |
| SpotifySearch.Handle | supabase/functions/spotify-search/index.ts:53-113 | OPTIONS is 200 with no body; status 400 with "Query parameter is required" exactly for a missing or empty query; otherwise 200 or 500; a search is sent only for a valid query, and 200 only after it succeeded |
| SpotifySearch.RejectedRequestsLeaveCache | supabase/functions/spotify-search/index.ts:53-66 | preflight, unreadable and query-less requests fetch nothing and leave the cache unchanged |
| SpotifySearch.CachedTokenNeedsNoCredentials | supabase/functions/spotify-search/index.ts:18-20 | with a fresh cached token a search succeeds without credentials and keeps the cache |
| SpotifySearch.TokenCache.constructor | supabase/functions/spotify-search/index.ts:14 | the cache starts empty |
| SpotifySearch.TokenCache.GetToken | supabase/functions/spotify-search/index.ts:16-51 | returns and caches exactly what the token step prescribes, and reports whether it fetched |
| SpotifySearch.TokenCache.Serve | supabase/functions/spotify-search/index.ts:53-113 | answers and updates the cache exactly as the handler prescribes |
| Profile.CheckFile | src/pages/Profile.tsx:74-87 | no file: nothing; over 5*1024*1024 bytes: too large (exactly 5 MiB passes), checked before the type; a type not starting with "image/": rejected; otherwise accepted; each both ways |
| Profile.Extension | src/pages/Profile.tsx:49 | the extension is no longer than the name (its exact shape is the next row) |
| Profile.ExtensionIsLastSegment | src/pages/Profile.tsx:49 | the extension is the dot-free suffix after the last '.', or the whole name when there is no '.' |
| Profile.StoragePath | src/pages/Profile.tsx:50 | the path starts with the user's id and "/" |
| Profile.ExtensionAfterDot | src/pages/Profile.tsx:49 | whatever comes before the last dot, the extension is the text after it |
| Profile.StoragePathKeepsExtension | src/pages/Profile.tsx:49-50 | the extension read back from the storage path is the file name's extension |
| Profile.ProfilePage.constructor | src/pages/Profile.tsx:14-16 | no avatar URL, not uploading |
| Profile.ProfilePage.UploadAvatar | src/pages/Profile.tsx:44-72 | no user: nothing happens; otherwise the file goes to userId/timestamp.ext, the URL is replaced only on success, and uploading is false afterwards |
| Profile.ProfilePage.HandleFileChange | src/pages/Profile.tsx:74-87 | a missing, oversize or non-image file uploads nothing and changes nothing, with the matching notice; an accepted file without a user changes nothing; with a user it is uploaded under its storage path, the avatar URL is replaced and "uploaded" shown on success, and on failure the URL is kept and the error (or the default text) shown |

## Left out

- Numbers are exact reals and unbounded integers. IEEE double rounding in the HSL conversion and in the clock arithmetic is not modelled.
- The HTML audio element is reduced to four observable fields: source, paused, position and volume. Buffering and autoplay refusal are left out, and so is the asynchronous `play()` promise.
- The element's time updates and metadata are inputs to the callbacks.
- PlayerEngine.ClipEnded: the listener's captured `nextTrack` is modelled by its effect, a navigation over the initial queue and current track. React's closure mechanics are not modelled.
- PlayerEngine.SetVolume: does not model the element's `volume` setter throwing a range error for a value outside [0, 1]. The volume slider only produces values in that range.
- PlayerEngine.SeekTo: does not model the element clamping a seek to the media's seekable range, nor the error a non-number time raises. The progress slider only produces times between 0 and the duration.
- PlayerEngine.CoverLoaded: image loading, CORS and the canvas are left out. The pixel bytes are an input. The colour is applied to whatever track is current when the image loads. The HSL triple stands for the CSS text `"h s% l%"`.
- PlayerEngine.MetadataLoaded: a NaN duration reported by the element is modelled as a missing value.
- PlayerView.Render: only the cover, title, artist, icons and clocks are modelled. Layout, sliders and the volume pop-up are left out.
- History.FormatDate: the locale date text for plays a week old or more is a parameter. Loading the history rows is a database call and is left out.
- Discover.TimeOfDayAt: the code reads the clock's hour twice. The model takes one hour reading, so a change of hour between the two reads is not modelled.
- Discover.DiscoverPage.GetRecommendations:
  - The recommendation service and the iTunes searches are inputs. Any failure among them is a single `Err`.
  - The random comparator shuffle is any permutation of the de-duplicated list, passed in.
- Toast messages are modelled only in the favourites and profile notices. Console logging is left out.
- Profile: loading and updating the name and avatar URL in the `profiles` table are left out. They are plain database calls.
- SpotifySearch.Handle:
  - The CORS headers and the JSON encoding of the body are left out.
  - A thrown value that is not an `Error` ("Unknown error") is left out.
  - `query` is taken to be a string or absent.
- SpotifySearch.QueryFor: a JSON `null` for `type` or `limit` bypasses the destructuring defaults. A null `type` reaches the Spotify URL as the text "null"; a null `limit` makes `limit.toString()` throw, which the handler answers with a 500. The model takes both fields to be absent or of their expected types.
- Catalog.FromItunes: the iTunes result is taken to carry `artworkUrl100` and `trackTimeMillis`. Without the first, `.replace` throws and the page's error path is taken; without the second the duration is `NaN`. Neither case is modelled.
- Favorites.FavoriteList.ToggleFavorite: states a toggle whose reply arrives before any other toggle of the list. Overlapping toggles are modelled by BeginToggle and CompleteToggle, and OverlappingAddsDuplicate shows the duplicated id they can leave.
- The two clock readings in the token step are separate parameters: one at the cache check, one when the grant arrives.
- Other files of the app are not part of this model:
  - routing and presentational pages and components;
  - the visualiser and animated background, which are canvas and Web Audio drawing;
  - the LLM-backed functions;
  - playlists, premium and community, which are network wrappers.
- Behaviours the code does not have, which the model therefore does not add:
  - There is no shuffle or repeat mode.
  - Seek and volume are not clamped.
  - "Next" does not wrap around at the end of the queue.
  - Playing a new track does not reset the time cell. The element starts the new source at 0, and the cell follows at the next time update.
  - There is no guard against a stale colour.
  - A cover with no bright pixel divides by zero. The published colour is then not a number.

## Findings

| source | as written | input that shows it | evidently intended | confidence | as-written member | corrected member |
|---|---|---|---|---|---|---|
| src/contexts/PlayerContext.tsx:55-57 | the element pauses itself when a clip ends, and the `ended` listener calls the `nextTrack` captured at mount, which sees an empty queue; the track does not change and `isPlaying` stays true | queue [a, b], a playing, a's clip ends: b is not played, and the bar shows "playing" over a paused element | advance to the next entry of the current queue, and at the end of the queue clear `isPlaying` | not executed | PlayerEngine.ClipEndDesyncs | PlayerEngine.IntendedEndKeepsSync |
