# Spotify data dashboard — verified model of its logic

This project models the logic of a browser dashboard for the Spotify Web API in
Dafny. It covers the parts of the dashboard that compute something, together
with the small state machines behind its pages. Network calls, browser storage
reads, timers and the playback SDK are not executed: their results enter the
model as parameters and events.

The model has two groups of code.

- Data transformations, written as functions with lemmas:
  - `formatDuration` (milliseconds to `m:ss`) and the suffix choice of `formatNumber`;
  - the top-ten-by-followers sort and slice, with its error mapping;
  - the trending route's reshaping: image choice by width window, artist projection,
    dropping items without a `track` field (a `null` track is kept), and de-duplication of artists by id (first one wins);
  - the artist page's album sort by release date and the Albums / Singles & EPs split.
- State machines, written as classes whose methods update fields:
  - the implicit-grant login session (OAuth 2.0, section 4.2 of RFC 6749): restoring the token on load, `login`, `logout`;
  - the playback session: the SDK's `ready`, `not_ready` and `player_state_changed` events, `playTrack` and `togglePlay`;
  - the fifteen-minute trending-data cache, with write-back and a stale-cache fallback;
  - the long-press / click discriminator.

The event-driven classes (player, long press) also have a pure state type with
`Step` and `Run` functions. The event handlers (`OnSdkReady`, `OnReady`,
`OnNotReady` and `OnStateChanged` of the player; `StartPress`, `TimerFired`,
`Clear` and `MouseLeave` of the long-press wrapper) are proved to move their
object exactly as `Step` does, and the lemmas about event sequences are stated
over `Run`. The constructors, `PlayTrack` and `TogglePlay` are specified
directly on the fields.

Files:

- `common.dfy`: `Option`, `Result`, JavaScript truthiness, `||` fallback, `filter`.
- `text.dfy`: `indexOf`, `split`, `join`.
- `decimal.dfy`: integer `toString` and `parseInt`.
- `spotify_types.dfy`: the API records.
- `stable_sort.dfy`: `Array.prototype.sort` with a key comparator, which is stable.
- one file per source file: `utils.dfy`, `top_artists.dfy`, `trending_route.dfy`, `artist_details.dfy`, `auth.dfy`, `player.dfy`, `trending_cache.dfy`, `long_press.dfy`.

Where the code is narrower than its documented behaviour, the model follows the code:

- On load, the stored token is consulted only when the URL has no fragment at all. A fragment without `access_token` leaves the token unset.
- When a token arrives in the fragment, `replaceState` drops the query as well. The `error` query parameter is then not recorded on that load.
- An `error` parameter is recorded only when it is non-empty. `isAuthenticated` is `!!accessToken`, so an empty token does not count as signed in.
- `player_state_changed` also sets `isActive`.
- A failed play response whose body is not JSON ends with the fixed Premium/region message, not with the status text.
- The trending cache is fresh only while `now - timestamp < 900000`. It is stale at exactly fifteen minutes.

## Model

| member | source | states |
|---|---|---|
| Common.MessageOr | src/lib/spotify.ts:45 | `a \|\| b` on an optional string: the value when it is non-empty, the fallback otherwise |
| Common.Filter | src/app/components/details/ArtistDetails.tsx:93-94 | `filter` keeps only elements that satisfy the predicate, drawn from the input, and keeps every element that satisfies it |
| Common.FilterPartition | src/app/components/details/ArtistDetails.tsx:93-94 | two complementary filters split the input's multiset exactly between them |
| Common.FilterKeepsOrder | src/app/components/details/ArtistDetails.tsx:93-94 | any pairwise order of the input holds along a filter's result |
| Text.IndexOf | src/app/context/SpotifyAuthContext.tsx:39-40 | the index found holds the character and no earlier index does; `None` means the character is absent |
| Text.Split | src/app/context/SpotifyAuthContext.tsx:39 | `split` yields at least one piece, and no piece contains the separator |
| Text.SplitJoin | src/app/context/SpotifyAuthContext.tsx:18-29 | splitting a `join` by the same separator gives the pieces back when no piece contains it |
| Decimal.NatToString | src/lib/utils.ts:4 | `String(n)` is a non-empty run of digits with no leading zero, one character exactly when n < 10 |
| Decimal.NatToStringValue | src/lib/utils.ts:4 | the digits of `String(n)` denote n |
| Decimal.ParseInt | src/app/hooks/useTrendingData.ts:31 | `parseInt` is NaN exactly when no digit follows the optional sign |
| Decimal.IntToStringParses | src/app/hooks/useTrendingData.ts:31 | `parseInt(String(i))` gives back i for every integer, negative ones included |
| Utils.JsRem | src/lib/utils.ts:3 | JavaScript `%`: the remainder takes the dividend's sign and agrees with the mathematical one on non-negative dividends |
| Utils.Minutes | src/lib/utils.ts:2 | the minutes of a non-negative duration are non-negative |
| Utils.Seconds | src/lib/utils.ts:3 | the seconds of a non-negative duration lie in 0..59 |
| Utils.PadStart | src/lib/utils.ts:4 | `padStart` yields the original text preceded by fill characters, up to the width |
| Utils.SecondsInRange | src/lib/utils.ts:2-3 | for ms ≥ 0 the seconds field is (ms mod 60000) div 1000 and lies in 0..59 |
| Utils.TwoDigitSeconds | src/lib/utils.ts:4 | the zero-padded seconds text is exactly two digits and denotes the seconds |
| Utils.SecondsText | src/lib/utils.ts:4 | `seconds.toString().padStart(2, '0')`; specified by TwoDigitSeconds: for seconds in 0..59, exactly two digits that denote them |
| Utils.FormatDuration | src/lib/utils.ts:1-5 | `formatDuration`; specified by FormatDurationShape, FormatDurationRoundTrip and FormatDurationTruncates (for ms ≥ 0) |
| Utils.FormatDurationTruncates | src/lib/utils.ts:2-3 | minutes·60000 + seconds·1000 ≤ ms < that + 1000: truncation, never rounding up |
| Utils.FormatDurationShape | src/lib/utils.ts:1-5 | the text is `String(ms div 60000)`, one colon, and two digits denoting (ms mod 60000) div 1000, with no other colon |
| Utils.FormatDurationRoundTrip | src/lib/utils.ts:1-5 | reading `m:ss` back gives ms div 1000 seconds |
| Utils.FormatNumber | src/lib/utils.ts:7-15 | suffix M iff num ≥ 1 000 000, K iff 1000 ≤ num < 1 000 000, none otherwise; the scaled quotient times the scale is num |
| StableSort.SortBy | src/lib/spotify.ts:51 | `Array.prototype.sort` with a numeric key comparator; specified by SortByCorrect: a stable permutation in key order |
| StableSort.SortByCorrect | src/lib/spotify.ts:51 | the comparator sort returns a permutation in non-decreasing key order, and elements with equal keys keep their input order |
| TopArtists.Top10 | src/lib/spotify.ts:51 | `sort(by followers, descending).slice(0, 10)`; specified by Top10Sorted, Top10Multiset and Top10LeftOut |
| TopArtists.TailBelowHead | src/lib/spotify.ts:51 | in a list sorted by descending followers, everything after the first ten has no more followers than anything in the first ten |
| TopArtists.Top10Sorted | src/lib/spotify.ts:51 | the result has min(n, 10) artists in non-increasing order of followers |
| TopArtists.Top10Multiset | src/lib/spotify.ts:50-51 | no artist is returned more often than it was given; with ten or fewer inputs all are returned |
| TopArtists.Top10LeftOut | src/lib/spotify.ts:51 | every artist left out has no more followers than every artist returned |
| TopArtists.GetTop10ArtistsByFollowers | src/lib/spotify.ts:31-52 | a non-ok response fails with `Error fetching artists: ` and the upstream message or the status text; an ok JSON response gives `Top10` of its artists: min(n, 10) of them, no artist more often than given, in non-increasing order of followers, none left out having more followers than one returned |
| TrendingRoute.InWindow | src/app/api/spotify/trending/route.ts:39 | `img.width >= 160 && img.width <= 320`, false for a missing width; the test that FindInWindow and OptimizeImages choose by |
| TrendingRoute.FindInWindow | src/app/api/spotify/trending/route.ts:39 | `find` gives the first image whose width is in [160, 320], or none when no image is |
| TrendingRoute.OptimizeImages | src/app/api/spotify/trending/route.ts:34-40 | null exactly for an empty list; otherwise the first image inside the width window, or the last image when none is |
| TrendingRoute.OptimizeArtistData | src/app/api/spotify/trending/route.ts:43-61 | undefined exactly when `id` or `name` is missing or empty; otherwise both are copied unchanged |
| TrendingRoute.OptimizeArtistDataShape | src/app/api/spotify/trending/route.ts:46-56 | at most one image, the one `optimizeImages` picks, present iff the input had one; the first two genres in order; a given follower count, popularity, non-empty type or non-empty uri is copied, a missing one defaults to 0, 0, `'artist'` or `''` |
| TrendingRoute.TopTracks | src/app/api/spotify/trending/route.ts:126 | `items.map(item => item.track).filter(track => track !== undefined)`; specified by TopTracksCharacterized, TopTracksMembers and NullTrackKept |
| TrendingRoute.TopTracksCharacterized | src/app/api/spotify/trending/route.ts:126 | `topTracks` distributes over concatenation; an item contributes its track, a `null` entry for a `null` track, or nothing when `track` is absent; a track (a `null`) is listed iff some item carries it (a `null` track) |
| TrendingRoute.TopTracksMembers | src/app/api/spotify/trending/route.ts:126 | a track is in `topTracks` exactly when some item carries it, a `null` entry exactly when some item's track is `null`, and the list is empty exactly when no item has a `track` field |
| TrendingRoute.NullTrackKept | src/app/api/spotify/trending/route.ts:126-142 | a playlist whose only entry has a `null` track gives one `null` entry in `topTracks` and no artists, so the route does not fail with `No valid trending data` |
| TrendingRoute.Candidates | src/app/api/spotify/trending/route.ts:130-131 | every artist object `item.track?.artists` visits, in item order, none for an absent or `null` track; CollectArtists's loop invariant ties it to the loops |
| TrendingRoute.ValidArtists | src/app/api/spotify/trending/route.ts:132-133 | the candidates `optimizeArtistData` accepts, projected, in order; its elements are what OptimizeArtistData and OptimizeArtistDataShape describe |
| TrendingRoute.DedupById | src/app/api/spotify/trending/route.ts:133-135 | keep an artist only if no earlier one has its id; specified by DedupByIdDistinct, DedupByIdFirst and DedupByIdOrder |
| TrendingRoute.TopArtists | src/app/api/spotify/trending/route.ts:129-138 | `Object.values(artistMap)`; CollectArtists proves the nested loops compute it, and the DedupById lemmas characterise it |
| TrendingRoute.DedupByIdDistinct | src/app/api/spotify/trending/route.ts:129-138 | `topArtists` has pairwise distinct ids and exactly the ids of the valid artists |
| TrendingRoute.DedupByIdFirst | src/app/api/spotify/trending/route.ts:133-135 | each artist kept is the first valid artist with its id |
| TrendingRoute.DedupByIdOrder | src/app/api/spotify/trending/route.ts:129-138 | the kept artists are in the order of their ids' first appearance |
| TrendingRoute.AddTrackArtists | src/app/api/spotify/trending/route.ts:131-136 | the inner loop keeps the map holding each kept artist under its id and the value list equal to the de-duplication of the valid artists so far |
| TrendingRoute.CollectArtists | src/app/api/spotify/trending/route.ts:129-138 | the nested loops and `Object.values` yield exactly the de-duplicated valid artists of all tracks |
| TrendingRoute.CredentialsSet | src/app/api/spotify/trending/route.ts:89-91 | both credentials set and non-empty; when it does not hold, Get fails with `Missing Spotify credentials` whatever the upstream calls would return |
| TrendingRoute.Get | src/app/api/spotify/trending/route.ts:87-156 | each failing step gives its own error message in order; success needs a playlist and an `items` array, and returns `topTracks` (`null` tracks included) and de-duplicated `topArtists`, not both empty; both empty fails with `No valid trending data received from Spotify` |
| ArtistDetails.FlipSortOrder | src/app/components/details/ArtistDetails.tsx:151 | the toggle always changes the sort order |
| ArtistDetails.FlipViewType | src/app/components/details/ArtistDetails.tsx:158 | the toggle always changes the view type |
| ArtistDetails.FlipTwice | src/app/components/details/ArtistDetails.tsx:151-158 | toggling twice restores the original value |
| ArtistDetails.SortAlbums | src/app/components/details/ArtistDetails.tsx:87-91 | `[...albums].sort(byReleaseDate)` in the chosen direction; specified by SortAlbumsCorrect |
| ArtistDetails.FullAlbums | src/app/components/details/ArtistDetails.tsx:93 | the `album`-type filter of the sorted list; specified by BucketsCorrect and BucketsSorted |
| ArtistDetails.SinglesAndEPs | src/app/components/details/ArtistDetails.tsx:94 | the `single`/`compilation` filter of the sorted list; specified by BucketsCorrect and BucketsSorted |
| ArtistDetails.SortAlbumsCorrect | src/app/components/details/ArtistDetails.tsx:87-91 | the sorted copy is a permutation; release times never increase under `desc` and never decrease under `asc`; equal dates keep their order |
| ArtistDetails.BucketsCorrect | src/app/components/details/ArtistDetails.tsx:93-94 | each album is in exactly one bucket; `fullAlbums` holds exactly the `album` type and `singlesAndEPs` the others; together they are a permutation |
| ArtistDetails.BucketsSorted | src/app/components/details/ArtistDetails.tsx:87-94 | each bucket is sorted the same way as the sorted list |
| ArtistDetails.HandleTrackClick | src/app/components/details/ArtistDetails.tsx:72-84 | login prompt iff not authenticated; toggle iff authenticated and the clicked id is the current one; otherwise play `spotify:track:<id>` |
| ArtistDetails.ArtistView.constructor | src/app/components/details/ArtistDetails.tsx:21-30 | no tracks and no albums, both loading, `desc`, `grid` |
| ArtistDetails.ArtistView.ToggleSortOrder | src/app/components/details/ArtistDetails.tsx:151 | flips the sort order and nothing else |
| ArtistDetails.ArtistView.ToggleViewType | src/app/components/details/ArtistDetails.tsx:158 | flips the view type and nothing else |
| ArtistDetails.ArtistView.TopTracksFetched | src/app/components/details/ArtistDetails.tsx:37-52 | a body sets the tracks (none when `tracks` is missing); a thrown request keeps them; loading ends either way |
| ArtistDetails.ArtistView.AlbumsFetched | src/app/components/details/ArtistDetails.tsx:55-70 | a body sets the albums (none when `items` is missing); a thrown request keeps them; loading ends either way |
| ArtistDetails.ArtistView.Render | src/app/components/details/ArtistDetails.tsx:86-94 | rendering leaves `albums` unchanged; the sorted copy is a permutation in the chosen order; the buckets partition it |
| Auth.ParseQuery | src/app/context/SpotifyAuthContext.tsx:39 | `new URLSearchParams(query)` as a list of pairs; ParseSerialize makes it the inverse of Serialize |
| Auth.GetParam | src/app/context/SpotifyAuthContext.tsx:40 | `params.get(key)`; specified by GetParamCorrect |
| Auth.GetParamCorrect | src/app/context/SpotifyAuthContext.tsx:39-40 | `get` finds nothing iff no pair has the key, and otherwise the first pair with it |
| Auth.Serialize | src/app/context/SpotifyAuthContext.tsx:95 | `params.toString()`, pairs joined by `&`; ParseSerialize shows ParseQuery reads it back |
| Auth.ParseSerialize | src/app/context/SpotifyAuthContext.tsx:89-95 | parsing a serialized list of pairs gives it back in order, duplicates included, for keys without `&` or `=` and values without `&` |
| Auth.RequiredScopesSplit | src/app/context/SpotifyAuthContext.tsx:18-29 | the scope string lists exactly the ten scopes, in order |
| Auth.ScopesPlain | src/app/context/SpotifyAuthContext.tsx:18-29 | the scope string holds no `&` |
| Auth.AuthParams | src/app/context/SpotifyAuthContext.tsx:79-94 | the `login` parameters with `undefined` entries dropped; specified by AuthParamsKeys and AuthParamsReadBack |
| Auth.AuthorizeUrl | src/app/context/SpotifyAuthContext.tsx:95-96 | the authorize URL `login` redirects to; specified by AuthorizeUrlReadsBack |
| Auth.AuthParamsKeys | src/app/context/SpotifyAuthContext.tsx:80-94 | the parameters are client_id, response_type, redirect_uri when configured, state, scope, show_dialog, in that order |
| Auth.AuthParamsReadBack | src/app/context/SpotifyAuthContext.tsx:80-94 | `get` reads back the client id, `response_type=token`, the redirect URI (nothing when undefined) and the state |
| Auth.AuthorizeQuery | src/app/context/SpotifyAuthContext.tsx:89-95 | the serialized query parses back to the authorize parameters |
| Auth.AuthorizeUrlReadsBack | src/app/context/SpotifyAuthContext.tsx:79-96 | the URL is the authorize endpoint, `?`, and a query that reads back as the parameters with the ten scopes |
| Auth.Authenticated | src/app/context/SpotifyAuthContext.tsx:108 | `!!accessToken`: a token that is present and non-empty; the constructor, Load and Logout state it for each path |
| Auth.QueryText | src/app/context/SpotifyAuthContext.tsx:58 | the text `URLSearchParams` parses: a string that starts with `?` is read without it, any other string as it is |
| Auth.SegmentPair | src/app/context/SpotifyAuthContext.tsx:39-40 | a segment `key=value` whose key holds no `=` reads as exactly that pair |
| Auth.FragmentToken | src/app/context/SpotifyAuthContext.tsx:37-40 | `access_token` of the fragment after the `#` (a leading `?` dropped), nothing when there is no fragment; Load's ensures give each of its cases |
| Auth.QuestionMarkFragment | src/app/context/SpotifyAuthContext.tsx:39 | a `?` right after the `#` changes nothing: `#?q` yields the same token as `#q` |
| Auth.TokenFragment | src/app/context/SpotifyAuthContext.tsx:37-40 | the fragment `#access_token=t` yields the token `t`, for any token without `&` |
| Auth.QuestionMarkTokenFragment | src/app/context/SpotifyAuthContext.tsx:37-40 | the fragment `#?access_token=t` also yields the token `t`, for any token without `&` |
| Auth.Stored | src/app/context/SpotifyAuthContext.tsx:51 | `getItem` finds a value exactly when the key is stored |
| Auth.AuthProvider.constructor | src/app/context/SpotifyAuthContext.tsx:32-33 | no token, no error, not authenticated |
| Auth.AuthProvider.Load | src/app/context/SpotifyAuthContext.tsx:35-64 | a fragment token is set, stored and the URL cleared; a fragment without one changes nothing; no fragment restores a stored token; a non-empty `error` query parameter is recorded |
| Auth.AuthProvider.Login | src/app/context/SpotifyAuthContext.tsx:66-97 | without a client id: the error, no storage write, no redirect; with one: the state stored under `spotify_auth_state` and a redirect to the authorize URL |
| Auth.AuthProvider.Logout | src/app/context/SpotifyAuthContext.tsx:99-104 | the token is cleared, not authenticated, both storage keys removed, nothing else touched |
| Player.Step | src/app/context/SpotifyPlayerContext.tsx:96-126 | no SDK event changes the error |
| Player.StepEffects | src/app/context/SpotifyPlayerContext.tsx:105-126 | `ready` sets device and readiness; `not_ready` clears both; a null state changes nothing; a state sets track, pause flag and activity |
| Player.RunInvariants | src/app/context/SpotifyPlayerContext.tsx:105-126 | over any event sequence readiness matches the device id, the error is kept, and activity holds iff some non-null state arrived |
| Player.InitialState | src/app/context/SpotifyPlayerContext.tsx:81-87 | initially no device, not ready, not paused, not active |
| Player.PlayError | src/app/context/SpotifyPlayerContext.tsx:138-163 | no device: `No device ID available`; thrown or unparsable: the Premium/region message; non-ok: `Failed to play track: ` with the message or status text; ok: error unchanged |
| Player.PlayerProvider.constructor | src/app/context/SpotifyPlayerContext.tsx:81-87 | the initial state |
| Player.PlayerProvider.OnSdkReady | src/app/context/SpotifyPlayerContext.tsx:96-103 | moves the state as `Step` does: a player exists |
| Player.PlayerProvider.OnReady | src/app/context/SpotifyPlayerContext.tsx:105-113 | moves the state as `Step` does: device id set, ready |
| Player.PlayerProvider.OnNotReady | src/app/context/SpotifyPlayerContext.tsx:115-119 | moves the state as `Step` does: device cleared, not ready |
| Player.PlayerProvider.OnStateChanged | src/app/context/SpotifyPlayerContext.tsx:121-126 | moves the state as `Step` does |
| Player.PlayerProvider.PlayTrack | src/app/context/SpotifyPlayerContext.tsx:138-163 | a request for exactly this track on this device iff a device id is known; only `error` changes, as `PlayError` says |
| Player.PlayerProvider.TogglePlay | src/app/context/SpotifyPlayerContext.tsx:165-168 | delegates iff a player exists and changes no field |
| TrendingCache.FailureMessage | src/app/hooks/useTrendingData.ts:44-54 | the message of a thrown error, `Failed to fetch trending data` for a non-ok status, or the body's non-empty `error` |
| TrendingCache.Fallback | src/app/hooks/useTrendingData.ts:72-82 | parsable cached data is used whatever its age; otherwise the data stays |
| TrendingCache.Fresh | src/app/hooks/useTrendingData.ts:30-32 | both keys present and `Date.now() - parseInt(timestamp) < 900000`; WrittenCacheFresh and Start state its meaning |
| TrendingCache.Succeeded | src/app/hooks/useTrendingData.ts:43-56 | an ok status and a body without a truthy `error`; while its run is mounted, Complete takes the data from the response and writes the cache in this case, and records the failure message and falls back to the cache otherwise |
| TrendingCache.WrittenCacheFresh | src/app/hooks/useTrendingData.ts:30-32 | a cache written at time t is fresh at `now` iff now − t < 900000 |
| TrendingCache.TrendingHook.constructor | src/app/hooks/useTrendingData.ts:16-18 | no data, loading, no error, no effect run started yet |
| TrendingCache.TrendingHook.Start | src/app/hooks/useTrendingData.ts:20-41 | the run gets a new number and its own `mounted` flag set; a fetch starts iff the cache is not fresh; a fresh cache is served (or its parse error recorded) and loading ends; the cache is only read |
| TrendingCache.TrendingHook.Unmount | src/app/hooks/useTrendingData.ts:91 | clears the `mounted` flag of its own run only, and nothing else |
| TrendingCache.TrendingHook.Complete | src/app/hooks/useTrendingData.ts:43-87 | once its own run is unmounted, nothing changes, even after the effect has run again; success: data set and cache written with `now` as far as the writes succeed; failure: error recorded and stale-cache fallback; loading ends |
| LongPress.Step | src/app/components/LongPressable.tsx:21-59 | one handler of the component; specified by StepProperties, HoldPhase, PressFiresOnce and DoubleStartFiresBoth |
| LongPress.Disarm | src/app/components/LongPressable.tsx:36-39 | clears the timer reference and cancels that timer only |
| LongPress.StepProperties | src/app/components/LongPressable.tsx:21-59 | every handler keeps the state valid; `start` clears the flag and arms a fresh timer; firing runs the long press once, sets the flag and disarms; release clicks iff the flag is clear; leave runs nothing |
| LongPress.HoldPhase | src/app/components/LongPressable.tsx:25-29 | while held, only the press's own timer matters: before it fires nothing happens, after it exactly one long press |
| LongPress.PressFiresOnce | src/app/components/LongPressable.tsx:21-46 | a press begun with no pending timer runs exactly one callback: the long press iff its timer fired, the click otherwise; no timer is left |
| LongPress.DoubleStartFiresBoth | src/app/components/LongPressable.tsx:21-32 | two starts without a release leave the first timer armed, so one press can run both the click and the long press |
| LongPress.LongPressable.constructor | src/app/components/LongPressable.tsx:15-19 | no timer, flag clear, delay 600 unless given |
| LongPress.LongPressable.StartPress | src/app/components/LongPressable.tsx:21-32 | moves the state as `Step` does for `start` |
| LongPress.LongPressable.TimerFired | src/app/components/LongPressable.tsx:25-29 | moves the state and runs the callbacks as `Step` does for a firing |
| LongPress.LongPressable.Clear | src/app/components/LongPressable.tsx:34-46 | moves the state as `Step` does for release, and clicks iff the flag was clear |
| LongPress.LongPressable.MouseLeave | src/app/components/LongPressable.tsx:54-59 | moves the state as `Step` does for leave: disarmed, flag kept |

## Left out

- Network calls and the client-credentials token exchange. Statuses, bodies and thrown messages are parameters. Response building (`NextResponse`, headers, status 500) is not modelled.
- The search proxy routes and the top-artists route: they only forward requests.
- `formatDate`, and the digits of `toFixed(1)` and `toLocaleString()` in `formatNumber`: locale and floating-point output.
- Date parsing in the album sort: `release_date` is an integer time. The NaN ordering of unparsable dates is not modelled.
- Percent-encoding and decoding in `URLSearchParams`: queries are split at `&` and `=` only.
- ParseSerialize: stated only for keys without `&` or `=` and values without `&`, because `URLSearchParams` percent-encodes those characters and percent-encoding is not modelled.
- AuthorizeQuery: stated only for values without `&`, because percent-encoding is not modelled. Client ids and the base-36 state never contain one; a redirect URI may.
- AuthorizeUrlReadsBack: carries the same restriction on its values.
- `Math.random().toString(36).substring(7)`: the nonce is a parameter of `login`.
- Browser and SDK glue: script loading, the global SDK callback, `player.connect()`, `history.replaceState`, `location.reload` and `location.href`. Clearing the URL is modelled as the fragment and query becoming empty; the redirect is the returned URL.
- Player teardown: the cleanup reads a `player` captured when the effect ran, so no disconnect is claimed.
- Verification of the stored anti-forgery state on return: the code never does it.
- Real time in the long-press wrapper: a timer firing is an event, and `delay` is kept but not used.
- PressFiresOnce: stated for presses that begin with no pending timer. With a stale timer, one press can run both callbacks; DoubleStartFiresBoth shows this.
- FormatDurationShape: stated for ms ≥ 0. FormatDurationRoundTrip and FormatDurationTruncates are limited the same way. For negative durations `formatDuration` prints a negative seconds field that no `m:ss` reader accepts.
- `parseInt` skips leading whitespace; the model does not, because stored timestamps never begin with a space.
- Object key order in `Object.values(artistMap)`: the model uses insertion order. JavaScript lists integer-like keys first, and Spotify ids are not integer-like.
- Inherited object properties: `artistMap[id]` is treated as an own-key lookup, so an id such as `constructor` is not special.
- A `playlists` object without `items`: `items[0]` would throw a TypeError whose message is not modelled. Only a missing `playlists` is modelled, as `No featured playlists found`.
- `typeof window` checks: the model always runs in the browser.
- The `'An error occurred'` branch of the trending hook: only `Error` values are thrown there.
- JSON shapes: bodies are abstracted to the fields the code reads.
