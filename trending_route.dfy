/** `src/app/api/spotify/trending/route.ts`: the trending route reshapes the
    tracks of a featured playlist into `{ topArtists, topTracks }`. Artist
    objects are shrunk (one image, two genres, defaults for missing fields),
    items without a `track` field are dropped (a `null` one is kept), and artists are de-duplicated by id,
    the first valid occurrence winning. Upstream calls are inputs. */
module TrendingRoute {
  import opened Common
  import opened SpotifyTypes

  // ---------------------------------------------------------------------
  // optimizeImages

  /** The width window `img.width >= 160 && img.width <= 320`; a null width
      compares false. */
  predicate InWindow(img: Image)
  {
    img.width.Some? && 160 <= img.width.value <= 320
  }

  /** `images.findIndex(InWindow)`, `None` for -1. */
  function FindInWindow(images: seq<Image>): (k: Option<nat>)
    ensures k.Some? ==> k.value < |images| && InWindow(images[k.value])
    ensures k.Some? ==> forall j :: 0 <= j < k.value ==> !InWindow(images[j])
    ensures k.None? ==> forall j :: 0 <= j < |images| ==> !InWindow(images[j])
  {
    if images == [] then None
    else if InWindow(images[0]) then Some(0)
    else match FindInWindow(images[1..])
      case None => None
      case Some(k) => Some(k + 1)
  }

  /** `optimizeImages`: no image for an empty list; otherwise the first image
      inside the width window, or the last image when none is. */
  function OptimizeImages(images: seq<Image>): (r: Option<Image>)
    ensures r.None? <==> images == []
    ensures forall k :: (0 <= k < |images| && InWindow(images[k]) && (forall j :: 0 <= j < k ==> !InWindow(images[j])))
                        ==> r == Some(images[k])
    ensures images != [] && (forall j :: 0 <= j < |images| ==> !InWindow(images[j])) ==> r == Some(images[|images| - 1])
  {
    if images == [] then None
    else match FindInWindow(images)
      case Some(k) => Some(images[k])
      case None => Some(images[|images| - 1])
  }

  // ---------------------------------------------------------------------
  // optimizeArtistData

  const MaxGenres: nat := 2

  /** `optimizeArtistData`: nothing when `id` or `name` is missing or empty;
      otherwise the artist with `id` and `name` copied, at most one image
      (the one `optimizeImages` picks), the first two genres, and defaults for
      the rest. */
  function OptimizeArtistData(a: PartialArtist): (r: Option<Artist>)
    ensures r.None? <==> !Truthy(a.id) || !Truthy(a.name)
    ensures r.Some? ==> r.value.id == a.id.value && r.value.name == a.name.value
  {
    if !Truthy(a.id) || !Truthy(a.name) then None
    else
      var images := match a.images case Some(imgs) => imgs case None => [];
      var genres := match a.genres case Some(gs) => gs case None => [];
      var image := OptimizeImages(images);
      Some(Artist(
        id := a.id.value,
        name := a.name.value,
        kind := MessageOr(a.kind, "artist"),
        images := if image.Some? then [image.value] else [],
        genres := if |genres| <= MaxGenres then genres else genres[..MaxGenres],
        followers := match a.followersTotal case Some(n) => n case None => 0,
        popularity := match a.popularity case Some(n) => n case None => 0,
        uri := MessageOr(a.uri, "")))
  }

  /** A projected artist keeps at most one image, the one `optimizeImages`
      picks from the input, and has one exactly when the input had any; it
      keeps the first two genres in their order; a given follower count,
      popularity, non-empty type or non-empty uri is copied, and a missing
      one becomes 0, 0, `'artist'` or `''`. */
  lemma OptimizeArtistDataShape(a: PartialArtist)
    requires Truthy(a.id) && Truthy(a.name)
    ensures var r := OptimizeArtistData(a).value;
      && |r.images| <= 1
      && (r.images == [] <==> a.images.None? || a.images.value == [])
      && (r.images != [] ==> r.images[0] in a.images.value)
      && (a.genres.None? ==> r.genres == [])
      && (a.genres.Some? ==> (|r.genres| == (if |a.genres.value| < 2 then |a.genres.value| else 2)
                              && r.genres == a.genres.value[..|r.genres|]))
      && (a.followersTotal.None? ==> r.followers == 0)
      && (a.followersTotal.Some? ==> r.followers == a.followersTotal.value)
      && (a.images.Some? && a.images.value != [] ==> r.images == [OptimizeImages(a.images.value).value])
      && (a.kind.None? || a.kind == Some("") ==> r.kind == "artist")
      && (Truthy(a.kind) ==> r.kind == a.kind.value)
      && (a.popularity.None? ==> r.popularity == 0)
      && (a.popularity.Some? ==> r.popularity == a.popularity.value)
      && (a.uri.None? || a.uri == Some("") ==> r.uri == "")
      && (Truthy(a.uri) ==> r.uri == a.uri.value)
  {
    var images := match a.images case Some(imgs) => imgs case None => [];
    var image := OptimizeImages(images);
    if image.Some? {
      var k :| 0 <= k < |images| && images[k] == image.value by {
        match FindInWindow(images)
        case Some(k) => assert images[k] == image.value;
        case None => assert images[|images| - 1] == image.value;
      }
    }
  }

  // ---------------------------------------------------------------------
  // The tracks of the playlist

  /** The `track` field of one playlist entry: absent, JSON `null` (what
      Spotify sends for a removed or unavailable track), or a track. */
  datatype TrackField = Missing | Null | Present(track: Track)

  /** One entry of the playlist's `items`. */
  datatype Item = Item(track: TrackField)

  /** What one entry contributes to `topTracks`: the filter `track !==
      undefined` drops only an absent track, so a `null` one (`None`) stays. */
  function TrackEntry(f: TrackField): seq<Option<Track>>
  {
    match f
    case Missing => []
    case Null => [None]
    case Present(t) => [Some(t)]
  }

  /** `items.map(item => item.track).filter(track => track !== undefined)`. */
  function TopTracks(items: seq<Item>): seq<Option<Track>>
  {
    if items == [] then []
    else TopTracks(items[..|items| - 1]) + TrackEntry(items[|items| - 1].track)
  }

  lemma {:induction false} TopTracksAppend(a: seq<Item>, b: seq<Item>)
    ensures TopTracks(a + b) == TopTracks(a) + TopTracks(b)
    decreases |b|
  {
    if b == [] {
      assert a + b == a;
    } else {
      assert (a + b)[..|a + b| - 1] == a + b[..|b| - 1];
      TopTracksAppend(a, b[..|b| - 1]);
    }
  }

  /** `topTracks` is determined piecewise: it distributes over concatenation
      of item lists, an item with a track contributes exactly that track, an
      item whose track is `null` contributes a `null` entry, and an item
      without a `track` field contributes nothing. So it lists the items'
      tracks in item order with only the absent ones dropped. */
  lemma TopTracksCharacterized(items: seq<Item>)
    ensures forall a, b :: TopTracks(a + b) == TopTracks(a) + TopTracks(b)
    ensures forall t :: TopTracks([Item(Present(t))]) == [Some(t)]
    ensures TopTracks([Item(Null)]) == [None]
    ensures TopTracks([Item(Missing)]) == []
    ensures forall t :: Some(t) in TopTracks(items) <==> Item(Present(t)) in items
    ensures None in TopTracks(items) <==> Item(Null) in items
  {
    forall a, b ensures TopTracks(a + b) == TopTracks(a) + TopTracks(b) {
      TopTracksAppend(a, b);
    }
    forall t ensures TopTracks([Item(Present(t))]) == [Some(t)] {
      assert [Item(Present(t))][..0] == [];
    }
    assert [Item(Null)][..0] == [];
    assert [Item(Missing)][..0] == [];
    TopTracksMembers(items);
  }

  /** A track is listed exactly when some item carries it, and a `null`
      entry is listed exactly when some item's track is `null`; the list is
      empty exactly when every item lacks its `track` field. */
  lemma {:induction false} TopTracksMembers(items: seq<Item>)
    ensures forall t :: Some(t) in TopTracks(items) <==> Item(Present(t)) in items
    ensures None in TopTracks(items) <==> Item(Null) in items
    ensures TopTracks(items) == [] <==> forall i :: 0 <= i < |items| ==> items[i].track.Missing?
  {
    if items != [] {
      var init := items[..|items| - 1];
      TopTracksMembers(init);
      assert items == init + [items[|items| - 1]];
      if TopTracks(items) == [] {
        forall i | 0 <= i < |items| ensures items[i].track.Missing? {
          if i < |init| {
            assert items[i] == init[i];
          }
        }
      }
    }
  }

  // ---------------------------------------------------------------------
  // De-duplicating the artists of the tracks

  /** The artists `item.track?.artists` walks: none for an absent or `null`
      track. */
  function TrackArtists(f: TrackField): seq<PartialArtist>
  {
    if f.Present? then f.track.artists else []
  }

  /** Every artist object of every track, in item order. */
  function Candidates(items: seq<Item>): seq<PartialArtist>
  {
    if items == [] then []
    else Candidates(items[..|items| - 1]) + TrackArtists(items[|items| - 1].track)
  }

  /** The projected artists of `cands` that `optimizeArtistData` accepts, in order. */
  function ValidArtists(cands: seq<PartialArtist>): seq<Artist>
  {
    if cands == [] then []
    else ValidArtists(cands[..|cands| - 1]) + match OptimizeArtistData(cands[|cands| - 1]) case Some(a) => [a] case None => []
  }

  function Ids(s: seq<Artist>): set<string>
  {
    set i | 0 <= i < |s| :: s[i].id
  }

  /** Keeps the first artist of each id: an artist whose id was already seen
      is dropped. */
  function DedupById(s: seq<Artist>): seq<Artist>
  {
    if s == [] then []
    else
      var kept := DedupById(s[..|s| - 1]);
      if s[|s| - 1].id in Ids(kept) then kept else kept + [s[|s| - 1]]
  }

  /** `Object.values(artistMap)` after the nested `forEach` loops. */
  function TopArtists(items: seq<Item>): seq<Artist>
  {
    DedupById(ValidArtists(Candidates(items)))
  }

  /** A playlist whose only entry has a `null` track yields one `null`
      entry in `topTracks` and no artists, so the route succeeds on it. */
  lemma NullTrackKept()
    ensures TopTracks([Item(Null)]) == [None]
    ensures TopArtists([Item(Null)]) == []
  {
    assert [Item(Null)][..0] == [];
  }

  /** The index of the first artist with the given id. */
  function FirstIndex(s: seq<Artist>, id: string): (k: nat)
    requires id in Ids(s)
    ensures k < |s| && s[k].id == id
    ensures forall j :: 0 <= j < k ==> s[j].id != id
  {
    if s[0].id == id then 0
    else
      assert id in Ids(s[1..]) by {
        var i :| 0 <= i < |s| && s[i].id == id;
        assert s[1..][i - 1].id == id;
      }
      1 + FirstIndex(s[1..], id)
  }

  lemma IdsAppend(s: seq<Artist>, x: Artist)
    ensures Ids(s + [x]) == Ids(s) + {x.id}
  {
    var t := s + [x];
    forall id | id in Ids(t) ensures id in Ids(s) + {x.id} {
      var i :| 0 <= i < |t| && t[i].id == id;
      if i < |s| { assert s[i].id == id; }
    }
    forall id | id in Ids(s) + {x.id} ensures id in Ids(t) {
      if id in Ids(s) {
        var i :| 0 <= i < |s| && s[i].id == id;
        assert t[i].id == id;
      } else {
        assert t[|s|].id == id;
      }
    }
  }

  lemma FirstIndexAppend(s: seq<Artist>, x: Artist, id: string)
    requires id in Ids(s + [x])
    ensures id in Ids(s) ==> FirstIndex(s + [x], id) == FirstIndex(s, id)
    ensures id !in Ids(s) ==> FirstIndex(s + [x], id) == |s|
  {
    IdsAppend(s, x);
    var k := FirstIndex(s + [x], id);
    if id in Ids(s) {
      var k' := FirstIndex(s, id);
      assert (s + [x])[k'].id == id;
    }
  }

  /** De-duplication keeps one artist per id: the ids of the result are
      pairwise distinct and are exactly the ids of the input. */
  lemma {:induction false} DedupByIdDistinct(s: seq<Artist>)
    ensures forall i, j :: 0 <= i < j < |DedupById(s)| ==> DedupById(s)[i].id != DedupById(s)[j].id
    ensures Ids(DedupById(s)) == Ids(s)
  {
    if s != [] {
      var s', x := s[..|s| - 1], s[|s| - 1];
      DedupByIdDistinct(s');
      var kept := DedupById(s');
      var r := DedupById(s);
      LastSplit(s);
      IdsAppend(s', x);
      if x.id !in Ids(kept) {
        assert r == kept + [x];
        IdsAppend(kept, x);
        forall i, j | 0 <= i < j < |r| ensures r[i].id != r[j].id {
          if j == |kept| {
            assert r[i] == kept[i];
            assert kept[i].id in Ids(kept);
          }
        }
      }
    }
  }

  /** Each artist kept is the first artist of its id in the input. */
  lemma {:induction false} DedupByIdFirst(s: seq<Artist>)
    ensures forall j :: 0 <= j < |DedupById(s)| ==>
      DedupById(s)[j].id in Ids(s) && DedupById(s)[j] == s[FirstIndex(s, DedupById(s)[j].id)]
  {
    if s != [] {
      var s', x := s[..|s| - 1], s[|s| - 1];
      DedupByIdFirst(s');
      DedupByIdDistinct(s');
      var kept := DedupById(s');
      var r := DedupById(s);
      LastSplit(s);
      IdsAppend(s', x);
      forall j | 0 <= j < |r| ensures r[j].id in Ids(s) && r[j] == s[FirstIndex(s, r[j].id)] {
        if j < |kept| {
          assert r[j] == kept[j];
          FirstIndexAppend(s', x, r[j].id);
        } else {
          FirstIndexAppend(s', x, x.id);
        }
      }
    }
  }

  /** The kept artists are in the order of their first appearance. */
  lemma {:induction false} DedupByIdOrder(s: seq<Artist>)
    ensures forall i, j :: 0 <= i < j < |DedupById(s)| ==>
      DedupById(s)[i].id in Ids(s) && DedupById(s)[j].id in Ids(s)
      && FirstIndex(s, DedupById(s)[i].id) < FirstIndex(s, DedupById(s)[j].id)
  {
    DedupByIdDistinct(s);
    if s != [] {
      var s', x := s[..|s| - 1], s[|s| - 1];
      DedupByIdOrder(s');
      DedupByIdDistinct(s');
      var kept := DedupById(s');
      var r := DedupById(s);
      LastSplit(s);
      IdsAppend(s', x);
      forall i, j | 0 <= i < j < |r|
        ensures r[i].id in Ids(s) && r[j].id in Ids(s) && FirstIndex(s, r[i].id) < FirstIndex(s, r[j].id)
      {
        assert r[i].id in Ids(r) && r[j].id in Ids(r);
        assert r[i] == kept[i];
        assert kept[i].id in Ids(kept);
        FirstIndexAppend(s', x, r[i].id);
        if j < |kept| {
          assert r[j] == kept[j];
          assert kept[j].id in Ids(kept);
          FirstIndexAppend(s', x, r[j].id);
        } else {
          FirstIndexAppend(s', x, x.id);
        }
      }
    }
  }

  lemma {:induction false} CandidatesAppend(items: seq<Item>, item: Item)
    ensures Candidates(items + [item]) == Candidates(items) + TrackArtists(item.track)
  {
    assert (items + [item])[..|items|] == items;
  }

  lemma {:induction false} ValidArtistsAppend(a: seq<PartialArtist>, b: seq<PartialArtist>)
    ensures ValidArtists(a + b) == ValidArtists(a) + ValidArtists(b)
    decreases |b|
  {
    if b == [] {
      assert a + b == a;
    } else {
      assert (a + b)[..|a + b| - 1] == a + b[..|b| - 1];
      ValidArtistsAppend(a, b[..|b| - 1]);
    }
  }

  /** Storing an artist under a new id keeps `artistMap` and its list of
      values in step. */
  lemma StoreArtist(artistMap: map<string, Artist>, artists: seq<Artist>, v: Artist)
    requires artistMap.Keys == Ids(artists) && v.id !in artistMap
    requires forall k :: 0 <= k < |artists| ==> artistMap[artists[k].id] == artists[k]
    ensures artistMap[v.id := v].Keys == Ids(artists + [v])
    ensures forall k :: 0 <= k < |artists + [v]| ==> artistMap[v.id := v][(artists + [v])[k].id] == (artists + [v])[k]
  {
    IdsAppend(artists, v);
    forall k | 0 <= k < |artists| ensures artists[k].id != v.id {
      assert artists[k].id in Ids(artists);
    }
  }

  lemma PrefixSnoc<T>(s: seq<T>, t: seq<T>, j: nat)
    requires j < |t|
    ensures s + t[..j + 1] == (s + t[..j]) + [t[j]]
  {
  }

  lemma ValidArtistsSnoc(before: seq<PartialArtist>, a: PartialArtist)
    ensures ValidArtists(before + [a]) ==
      ValidArtists(before) + match OptimizeArtistData(a) case Some(v) => [v] case None => []
  {
    assert (before + [a])[..|before|] == before;
  }

  lemma DedupByIdSnoc(s: seq<Artist>, x: Artist)
    ensures DedupById(s + [x]) == if x.id in Ids(DedupById(s)) then DedupById(s) else DedupById(s) + [x]
  {
    assert (s + [x])[..|s|] == s;
  }

  /** What the loops of `GET` keep: `valid` is every accepted artist among
      the candidates `seen` so far, `artists` is their de-duplication, and
      `artistMap` stores each of them under its id and nothing else. */
  ghost predicate Collected(seen: seq<PartialArtist>, valid: seq<Artist>, artists: seq<Artist>, artistMap: map<string, Artist>)
  {
    valid == ValidArtists(seen) && artists == DedupById(valid)
    && artistMap.Keys == Ids(artists)
    && forall k :: 0 <= k < |artists| ==> artistMap[artists[k].id] == artists[k]
  }

  /** The inner `forEach` of `GET` over one track's artists: each projected
      artist is stored under its id unless that id is already present.
      `artists` lists the values of `artistMap` in insertion order, which is
      the order `Object.values` gives for string ids. `valid` is the ghost
      list of every accepted artist seen so far. */
  method AddTrackArtists(trackArtists: seq<PartialArtist>, artistMap0: map<string, Artist>,
                         artists0: seq<Artist>, ghost seen: seq<PartialArtist>, ghost valid0: seq<Artist>)
    returns (artistMap: map<string, Artist>, artists: seq<Artist>, ghost valid: seq<Artist>)
    requires Collected(seen, valid0, artists0, artistMap0)
    ensures Collected(seen + trackArtists, valid, artists, artistMap)
  {
    artistMap, artists, valid := artistMap0, artists0, valid0;
    assert seen + trackArtists[..0] == seen;
    var j := 0;
    while j < |trackArtists|
      invariant 0 <= j <= |trackArtists|
      invariant valid == ValidArtists(seen + trackArtists[..j])
      invariant artists == DedupById(valid)
      invariant artistMap.Keys == Ids(artists)
      invariant forall k :: 0 <= k < |artists| ==> artistMap[artists[k].id] == artists[k]
    {
      ghost var before := seen + trackArtists[..j];
      var a := trackArtists[j];
      PrefixSnoc(seen, trackArtists, j);
      var optimized := OptimizeArtistData(a);
      ValidArtistsSnoc(before, a);
      if optimized.Some? {
        var v := optimized.value;
        DedupByIdSnoc(valid, v);
        if v.id !in artistMap {
          StoreArtist(artistMap, artists, v);
          artistMap := artistMap[v.id := v];
          artists := artists + [v];
        }
        valid := valid + [v];
      }
      j := j + 1;
    }
    assert trackArtists[..|trackArtists|] == trackArtists;
  }

  /** The nested `forEach` loops of `GET` that fill `artistMap`, and
      `Object.values(artistMap)`. */
  method CollectArtists(items: seq<Item>) returns (artists: seq<Artist>)
    ensures artists == TopArtists(items)
  {
    var artistMap: map<string, Artist> := map[];
    artists := [];
    ghost var seen: seq<PartialArtist> := [];
    ghost var valid: seq<Artist> := [];
    var i := 0;
    while i < |items|
      invariant 0 <= i <= |items|
      invariant seen == Candidates(items[..i])
      invariant Collected(seen, valid, artists, artistMap)
    {
      CandidatesAppend(items[..i], items[i]);
      assert items[..i + 1] == items[..i] + [items[i]];
      if items[i].track.Present? {
        assert Candidates(items[..i + 1]) == seen + items[i].track.track.artists;
        artistMap, artists, valid := AddTrackArtists(items[i].track.track.artists, artistMap, artists, seen, valid);
      } else {
        assert Candidates(items[..i + 1]) == seen + [];
        assert seen + [] == seen;
      }
      seen := Candidates(items[..i + 1]);
      i := i + 1;
    }
    assert items[..|items|] == items;
  }

  // ---------------------------------------------------------------------
  // GET

  /** The outcome of one upstream call: the request threw (the network, or
      a body that is not JSON) with a message, the status was not ok, or the
      parsed body arrived. */
  datatype Fetched<T> = Threw(message: string) | NotOk | Received(body: T)

  /** The two environment values the route needs. */
  datatype Credentials = Credentials(clientId: Option<string>, clientSecret: Option<string>)

  /** The success body; a `None` entry of `topTracks` is a `null` track. */
  datatype TrendingPayload = TrendingPayload(topArtists: seq<Artist>, topTracks: seq<Option<Track>>)

  const MissingCredentials := "Missing Spotify credentials"
  const TokenFailed := "Failed to get access token"
  const FeaturedFailed := "Failed to fetch featured playlists"
  const NoPlaylist := "No featured playlists found"
  const TracksFailed := "Failed to fetch tracks from the playlist"
  const MissingItems := "Invalid response from Spotify: Missing 'items' in tracks data"
  const NoTrendingData := "No valid trending data received from Spotify"

  /** Both credentials are set and non-empty. */
  predicate CredentialsSet(creds: Credentials)
  {
    Truthy(creds.clientId) && Truthy(creds.clientSecret)
  }

  /** The route got past the token and found a featured playlist. */
  predicate PlaylistFound(creds: Credentials, token: Fetched<string>, featured: Fetched<Option<seq<string>>>)
  {
    CredentialsSet(creds) && token.Received? && featured.Received? && featured.body.Some? && featured.body.value != []
  }

  /** `GET` of the trending route. `token` is the client-credentials
      exchange, `featured` the featured-playlists call (its body: the ids of
      `playlists.items`, missing when `playlists` is), and `tracks` the
      playlist-tracks call (its body: `items`, missing when not an array).
      An `Err` is the route's 500 response `{ error: message }`: the first
      failing step's message, a thrown error passing its own message on. */
  method Get(creds: Credentials, token: Fetched<string>, featured: Fetched<Option<seq<string>>>,
             tracks: Fetched<Option<seq<Item>>>) returns (r: Result<TrendingPayload>)
    ensures !CredentialsSet(creds) ==> r == Err(MissingCredentials)
    ensures CredentialsSet(creds) && token.Threw? ==> r == Err(token.message)
    ensures CredentialsSet(creds) && token.NotOk? ==> r == Err(TokenFailed)
    ensures CredentialsSet(creds) && token.Received? && featured.Threw? ==> r == Err(featured.message)
    ensures CredentialsSet(creds) && token.Received? && featured.NotOk? ==> r == Err(FeaturedFailed)
    ensures (CredentialsSet(creds) && token.Received? && featured.Received?
             && (featured.body.None? || featured.body.value == [])) ==> r == Err(NoPlaylist)
    ensures PlaylistFound(creds, token, featured) && tracks.Threw? ==> r == Err(tracks.message)
    ensures PlaylistFound(creds, token, featured) && tracks.NotOk? ==> r == Err(TracksFailed)
    ensures PlaylistFound(creds, token, featured) && tracks.Received? && tracks.body.None? ==> r == Err(MissingItems)
    ensures r.Ok? ==> PlaylistFound(creds, token, featured) && tracks.Received? && tracks.body.Some?
    ensures r.Ok? ==> r.value.topTracks == TopTracks(tracks.body.value)
    ensures r.Ok? ==> r.value.topArtists == TopArtists(tracks.body.value)
    ensures r.Ok? ==> r.value.topArtists != [] || r.value.topTracks != []
    ensures (PlaylistFound(creds, token, featured) && tracks.Received? && tracks.body.Some?)
      ==> (r.Ok? <==> TopArtists(tracks.body.value) != [] || TopTracks(tracks.body.value) != [])
    ensures (PlaylistFound(creds, token, featured) && tracks.Received? && tracks.body.Some? && r.Err?)
      ==> r.message == NoTrendingData
  {
    if !Truthy(creds.clientId) || !Truthy(creds.clientSecret) {
      return Err(MissingCredentials);
    }
    match token {
      case Threw(m) => return Err(m);
      case NotOk => return Err(TokenFailed);
      case Received(_) =>
    }
    match featured {
      case Threw(m) => return Err(m);
      case NotOk => return Err(FeaturedFailed);
      case Received(playlists) =>
        if playlists.None? || playlists.value == [] {
          return Err(NoPlaylist);
        }
    }
    match tracks {
      case Threw(m) => return Err(m);
      case NotOk => return Err(TracksFailed);
      case Received(body) =>
        if body.None? {
          return Err(MissingItems);
        }
        var items := body.value;
        var topTracks := TopTracks(items);
        var artists := CollectArtists(items);
        if |artists| == 0 && |topTracks| == 0 {
          return Err(NoTrendingData);
        }
        return Ok(TrendingPayload(artists, topTracks));
    }
  }
}
