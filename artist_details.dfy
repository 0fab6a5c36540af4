/** `src/app/components/details/ArtistDetails.tsx`: the artist page sorts a
    copy of the artist's albums by release date (newest first by default),
    splits the sorted list into full albums and singles/EPs, lets the user
    flip the sort order and the view type, and turns a click on a track into
    a login prompt, a play/pause toggle or a request to play that track. */
module ArtistDetails {
  import opened Common
  import opened SpotifyTypes
  import opened StableSort

  // ---------------------------------------------------------------------
  // The two toggles

  datatype SortOrder = Asc | Desc
  datatype ViewType = Grid | List

  /** `prev === 'asc' ? 'desc' : 'asc'`. */
  function FlipSortOrder(o: SortOrder): (r: SortOrder)
    ensures r != o
  {
    if o == Asc then Desc else Asc
  }

  /** `prev === 'grid' ? 'list' : 'grid'`. */
  function FlipViewType(v: ViewType): (r: ViewType)
    ensures r != v
  {
    if v == Grid then List else Grid
  }

  /** Toggling twice restores the original value. */
  lemma FlipTwice(o: SortOrder, v: ViewType)
    ensures FlipSortOrder(FlipSortOrder(o)) == o
    ensures FlipViewType(FlipViewType(v)) == v
  {
  }

  // ---------------------------------------------------------------------
  // Sorting and bucketing

  function ReleaseTime(a: Album): int { a.releaseTime }
  function NegReleaseTime(a: Album): int { -a.releaseTime }

  /** The comparator `dateB - dateA` (descending) or `dateA - dateB`
      (ascending) sorts by this key. */
  function ReleaseKey(order: SortOrder): Album -> int
  {
    if order == Desc then NegReleaseTime else ReleaseTime
  }

  /** `[...albums].sort(byReleaseDate)`. */
  function SortAlbums(albums: seq<Album>, order: SortOrder): seq<Album>
  {
    SortBy(albums, ReleaseKey(order))
  }

  predicate IsFullAlbum(a: Album) { a.albumType == AlbumKind }
  predicate IsSingleOrEP(a: Album) { a.albumType == Single || a.albumType == Compilation }

  /** `sortedAlbums.filter(a => a.album_type === 'album')`. */
  function FullAlbums(sorted: seq<Album>): seq<Album>
  {
    Filter(sorted, IsFullAlbum)
  }

  /** `sortedAlbums.filter(a => a.album_type === 'single' || a.album_type === 'compilation')`. */
  function SinglesAndEPs(sorted: seq<Album>): seq<Album>
  {
    Filter(sorted, IsSingleOrEP)
  }

  /** The sorted copy is a permutation of the albums; with `Desc` release
      times never increase along it and with `Asc` they never decrease; and
      albums released at the same time keep their relative order. */
  lemma SortAlbumsCorrect(albums: seq<Album>, order: SortOrder)
    ensures |SortAlbums(albums, order)| == |albums|
    ensures multiset(SortAlbums(albums, order)) == multiset(albums)
    ensures order == Desc ==> forall i, j :: 0 <= i < j < |albums| ==>
      SortAlbums(albums, order)[i].releaseTime >= SortAlbums(albums, order)[j].releaseTime
    ensures order == Asc ==> forall i, j :: 0 <= i < j < |albums| ==>
      SortAlbums(albums, order)[i].releaseTime <= SortAlbums(albums, order)[j].releaseTime
    ensures forall t :: OfKey(SortAlbums(albums, order), ReleaseKey(order), t) == OfKey(albums, ReleaseKey(order), t)
  {
    var sorted := SortAlbums(albums, order);
    SortByCorrect(albums, ReleaseKey(order));
    if order == Desc {
      forall i, j | 0 <= i < j < |sorted| ensures sorted[i].releaseTime >= sorted[j].releaseTime {
        assert NegReleaseTime(sorted[i]) <= NegReleaseTime(sorted[j]);
      }
    } else {
      forall i, j | 0 <= i < j < |sorted| ensures sorted[i].releaseTime <= sorted[j].releaseTime {
        assert ReleaseTime(sorted[i]) <= ReleaseTime(sorted[j]);
      }
    }
  }

  /** Both buckets keep the order of the sorted list; every album lands in
      exactly one of them, because `album_type` has exactly three values, so
      together they are a permutation of the sorted list. */
  lemma BucketsCorrect(sorted: seq<Album>)
    ensures forall i :: 0 <= i < |sorted| ==> IsFullAlbum(sorted[i]) != IsSingleOrEP(sorted[i])
    ensures multiset(FullAlbums(sorted)) + multiset(SinglesAndEPs(sorted)) == multiset(sorted)
    ensures forall i :: 0 <= i < |FullAlbums(sorted)| ==> FullAlbums(sorted)[i].albumType == AlbumKind
    ensures forall i :: 0 <= i < |SinglesAndEPs(sorted)| ==> SinglesAndEPs(sorted)[i].albumType != AlbumKind
    ensures forall i :: 0 <= i < |sorted| && sorted[i].albumType == AlbumKind ==> sorted[i] in FullAlbums(sorted)
    ensures forall i :: 0 <= i < |sorted| && sorted[i].albumType != AlbumKind ==> sorted[i] in SinglesAndEPs(sorted)
  {
    FilterPartition(sorted, IsFullAlbum, IsSingleOrEP);
  }

  /** A bucket of the sorted list is itself sorted the same way. */
  lemma BucketsSorted(albums: seq<Album>, order: SortOrder)
    ensures SortedBy(FullAlbums(SortAlbums(albums, order)), ReleaseKey(order))
    ensures SortedBy(SinglesAndEPs(SortAlbums(albums, order)), ReleaseKey(order))
  {
    var sorted := SortAlbums(albums, order);
    var key := ReleaseKey(order);
    SortByCorrect(albums, key);
    var le := (x: Album, y: Album) => key(x) <= key(y);
    FilterKeepsOrder(sorted, IsFullAlbum, le);
    FilterKeepsOrder(sorted, IsSingleOrEP, le);
  }

  // ---------------------------------------------------------------------
  // handleTrackClick

  /** What a click on a track does: `alert('Please log in to play tracks')`,
      `togglePlay()`, or `playTrack(uri)`. */
  datatype ClickAction = AskToLogIn | TogglePlayback | Play(uri: string)

  const TrackUriPrefix := "spotify:track:"

  /** `handleTrackClick(track)`: `currentTrackId` is `currentTrack?.id`. */
  function HandleTrackClick(isAuthenticated: bool, currentTrackId: Option<string>, trackId: string): (r: ClickAction)
    ensures !isAuthenticated <==> r == AskToLogIn
    ensures isAuthenticated && currentTrackId == Some(trackId) <==> r == TogglePlayback
    ensures r.Play? <==> isAuthenticated && currentTrackId != Some(trackId)
    ensures r.Play? ==> |r.uri| == |TrackUriPrefix| + |trackId| && r.uri[..|TrackUriPrefix|] == TrackUriPrefix
                        && r.uri[|TrackUriPrefix|..] == trackId
  {
    if !isAuthenticated then AskToLogIn
    else if currentTrackId == Some(trackId) then TogglePlayback
    else Play(TrackUriPrefix + trackId)
  }

  // ---------------------------------------------------------------------
  // The component state

  /** The state of the component that the modelled logic touches. */
  class ArtistView {
    var topTracks: seq<Track>
    var loadingTracks: bool
    var albums: seq<Album>
    var loadingAlbums: bool
    var sortOrder: SortOrder
    var viewType: ViewType

    /** The initial `useState` values: no tracks and no albums yet, both
        loading, newest first, grid. */
    constructor ()
      ensures topTracks == [] && loadingTracks
      ensures albums == [] && loadingAlbums
      ensures sortOrder == Desc && viewType == Grid
    {
      topTracks := [];
      loadingTracks := true;
      albums := [];
      loadingAlbums := true;
      sortOrder := Desc;
      viewType := Grid;
    }

    /** The sort-order button. */
    method ToggleSortOrder()
      modifies this
      ensures sortOrder == FlipSortOrder(old(sortOrder))
      ensures albums == old(albums) && loadingAlbums == old(loadingAlbums) && viewType == old(viewType)
      ensures topTracks == old(topTracks) && loadingTracks == old(loadingTracks)
    {
      sortOrder := FlipSortOrder(sortOrder);
    }

    /** The view-type button. */
    method ToggleViewType()
      modifies this
      ensures viewType == FlipViewType(old(viewType))
      ensures albums == old(albums) && loadingAlbums == old(loadingAlbums) && sortOrder == old(sortOrder)
      ensures topTracks == old(topTracks) && loadingTracks == old(loadingTracks)
    {
      viewType := FlipViewType(viewType);
    }

    /** The end of the top-tracks effect: `setTopTracks(data.tracks || [])`
        when the body arrived (`tracks` missing gives no tracks), nothing when
        the request threw, and `setLoadingTracks(false)` in either case. */
    method TopTracksFetched(body: Option<Option<seq<Track>>>)
      modifies this
      ensures !loadingTracks
      ensures body.Some? && body.value.Some? ==> topTracks == body.value.value
      ensures body.Some? && body.value.None? ==> topTracks == []
      ensures body.None? ==> topTracks == old(topTracks)
      ensures albums == old(albums) && loadingAlbums == old(loadingAlbums)
      ensures sortOrder == old(sortOrder) && viewType == old(viewType)
    {
      if body.Some? {
        topTracks := match body.value case Some(tracks) => tracks case None => [];
      }
      loadingTracks := false;
    }

    /** The end of the albums effect: `setAlbums(data.items || [])` when the
        body arrived (`items` missing gives no albums), nothing when the
        request threw, and `setLoadingAlbums(false)` in either case. */
    method AlbumsFetched(body: Option<Option<seq<Album>>>)
      modifies this
      ensures !loadingAlbums
      ensures body.Some? && body.value.Some? ==> albums == body.value.value
      ensures body.Some? && body.value.None? ==> albums == []
      ensures body.None? ==> albums == old(albums)
      ensures topTracks == old(topTracks) && loadingTracks == old(loadingTracks)
      ensures sortOrder == old(sortOrder) && viewType == old(viewType)
    {
      if body.Some? {
        albums := match body.value case Some(items) => items case None => [];
      }
      loadingAlbums := false;
    }

    /** What a render derives from the state: the sorted copy and its two
        buckets. The state itself, `albums` included, is left as it was. */
    method Render() returns (sorted: seq<Album>, fullAlbums: seq<Album>, singlesAndEPs: seq<Album>)
      ensures multiset(sorted) == multiset(albums)
      ensures sortOrder == Desc ==> forall i, j :: 0 <= i < j < |sorted| ==> sorted[i].releaseTime >= sorted[j].releaseTime
      ensures sortOrder == Asc ==> forall i, j :: 0 <= i < j < |sorted| ==> sorted[i].releaseTime <= sorted[j].releaseTime
      ensures fullAlbums == FullAlbums(sorted) && singlesAndEPs == SinglesAndEPs(sorted)
      ensures multiset(fullAlbums) + multiset(singlesAndEPs) == multiset(albums)
    {
      sorted := SortAlbums(albums, sortOrder);
      SortAlbumsCorrect(albums, sortOrder);
      fullAlbums := FullAlbums(sorted);
      singlesAndEPs := SinglesAndEPs(sorted);
      BucketsCorrect(sorted);
    }
  }
}
