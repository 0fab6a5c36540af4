/** `getTop10ArtistsByFollowers` of `src/lib/spotify.ts`: the artists of a
    search response, sorted in place by follower count (largest first), and
    the first ten of them; a failed response becomes a thrown error. */
module TopArtists {
  import opened Common
  import opened SpotifyTypes
  import opened StableSort

  const Limit: nat := 10

  /** The comparator `b.followers.total - a.followers.total` sorts by this key. */
  function NegFollowers(a: Artist): int
  {
    -a.followers
  }

  /** `artists.sort(byFollowersDescending).slice(0, 10)`. */
  function Top10(artists: seq<Artist>): seq<Artist>
  {
    var sorted := SortBy(artists, NegFollowers);
    if |sorted| <= Limit then sorted else sorted[..Limit]
  }

  /** Everything the sorted list puts after the first ten has no more
      followers than anything in the first ten. */
  lemma {:induction false} TailBelowHead(sorted: seq<Artist>)
    requires |sorted| > Limit
    requires forall i, j :: 0 <= i < j < |sorted| ==> NegFollowers(sorted[i]) <= NegFollowers(sorted[j])
    ensures multiset(sorted) - multiset(sorted[..Limit]) == multiset(sorted[Limit..])
    ensures forall a, b :: a in sorted[Limit..] && b in sorted[..Limit] ==> a.followers <= b.followers
  {
    var head, tail := sorted[..Limit], sorted[Limit..];
    assert sorted == head + tail;
    assert multiset(sorted) == multiset(head) + multiset(tail);
    forall a, b | a in tail && b in head ensures a.followers <= b.followers {
      var i :| 0 <= i < |tail| && tail[i] == a;
      var j :| 0 <= j < |head| && head[j] == b;
      assert sorted[j] == b && sorted[Limit + i] == a;
    }
  }

  /** The result holds the first ten artists (all of them when there are
      ten or fewer), in non-increasing order of followers. */
  lemma Top10Sorted(artists: seq<Artist>)
    ensures |Top10(artists)| == (if |artists| <= 10 then |artists| else 10)
    ensures forall i, j :: 0 <= i < j < |Top10(artists)| ==> Top10(artists)[i].followers >= Top10(artists)[j].followers
  {
    var sorted := SortBy(artists, NegFollowers);
    SortByCorrect(artists, NegFollowers);
    var r := Top10(artists);
    forall i, j | 0 <= i < j < |r| ensures r[i].followers >= r[j].followers {
      assert r[i] == sorted[i] && r[j] == sorted[j];
      assert NegFollowers(sorted[i]) <= NegFollowers(sorted[j]);
    }
  }

  /** No artist is returned more often than it was given, and with ten or
      fewer inputs every one of them is returned. */
  lemma Top10Multiset(artists: seq<Artist>)
    ensures multiset(Top10(artists)) <= multiset(artists)
    ensures |artists| <= 10 ==> multiset(Top10(artists)) == multiset(artists)
  {
    var sorted := SortBy(artists, NegFollowers);
    SortByCorrect(artists, NegFollowers);
    if |sorted| > Limit {
      assert sorted == sorted[..Limit] + sorted[Limit..];
    }
  }

  /** Every artist left out has no more followers than every artist
      returned. */
  lemma Top10LeftOut(artists: seq<Artist>)
    ensures forall a, b :: a in multiset(artists) - multiset(Top10(artists)) && b in Top10(artists) ==> a.followers <= b.followers
  {
    var sorted := SortBy(artists, NegFollowers);
    SortByCorrect(artists, NegFollowers);
    if |sorted| > Limit {
      TailBelowHead(sorted);
    }
  }

  /** The search response: its `ok` flag, its status text, and its body,
      which either fails to parse as JSON or carries an optional
      `error.message` and the `artists.items` list. */
  datatype SearchBody = Unparsable(parseError: string) | Json(errorMessage: Option<string>, items: seq<Artist>)
  datatype SearchResponse = SearchResponse(ok: bool, statusText: string, body: SearchBody)

  /** `getTop10ArtistsByFollowers` after the fetch. */
  function GetTop10ArtistsByFollowers(response: SearchResponse): (r: Result<seq<Artist>>)
    ensures response.body.Unparsable? ==> r == Err(response.body.parseError)
    ensures !response.ok && response.body.Json? ==>
      r == Err("Error fetching artists: " + MessageOr(response.body.errorMessage, response.statusText))
    ensures r.Ok? <==> response.ok && response.body.Json?
    ensures r.Ok? ==> r.value == Top10(response.body.items)
    ensures r.Ok? ==> |r.value| == (if |response.body.items| <= 10 then |response.body.items| else 10)
    ensures r.Ok? ==> multiset(r.value) <= multiset(response.body.items)
    ensures r.Ok? ==> forall i, j :: 0 <= i < j < |r.value| ==> r.value[i].followers >= r.value[j].followers
    ensures r.Ok? ==> forall a, b :: a in multiset(response.body.items) - multiset(r.value) && b in r.value ==> a.followers <= b.followers
  {
    match response.body
    case Unparsable(e) => Err(e)
    case Json(message, items) =>
      if !response.ok then Err("Error fetching artists: " + MessageOr(message, response.statusText))
      else
        Top10Sorted(items); Top10Multiset(items); Top10LeftOut(items);
        Ok(Top10(items))
  }
}
