/** `src/app/context/SpotifyAuthContext.tsx`: the implicit-grant login. On
    mount the provider takes a token from the URL fragment (storing it and
    clearing the URL) or, when there is no fragment, restores the stored
    one, then records an `error` query parameter. `login` redirects to the
    authorize endpoint, `logout` forgets the token. Query strings are
    handled at the level of `&` and `=`; percent-coding is not modelled. */
module Auth {
  import opened Common
  import opened Text

  // ---------------------------------------------------------------------
  // URLSearchParams

  /** One `key=value` pair of a query string. */
  datatype Param = Param(key: string, value: string)

  /** A segment split at its first `=`; a segment without one is a key with
      an empty value. */
  function ParseSegment(segment: string): (p: Param)
  {
    match IndexOf(segment, '=')
    case None => Param(segment, "")
    case Some(k) => Param(segment[..k], segment[k + 1..])
  }

  /** The pairs of the segments, empty segments skipped. */
  function ParseSegments(segments: seq<string>): seq<Param>
  {
    if segments == [] then []
    else (if segments[0] == "" then [] else [ParseSegment(segments[0])]) + ParseSegments(segments[1..])
  }

  /** `new URLSearchParams(query)` for a query without a leading `?`. */
  function ParseQuery(query: string): seq<Param>
  {
    ParseSegments(Split(query, '&'))
  }

  /** `params.get(key)`: the value of the first pair with that key. */
  function GetParam(params: seq<Param>, key: string): Option<string>
  {
    if params == [] then None
    else if params[0].key == key then Some(params[0].value)
    else GetParam(params[1..], key)
  }

  /** `get` finds nothing exactly when no pair has the key, and otherwise
      the value of the first pair that has it. */
  lemma {:induction false} GetParamCorrect(params: seq<Param>, key: string)
    ensures GetParam(params, key).None? <==> forall i :: 0 <= i < |params| ==> params[i].key != key
    ensures GetParam(params, key).Some? ==>
      exists i :: 0 <= i < |params| && params[i] == Param(key, GetParam(params, key).value)
                  && forall j :: 0 <= j < i ==> params[j].key != key
  {
    if params != [] && params[0].key != key {
      var r := GetParam(params[1..], key);
      GetParamCorrect(params[1..], key);
      if r.Some? {
        var i :| 0 <= i < |params[1..]| && params[1..][i] == Param(key, r.value)
                 && forall j :: 0 <= j < i ==> params[1..][j].key != key;
        assert params[i + 1] == Param(key, r.value);
      } else {
        forall i | 0 <= i < |params| ensures params[i].key != key {
          if i > 0 {
            assert params[i] == params[1..][i - 1];
          }
        }
      }
    }
  }

  function Pair(p: Param): string
  {
    p.key + "=" + p.value
  }

  function Pairs(params: seq<Param>): (r: seq<string>)
    ensures |r| == |params|
    ensures forall i :: 0 <= i < |params| ==> r[i] == Pair(params[i])
  {
    if params == [] then [] else [Pair(params[0])] + Pairs(params[1..])
  }

  /** `params.toString()`: the pairs joined by `&`. */
  function Serialize(params: seq<Param>): string
  {
    Join(Pairs(params), '&')
  }

  /** A pair whose key holds neither `&` nor `=` and whose value holds no `&`. */
  predicate Plain(p: Param)
  {
    '&' !in p.key && '=' !in p.key && '&' !in p.value
  }

  /** Every pair of the list is plain. */
  predicate AllPlain(params: seq<Param>)
  {
    forall i :: 0 <= i < |params| ==> Plain(params[i])
  }

  lemma ParsePair(p: Param)
    requires '=' !in p.key
    ensures ParseSegment(Pair(p)) == p
  {
    assert Pair(p) == p.key + ("=" + p.value);
    IndexOfAfterPrefix(p.key, "=" + p.value, '=');
    assert Pair(p)[|p.key| + 1..] == p.value;
  }

  lemma {:induction false} ParsePairs(params: seq<Param>)
    requires AllPlain(params)
    ensures ParseSegments(Pairs(params)) == params
  {
    if params != [] {
      ParsePair(params[0]);
      ParsePairs(params[1..]);
      assert Pairs(params)[1..] == Pairs(params[1..]);
    }
  }

  /** Parsing a serialized list of plain pairs gives the list back, in order,
      duplicates included. */
  lemma ParseSerialize(params: seq<Param>)
    requires AllPlain(params)
    ensures ParseQuery(Serialize(params)) == params
  {
    if params == [] {
      assert Split("", '&') == [""];
    } else {
      var pairs := Pairs(params);
      forall i | 0 <= i < |pairs| ensures '&' !in pairs[i] {
        assert pairs[i] == params[i].key + "=" + params[i].value;
      }
      SplitJoin(pairs, '&');
      ParsePairs(params);
    }
  }

  // ---------------------------------------------------------------------
  // The authorize URL

  const AuthorizeEndpoint := "https://accounts.spotify.com/authorize"
  const TokenKey := "spotify_access_token"
  const StateKey := "spotify_auth_state"
  const MissingClientId := "Spotify Client ID is not configured"

  /** The ten scopes the player needs, joined by spaces. */
  const ScopeList: seq<string> := [
    "streaming", "user-read-email", "user-read-private", "user-read-playback-state",
    "user-modify-playback-state", "user-read-currently-playing", "user-read-recently-played",
    "user-top-read", "playlist-read-private", "playlist-read-collaborative"]

  function RequiredScopes(): string
  {
    Join(ScopeList, ' ')
  }

  /** The scope string lists exactly the ten scopes. */
  lemma RequiredScopesSplit()
    ensures Split(RequiredScopes(), ' ') == ScopeList
  {
    SplitJoin(ScopeList, ' ');
  }

  /** The `params` object of `login` with the `undefined` entries dropped, in
      the object's key order. */
  function AuthParams(clientId: string, redirectUri: Option<string>, state: string, scope: string): (ps: seq<Param>)
  {
    [Param("client_id", clientId), Param("response_type", "token")]
    + (match redirectUri case Some(u) => [Param("redirect_uri", u)] case None => [])
    + [Param("state", state), Param("scope", scope), Param("show_dialog", "true")]
  }

  /** `authUrl.toString()` after `authUrl.search = queryParams.toString()`. */
  function AuthorizeUrl(clientId: string, redirectUri: Option<string>, state: string): string
  {
    AuthorizeEndpoint + "?" + Serialize(AuthParams(clientId, redirectUri, state, RequiredScopes()))
  }

  function Keys(params: seq<Param>): (keys: seq<string>)
    ensures |keys| == |params|
    ensures forall i :: 0 <= i < |params| ==> keys[i] == params[i].key
  {
    if params == [] then [] else [params[0].key] + Keys(params[1..])
  }

  /** `get` skips a first pair with another key and stops at one with the key. */
  lemma GetCons(p: Param, rest: seq<Param>, key: string)
    ensures GetParam([p] + rest, key) == if p.key == key then Some(p.value) else GetParam(rest, key)
  {
    assert ([p] + rest)[1..] == rest;
  }

  /** The authorize parameters as a first pair before the rest. */
  lemma AuthParamsHead(clientId: string, redirectUri: Option<string>, state: string, scope: string)
    ensures AuthParams(clientId, redirectUri, state, scope)
      == [Param("client_id", clientId)] + AuthParams(clientId, redirectUri, state, scope)[1..]
    ensures AuthParams(clientId, redirectUri, state, scope)[1..]
      == [Param("response_type", "token")] + AuthParams(clientId, redirectUri, state, scope)[2..]
  {
  }

  lemma GetClientId(clientId: string, redirectUri: Option<string>, state: string, scope: string)
    ensures GetParam(AuthParams(clientId, redirectUri, state, scope), "client_id") == Some(clientId)
  {
    var ps := AuthParams(clientId, redirectUri, state, scope);
    AuthParamsHead(clientId, redirectUri, state, scope);
    GetCons(Param("client_id", clientId), ps[1..], "client_id");
  }

  lemma GetResponseType(clientId: string, redirectUri: Option<string>, state: string, scope: string)
    ensures GetParam(AuthParams(clientId, redirectUri, state, scope), "response_type") == Some("token")
  {
    var ps := AuthParams(clientId, redirectUri, state, scope);
    AuthParamsHead(clientId, redirectUri, state, scope);
    GetCons(Param("client_id", clientId), ps[1..], "response_type");
    GetCons(Param("response_type", "token"), ps[2..], "response_type");
  }

  lemma GetRedirectUri(clientId: string, redirectUri: Option<string>, state: string, scope: string)
    ensures GetParam(AuthParams(clientId, redirectUri, state, scope), "redirect_uri") == redirectUri
  {
    var ps := AuthParams(clientId, redirectUri, state, scope);
    var tail := [Param("state", state), Param("scope", scope), Param("show_dialog", "true")];
    AuthParamsHead(clientId, redirectUri, state, scope);
    GetCons(Param("client_id", clientId), ps[1..], "redirect_uri");
    GetCons(Param("response_type", "token"), ps[2..], "redirect_uri");
    MissingKey(tail, "redirect_uri");
    if redirectUri.Some? {
      assert ps[2..] == [Param("redirect_uri", redirectUri.value)] + tail;
      GetCons(Param("redirect_uri", redirectUri.value), tail, "redirect_uri");
    } else {
      assert ps[2..] == tail;
    }
  }

  lemma GetState(clientId: string, redirectUri: Option<string>, state: string, scope: string)
    ensures GetParam(AuthParams(clientId, redirectUri, state, scope), "state") == Some(state)
  {
    var ps := AuthParams(clientId, redirectUri, state, scope);
    var tail := [Param("state", state), Param("scope", scope), Param("show_dialog", "true")];
    AuthParamsHead(clientId, redirectUri, state, scope);
    GetCons(Param("client_id", clientId), ps[1..], "state");
    GetCons(Param("response_type", "token"), ps[2..], "state");
    assert tail == [Param("state", state)] + tail[1..];
    GetCons(Param("state", state), tail[1..], "state");
    if redirectUri.Some? {
      assert ps[2..] == [Param("redirect_uri", redirectUri.value)] + tail;
      GetCons(Param("redirect_uri", redirectUri.value), tail, "state");
    } else {
      assert ps[2..] == tail;
    }
  }

  /** The keys of the authorize parameters, in order: client_id,
      response_type, redirect_uri when a redirect URI is configured, state,
      scope and show_dialog. */
  lemma AuthParamsKeys(clientId: string, redirectUri: Option<string>, state: string, scope: string)
    ensures redirectUri.Some? ==>
      (Keys(AuthParams(clientId, redirectUri, state, scope))
       == ["client_id", "response_type", "redirect_uri", "state", "scope", "show_dialog"])
    ensures redirectUri.None? ==>
      (Keys(AuthParams(clientId, redirectUri, state, scope))
       == ["client_id", "response_type", "state", "scope", "show_dialog"])
  {
    var ps := AuthParams(clientId, redirectUri, state, scope);
    if redirectUri.Some? {
      assert ps == [Param("client_id", clientId), Param("response_type", "token"), Param("redirect_uri", redirectUri.value),
                    Param("state", state), Param("scope", scope), Param("show_dialog", "true")];
    } else {
      assert ps == [Param("client_id", clientId), Param("response_type", "token"),
                    Param("state", state), Param("scope", scope), Param("show_dialog", "true")];
    }
  }

  /** `get` reads back the client id, `response_type=token`, the redirect
      URI (nothing when none is configured, the parameter being left out)
      and the state. */
  lemma AuthParamsReadBack(clientId: string, redirectUri: Option<string>, state: string, scope: string)
    ensures GetParam(AuthParams(clientId, redirectUri, state, scope), "client_id") == Some(clientId)
    ensures GetParam(AuthParams(clientId, redirectUri, state, scope), "response_type") == Some("token")
    ensures GetParam(AuthParams(clientId, redirectUri, state, scope), "redirect_uri") == redirectUri
    ensures GetParam(AuthParams(clientId, redirectUri, state, scope), "state") == Some(state)
  {
    GetClientId(clientId, redirectUri, state, scope);
    GetResponseType(clientId, redirectUri, state, scope);
    GetRedirectUri(clientId, redirectUri, state, scope);
    GetState(clientId, redirectUri, state, scope);
  }

  lemma MissingKey(params: seq<Param>, key: string)
    requires key !in Keys(params)
    ensures GetParam(params, key) == None
  {
    GetParamCorrect(params, key);
  }

  /** A join of pieces that avoid a character, by a separator other than
      that character, avoids it too. */
  lemma {:induction false} JoinAvoids(pieces: seq<string>, sep: char, c: char)
    requires sep != c
    requires forall k :: 0 <= k < |pieces| ==> c !in pieces[k]
    ensures c !in Join(pieces, sep)
  {
    if |pieces| > 1 {
      JoinAvoids(pieces[1..], sep, c);
    }
  }

  /** The scope string holds no `&`. */
  lemma ScopesPlain()
    ensures '&' !in RequiredScopes()
  {
    JoinAvoids(ScopeList, ' ', '&');
  }

  lemma AllPlainAppend(a: seq<Param>, b: seq<Param>)
    requires AllPlain(a) && AllPlain(b)
    ensures AllPlain(a + b)
  {
    forall i | 0 <= i < |a + b| ensures Plain((a + b)[i]) {
      if i >= |a| {
        assert (a + b)[i] == b[i - |a|];
      }
    }
  }

  lemma LeadingParamsPlain(clientId: string)
    requires '&' !in clientId
    ensures AllPlain([Param("client_id", clientId), Param("response_type", "token")])
  {
    var fixed := [Param("client_id", clientId), Param("response_type", "token")];
    assert Plain(fixed[0]) && Plain(fixed[1]);
  }

  lemma TrailingParamsPlain(state: string, scope: string)
    requires '&' !in state && '&' !in scope
    ensures AllPlain([Param("state", state), Param("scope", scope), Param("show_dialog", "true")])
  {
    var rest := [Param("state", state), Param("scope", scope), Param("show_dialog", "true")];
    assert Plain(rest[0]) && Plain(rest[1]) && Plain(rest[2]);
  }

  /** The authorize parameters are plain when none of the values holds `&`. */
  lemma AuthParamsPlain(clientId: string, redirectUri: Option<string>, state: string, scope: string)
    requires '&' !in clientId && '&' !in state && '&' !in scope && (redirectUri.Some? ==> '&' !in redirectUri.value)
    ensures AllPlain(AuthParams(clientId, redirectUri, state, scope))
  {
    var fixed := [Param("client_id", clientId), Param("response_type", "token")];
    var middle: seq<Param> := match redirectUri case Some(u) => [Param("redirect_uri", u)] case None => [];
    var rest := [Param("state", state), Param("scope", scope), Param("show_dialog", "true")];
    LeadingParamsPlain(clientId);
    TrailingParamsPlain(state, scope);
    assert AllPlain(middle) by {
      if redirectUri.Some? {
        assert Plain(middle[0]);
      }
    }
    AllPlainAppend(fixed, middle);
    AllPlainAppend(fixed + middle, rest);
  }

  /** The query of the authorize URL reads back as its parameters. */
  lemma AuthorizeQuery(clientId: string, redirectUri: Option<string>, state: string, scope: string)
    requires '&' !in clientId && '&' !in state && '&' !in scope && (redirectUri.Some? ==> '&' !in redirectUri.value)
    ensures ParseQuery(Serialize(AuthParams(clientId, redirectUri, state, scope))) == AuthParams(clientId, redirectUri, state, scope)
  {
    AuthParamsPlain(clientId, redirectUri, state, scope);
    ParseSerialize(AuthParams(clientId, redirectUri, state, scope));
  }

  /** The URL `login` navigates to is the authorize endpoint followed by a
      query that reads back as the authorize parameters with the ten
      scopes. */
  lemma AuthorizeUrlReadsBack(clientId: string, redirectUri: Option<string>, state: string)
    requires '&' !in clientId && '&' !in state && (redirectUri.Some? ==> '&' !in redirectUri.value)
    ensures |AuthorizeUrl(clientId, redirectUri, state)| > |AuthorizeEndpoint| + 1
    ensures AuthorizeUrl(clientId, redirectUri, state)[..|AuthorizeEndpoint| + 1] == AuthorizeEndpoint + "?"
    ensures ParseQuery(AuthorizeUrl(clientId, redirectUri, state)[|AuthorizeEndpoint| + 1..])
      == AuthParams(clientId, redirectUri, state, RequiredScopes())
  {
    var query := Serialize(AuthParams(clientId, redirectUri, state, RequiredScopes()));
    ScopesPlain();
    AuthorizeQuery(clientId, redirectUri, state, RequiredScopes());
    var url := AuthorizeUrl(clientId, redirectUri, state);
    assert url == (AuthorizeEndpoint + "?") + query;
  }

  /** A token is present and non-empty: `!!accessToken`. */
  predicate Authenticated(token: Option<string>)
  {
    Truthy(token)
  }

  /** The text `new URLSearchParams(init)` parses: `init` without one
      leading `?`. */
  function QueryText(init: string): (q: string)
    ensures init != [] && init[0] == '?' ==> init == "?" + q
    ensures init == [] || init[0] != '?' ==> q == init
  {
    if init != [] && init[0] == '?' then init[1..] else init
  }

  /** `new URLSearchParams(hash.substring(1)).get('access_token')`, when
      there is a fragment; a `?` right after the `#` is dropped like any
      leading `?`. */
  function FragmentToken(hash: string): Option<string>
  {
    if hash == "" then None else GetParam(ParseQuery(QueryText(hash[1..])), "access_token")
  }

  /** A `?` right after the `#` changes nothing: `URLSearchParams` drops it,
      so `#?access_token=T` yields the same token as `#access_token=T`. */
  lemma {:induction false} QuestionMarkFragment(q: string)
    requires q == [] || q[0] != '?'
    ensures FragmentToken("#?" + q) == FragmentToken("#" + q)
  {
    assert ("#?" + q)[1..] == "?" + q;
    assert ("?" + q)[1..] == q;
    assert ("#" + q)[1..] == q;
  }

  /** A segment `key=value` whose key holds no `=` is that pair. */
  lemma SegmentPair(key: string, value: string)
    requires '=' !in key
    ensures ParseSegment(key + "=" + value) == Param(key, value)
  {
    var seg := key + "=" + value;
    assert seg[|key|] == '=';
    assert seg[..|key|] == key && seg[|key| + 1..] == value;
  }

  /** The fragment `#access_token=t` of an implicit-grant redirect yields
      the token `t` (one without `&`, which percent-coding would hide). */
  lemma TokenFragment(t: string)
    requires '&' !in t
    ensures FragmentToken("#access_token=" + t) == Some(t)
  {
    var key := "access_token";
    assert "#access_token=" == "#" + key + "=";
    var q := key + "=" + t;
    assert "#access_token=" + t == "#" + q;
    assert ("#" + q)[1..] == q;
    assert QueryText(q) == q by { assert q[0] == key[0]; }
    assert '&' !in q by { assert '&' !in key; }
    assert Split(q, '&') == [q];
    assert '=' !in key;
    SegmentPair(key, t);
    assert ParseSegments([q]) == [Param(key, t)] + ParseSegments([]);
  }

  lemma TokenFragmentSplit(t: string)
    ensures "#?access_token=" + t == "#?" + ("access_token=" + t)
    ensures "#access_token=" + t == "#" + ("access_token=" + t)
    ensures ("access_token=" + t)[0] != '?'
  {
    assert "#?access_token=" == "#?" + "access_token=";
    assert "#access_token=" == "#" + "access_token=";
  }

  /** The same fragment with a `?` after the `#` yields the same token. */
  lemma QuestionMarkTokenFragment(t: string)
    requires '&' !in t
    ensures FragmentToken("#?access_token=" + t) == Some(t)
  {
    TokenFragmentSplit(t);
    TokenFragment(t);
    QuestionMarkFragment("access_token=" + t);
  }

  function Stored(storage: map<string, string>, key: string): (r: Option<string>)
    ensures r.Some? <==> key in storage
  {
    if key in storage then Some(storage[key]) else None
  }

  /** The provider's state together with the parts of the browser it reads
      and writes: the URL's fragment and query, and `localStorage`.
      `clientId` and `redirectUri` are the two build-time settings. */
  class AuthProvider {
    var accessToken: Option<string>
    var error: Option<string>
    var hash: string
    var search: string
    var storage: map<string, string>
    const clientId: Option<string>
    const redirectUri: Option<string>

    /** `IsAuthenticated` is the context's `isAuthenticated`. */
    predicate IsAuthenticated()
      reads this
    {
      Authenticated(accessToken)
    }

    /** The first render: no token, no error, in the given browser state. */
    constructor (hash0: string, search0: string, storage0: map<string, string>,
                 clientId0: Option<string>, redirectUri0: Option<string>)
      ensures accessToken.None? && error.None? && !IsAuthenticated()
      ensures hash == hash0 && search == search0 && storage == storage0
      ensures clientId == clientId0 && redirectUri == redirectUri0
    {
      accessToken, error := None, None;
      hash, search, storage := hash0, search0, storage0;
      clientId, redirectUri := clientId0, redirectUri0;
    }

    /** The mount effect. A fragment with a non-empty `access_token` sets
        and stores the token and `replaceState` drops fragment and query; a
        fragment without one changes nothing; with no fragment at all a
        non-empty stored token is restored. Afterwards a non-empty `error`
        parameter of the (possibly cleared) query is recorded. */
    method Load()
      modifies this
      ensures Truthy(FragmentToken(old(hash))) ==>
        accessToken == FragmentToken(old(hash)) && IsAuthenticated()
        && storage == old(storage)[TokenKey := FragmentToken(old(hash)).value]
        && hash == "" && search == ""
      ensures old(hash) != "" && !Truthy(FragmentToken(old(hash))) ==>
        accessToken == old(accessToken) && storage == old(storage) && hash == old(hash) && search == old(search)
      ensures old(hash) == "" ==> storage == old(storage) && hash == old(hash) && search == old(search)
      ensures old(hash) == "" && Truthy(Stored(old(storage), TokenKey)) ==> accessToken == Stored(old(storage), TokenKey)
      ensures old(hash) == "" && !Truthy(Stored(old(storage), TokenKey)) ==> accessToken == old(accessToken)
      ensures Truthy(GetParam(ParseQuery(QueryText(search)), "error")) ==> error == GetParam(ParseQuery(QueryText(search)), "error")
      ensures !Truthy(GetParam(ParseQuery(QueryText(search)), "error")) ==> error == old(error)
      ensures Truthy(FragmentToken(old(hash))) ==> error == old(error)
    {
      if hash != "" {
        var token := GetParam(ParseQuery(QueryText(hash[1..])), "access_token");
        if Truthy(token) {
          accessToken := token;
          storage := storage[TokenKey := token.value];
          hash, search := "", "";
        }
      } else {
        var storedToken := Stored(storage, TokenKey);
        if Truthy(storedToken) {
          accessToken := storedToken;
        }
      }
      var errorMsg := GetParam(ParseQuery(QueryText(search)), "error");
      assert search == "" ==> errorMsg.None? by {
        if search == "" {
          assert Split("", '&') == [""];
        }
      }
      if Truthy(errorMsg) {
        error := errorMsg;
      }
    }

    /** `login`, with `nonce` standing for the random state string. Without
        a client id it records the error and goes nowhere; otherwise it
        stores the state and returns the authorize URL to navigate to. */
    method Login(nonce: string) returns (redirect: Option<string>)
      modifies this
      ensures !Truthy(clientId) ==> redirect.None? && error == Some(MissingClientId) && storage == old(storage)
      ensures Truthy(clientId) ==>
        redirect == Some(AuthorizeUrl(clientId.value, redirectUri, nonce))
        && storage == old(storage)[StateKey := nonce] && error == old(error)
      ensures accessToken == old(accessToken) && hash == old(hash) && search == old(search)
    {
      if !Truthy(clientId) {
        error := Some(MissingClientId);
        return None;
      }
      storage := storage[StateKey := nonce];
      redirect := Some(AuthorizeUrl(clientId.value, redirectUri, nonce));
    }

    /** `logout`: the token is dropped from the state and from storage, and
        so is the stored login state. */
    method Logout()
      modifies this
      ensures accessToken.None? && !IsAuthenticated()
      ensures storage == old(storage) - {TokenKey, StateKey}
      ensures TokenKey !in storage && StateKey !in storage
      ensures error == old(error) && hash == old(hash) && search == old(search)
    {
      accessToken := None;
      storage := storage - {TokenKey, StateKey};
    }
  }
}
