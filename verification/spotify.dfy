/** The Spotify client (server/src/services/spotify.js): a module-level
    access-token cache refreshed five minutes before the token expires, and
    the track search and lookup that normalise Spotify's track objects. The
    clock, the credentials and the HTTP replies are inputs; a `None` reply is
    a request that threw. */
module Spotify {
  import opened Common

  /** Seconds before the provider's expiry at which the token is renewed. */
  const EarlyRenewal: int := 300

  datatype TokenState = TokenState(accessToken: Option<string>, tokenExpiry: int)

  /** The state before the first call. */
  const Initial: TokenState := TokenState(None, 0)

  /** The token endpoint's reply: `access_token` (possibly absent) and
      `expires_in` in seconds. */
  datatype TokenReply = TokenReply(accessToken: Option<string>, expiresIn: int)

  datatype TokenError = CredentialsMissing | TokenRequestFailed

  /** One call of `getAccessToken`: the new cache, the answer, and whether a
      token request was sent. */
  datatype TokenCall = TokenCall(state: TokenState, token: Result<Option<string>, TokenError>, requested: bool)

  /** The cached token may be reused at time `now` (milliseconds). */
  predicate CacheValid(s: TokenState, now: int)
  {
    Truthy(s.accessToken) && now < s.tokenExpiry
  }

  /** `getAccessToken` as a function of the cache. */
  function NextToken(s: TokenState, now: int, clientId: Option<string>, clientSecret: Option<string>, reply: Option<TokenReply>): (r: TokenCall)
    ensures CacheValid(s, now) ==> r == TokenCall(s, Success(s.accessToken), false)
    ensures !CacheValid(s, now) && !(Truthy(clientId) && Truthy(clientSecret)) ==>
              r == TokenCall(s, Failure(CredentialsMissing), false)
    ensures r.token.Failure? ==> r.state == s
    ensures r.requested <==> !CacheValid(s, now) && Truthy(clientId) && Truthy(clientSecret)
    ensures r.requested && reply.Some? ==>
              r.token == Success(reply.value.accessToken) && r.state.accessToken == reply.value.accessToken
              && r.state.tokenExpiry + EarlyRenewal * 1000 == now + reply.value.expiresIn * 1000
    ensures r.requested && reply.None? ==> r == TokenCall(s, Failure(TokenRequestFailed), true)
  {
    if CacheValid(s, now) then TokenCall(s, Success(s.accessToken), false)
    else if !Truthy(clientId) || !Truthy(clientSecret) then TokenCall(s, Failure(CredentialsMissing), false)
    else match reply
      case None => TokenCall(s, Failure(TokenRequestFailed), true)
      case Some(t) =>
        TokenCall(TokenState(t.accessToken, now + (t.expiresIn - EarlyRenewal) * 1000), Success(t.accessToken), true)
  }

  /** After a refresh, later calls reuse the token without a request until
      five minutes before the provider's expiry, whatever the credentials. */
  lemma ReusedUntilEarlyExpiry(s: TokenState, now: int, id: Option<string>, secret: Option<string>, reply: TokenReply,
                               later: int, id2: Option<string>, secret2: Option<string>, reply2: Option<TokenReply>)
    requires !CacheValid(s, now) && Truthy(id) && Truthy(secret) && Truthy(reply.accessToken)
    requires later < now + (reply.expiresIn - EarlyRenewal) * 1000
    ensures var first := NextToken(s, now, id, secret, Some(reply));
            var second := NextToken(first.state, later, id2, secret2, reply2);
            !second.requested && second.token == Success(reply.accessToken) && second.state == first.state
  {
  }

  /** From five minutes before the provider's expiry on, a call with
      credentials sends a new request. */
  lemma RenewedAtEarlyExpiry(s: TokenState, now: int, id: Option<string>, secret: Option<string>, reply: TokenReply,
                             later: int, reply2: Option<TokenReply>)
    requires !CacheValid(s, now) && Truthy(id) && Truthy(secret)
    requires later >= now + (reply.expiresIn - EarlyRenewal) * 1000
    ensures var first := NextToken(s, now, id, secret, Some(reply));
            NextToken(first.state, later, id, secret, reply2).requested
  {
  }

  /** The module-level cache. */
  class TokenCache {
    var accessToken: Option<string>
    var tokenExpiry: int

    constructor()
      ensures State() == Initial
    {
      accessToken := None;
      tokenExpiry := 0;
    }

    function State(): TokenState
      reads this
    {
      TokenState(accessToken, tokenExpiry)
    }

    /** `getAccessToken`: reuse a valid token, refuse without credentials,
        otherwise request one; a failed request leaves the cache as it was. */
    method GetAccessToken(now: int, clientId: Option<string>, clientSecret: Option<string>, reply: Option<TokenReply>)
      returns (token: Result<Option<string>, TokenError>, requested: bool)
      modifies this
      ensures State() == NextToken(old(State()), now, clientId, clientSecret, reply).state
      ensures token == NextToken(old(State()), now, clientId, clientSecret, reply).token
      ensures requested == NextToken(old(State()), now, clientId, clientSecret, reply).requested
    {
      if Truthy(accessToken) && now < tokenExpiry {
        return Success(accessToken), false;
      }
      if !Truthy(clientId) || !Truthy(clientSecret) {
        return Failure(CredentialsMissing), false;
      }
      if reply.None? {
        return Failure(TokenRequestFailed), true;
      }
      accessToken := reply.value.accessToken;
      tokenExpiry := now + (reply.value.expiresIn - EarlyRenewal) * 1000;
      return Success(accessToken), true;
    }

    /** `searchTracks`: nothing for an empty query (and no token call),
        nothing on any error, otherwise the normalised hits. */
    method SearchTracks(query: string, now: int, clientId: Option<string>, clientSecret: Option<string>,
                        reply: Option<TokenReply>, hits: Option<seq<RawTrack>>)
      returns (tracks: seq<Track>)
      modifies this
      ensures query == [] ==> tracks == [] && unchanged(this)
      ensures query != [] ==> State() == NextToken(old(State()), now, clientId, clientSecret, reply).state
      ensures query != [] ==>
                tracks == (if NextToken(old(State()), now, clientId, clientSecret, reply).token.Success? && hits.Some?
                           then Normalized(hits.value) else [])
    {
      if query == [] {
        return [];
      }
      var token, _ := GetAccessToken(now, clientId, clientSecret, reply);
      if token.Failure? || hits.None? {
        return [];
      }
      tracks := Normalized(hits.value);
    }

    /** `getTrackById`: the normalised track, or nothing on any error. */
    method GetTrackById(now: int, clientId: Option<string>, clientSecret: Option<string>,
                        reply: Option<TokenReply>, hit: Option<RawTrack>)
      returns (track: Option<Track>)
      modifies this
      ensures State() == NextToken(old(State()), now, clientId, clientSecret, reply).state
      ensures track == (if NextToken(old(State()), now, clientId, clientSecret, reply).token.Success? && hit.Some?
                        then Some(NormalizeTrack(hit.value)) else None)
    {
      var token, _ := GetAccessToken(now, clientId, clientSecret, reply);
      if token.Failure? || hit.None? {
        return None;
      }
      track := Some(NormalizeTrack(hit.value));
    }
  }

  // ---------------------------------------------------------------------
  // Track normalisation
  // ---------------------------------------------------------------------

  /** The fields of a Spotify track object that the client reads; an image's
      `url` may be absent. */
  datatype RawTrack = RawTrack(
    id: string, name: string, artists: seq<string>, albumName: string, images: seq<Option<string>>,
    previewUrl: Option<string>, spotifyUrl: string, durationMs: int, releaseDate: string)

  datatype Track = Track(
    source: string, externalId: string, name: string, artist: string, album: string,
    imageUrl: Option<string>, previewUrl: Option<string>, spotifyUrl: string, duration: int, releaseDate: string)

  /** `names.join(sep)`. */
  function Join(names: seq<string>, sep: string): (r: string)
    ensures names == [] ==> r == []
    ensures names != [] ==> IsPrefix(names[0], r)
    ensures |r| == Lengths(names) + (if names == [] then 0 else (|names| - 1) * |sep|)
  {
    if names == [] then []
    else if |names| == 1 then names[0]
    else names[0] + sep + Join(names[1..], sep)
  }

  function Lengths(names: seq<string>): nat
  {
    if names == [] then 0 else |names[0]| + Lengths(names[1..])
  }

  const ArtistSeparator: string := ", "

  /** The project's track shape. */
  function NormalizeTrack(t: RawTrack): (r: Track)
    ensures r.source == "spotify" && r.externalId == t.id && r.name == t.name
    ensures r.artist == Join(t.artists, ArtistSeparator)
    ensures r.imageUrl.Some? <==> t.images != [] && Truthy(t.images[0])
    ensures r.imageUrl.Some? ==> r.imageUrl == t.images[0]
  {
    Track("spotify", t.id, t.name, Join(t.artists, ArtistSeparator), t.albumName,
          if t.images != [] && Truthy(t.images[0]) then t.images[0] else None,
          t.previewUrl, t.spotifyUrl, t.durationMs, t.releaseDate)
  }

  function Normalized(hits: seq<RawTrack>): (r: seq<Track>)
    ensures |r| == |hits|
    ensures forall i :: 0 <= i < |hits| ==> r[i] == NormalizeTrack(hits[i])
  {
    seq(|hits|, i requires 0 <= i < |hits| => NormalizeTrack(hits[i]))
  }

  /** Joining two non-empty lists is joining each and putting one separator
      between them. With `JoinExamples`' one-name case this fixes the whole
      result: the names in order, each pair separated by `sep`. */
  lemma {:induction false} JoinAppend(a: seq<string>, b: seq<string>, sep: string)
    requires a != [] && b != []
    ensures Join(a + b, sep) == Join(a, sep) + sep + Join(b, sep)
    decreases |a|
  {
    assert (a + b)[0] == a[0];
    if |a| == 1 {
      assert (a + b)[1..] == b;
    } else {
      assert (a + b)[1..] == a[1..] + b;
      JoinAppend(a[1..], b, sep);
      AppendAssoc(a[0] + sep, Join(a[1..], sep) + sep, Join(b, sep));
      AppendAssoc(a[0] + sep, Join(a[1..], sep), sep);
    }
  }

  /** A single artist's name passes through unchanged, and two artists are
      joined with ", ". */
  lemma JoinExamples(a: string, b: string)
    ensures Join([a], ArtistSeparator) == a
    ensures Join([a, b], ArtistSeparator) == a + ", " + b
  {
    assert [a, b][1..] == [b];
  }
}
