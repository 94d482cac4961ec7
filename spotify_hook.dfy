/**
 * The hook that talks to the streaming provider: the access-token state
 * machine (construct, refresh, get, expiry test) and the "played today"
 * filter applied to the provider's list of recently played items.
 *
 * The clock, the OAuth exchange and the HTTP fetch are not modelled: the
 * current instant `now` (whole seconds), the provider's token answer and the
 * fetched items are parameters.
 */
module SpotifyHook {
  import opened Basics

  /** A play event as the hook hands it on: the track, its first artist, its album, its URL and when it was played. */
  datatype Track = Track(name: string, artist: string, album: string, url: string, playedAt: string)

  /** One item of the provider's "recently played" answer, reduced to the fields the hook reads. */
  datatype PlayedItem = PlayedItem(trackName: string, artistNames: seq<string>, albumName: string, spotifyUrl: string, playedAt: string)

  /** The provider's answer to a refresh: a new access token and its lifetime in seconds. */
  datatype TokenInfo = TokenInfo(accessToken: string, expiresIn: int)

  /** The token state the hook holds: the access token ("" when none) and its expiry instant, if any. */
  datatype Credential = Credential(accessToken: string, expiration: Option<int>)

  /** `track['artists'][0]` raises when an item lists no artist; `index` is that item's position. */
  datatype HookError = MissingArtist(index: nat)

  /** The state of a freshly constructed hook. */
  const NoCredential := Credential("", None)

  /** A token with no recorded expiry counts as expired; otherwise it expires strictly after its expiry instant. */
  predicate Expired(c: Credential, now: int)
  {
    match c.expiration
    case None => true
    case Some(expiresAt) => now > expiresAt
  }

  /** The condition under which getting a token first refreshes it. */
  predicate NeedsRefresh(c: Credential, now: int)
  {
    c.accessToken == "" || Expired(c, now)
  }

  /** The state after a refresh at `now` that the provider answered with `answer`. */
  function Refreshed(answer: TokenInfo, now: int): Credential
  {
    Credential(answer.accessToken, Some(now + answer.expiresIn))
  }

  /** The state after getting a token at `now`; `answer` is what a refresh would return. */
  function AfterGet(c: Credential, now: int, answer: TokenInfo): Credential
  {
    if NeedsRefresh(c, now) then Refreshed(answer, now) else c
  }

  /** One request for a token: when it happens and what the provider would answer to a refresh. */
  datatype Call = Call(now: int, answer: TokenInfo)

  /** The state after a series of token requests. */
  function Replay(c: Credential, calls: seq<Call>): Credential
    decreases |calls|
  {
    if calls == [] then c else Replay(AfterGet(c, calls[0].now, calls[0].answer), calls[1..])
  }

  /** How many of a series of token requests reach the provider. */
  function RefreshCount(c: Credential, calls: seq<Call>): nat
    decreases |calls|
  {
    if calls == [] then 0
    else
      (if NeedsRefresh(c, calls[0].now) then 1 else 0)
      + RefreshCount(AfterGet(c, calls[0].now, calls[0].answer), calls[1..])
  }

  lemma FreshHookNeedsRefresh(now: int)
    ensures Expired(NoCredential, now)
    ensures NeedsRefresh(NoCredential, now)
  {
  }

  /** The expiry comparison is strict: the token is still valid at its expiry instant and expired one second later. */
  lemma ExpiryIsStrict(c: Credential, expiresAt: int, now: int)
    requires c.expiration == Some(expiresAt)
    ensures Expired(c, now) <==> now > expiresAt
    ensures !Expired(c, expiresAt) && Expired(c, expiresAt + 1)
  {
  }

  /** A refresh yields a token that serves, without another refresh, until its expiry instant, and no later. */
  lemma RefreshedServesUntilExpiry(answer: TokenInfo, at: int, later: int)
    requires answer.accessToken != ""
    requires at <= later
    ensures !NeedsRefresh(Refreshed(answer, at), later) <==> later <= at + answer.expiresIn
  {
  }

  /** Getting a token refreshes exactly when the token is empty or expired, and otherwise changes nothing. */
  lemma GetRefreshesOnlyWhenNeeded(c: Credential, now: int, answer: TokenInfo)
    ensures NeedsRefresh(c, now) ==> AfterGet(c, now, answer) == Refreshed(answer, now)
    ensures !NeedsRefresh(c, now) ==> AfterGet(c, now, answer) == c
  {
  }

  /** After getting a token, the token held is usable at that instant, provided the provider's answer is non-empty and not already expired. */
  lemma GetLeavesUsableToken(c: Credential, now: int, answer: TokenInfo)
    requires answer.accessToken != "" && answer.expiresIn >= 0
    ensures !NeedsRefresh(AfterGet(c, now, answer), now)
  {
  }

  /** While a non-empty token has not passed its expiry, no request reaches the provider and the state stays as it is. */
  lemma {:induction false} NoRefreshWhileValid(c: Credential, calls: seq<Call>, expiresAt: int)
    requires c.accessToken != "" && c.expiration == Some(expiresAt)
    requires forall i :: 0 <= i < |calls| ==> calls[i].now <= expiresAt
    ensures RefreshCount(c, calls) == 0
    ensures Replay(c, calls) == c
    decreases |calls|
  {
    if calls != [] {
      assert AfterGet(c, calls[0].now, calls[0].answer) == c;
      NoRefreshWhileValid(c, calls[1..], expiresAt);
    }
  }

  /**
   * Starting from a fresh hook: the first request refreshes, every further
   * request up to the expiry of the token it obtained refreshes nothing, and
   * the first request after that expiry refreshes once more.
   */
  lemma {:induction false} RefreshOnceThenReuse(first: Call, within: seq<Call>, after: Call)
    requires first.answer.accessToken != ""
    requires forall i :: 0 <= i < |within| ==> within[i].now <= first.now + first.answer.expiresIn
    requires after.now > first.now + first.answer.expiresIn
    ensures RefreshCount(NoCredential, [first]) == 1
    ensures RefreshCount(NoCredential, [first] + within) == 1
    ensures RefreshCount(NoCredential, [first] + within + [after]) == 2
  {
    var c1 := Refreshed(first.answer, first.now);
    assert AfterGet(NoCredential, first.now, first.answer) == c1;
    NoRefreshWhileValid(c1, within, first.now + first.answer.expiresIn);
    assert ([first] + within)[1..] == within;
    RefreshCountAppend(c1, within, after);
    assert ([first] + within + [after])[1..] == within + [after];
  }

  /** Counting refreshes over a series extended by one request. */
  lemma {:induction false} RefreshCountAppend(c: Credential, calls: seq<Call>, next: Call)
    ensures RefreshCount(c, calls + [next])
         == RefreshCount(c, calls) + (if NeedsRefresh(Replay(c, calls), next.now) then 1 else 0)
    decreases |calls|
  {
    if calls == [] {
      assert calls + [next] == [next];
    } else {
      assert (calls + [next])[1..] == calls[1..] + [next];
      RefreshCountAppend(AfterGet(c, calls[0].now, calls[0].answer), calls[1..], next);
    }
  }

  // ---------------------------------------------------------------- filter

  /** The Track the hook builds from one item: the first listed artist, and the Spotify URL. */
  function TrackOf(item: PlayedItem): Track
    requires item.artistNames != []
  {
    Track(item.trackName, item.artistNames[0], item.albumName, item.spotifyUrl, item.playedAt)
  }

  predicate AllHaveArtist(items: seq<PlayedItem>)
  {
    forall i :: 0 <= i < |items| ==> items[i].artistNames != []
  }

  function TracksOf(items: seq<PlayedItem>): seq<Track>
    requires AllHaveArtist(items)
  {
    seq(|items|, i requires 0 <= i < |items| => TrackOf(items[i]))
  }

  /** A track counts as played today when its timestamp string starts with today's date string. */
  predicate PlayedOn(t: Track, today: string)
  {
    StartsWith(t.playedAt, today)
  }

  /** The tracks played today, in the order given. */
  function KeepPlayedOn(tracks: seq<Track>, today: string): seq<Track>
    decreases |tracks|
  {
    if tracks == [] then []
    else
      var last := tracks[|tracks| - 1];
      KeepPlayedOn(tracks[..|tracks| - 1], today) + (if PlayedOn(last, today) then [last] else [])
  }

  /** `idx` lists strictly increasing positions of `s` whose elements, in that order, make up `r`. */
  ghost predicate PicksInOrder<T>(r: seq<T>, s: seq<T>, idx: seq<int>)
  {
    && |idx| == |r|
    && (forall i :: 0 <= i < |idx| ==> 0 <= idx[i] < |s| && r[i] == s[idx[i]])
    && (forall i, j :: 0 <= i < j < |idx| ==> idx[i] < idx[j])
  }

  /** The filter keeps exactly the tracks played today: each kept track was given and was played today, and each such given track is kept. */
  lemma {:induction false} KeepPlayedOnMembers(tracks: seq<Track>, today: string)
    ensures forall t :: t in KeepPlayedOn(tracks, today) <==> t in tracks && PlayedOn(t, today)
    decreases |tracks|
  {
    if tracks != [] {
      var init, last := tracks[..|tracks| - 1], tracks[|tracks| - 1];
      assert tracks == init + [last];
      KeepPlayedOnMembers(init, today);
    }
  }

  /** The filter never returns more tracks than it was given. */
  lemma {:induction false} KeepPlayedOnLength(tracks: seq<Track>, today: string)
    ensures |KeepPlayedOn(tracks, today)| <= |tracks|
    decreases |tracks|
  {
    if tracks != [] {
      KeepPlayedOnLength(tracks[..|tracks| - 1], today);
    }
  }

  /** Positions picked from a list remain valid picks once the list grows at its end, and the new last element can be picked after them. */
  lemma PicksExtend<T>(r: seq<T>, s: seq<T>, idx: seq<int>, last: T)
    requires PicksInOrder(r, s, idx)
    ensures PicksInOrder(r, s + [last], idx)
    ensures PicksInOrder(r + [last], s + [last], idx + [|s|])
  {
    var s', r', idx' := s + [last], r + [last], idx + [|s|];
    forall i | 0 <= i < |idx| ensures 0 <= idx[i] < |s'| && r[i] == s'[idx[i]] {
      assert s'[idx[i]] == s[idx[i]];
    }
    forall i | 0 <= i < |idx'| ensures 0 <= idx'[i] < |s'| && r'[i] == s'[idx'[i]] {
      if i < |idx| {
        assert idx'[i] == idx[i] && r'[i] == r[i];
      }
    }
    forall i, j | 0 <= i < j < |idx'| ensures idx'[i] < idx'[j] {
      if j < |idx| {
        assert idx'[i] == idx[i] && idx'[j] == idx[j];
      } else {
        assert idx'[i] == idx[i];
      }
    }
  }

  /** `idx` holds exactly the positions of `tracks` whose track was played today. */
  ghost predicate AllPlayedPicked(idx: seq<int>, tracks: seq<Track>, today: string)
  {
    forall k :: 0 <= k < |tracks| ==> (k in idx <==> PlayedOn(tracks[k], today))
  }

  /**
   * The filter keeps exactly the positions played today, in input order: the
   * kept tracks sit at increasing positions of the input, and those positions
   * are all the positions whose track was played today.
   */
  lemma {:induction false} KeepPlayedOnInOrder(tracks: seq<Track>, today: string)
    ensures exists idx :: PicksInOrder(KeepPlayedOn(tracks, today), tracks, idx)
                          && AllPlayedPicked(idx, tracks, today)
    decreases |tracks|
  {
    if tracks == [] {
      var none: seq<int> := [];
      assert PicksInOrder(KeepPlayedOn(tracks, today), tracks, none);
      assert AllPlayedPicked(none, tracks, today);
    } else {
      var n := |tracks|;
      var init, last := tracks[..n - 1], tracks[n - 1];
      assert tracks == init + [last];
      KeepPlayedOnInOrder(init, today);
      var r0 := KeepPlayedOn(init, today);
      var idx :| PicksInOrder(r0, init, idx) && AllPlayedPicked(idx, init, today);
      PicksExtend(r0, init, idx, last);
      assert n - 1 !in idx by {
        forall i | 0 <= i < |idx| ensures idx[i] != n - 1 {
          assert idx[i] < |init|;
        }
      }
      if PlayedOn(last, today) {
        var idx' := idx + [n - 1];
        assert KeepPlayedOn(tracks, today) == r0 + [last];
        assert PicksInOrder(KeepPlayedOn(tracks, today), tracks, idx');
        forall k | 0 <= k < n ensures k in idx' <==> PlayedOn(tracks[k], today) {
          if k < n - 1 {
            assert tracks[k] == init[k];
            assert k in idx' <==> k in idx;
          }
        }
        assert AllPlayedPicked(idx', tracks, today);
      } else {
        assert KeepPlayedOn(tracks, today) == r0;
        assert PicksInOrder(KeepPlayedOn(tracks, today), tracks, idx);
        forall k | 0 <= k < n ensures k in idx <==> PlayedOn(tracks[k], today) {
          if k < n - 1 {
            assert tracks[k] == init[k];
          }
        }
        assert AllPlayedPicked(idx, tracks, today);
      }
    }
  }

  /** Filtering an already filtered list changes nothing. */
  lemma {:induction false} KeepPlayedOnIdempotent(tracks: seq<Track>, today: string)
    ensures KeepPlayedOn(KeepPlayedOn(tracks, today), today) == KeepPlayedOn(tracks, today)
    decreases |tracks|
  {
    if tracks != [] {
      var init, last := tracks[..|tracks| - 1], tracks[|tracks| - 1];
      var r0 := KeepPlayedOn(init, today);
      KeepPlayedOnIdempotent(init, today);
      if PlayedOn(last, today) {
        var kept := r0 + [last];
        assert KeepPlayedOn(tracks, today) == kept;
        assert kept[..|kept| - 1] == r0 && kept[|kept| - 1] == last;
        assert KeepPlayedOn(kept, today) == KeepPlayedOn(r0, today) + [last];
      } else {
        assert KeepPlayedOn(tracks, today) == r0;
      }
    }
  }

  /** A play on the current date is kept and a play late on the previous day is dropped. */
  lemma TodayFilterExample()
    ensures KeepPlayedOn([Track("a", "x", "l", "u", "2024-06-01T10:00:00"), Track("b", "y", "m", "v", "2024-05-31T23:59:00")], "2024-06-01")
         == [Track("a", "x", "l", "u", "2024-06-01T10:00:00")]
  {
    var t1 := Track("a", "x", "l", "u", "2024-06-01T10:00:00");
    var t2 := Track("b", "y", "m", "v", "2024-05-31T23:59:00");
    assert "2024-06-01T10:00:00"[..10] == "2024-06-01";
    assert "2024-05-31T23:59:00"[..10][6] != "2024-06-01"[6];
    assert [t1, t2][..1] == [t1];
    assert [t1][..0] == [];
  }

  /**
   * The loop over the fetched items: build a Track from each and keep, in
   * order, those played today. An item without an artist aborts the loop.
   */
  method CollectPlayedToday(items: seq<PlayedItem>, today: string) returns (r: Result<seq<Track>, HookError>)
    ensures r.Success? <==> AllHaveArtist(items)
    ensures r.Success? ==> r.value == KeepPlayedOn(TracksOf(items), today)
    ensures r.Failure? ==> r.error.index < |items| && items[r.error.index].artistNames == []
                           && AllHaveArtist(items[..r.error.index])
  {
    var kept: seq<Track> := [];
    var i := 0;
    while i < |items|
      invariant 0 <= i <= |items|
      invariant AllHaveArtist(items[..i])
      invariant kept == KeepPlayedOn(TracksOf(items[..i]), today)
    {
      var item := items[i];
      if item.artistNames == [] {
        return Failure(MissingArtist(i));
      }
      var track := TrackOf(item);
      if StartsWith(track.playedAt, today) {
        kept := kept + [track];
      }
      assert items[..i + 1] == items[..i] + [item];
      assert TracksOf(items[..i + 1])[..i] == TracksOf(items[..i]);
      i := i + 1;
    }
    assert items[..i] == items;
    return Success(kept);
  }

  /** The hook: provider settings fixed at construction, and the token state that get and refresh update. */
  class Hook {
    var clientId: string
    var clientSecret: string
    var redirectUri: string
    var scope: string
    var refreshToken: string
    var accessToken: string
    var tokenExpiration: Option<int>
    /** How many refreshes this hook has made; not a field of the Python hook, kept to state refresh counts. */
    ghost var refreshes: nat

    function Held(): Credential
      reads this
    {
      Credential(accessToken, tokenExpiration)
    }

    function Settings(): seq<string>
      reads this
    {
      [clientId, clientSecret, redirectUri, scope, refreshToken]
    }

    constructor (clientId: string, clientSecret: string, redirectUri: string, scope: string, refreshToken: string)
      ensures Settings() == [clientId, clientSecret, redirectUri, scope, refreshToken]
      ensures Held() == NoCredential
      ensures refreshes == 0
    {
      this.clientId := clientId;
      this.clientSecret := clientSecret;
      this.redirectUri := redirectUri;
      this.scope := scope;
      this.refreshToken := refreshToken;
      this.accessToken := "";
      this.tokenExpiration := None;
      this.refreshes := 0;
    }

    predicate TokenExpired(now: int)
      reads this
    {
      Expired(Held(), now)
    }

    /** Exchange the refresh token for a new access token; the provider's answer is `answer`. */
    method RefreshAccessToken(now: int, answer: TokenInfo) returns (token: string)
      modifies this`accessToken, this`tokenExpiration, this`refreshes
      ensures Held() == Refreshed(answer, now)
      ensures token == answer.accessToken
      ensures refreshes == old(refreshes) + 1
      ensures Settings() == old(Settings())
    {
      accessToken := answer.accessToken;
      tokenExpiration := Some(now + answer.expiresIn);
      refreshes := refreshes + 1;
      token := accessToken;
    }

    /** Return a usable access token, refreshing first when none is held or it has expired. */
    method GetAccessToken(now: int, answer: TokenInfo) returns (token: string)
      modifies this`accessToken, this`tokenExpiration, this`refreshes
      ensures Held() == AfterGet(old(Held()), now, answer)
      ensures refreshes == old(refreshes) + (if NeedsRefresh(old(Held()), now) then 1 else 0)
      ensures token == accessToken
      ensures Settings() == old(Settings())
    {
      if accessToken == "" || TokenExpired(now) {
        token := RefreshAccessToken(now, answer);
      }
      token := accessToken;
    }

    /** Get a token, then keep the fetched items that were played on `today`. */
    method GetRecentlyPlayed(now: int, answer: TokenInfo, fetched: seq<PlayedItem>, today: string)
      returns (r: Result<seq<Track>, HookError>)
      modifies this`accessToken, this`tokenExpiration, this`refreshes
      ensures Held() == AfterGet(old(Held()), now, answer)
      ensures refreshes == old(refreshes) + (if NeedsRefresh(old(Held()), now) then 1 else 0)
      ensures Settings() == old(Settings())
      ensures r.Success? <==> AllHaveArtist(fetched)
      ensures r.Success? ==> r.value == KeepPlayedOn(TracksOf(fetched), today)
    {
      var token := GetAccessToken(now, answer);
      r := CollectPlayedToday(fetched, today);
    }
  }
}
