/**
 * The two data-shaping steps of the daily job: `extract` turns each Track into
 * a plain record without its URL, and `transform` turns each record into one
 * song row and one album row, keyed by composite identifiers.
 *
 * The scheduler, inter-task message passing and the wiring of the three
 * tasks are not modelled; the run's current date is a parameter.
 */
module EtlDag {
  import opened Basics
  import opened Records
  import SpotifyHook

  /** The dictionary `extract` makes of one Track: everything but the URL. */
  datatype PlayRecord = PlayRecord(name: string, artist: string, album: string, playedAt: string)

  function Serialize(t: SpotifyHook.Track): PlayRecord
  {
    PlayRecord(t.name, t.artist, t.album, t.playedAt)
  }

  /** One record per track, in the same order. */
  function Extract(tracks: seq<SpotifyHook.Track>): (r: seq<PlayRecord>)
    ensures |r| == |tracks|
    ensures forall i :: 0 <= i < |tracks| ==>
              r[i] == PlayRecord(tracks[i].name, tracks[i].artist, tracks[i].album, tracks[i].playedAt)
  {
    seq(|tracks|, i requires 0 <= i < |tracks| => Serialize(tracks[i]))
  }

  /** Two tracks that differ at most in their URL. */
  predicate SameButUrl(a: SpotifyHook.Track, b: SpotifyHook.Track)
  {
    a.name == b.name && a.artist == b.artist && a.album == b.album && a.playedAt == b.playedAt
  }

  /** Extraction loses exactly the URL: two track lists extract alike if and only if they agree, position by position, on every other field. */
  lemma ExtractKeepsAllButUrl(a: seq<SpotifyHook.Track>, b: seq<SpotifyHook.Track>)
    ensures Extract(a) == Extract(b) <==> |a| == |b| && forall i :: 0 <= i < |a| ==> SameButUrl(a[i], b[i])
  {
  }

  /** The identifier built from a name and an artist: the two joined by an underscore. */
  function CompositeKey(first: string, artist: string): string
  {
    first + "_" + artist
  }

  /** The song row made from one record. */
  function SongOf(r: PlayRecord): Song
  {
    Song(CompositeKey(r.name, r.artist), r.name, r.artist, r.album, r.playedAt)
  }

  /** The album row made from one record; its release date is the run's date. */
  function AlbumOf(r: PlayRecord, today: Date): Album
  {
    Album(CompositeKey(r.album, r.artist), r.album, r.artist, today)
  }

  function SongsOf(raw: seq<PlayRecord>): seq<Song>
  {
    seq(|raw|, i requires 0 <= i < |raw| => SongOf(raw[i]))
  }

  function AlbumsOf(raw: seq<PlayRecord>, today: Date): seq<Album>
  {
    seq(|raw|, i requires 0 <= i < |raw| => AlbumOf(raw[i], today))
  }

  /** The `transform` loop: append one song and one album per record. */
  method Transform(raw: seq<PlayRecord>, today: Date) returns (songs: seq<Song>, albums: seq<Album>)
    ensures songs == SongsOf(raw)
    ensures albums == AlbumsOf(raw, today)
  {
    songs, albums := [], [];
    for i := 0 to |raw|
      invariant songs == SongsOf(raw[..i])
      invariant albums == AlbumsOf(raw[..i], today)
    {
      var track := raw[i];
      var songData := Song(CompositeKey(track.name, track.artist), track.name, track.artist, track.album, track.playedAt);
      var albumData := Album(CompositeKey(track.album, track.artist), track.album, track.artist, today);
      songs := songs + [songData];
      albums := albums + [albumData];
      assert raw[..i + 1][..i] == raw[..i];
    }
    assert raw[..|raw|] == raw;
  }

  /**
   * The i-th song and the i-th album both come from the i-th record: one of
   * each per record, the song keyed by name and artist, the album by album
   * name and artist, the song's album naming the album row, both with the
   * record's artist, and the album dated with the run's date. The song's album and the album row's
   * name are both the record's album.
   */
  lemma TransformPairsRecords(raw: seq<PlayRecord>, today: Date)
    ensures |SongsOf(raw)| == |raw| && |AlbumsOf(raw, today)| == |raw|
    ensures forall i :: 0 <= i < |raw| ==>
      var s, a := SongsOf(raw)[i], AlbumsOf(raw, today)[i];
      && s.id == CompositeKey(raw[i].name, raw[i].artist)
      && s.name == raw[i].name && s.playedAt == raw[i].playedAt
      && a.id == CompositeKey(raw[i].album, raw[i].artist)
      && s.album == a.name == raw[i].album && s.artist == a.artist == raw[i].artist
      && a.releaseDate == today
  {
  }

  /** Identifiers are deterministic: records with the same name and artist get the same song id, records with the same album and artist the same album id. */
  lemma SameFieldsSameIds(raw: seq<PlayRecord>, today: Date)
    ensures forall i, j | 0 <= i < |raw| && 0 <= j < |raw| ::
              raw[i].name == raw[j].name && raw[i].artist == raw[j].artist
              ==> SongsOf(raw)[i].id == SongsOf(raw)[j].id
    ensures forall i, j | 0 <= i < |raw| && 0 <= j < |raw| ::
              raw[i].album == raw[j].album && raw[i].artist == raw[j].artist
              ==> AlbumsOf(raw, today)[i].id == AlbumsOf(raw, today)[j].id
  {
  }

  /** When an identifier is split at its last underscore, the part after it is the artist, provided the artist has no underscore. */
  lemma LongerArtistHoldsUnderscore(first: string, artist: string, first': string, artist': string)
    requires CompositeKey(first, artist) == CompositeKey(first', artist')
    ensures |artist| < |artist'| ==> '_' in artist'
  {
    if |artist| < |artist'| {
      var s := CompositeKey(first, artist);
      var p := |first|;
      assert s[p] == '_';
      assert s == first' + "_" + artist';
      assert p > |first'|;
      assert s[p] == artist'[p - |first'| - 1];
    }
  }

  /** The composite key determines the name and the artist when artists contain no underscore. */
  lemma CompositeKeyInjective(first: string, artist: string, first': string, artist': string)
    requires '_' !in artist && '_' !in artist'
    ensures CompositeKey(first, artist) == CompositeKey(first', artist') <==> first == first' && artist == artist'
  {
    if CompositeKey(first, artist) == CompositeKey(first', artist') {
      var s := CompositeKey(first, artist);
      LongerArtistHoldsUnderscore(first, artist, first', artist');
      LongerArtistHoldsUnderscore(first', artist', first, artist);
      assert |first| == |first'|;
      assert first == s[..|first|] && first' == s[..|first'|];
      assert artist == s[|first| + 1..] && artist' == s[|first'| + 1..];
    }
  }

  /** Without that proviso the key is ambiguous: two different name/artist pairs share one identifier. */
  lemma CompositeKeyCollision()
    ensures ("a_b", "c") != ("a", "b_c")
    ensures CompositeKey("a_b", "c") == CompositeKey("a", "b_c")
  {
  }

  /** A worked example: one record yields the song id "Song A_Artist X" and the album id "Album Y_Artist X". */
  lemma TransformExample(today: Date)
    ensures var raw := [PlayRecord("Song A", "Artist X", "Album Y", "2024-06-01T10:00:00")];
      SongsOf(raw) == [Song("Song A_Artist X", "Song A", "Artist X", "Album Y", "2024-06-01T10:00:00")]
      && AlbumsOf(raw, today) == [Album("Album Y_Artist X", "Album Y", "Artist X", today)]
  {
    var raw := [PlayRecord("Song A", "Artist X", "Album Y", "2024-06-01T10:00:00")];
    assert CompositeKey("Song A", "Artist X") == "Song A_Artist X";
    assert CompositeKey("Album Y", "Artist X") == "Album Y_Artist X";
    assert SongsOf(raw)[0] == SongOf(raw[0]);
    assert AlbumsOf(raw, today)[0] == AlbumOf(raw[0], today);
  }
}
