/**
 * `transform_tracks`, the second mapper of raw tracks to song and album rows.
 * It reads a track's `track_id`, `track_name`, `artist_name`, `album_name`,
 * `played_at`, `album_id` and `album_release_date`, so it is modelled over a
 * record with exactly those fields. The hook's Track has none of them except
 * `played_at`, and the job's own `transform` step does not call this mapper.
 */
module EtlTransform {
  import opened Basics
  import opened Records

  /** The attributes `transform_tracks` reads from each raw track. */
  datatype RawTrack = RawTrack(
    trackId: string, trackName: string, artistName: string, albumName: string,
    playedAt: string, albumId: string, albumReleaseDate: Date)

  /** The song row for one raw track: its id is the track id, copied verbatim. */
  function SongFor(t: RawTrack): Song
  {
    Song(t.trackId, t.trackName, t.artistName, t.albumName, t.playedAt)
  }

  /** The album row for one raw track: its id is the album id, copied verbatim. */
  function AlbumFor(t: RawTrack): Album
  {
    Album(t.albumId, t.albumName, t.artistName, t.albumReleaseDate)
  }

  /** The loop over the raw tracks, appending one song and one album per track to two parallel lists. */
  method TransformTracks(raw: seq<RawTrack>) returns (songs: seq<Song>, albums: seq<Album>)
    ensures |songs| == |raw| && |albums| == |raw|
    ensures forall i :: 0 <= i < |raw| ==> songs[i] == SongFor(raw[i]) && albums[i] == AlbumFor(raw[i])
  {
    songs, albums := [], [];
    for i := 0 to |raw|
      invariant |songs| == i && |albums| == i
      invariant forall k :: 0 <= k < i ==> songs[k] == SongFor(raw[k]) && albums[k] == AlbumFor(raw[k])
    {
      var track := raw[i];
      var songData := Song(track.trackId, track.trackName, track.artistName, track.albumName, track.playedAt);
      var albumData := Album(track.albumId, track.albumName, track.artistName, track.albumReleaseDate);
      songs := songs + [songData];
      albums := albums + [albumData];
    }
  }

  /**
   * The song and album made from one track belong together: the song's album
   * is the album row's name, both carry the track's artist, and the ids are the
   * track's ids unchanged.
   */
  lemma RowsOfOneTrackAgree(t: RawTrack)
    ensures SongFor(t).album == AlbumFor(t).name
    ensures SongFor(t).artist == AlbumFor(t).artist == t.artistName
    ensures SongFor(t).id == t.trackId && AlbumFor(t).id == t.albumId
  {
  }

  /** Tracks that share a track id give song rows with one key, and tracks that share an album id give album rows with one key. */
  lemma SharedIdsShareKeys(t: RawTrack, u: RawTrack)
    ensures t.trackId == u.trackId <==> SongRowKey(SongFor(t)) == SongRowKey(SongFor(u))
    ensures t.albumId == u.albumId <==> AlbumRowKey(AlbumFor(t)) == AlbumRowKey(AlbumFor(u))
  {
  }
}
