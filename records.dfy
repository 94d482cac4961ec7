/** The two row shapes the job writes: one song per play event, one album per play event. */
module Records {
  import opened Basics

  /** A row of the `songs` tables; `id` is the primary key. */
  datatype Song = Song(id: string, name: string, artist: string, album: string, playedAt: string)

  /** A row of the `albums` tables; `id` is the primary key. */
  datatype Album = Album(id: string, name: string, artist: string, releaseDate: Date)

  /** The primary key of a song row. */
  function SongRowKey(s: Song): string
  {
    s.id
  }

  /** The primary key of an album row. */
  function AlbumRowKey(a: Album): string
  {
    a.id
  }
}
