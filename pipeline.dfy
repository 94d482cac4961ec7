/**
 * Properties of the three tasks chained: extract, then transform, then load.
 */
module Pipeline {
  import opened Basics
  import opened Records
  import opened Upsert
  import EtlDag
  import EtlLoad

  /** A store with no schema, no table and no row. */
  const EmptyStore := EtlLoad.Db({}, {}, map[], map[], map[], map[])

  /** The store after transforming and loading one batch of extracted records. */
  function RunOnce(db: EtlLoad.Db, raw: seq<EtlDag.PlayRecord>, today: Date): EtlLoad.Db
  {
    EtlLoad.Load(db, EtlDag.SongsOf(raw), EtlDag.AlbumsOf(raw, today))
  }

  /** Play events that arrive twice in one batch are stored once: the rows are what the events arriving once give. */
  lemma DuplicatedBatchIsNoOp(db: EtlLoad.Db, raw: seq<EtlDag.PlayRecord>, today: Date)
    ensures RunOnce(db, raw + raw, today) == RunOnce(db, raw, today)
  {
    var s, a := EtlDag.SongsOf(raw), EtlDag.AlbumsOf(raw, today);
    assert EtlDag.SongsOf(raw + raw) == s + s;
    assert EtlDag.AlbumsOf(raw + raw, today) == a + a;
    var c := EtlLoad.CreateTables(EtlLoad.CreateSchemas(db));
    ApplyConcat(c.stagingSongs, s, s, SongRowKey);
    ApplyIdempotent(c.stagingSongs, s, SongRowKey);
    ApplyConcat(c.stagingAlbums, a, a, AlbumRowKey);
    ApplyIdempotent(c.stagingAlbums, a, AlbumRowKey);
  }

  /** Re-running the whole day's batch on the store it produced changes nothing. */
  lemma RerunIsNoOp(db: EtlLoad.Db, raw: seq<EtlDag.PlayRecord>, today: Date)
    ensures RunOnce(RunOnce(db, raw, today), raw, today) == RunOnce(db, raw, today)
  {
    EtlLoad.LoadIdempotent(db, EtlDag.SongsOf(raw), EtlDag.AlbumsOf(raw, today));
  }

  /** On an empty store, staging and main end up alike, keyed by exactly the batch's song ids and album ids. */
  lemma RunOnEmptyStore(raw: seq<EtlDag.PlayRecord>, today: Date)
    ensures var db := RunOnce(EmptyStore, raw, today);
      && db.stagingSongs.Keys == BatchKeys(EtlDag.SongsOf(raw), SongRowKey)
      && db.stagingAlbums.Keys == BatchKeys(EtlDag.AlbumsOf(raw, today), AlbumRowKey)
      && db.mainSongs == db.stagingSongs && db.mainAlbums == db.stagingAlbums
  {
    var c := EtlLoad.CreateTables(EtlLoad.CreateSchemas(EmptyStore));
    ApplyKeys(c.stagingSongs, EtlDag.SongsOf(raw), SongRowKey);
    ApplyKeys(c.stagingAlbums, EtlDag.AlbumsOf(raw, today), AlbumRowKey);
  }

  /** Three plays of three different songs by one artist, the first two from one album. */
  const ThreePlays := [
    EtlDag.PlayRecord("One", "X", "First", "2024-06-01T08:00:00"),
    EtlDag.PlayRecord("Two", "X", "First", "2024-06-01T09:00:00"),
    EtlDag.PlayRecord("Three", "X", "Second", "2024-06-01T10:00:00")]

  /** Those three plays carry three distinct song ids and two distinct album ids. */
  lemma ThreePlaysIds(today: Date)
    ensures |BatchKeys(EtlDag.SongsOf(ThreePlays), SongRowKey)| == 3
    ensures |BatchKeys(EtlDag.AlbumsOf(ThreePlays, today), AlbumRowKey)| == 2
  {
    var s, a := EtlDag.SongsOf(ThreePlays), EtlDag.AlbumsOf(ThreePlays, today);
    assert BatchKeys(s, SongRowKey) == {"One_X", "Two_X", "Three_X"} by {
      assert s[0].id == "One_X" && s[1].id == "Two_X" && s[2].id == "Three_X";
    }
    assert BatchKeys(a, AlbumRowKey) == {"First_X", "Second_X"} by {
      assert a[0].id == "First_X" && a[1].id == "First_X" && a[2].id == "Second_X";
    }
    assert |{"One_X", "Two_X", "Three_X"}| == 3 by {
      assert "One_X"[0] != "Two_X"[0] && "One_X"[0] != "Three_X"[0] && "Two_X"[1] != "Three_X"[1];
    }
    assert |{"First_X", "Second_X"}| == 2 by {
      assert "First_X"[0] != "Second_X"[0];
    }
  }

  /** Loading those three plays into an empty store gives three song rows and two album rows, in staging and in main. */
  lemma ThreePlaysTwoAlbums(today: Date)
    ensures var db := RunOnce(EmptyStore, ThreePlays, today);
      && |db.stagingSongs| == 3 && |db.mainSongs| == 3
      && |db.stagingAlbums| == 2 && |db.mainAlbums| == 2
  {
    RunOnEmptyStore(ThreePlays, today);
    ThreePlaysIds(today);
  }
}
