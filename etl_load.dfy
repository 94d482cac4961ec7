/**
 * The loader: make sure the `staging` and `main` schemas and their `songs`
 * and `albums` tables exist, upsert the batch into the staging tables row by
 * row, then merge each staging table into its main table.
 *
 * The store is modelled as sets of schema and table names and one map per
 * table from primary key to row. Connections, cursors, commits, SQL text and
 * failures of the store are not modelled.
 */
module EtlLoad {
  import opened Records
  import opened Upsert

  const SchemaNames: seq<string> := ["staging", "main"]
  const StagingSongsTable := "staging.songs"
  const StagingAlbumsTable := "staging.albums"
  const MainSongsTable := "main.songs"
  const MainAlbumsTable := "main.albums"
  const TableNames: seq<string> := [StagingSongsTable, StagingAlbumsTable, MainSongsTable, MainAlbumsTable]

  const Schemas: set<string> := {"staging", "main"}
  const Tables: set<string> := {StagingSongsTable, StagingAlbumsTable, MainSongsTable, MainAlbumsTable}

  /** A snapshot of the store. */
  datatype Db = Db(
    schemas: set<string>, tables: set<string>,
    stagingSongs: map<string, Song>, stagingAlbums: map<string, Album>,
    mainSongs: map<string, Song>, mainAlbums: map<string, Album>)

  /** A table that does not exist holds no rows, and every row sits under its own primary key. */
  ghost predicate Consistent(db: Db)
  {
    && (StagingSongsTable !in db.tables ==> db.stagingSongs == map[])
    && (StagingAlbumsTable !in db.tables ==> db.stagingAlbums == map[])
    && (MainSongsTable !in db.tables ==> db.mainSongs == map[])
    && (MainAlbumsTable !in db.tables ==> db.mainAlbums == map[])
    && KeyedBy(db.stagingSongs, SongRowKey) && KeyedBy(db.stagingAlbums, AlbumRowKey)
    && KeyedBy(db.mainSongs, SongRowKey) && KeyedBy(db.mainAlbums, AlbumRowKey)
  }

  /** `CREATE SCHEMA IF NOT EXISTS` for both schemas. */
  function CreateSchemas(db: Db): Db
  {
    db.(schemas := db.schemas + Schemas)
  }

  /** `CREATE TABLE IF NOT EXISTS` for the four tables; a table that exists keeps its rows. */
  function CreateTables(db: Db): Db
    requires Schemas <= db.schemas
  {
    db.(tables := db.tables + Tables)
  }

  /** The two upsert loops into the staging tables. */
  function LoadStaging(db: Db, songs: seq<Song>, albums: seq<Album>): Db
  {
    db.(stagingSongs := Apply(db.stagingSongs, songs, SongRowKey),
        stagingAlbums := Apply(db.stagingAlbums, albums, AlbumRowKey))
  }

  /** The two `INSERT ... SELECT ... ON DUPLICATE KEY UPDATE` statements from staging into main. */
  function Propagate(db: Db): Db
  {
    db.(mainSongs := Merge(db.mainSongs, db.stagingSongs),
        mainAlbums := Merge(db.mainAlbums, db.stagingAlbums))
  }

  /** The whole loader. */
  function Load(db: Db, songs: seq<Song>, albums: seq<Album>): Db
  {
    Propagate(LoadStaging(CreateTables(CreateSchemas(db)), songs, albums))
  }

  /** Creating schemas and tables a second time changes nothing, and creation never touches a row. */
  lemma CreationIsIdempotent(db: Db)
    ensures CreateSchemas(CreateSchemas(db)) == CreateSchemas(db)
    ensures CreateTables(CreateTables(CreateSchemas(db))) == CreateTables(CreateSchemas(db))
    ensures CreateTables(CreateSchemas(db)).(schemas := db.schemas, tables := db.tables) == db
  {
  }

  /** The loader keeps the store consistent and leaves both schemas and all four tables in place. */
  lemma LoadKeepsConsistent(db: Db, songs: seq<Song>, albums: seq<Album>)
    requires Consistent(db)
    ensures Consistent(Load(db, songs, albums))
    ensures Schemas <= Load(db, songs, albums).schemas && Tables <= Load(db, songs, albums).tables
  {
    var d := LoadStaging(CreateTables(CreateSchemas(db)), songs, albums);
    ApplyKeepsKeyedBy(db.stagingSongs, songs, SongRowKey);
    ApplyKeepsKeyedBy(db.stagingAlbums, albums, AlbumRowKey);
    MergeKeepsKeyedBy(d.mainSongs, d.stagingSongs, SongRowKey);
    MergeKeepsKeyedBy(d.mainAlbums, d.stagingAlbums, AlbumRowKey);
  }

  /** After the staging load, the staging key sets are the old key sets together with the batch's ids. */
  lemma LoadStagingKeys(db: Db, songs: seq<Song>, albums: seq<Album>)
    ensures LoadStaging(db, songs, albums).stagingSongs.Keys == db.stagingSongs.Keys + BatchKeys(songs, SongRowKey)
    ensures LoadStaging(db, songs, albums).stagingAlbums.Keys == db.stagingAlbums.Keys + BatchKeys(albums, AlbumRowKey)
  {
    ApplyKeys(db.stagingSongs, songs, SongRowKey);
    ApplyKeys(db.stagingAlbums, albums, AlbumRowKey);
  }

  /** Propagating staging into main a second time changes nothing. */
  lemma PropagateIdempotent(db: Db)
    ensures Propagate(Propagate(db)) == Propagate(db)
  {
    MergeIdempotent(db.mainSongs, db.stagingSongs);
    MergeIdempotent(db.mainAlbums, db.stagingAlbums);
  }

  /** Running the loader twice with the same batch leaves the store as running it once does. */
  lemma LoadIdempotent(db: Db, songs: seq<Song>, albums: seq<Album>)
    ensures Load(Load(db, songs, albums), songs, albums) == Load(db, songs, albums)
  {
    var once := Load(db, songs, albums);
    var created := CreateTables(CreateSchemas(once));
    assert created == once;
    ApplyIdempotent(CreateTables(CreateSchemas(db)).stagingSongs, songs, SongRowKey);
    ApplyIdempotent(CreateTables(CreateSchemas(db)).stagingAlbums, albums, AlbumRowKey);
    var staged := LoadStaging(created, songs, albums);
    assert staged == once;
    PropagateIdempotent(LoadStaging(CreateTables(CreateSchemas(db)), songs, albums));
  }

  /** The store the job writes to. */
  class Database {
    var schemas: set<string>
    var tables: set<string>
    var stagingSongs: map<string, Song>
    var stagingAlbums: map<string, Album>
    var mainSongs: map<string, Song>
    var mainAlbums: map<string, Album>

    function State(): Db
      reads this
    {
      Db(schemas, tables, stagingSongs, stagingAlbums, mainSongs, mainAlbums)
    }

    /** The store invariant (Consistent) that every method keeps; it is an invariant only, and no result depends on it. */
    ghost predicate Valid()
      reads this
    {
      Consistent(State())
    }

    /** A store in the given state. */
    constructor (initial: Db)
      requires Consistent(initial)
      ensures Valid() && State() == initial
    {
      schemas, tables := initial.schemas, initial.tables;
      stagingSongs, stagingAlbums := initial.stagingSongs, initial.stagingAlbums;
      mainSongs, mainAlbums := initial.mainSongs, initial.mainAlbums;
    }

    /** Run `CREATE SCHEMA IF NOT EXISTS` for each schema in turn. */
    method CreateSchemasIfNotExist()
      requires Valid()
      modifies this`schemas
      ensures Valid() && State() == CreateSchemas(old(State()))
    {
      for i := 0 to |SchemaNames|
        invariant schemas == old(schemas) + set j | 0 <= j < i :: SchemaNames[j]
      {
        schemas := schemas + {SchemaNames[i]};
      }
      assert (set j | 0 <= j < |SchemaNames| :: SchemaNames[j]) == Schemas by {
        assert SchemaNames[0] == "staging" && SchemaNames[1] == "main";
      }
    }

    /** Run `CREATE TABLE IF NOT EXISTS` for each table in turn. */
    method CreateTablesIfNotExist()
      requires Valid() && Schemas <= schemas
      modifies this`tables
      ensures Valid() && State() == CreateTables(old(State()))
    {
      for i := 0 to |TableNames|
        invariant tables == old(tables) + set j | 0 <= j < i :: TableNames[j]
        invariant Valid()
      {
        tables := tables + {TableNames[i]};
      }
      assert (set j | 0 <= j < |TableNames| :: TableNames[j]) == Tables by {
        assert TableNames[0] == StagingSongsTable && TableNames[1] == StagingAlbumsTable;
        assert TableNames[2] == MainSongsTable && TableNames[3] == MainAlbumsTable;
      }
    }

    /** Upsert each song into `staging.songs`, in order. */
    method UpsertSongs(songs: seq<Song>)
      requires Valid() && StagingSongsTable in tables
      modifies this`stagingSongs
      ensures Valid() && stagingSongs == Apply(old(stagingSongs), songs, SongRowKey)
    {
      for i := 0 to |songs|
        invariant stagingSongs == Apply(old(stagingSongs), songs[..i], SongRowKey)
      {
        stagingSongs := stagingSongs[songs[i].id := songs[i]];
        assert songs[..i + 1][..i] == songs[..i];
      }
      assert songs[..|songs|] == songs;
      ApplyKeepsKeyedBy(old(stagingSongs), songs, SongRowKey);
    }

    /** Upsert each album into `staging.albums`, in order. */
    method UpsertAlbums(albums: seq<Album>)
      requires Valid() && StagingAlbumsTable in tables
      modifies this`stagingAlbums
      ensures Valid() && stagingAlbums == Apply(old(stagingAlbums), albums, AlbumRowKey)
    {
      for i := 0 to |albums|
        invariant stagingAlbums == Apply(old(stagingAlbums), albums[..i], AlbumRowKey)
      {
        stagingAlbums := stagingAlbums[albums[i].id := albums[i]];
        assert albums[..i + 1][..i] == albums[..i];
      }
      assert albums[..|albums|] == albums;
      ApplyKeepsKeyedBy(old(stagingAlbums), albums, AlbumRowKey);
    }

    /** Merge each staging table into its main table. */
    method PropagateToMain()
      requires Valid() && MainSongsTable in tables && MainAlbumsTable in tables
      modifies this`mainSongs, this`mainAlbums
      ensures Valid() && State() == Propagate(old(State()))
    {
      MergeKeepsKeyedBy(mainSongs, stagingSongs, SongRowKey);
      MergeKeepsKeyedBy(mainAlbums, stagingAlbums, AlbumRowKey);
      mainSongs := Merge(mainSongs, stagingSongs);
      mainAlbums := Merge(mainAlbums, stagingAlbums);
    }

    /** `load_to_staging`: create what is missing, fill staging, then propagate to main. */
    method LoadToStaging(songs: seq<Song>, albums: seq<Album>)
      requires Valid()
      modifies this
      ensures Valid() && State() == Load(old(State()), songs, albums)
    {
      CreateSchemasIfNotExist();
      CreateTablesIfNotExist();
      UpsertSongs(songs);
      UpsertAlbums(albums);
      PropagateToMain();
    }
  }
}
