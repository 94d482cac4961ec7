# Spotify daily ETL job — a Dafny model

The job pulls a user's recently played tracks from the streaming provider. It keeps the plays of the current day and reshapes each play into a song row and an album row. It then upserts those rows into a `staging` schema and merges staging into a `main` schema. This project models the four pieces of logic in that job:

- **Access-token lifecycle** (`SpotifyHook`, file `spotify_hook.dfy`). The hook is a class holding the provider settings, the access token and its expiry instant. Pure functions (`Expired`, `NeedsRefresh`, `Refreshed`, `AfterGet`) state the state machine. `Hook.RefreshAccessToken` and `Hook.GetAccessToken` are proved against them. A ghost counter on the hook counts refreshes so that "exactly one refresh" can be stated.
- **"Played today" filter** (`SpotifyHook.CollectPlayedToday`). A loop builds a Track from each fetched item and keeps, in order, those whose timestamp string starts with today's date string. `KeepPlayedOn` specifies it.
- **Record reshaping** (`EtlDag`, file `spotify_etl_dag.dfy`; `EtlTransform`, file `etl_transform.dfy`). `Extract` drops the URL. `Transform` builds composite ids `name_artist` and `album_artist`. `TransformTracks` is the second mapper, `transform_tracks`, modelled over a record that has the attributes it reads.
- **Upsert loader** (`Upsert`, file `upsert.dfy`; `EtlLoad`, file `etl_load.dfy`). Each table is a map from primary key to row. `INSERT … ON DUPLICATE KEY UPDATE` is a map update, so within a batch the last row with a given key wins. The staging→main step is a map merge in which staging wins. The class `EtlLoad.Database` runs the loops, and each of its methods is proved against a function on a `Db` snapshot.

`Pipeline` (file `pipeline.dfy`) chains transform and load. `Basics` and `Records` hold the shared value types.

Time is a whole number of seconds. The current instant, today's date string and the run's date are parameters. So are the provider's refresh answer `TokenInfo(accessToken, expiresIn)` and the fetched items.

In these places the model follows the code as written:
- The filter compares date strings against the process's local date (`datetime.today()`), not a UTC calendar date. The date string is therefore a parameter.
- An item with an empty artist list makes `track['artists'][0]` raise. This is modelled as `Failure(MissingArtist(i))`.
- "One refresh, then none before expiry" holds only when the provider's token is non-empty. An empty token is refreshed on every call (`not self.access_token`), so `RefreshOnceThenReuse` requires a non-empty token.
- The composite id is deterministic but not injective: `("a_b", "c")` and `("a", "b_c")` share an id (`CompositeKeyCollision`). It determines name and artist only when the artist has no underscore (`CompositeKeyInjective`).
- `transform_tracks` reads `track_id`, `track_name`, `artist_name`, `album_name`, `album_id` and `album_release_date`. The hook's `Track` defines none of these; only `played_at` matches. Called on the hook's Tracks it would raise on the first track. The DAG imports it but never calls it. It is modelled over `EtlTransform.RawTrack`, which has exactly the fields it reads.
- Staging tables are never emptied, so each run's main merge re-copies every staging row ever loaded. The model keeps this.

## Model

| member | source | states |
|---|---|---|
| SpotifyHook.FreshHookNeedsRefresh | dags/common/hooks/SpotifyHook.py:73-75 | with no expiry stored (the state after construction) the token counts as expired and getting one refreshes |
| SpotifyHook.ExpiryIsStrict | dags/common/hooks/SpotifyHook.py:73-74 | with an expiry stored, the token is expired exactly when now > expiry; it is still valid at the expiry instant and expired one second later |
| SpotifyHook.RefreshedServesUntilExpiry | dags/common/hooks/SpotifyHook.py:43-44 | a refreshed non-empty token needs no further refresh at a later instant if and only if that instant is at most refresh time + expires_in |
| SpotifyHook.GetRefreshesOnlyWhenNeeded | dags/common/hooks/SpotifyHook.py:62-67 | getting a token refreshes when the token is empty or expired, and otherwise leaves the state unchanged |
| SpotifyHook.GetLeavesUsableToken | dags/common/hooks/SpotifyHook.py:57-67 | if the provider answers with a non-empty token and a non-negative lifetime, the token held after a get is usable at that instant |
| SpotifyHook.NoRefreshWhileValid | dags/common/hooks/SpotifyHook.py:57-67 | any series of gets no later than a non-empty token's expiry makes zero refreshes and leaves the state as it was |
| SpotifyHook.RefreshOnceThenReuse | dags/common/hooks/SpotifyHook.py:57-67 | from a fresh hook, the first get refreshes once; further gets up to that token's expiry add no refresh; the first get after the expiry adds exactly one |
| SpotifyHook.Expired | dags/common/hooks/SpotifyHook.py:69-75 | a token with no stored expiry is expired; otherwise it is expired exactly when now is strictly after the expiry |
| SpotifyHook.Hook.TokenExpired | dags/common/hooks/SpotifyHook.py:69-75 | the expiry test on the hook's own token state |
| SpotifyHook.KeepPlayedOn | dags/common/hooks/SpotifyHook.py:103-105 | the specification of the filter: the input's tracks whose played_at starts with today's date string, in input order |
| EtlDag.CompositeKey | dags/spotify_etl_dag.py:45-54 | the identifier: the first field, an underscore, then the artist |
| Upsert.Apply | dags/etl/load.py:70-87 | the table after the statements of a batch are run in order, each replacing or adding the row under its key |
| EtlLoad.Load | dags/etl/load.py:58-96 | the loader as a function of the store: create schemas, create tables, upsert both batches into staging, merge staging into main |
| SpotifyHook.Hook.constructor | dags/common/hooks/SpotifyHook.py:23-30 | settings are the given configuration values; access token is empty, no expiry, no refresh made |
| SpotifyHook.Hook.RefreshAccessToken | dags/common/hooks/SpotifyHook.py:32-46 | stores the provider's token and now + expires_in as expiry, returns the new token, counts one refresh, changes no setting |
| SpotifyHook.Hook.GetAccessToken | dags/common/hooks/SpotifyHook.py:57-67 | new state is the refreshed state if the old token was empty or expired and the old state otherwise; one refresh counted exactly in the first case; returns the stored token; settings unchanged |
| SpotifyHook.Hook.GetRecentlyPlayed | dags/common/hooks/SpotifyHook.py:77-107 | token state as for a get; succeeds exactly when every fetched item has an artist, and then returns the fetched tracks played today, in order |
| SpotifyHook.CollectPlayedToday | dags/common/hooks/SpotifyHook.py:90-107 | succeeds exactly when every item has an artist and returns the tracks built from the items, filtered to today, in order; on failure names the first item without an artist |
| SpotifyHook.KeepPlayedOnMembers | dags/common/hooks/SpotifyHook.py:103-105 | a track is kept if and only if it was given and its played_at starts with today's date string |
| SpotifyHook.KeepPlayedOnLength | dags/common/hooks/SpotifyHook.py:94-105 | the filter never returns more tracks than were fetched |
| SpotifyHook.KeepPlayedOnInOrder | dags/common/hooks/SpotifyHook.py:94-105 | the kept tracks are found at strictly increasing positions of the input, and those positions are exactly the positions whose track was played today, so every such play is kept, repeats included, in input order |
| SpotifyHook.KeepPlayedOnIdempotent | dags/common/hooks/SpotifyHook.py:103-105 | filtering the filtered list again changes nothing |
| SpotifyHook.TodayFilterExample | dags/common/hooks/SpotifyHook.py:104 | with today "2024-06-01", a play at 2024-06-01T10:00:00 is kept and one at 2024-05-31T23:59:00 is dropped |
| EtlDag.Extract | dags/spotify_etl_dag.py:20-28 | one record per track, in the same order, the i-th record carrying the i-th track's name, artist, album and played_at |
| EtlDag.ExtractKeepsAllButUrl | dags/spotify_etl_dag.py:20-28 | two track lists extract to the same records if and only if they have equal length and agree position by position on name, artist, album and played_at (the URL is dropped) |
| EtlDag.Transform | dags/spotify_etl_dag.py:39-61 | the loop's two output lists are exactly the song rows and the album rows of the records, in order |
| EtlDag.TransformPairsRecords | dags/spotify_etl_dag.py:42-61 | one song and one album per record; the i-th song has id name_artist and the record's name and played_at; the i-th album has id album_artist; the song's album and the album's name are both the record's album; both carry the record's artist; the release date is the run's date |
| EtlDag.SameFieldsSameIds | dags/spotify_etl_dag.py:44-58 | records with equal name and artist get equal song ids; records with equal album and artist get equal album ids |
| EtlDag.CompositeKeyInjective | dags/spotify_etl_dag.py:45 | when neither artist contains an underscore, two composite ids are equal if and only if names and artists are equal |
| EtlDag.CompositeKeyCollision | dags/spotify_etl_dag.py:45 | two different name/artist pairs can share one composite id |
| EtlDag.TransformExample | dags/spotify_etl_dag.py:44-58 | "Song A" by "Artist X" on "Album Y" yields song id "Song A_Artist X" and album id "Album Y_Artist X" |
| EtlTransform.TransformTracks | dags/etl/transform.py:7-41 | both output lists have the input's length (so empty input gives two empty lists), and the i-th song and album are built from the i-th raw track |
| EtlTransform.RowsOfOneTrackAgree | dags/etl/transform.py:18-32 | the song's album is the album row's name; both rows carry the track's artist; song id is track_id and album id is album_id, verbatim |
| EtlTransform.SharedIdsShareKeys | dags/etl/transform.py:19-28 | two tracks give song rows with the same key if and only if their track ids agree, and album rows with the same key if and only if their album ids agree |
| Upsert.Merge | dags/etl/load.py:93-94 | the merged table has main's keys and staging's keys; every staging row is in main unchanged; main rows whose keys staging lacks are unchanged |
| Upsert.ApplyKeys | dags/etl/load.py:70-87 | after a batch upsert the table's keys are its old keys together with the batch's keys |
| Upsert.ApplyLeavesOthers | dags/etl/load.py:70-87 | a key the batch does not write is neither added, removed nor changed |
| Upsert.ApplyLastWriteWins | dags/etl/load.py:70-87 | each batch row that no later batch row overrides is the row stored under its key |
| Upsert.ApplyIsMerge | dags/etl/load.py:70-87 | a batch upsert equals merging the batch, taken as a table of its own, into the table |
| Upsert.ApplyIdempotent | dags/etl/load.py:70-87 | upserting the same batch twice leaves the table as upserting it once does |
| Upsert.ApplyConcat | dags/etl/load.py:70-87 | two batches run one after the other act as their concatenation |
| Upsert.ApplyKeepsKeyedBy | dags/etl/load.py:70-87 | if every row sits under its own primary key before a batch, the same holds after it |
| Upsert.MergeIdempotent | dags/etl/load.py:93-94 | merging the same staging table twice gives the same main table as merging once |
| Upsert.MergeKeepsKeyedBy | dags/etl/load.py:93-94 | merging keeps every row under its own primary key |
| EtlLoad.CreationIsIdempotent | dags/etl/load.py:4-56 | creating schemas and tables a second time changes nothing, and creation never touches a row |
| EtlLoad.LoadKeepsConsistent | dags/etl/load.py:58-96 | the loader keeps the store consistent (missing tables hold no rows; rows keyed by id) and leaves both schemas and all four tables in place |
| EtlLoad.LoadStagingKeys | dags/etl/load.py:69-87 | after the staging load each staging table's key set is its previous key set together with the batch's ids |
| EtlLoad.PropagateIdempotent | dags/etl/load.py:92-94 | repeating the staging→main propagation changes nothing |
| EtlLoad.LoadIdempotent | dags/etl/load.py:58-96 | running the whole loader twice with the same songs and albums leaves the store as running it once |
| EtlLoad.Database.CreateSchemasIfNotExist | dags/etl/load.py:4-14 | the loop over the two statements adds both schemas and changes nothing else |
| EtlLoad.Database.CreateTablesIfNotExist | dags/etl/load.py:16-56 | the loop over the four statements adds all four tables and keeps every existing row |
| EtlLoad.Database.UpsertSongs | dags/etl/load.py:69-77 | staging songs become the batch upsert of the songs, in order, into the old staging songs; other tables unchanged |
| EtlLoad.Database.UpsertAlbums | dags/etl/load.py:79-87 | staging albums become the batch upsert of the albums, in order, into the old staging albums; other tables unchanged |
| EtlLoad.Database.PropagateToMain | dags/etl/load.py:92-95 | each main table becomes the merge of its staging table into it |
| EtlLoad.Database.LoadToStaging | dags/etl/load.py:58-96 | the store's new state is the loader's function of the old state, and consistency is kept |
| Pipeline.DuplicatedBatchIsNoOp | dags/etl/load.py:69-94 | transforming and loading a batch followed by a copy of itself stores exactly what the batch alone stores |
| Pipeline.RerunIsNoOp | dags/spotify_etl_dag.py:76-82 | re-running transform and load on the same extracted batch leaves the store unchanged |
| Pipeline.RunOnEmptyStore | dags/etl/load.py:69-94 | on an empty store, staging is keyed by exactly the batch's ids and main ends up equal to staging |
| Pipeline.ThreePlaysIds | dags/spotify_etl_dag.py:44-58 | three plays of three songs by one artist, two on one album, give three distinct song ids and two distinct album ids |
| Pipeline.ThreePlaysTwoAlbums | dags/spotify_etl_dag.py:76-82 | those three plays loaded into an empty store give three song rows and two album rows, in staging and in main |

## Left out

- The OAuth exchange and the "recently played" HTTP call. The provider's answer and the fetched items are parameters; a failed exchange or fetch is not modelled.
- The clock. One `now` stands for both of the hook's clock reads (the expiry test and the refresh each read the clock). One run date stands for the per-record `datetime.now().date()` reads in `transform`, so a run crossing midnight is not modelled. Time is in whole seconds rather than microseconds.
- The local-date versus UTC question in the filter. Today's date string is a parameter, and only the string prefix test is modelled.
- Missing keys in a fetched item (`KeyError`). Only the empty artist list is modelled as an error.
- `store_access_token`, logging and debug printing: they only print.
- `dags/etl/extract.py`. It only wraps the hook in log-and-re-raise.
- The Airflow DAG: operators, message passing between tasks, retries, the schedule, and a `None` batch coming back from a task.
- The MySQL connection, cursors, commits and transactions, SQL parsing, and store failures. Column types are not modelled either: `VARCHAR(255)` length limits and the conversion of `played_at` strings to `DATETIME`. Rows keep the strings as given.
- Key collation. Primary keys are compared as exact strings. The store compares `VARCHAR` keys under the column's collation, which by default ignores case (and, depending on the collation, accents and trailing spaces), and a colliding row keeps its old `id` because `id` is in no update list. Two ids that differ only in this way are two rows in the model and one row in the store, and `CompositeKeyInjective` speaks of exact string equality.
- EtlLoad.Database.CreateTablesIfNotExist: requires both schemas to exist instead of modelling the store's error for a missing schema. The loader always creates the schemas first.
- SpotifyHook.Hook.GetRecentlyPlayed: on failure it states only that some item lacks an artist. `CollectPlayedToday`, which it calls, names the first such item.
