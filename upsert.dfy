/**
 * A table keyed by its primary key, and the effect on it of
 * `INSERT ... ON DUPLICATE KEY UPDATE` with every non-key column in the
 * update list: the row with the new row's key, if any, is replaced by the new
 * row, otherwise the new row is added. A batch of such statements runs in
 * order, so within a batch the last row with a given key wins.
 */
module Upsert {

  /** The table after upserting `rows`, first to last, into `t`. */
  function Apply<R>(t: map<string, R>, rows: seq<R>, key: R -> string): map<string, R>
    decreases |rows|
  {
    if rows == [] then t
    else
      var last := rows[|rows| - 1];
      Apply(t, rows[..|rows| - 1], key)[key(last) := last]
  }

  /** The keys a batch writes. */
  function BatchKeys<R>(rows: seq<R>, key: R -> string): set<string>
  {
    set i | 0 <= i < |rows| :: key(rows[i])
  }

  /** Every row of the table sits under its own primary key. */
  ghost predicate KeyedBy<R>(t: map<string, R>, key: R -> string)
  {
    forall k :: k in t ==> key(t[k]) == k
  }

  /**
   * `INSERT INTO main SELECT * FROM staging ON DUPLICATE KEY UPDATE ...`:
   * every staging row lands in main unchanged, and the main rows whose keys
   * staging lacks stay as they were.
   */
  function Merge<R>(main: map<string, R>, staging: map<string, R>): (r: map<string, R>)
    ensures r.Keys == main.Keys + staging.Keys
    ensures forall k :: k in staging ==> r[k] == staging[k]
    ensures forall k :: k in main && k !in staging ==> r[k] == main[k]
  {
    main + staging
  }

  /** After a batch the table holds its old keys and the batch's keys, and no others. */
  lemma {:induction false} ApplyKeys<R>(t: map<string, R>, rows: seq<R>, key: R -> string)
    ensures Apply(t, rows, key).Keys == t.Keys + BatchKeys(rows, key)
    decreases |rows|
  {
    if rows != [] {
      var init := rows[..|rows| - 1];
      ApplyKeys(t, init, key);
      assert BatchKeys(rows, key) == BatchKeys(init, key) + {key(rows[|rows| - 1])} by {
        forall k | k in BatchKeys(rows, key) ensures k in BatchKeys(init, key) + {key(rows[|rows| - 1])} {
          var i :| 0 <= i < |rows| && key(rows[i]) == k;
          if i < |rows| - 1 {
            assert key(init[i]) == k;
          }
        }
        forall k | k in BatchKeys(init, key) ensures k in BatchKeys(rows, key) {
          var i :| 0 <= i < |init| && key(init[i]) == k;
          assert key(rows[i]) == k;
        }
      }
    }
  }

  /** A row whose key the batch does not write is neither added, removed nor changed. */
  lemma {:induction false} ApplyLeavesOthers<R>(t: map<string, R>, rows: seq<R>, key: R -> string, k: string)
    requires k !in BatchKeys(rows, key)
    ensures k in Apply(t, rows, key) <==> k in t
    ensures k in t ==> Apply(t, rows, key)[k] == t[k]
    decreases |rows|
  {
    if rows != [] {
      var init := rows[..|rows| - 1];
      assert k != key(rows[|rows| - 1]);
      assert BatchKeys(init, key) <= BatchKeys(rows, key) by {
        forall j | 0 <= j < |init| ensures key(init[j]) in BatchKeys(rows, key) {
          assert init[j] == rows[j];
        }
      }
      ApplyLeavesOthers(t, init, key, k);
    }
  }

  /** Last write wins: a row that no later row of the batch overrides is the one stored under its key. */
  lemma {:induction false} ApplyLastWriteWins<R>(t: map<string, R>, rows: seq<R>, key: R -> string, i: int)
    requires 0 <= i < |rows|
    requires forall j :: i < j < |rows| ==> key(rows[j]) != key(rows[i])
    ensures key(rows[i]) in Apply(t, rows, key)
    ensures Apply(t, rows, key)[key(rows[i])] == rows[i]
    decreases |rows|
  {
    if i < |rows| - 1 {
      var init := rows[..|rows| - 1];
      assert key(rows[|rows| - 1]) != key(rows[i]);
      ApplyLastWriteWins(t, init, key, i);
    }
  }

  /** A batch does to any table what merging the batch, as a table of its own, into it does. */
  lemma {:induction false} ApplyIsMerge<R>(t: map<string, R>, rows: seq<R>, key: R -> string)
    ensures Apply(t, rows, key) == Merge(t, Apply(map[], rows, key))
    decreases |rows|
  {
    if rows != [] {
      var init, last := rows[..|rows| - 1], rows[|rows| - 1];
      ApplyIsMerge(t, init, key);
      var b := Apply(map[], init, key);
      assert Merge(t, b)[key(last) := last] == Merge(t, b[key(last) := last]);
    }
  }

  /** Upserting the same batch again leaves the table as the first upsert left it. */
  lemma ApplyIdempotent<R>(t: map<string, R>, rows: seq<R>, key: R -> string)
    ensures Apply(Apply(t, rows, key), rows, key) == Apply(t, rows, key)
  {
    var b := Apply(map[], rows, key);
    ApplyIsMerge(t, rows, key);
    ApplyIsMerge(Apply(t, rows, key), rows, key);
    MergeIdempotent(t, b);
  }

  /** Two batches run one after the other act as their concatenation. */
  lemma {:induction false} ApplyConcat<R>(t: map<string, R>, a: seq<R>, b: seq<R>, key: R -> string)
    ensures Apply(t, a + b, key) == Apply(Apply(t, a, key), b, key)
    decreases |b|
  {
    if b == [] {
      assert a + b == a;
    } else {
      var init, last := b[..|b| - 1], b[|b| - 1];
      assert (a + b)[..|a + b| - 1] == a + init;
      ApplyConcat(t, a, init, key);
    }
  }

  /** Rows stay under their own keys. */
  lemma {:induction false} ApplyKeepsKeyedBy<R>(t: map<string, R>, rows: seq<R>, key: R -> string)
    requires KeyedBy(t, key)
    ensures KeyedBy(Apply(t, rows, key), key)
    decreases |rows|
  {
    if rows != [] {
      ApplyKeepsKeyedBy(t, rows[..|rows| - 1], key);
    }
  }

  /** Merging the same staging table twice gives what merging it once gives. */
  lemma MergeIdempotent<R>(main: map<string, R>, staging: map<string, R>)
    ensures Merge(Merge(main, staging), staging) == Merge(main, staging)
  {
  }

  lemma MergeKeepsKeyedBy<R>(main: map<string, R>, staging: map<string, R>, key: R -> string)
    requires KeyedBy(main, key) && KeyedBy(staging, key)
    ensures KeyedBy(Merge(main, staging), key)
  {
  }
}
