/**
 * `ResultSaver` of the audit engine: scrape results are turned into
 * `ProductInfo` rows, buffered, and written as one batch upsert keyed on
 * (product_list, product_id) once the buffer holds `batch_size` rows.
 */
module ResultBuffer {
  import opened Wrappers

  /** A value held in a scrape-result dict. */
  datatype Val = Str(s: string) | Int(i: int)

  /** A scrape result: Python's `Dict[str, Any]`. */
  type Dict = map<string, Val>

  /** `d.get(k)` */
  function Get(d: Dict, k: string): Option<Val> {
    if k in d then Some(d[k]) else None
  }

  /** The columns `add_result` writes; each is also in the upsert's `update_fields`. */
  const Columns: seq<string> := [
    "status", "title", "reviews", "ratings", "browse_node",
    "brand_name", "variations", "deal", "seller", "image_len",
    "video", "main_img_url", "bullet_point_len", "bsr1", "bsr2",
    "price", "mrp", "availability", "description", "a_plus",
    "store_link"
  ]

  /** The result key a column is read from. */
  function SourceKey(col: string): string {
    if col == "bsr1" then "bestSellerRank"
    else if col == "mrp" then "MRP"
    else if col == "a_plus" then "A_plus"
    else col
  }

  /** The value `add_result` stores in column `col`. */
  function ColumnValue(result: Dict, col: string): Option<Val> {
    if col == "bsr2" then Some(Str(""))
    else if col == "bsr1" then Some(Get(result, "bestSellerRank").GetOr(Str("")))
    else Get(result, SourceKey(col))
  }

  /** One `ProductInfo` row; `None` in a column is SQL NULL. */
  datatype Row = Row(productList: int, productId: Val, user: int, columns: map<string, Option<Val>>)

  /** The table's unique key, `unique_together = ("product_list", "product_id")`. */
  type Key = (int, Val)

  function KeyOf(row: Row): Key {
    (row.productList, row.productId)
  }

  /** The `ProductInfo(...)` that `add_result` builds from a scrape result. */
  function ToRow(productList: int, user: int, result: Dict): (row: Row)
    requires "asin" in result
    ensures KeyOf(row) == (productList, result["asin"]) && row.user == user
    ensures row.columns.Keys == set c | c in Columns
  {
    Row(productList, result["asin"], user, map c | c in Columns :: ColumnValue(result, c))
  }

  /**
   * The column mapping of `add_result`: `bsr1` comes from `bestSellerRank`
   * (default ""), `bsr2` is always "", `mrp` and `a_plus` come from `MRP`
   * and `A_plus`, and every other column from the result key of its own
   * name, NULL when the key is missing.
   */
  lemma ToRowColumns(productList: int, user: int, result: Dict)
    requires "asin" in result
    ensures var row := ToRow(productList, user, result);
      && row.columns["bsr1"] == Some(if "bestSellerRank" in result then result["bestSellerRank"] else Str(""))
      && row.columns["bsr2"] == Some(Str(""))
      && row.columns["mrp"] == Get(result, "MRP")
      && row.columns["a_plus"] == Get(result, "A_plus")
      && forall c :: c in row.columns && c !in {"bsr1", "bsr2", "mrp", "a_plus"} ==> row.columns[c] == Get(result, c)
  {
    var row := ToRow(productList, user, result);
    assert "bsr1" in Columns && "bsr2" in Columns && "mrp" in Columns && "a_plus" in Columns;
  }

  /** The table keeps every row under its own key: no two rows share a key. */
  ghost predicate WellKeyed(table: map<Key, Row>) {
    forall k :: k in table ==> KeyOf(table[k]) == k
  }

  /**
   * `bulk_create(..., update_conflicts=True, unique_fields=[...])` for one
   * row: a new key is inserted; on a conflict only the `update_fields`
   * change, so the stored `user` stays that of the first writer.
   */
  function Upsert(table: map<Key, Row>, row: Row): map<Key, Row> {
    var k := KeyOf(row);
    if k in table then table[k := table[k].(columns := row.columns)] else table[k := row]
  }

  /** The upsert of a batch, row by row in buffer order. */
  function UpsertAll(table: map<Key, Row>, rows: seq<Row>): map<Key, Row>
    decreases |rows|
  {
    if rows == [] then table else UpsertAll(Upsert(table, rows[0]), rows[1..])
  }

  ghost predicate HasKey(rows: seq<Row>, k: Key) {
    exists j :: 0 <= j < |rows| && KeyOf(rows[j]) == k
  }

  lemma HasKeyTail(rows: seq<Row>, k: Key)
    requires rows != []
    ensures HasKey(rows, k) <==> KeyOf(rows[0]) == k || HasKey(rows[1..], k)
  {
    if HasKey(rows, k) && KeyOf(rows[0]) != k {
      var j :| 0 <= j < |rows| && KeyOf(rows[j]) == k;
      assert rows[1..][j - 1] == rows[j];
    }
    if HasKey(rows[1..], k) {
      var j :| 0 <= j < |rows[1..]| && KeyOf(rows[1..][j]) == k;
      assert rows[j + 1] == rows[1..][j];
    }
  }

  /** The columns of the last row of `rows` with key `k`. */
  ghost function LastColumns(rows: seq<Row>, k: Key): map<string, Option<Val>>
    requires HasKey(rows, k)
    decreases |rows|
  {
    HasKeyTail(rows, k);
    if HasKey(rows[1..], k) then LastColumns(rows[1..], k) else rows[0].columns
  }

  /** The user of the first row of `rows` with key `k`. */
  ghost function FirstUser(rows: seq<Row>, k: Key): int
    requires HasKey(rows, k)
    decreases |rows|
  {
    HasKeyTail(rows, k);
    if KeyOf(rows[0]) == k then rows[0].user else FirstUser(rows[1..], k)
  }

  lemma UpsertWellKeyed(table: map<Key, Row>, row: Row)
    requires WellKeyed(table)
    ensures WellKeyed(Upsert(table, row))
  {
  }

  /**
   * What the batch upsert leaves under each key: a key no row carries is
   * untouched; otherwise the stored row has the newest row's columns and
   * the user of whoever wrote the key first.
   */
  lemma {:induction false} UpsertAllAt(table: map<Key, Row>, rows: seq<Row>, k: Key)
    requires WellKeyed(table)
    ensures WellKeyed(UpsertAll(table, rows))
    ensures (k in UpsertAll(table, rows)) == (k in table || HasKey(rows, k))
    ensures !HasKey(rows, k) && k in table ==> UpsertAll(table, rows)[k] == table[k]
    ensures HasKey(rows, k) ==>
      UpsertAll(table, rows)[k] ==
        Row(k.0, k.1, if k in table then table[k].user else FirstUser(rows, k), LastColumns(rows, k))
    decreases |rows|
  {
    if rows != [] {
      var r := rows[0];
      var next := Upsert(table, r);
      UpsertWellKeyed(table, r);
      HasKeyTail(rows, k);
      UpsertAllAt(next, rows[1..], k);
    }
  }

  /** Upserting a batch in two parts is upserting it in one. */
  lemma {:induction false} UpsertAllAppend(table: map<Key, Row>, a: seq<Row>, b: seq<Row>)
    ensures UpsertAll(table, a + b) == UpsertAll(UpsertAll(table, a), b)
    decreases |a|
  {
    if a != [] {
      assert a + b != [];
      assert (a + b)[0] == a[0];
      assert (a + b)[1..] == a[1..] + b;
      UpsertAllAppend(Upsert(table, a[0]), a[1..], b);
    } else {
      assert a + b == b;
    }
  }

  /**
   * Re-running the same batch on the table it produced changes nothing:
   * a re-audit overwrites, it never duplicates.
   */
  lemma UpsertAllIdempotent(table: map<Key, Row>, rows: seq<Row>)
    requires WellKeyed(table)
    ensures UpsertAll(UpsertAll(table, rows), rows) == UpsertAll(table, rows)
  {
    var once := UpsertAll(table, rows);
    var twice := UpsertAll(once, rows);
    forall k
      ensures (k in twice) == (k in once)
      ensures k in once ==> twice[k] == once[k]
    {
      UpsertAllAt(table, rows, k);
      UpsertAllAt(once, rows, k);
    }
  }

  /** The newest row for a key decides that key's columns. */
  lemma NewestWins(table: map<Key, Row>, rows: seq<Row>, i: nat)
    requires WellKeyed(table)
    requires i < |rows|
    requires forall j :: i < j < |rows| ==> KeyOf(rows[j]) != KeyOf(rows[i])
    ensures KeyOf(rows[i]) in UpsertAll(table, rows)
    ensures UpsertAll(table, rows)[KeyOf(rows[i])].columns == rows[i].columns
  {
    var k := KeyOf(rows[i]);
    UpsertAllAt(table, rows, k);
    LastColumnsAt(rows, i);
  }

  lemma {:induction false} LastColumnsAt(rows: seq<Row>, i: nat)
    requires i < |rows|
    requires forall j :: i < j < |rows| ==> KeyOf(rows[j]) != KeyOf(rows[i])
    ensures HasKey(rows, KeyOf(rows[i])) && LastColumns(rows, KeyOf(rows[i])) == rows[i].columns
  {
    var k := KeyOf(rows[i]);
    HasKeyTail(rows, k);
    if i > 0 {
      assert rows[1..][i - 1] == rows[i];
      LastColumnsAt(rows[1..], i - 1);
    }
  }

  /** The saver's buffer together with the table it writes to. */
  datatype SaverState = SaverState(buffer: seq<Row>, table: map<Key, Row>)

  /** `add_result` on values: append, then flush once the batch is full. */
  function AddStep(st: SaverState, row: Row, batchSize: int): SaverState {
    var b := st.buffer + [row];
    if |b| >= batchSize then SaverState([], UpsertAll(st.table, b)) else SaverState(b, st.table)
  }

  /** A sequence of `add_result` calls. */
  function AddAll(st: SaverState, rows: seq<Row>, batchSize: int): SaverState
    decreases |rows|
  {
    if rows == [] then st else AddAll(AddStep(st, rows[0], batchSize), rows[1..], batchSize)
  }

  /** The final `flush()` on values. */
  function FlushState(st: SaverState): SaverState {
    SaverState([], UpsertAll(st.table, st.buffer))
  }

  /**
   * Batching is invisible in the end: whatever the batch size, adding the
   * rows and flushing once more leaves the table a single upsert of
   * everything would.
   */
  lemma {:induction false} BatchingTransparent(st: SaverState, rows: seq<Row>, batchSize: int)
    ensures FlushState(AddAll(st, rows, batchSize)).table == UpsertAll(st.table, st.buffer + rows)
    decreases |rows|
  {
    if rows != [] {
      var next := AddStep(st, rows[0], batchSize);
      BatchingTransparent(next, rows[1..], batchSize);
      var b := st.buffer + [rows[0]];
      assert b + rows[1..] == st.buffer + rows;
      if |b| >= batchSize {
        UpsertAllAppend(st.table, b, rows[1..]);
        assert next.buffer + rows[1..] == rows[1..];
      }
    } else {
      assert st.buffer + rows == st.buffer;
    }
  }

  /** Adding rows keeps the buffer shorter than a positive batch size. */
  lemma {:induction false} AddAllKeepsBufferShort(st: SaverState, rows: seq<Row>, batchSize: int)
    requires 1 <= batchSize && |st.buffer| < batchSize
    ensures |AddAll(st, rows, batchSize).buffer| < batchSize
    decreases |rows|
  {
    if rows != [] {
      AddAllKeepsBufferShort(AddStep(st, rows[0], batchSize), rows[1..], batchSize);
    }
  }

  /** The `ProductInfo` table. */
  class ProductTable {
    var rows: map<Key, Row>

    ghost predicate Valid()
      reads this
    {
      WellKeyed(rows)
    }

    constructor (initial: map<Key, Row>)
      requires WellKeyed(initial)
      ensures Valid() && rows == initial
    {
      rows := initial;
    }
  }

  class ResultSaver {
    const productList: int
    const user: int
    const batchSize: int
    const table: ProductTable
    var buffer: seq<Row>

    ghost predicate Valid()
      reads this, table
    {
      1 <= batchSize && |buffer| < batchSize && table.Valid()
    }

    ghost function State(): SaverState
      reads this, table
    {
      SaverState(buffer, table.rows)
    }

    constructor (productList: int, user: int, batchSize: int, table: ProductTable)
      requires 1 <= batchSize && table.Valid()
      ensures Valid() && buffer == []
      ensures this.productList == productList && this.user == user
      ensures this.batchSize == batchSize && this.table == table
    {
      this.productList := productList;
      this.user := user;
      this.batchSize := batchSize;
      this.table := table;
      buffer := [];
    }

    /** `add_result`: buffer one row; flush when the buffer reaches the batch size. */
    method AddResult(result: Dict)
      requires Valid() && "asin" in result
      modifies this, table
      ensures Valid()
      ensures State() == AddStep(old(State()), ToRow(productList, user, result), batchSize)
      ensures var row := ToRow(productList, user, result);
        if |old(buffer)| + 1 == batchSize
        then buffer == [] && table.rows == UpsertAll(old(table.rows), old(buffer) + [row])
        else buffer == old(buffer) + [row] && table.rows == old(table.rows)
    {
      buffer := buffer + [ToRow(productList, user, result)];
      if |buffer| >= batchSize {
        Flush();
      }
    }

    /** `flush`: upsert the buffer as one batch and clear it; a no-op on an empty buffer. */
    method Flush()
      requires 1 <= batchSize && table.Valid()
      modifies this, table
      ensures Valid() && buffer == []
      ensures table.rows == UpsertAll(old(table.rows), old(buffer))
      ensures old(buffer) == [] ==> table.rows == old(table.rows)
      ensures State() == FlushState(old(State()))
    {
      if buffer == [] {
        return;
      }
      forall k {
        UpsertAllAt(table.rows, buffer, k);
      }
      table.rows := UpsertAll(table.rows, buffer);
      buffer := [];
    }
  }
}
