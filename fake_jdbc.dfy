/**
 * An explicit fake of the JDBC collaborator the engine borrows: a connection
 * that reports table metadata, prepares one statement at a time and answers
 * its executions with scripted results, and an updatable result-set cursor.
 * Only the effects the engine can observe are recorded.
 */
module FakeJdbc {
  import opened Wrappers
  import opened JdbcTypes
  import opened ColumnCatalog

  /**
   * What `DatabaseMetaData.getColumns` answers for one table name: the column
   * rows in metadata order, and the row index at which reading the result
   * raises an SQLException (None: it never does).
   */
  datatype Listing = Listing(rows: seq<ColumnMeta>, failsAt: Option<nat>)

  /** `n` unbound parameter slots (or untouched cursor columns). */
  function Unbound(n: nat): (s: seq<Option<Bound>>)
    ensures |s| == n && forall k :: 0 <= k < n ==> s[k].None?
  {
    seq(n, _ => None)
  }

  class Connection {
    // The database's answers, fixed for the life of the fake.
    const metadataAvailable: bool             // conn.getMetaData() succeeds
    const listings: map<string, Listing>      // column metadata per table name
    const parameterTypes: map<string, seq<int>> // statement texts the database accepts, with their declared parameter types
    const updateCount: Option<int>            // executeUpdate's count, None: it raises
    const batchEntryCount: Option<int>        // each batch entry's count, None: executeBatch raises
    const queryFails: bool                    // executeQuery raises

    // The statement most recently prepared, and what has been done to it.
    var query: string
    var declared: seq<int>
    var slots: array<Option<Bound>>
    var batch: seq<seq<Option<Bound>>>
    var executed: bool

    ghost predicate Valid()
      reads this
    {
      slots.Length == |declared|
    }

    constructor (metadataAvailable: bool, listings: map<string, Listing>,
                 parameterTypes: map<string, seq<int>>, updateCount: Option<int>,
                 batchEntryCount: Option<int>, queryFails: bool)
      ensures Valid()
      ensures this.metadataAvailable == metadataAvailable && this.listings == listings
      ensures this.parameterTypes == parameterTypes && this.updateCount == updateCount
      ensures this.batchEntryCount == batchEntryCount && this.queryFails == queryFails
      ensures query == [] && declared == [] && batch == [] && !executed
      ensures fresh(slots)
    {
      this.metadataAvailable := metadataAvailable;
      this.listings := listings;
      this.parameterTypes := parameterTypes;
      this.updateCount := updateCount;
      this.batchEntryCount := batchEntryCount;
      this.queryFails := queryFails;
      query, declared, batch, executed := [], [], [], false;
      slots := new Option<Bound>[0];
    }

    /** The listing for `table`; an unknown table lists no columns. */
    function ColumnsOf(table: string): Listing {
      if table in listings then listings[table] else Listing([], None)
    }

    /** The metadata rows that can be read for `table` before anything raises. */
    function RowsRead(table: string): (rows: seq<ColumnMeta>)
      ensures rows <= ColumnsOf(table).rows
    {
      if !metadataAvailable then []
      else
        var l := ColumnsOf(table);
        if l.failsAt.Some? && l.failsAt.value < |l.rows| then l.rows[..l.failsAt.value] else l.rows
    }

    /** `conn.prepareStatement(q)`: the database rejects a text it does not accept. */
    method PrepareStatement(q: string) returns (ok: bool)
      requires Valid()
      modifies this
      ensures Valid()
      ensures ok == (q in parameterTypes)
      ensures !ok ==> unchanged(this)
      ensures ok ==> query == q && declared == parameterTypes[q] && fresh(slots)
      ensures ok ==> slots[..] == Unbound(|declared|) && batch == [] && !executed
    {
      ok := q in parameterTypes;
      if ok {
        query := q;
        declared := parameterTypes[q];
        slots := new Option<Bound>[|declared|](_ => None);
        batch := [];
        executed := false;
      }
    }

    /** A `set...` call on 1-based slot `index`; an index with no marker raises. */
    method SetParameter(index: int, b: Bound) returns (ok: bool)
      requires Valid()
      modifies slots
      ensures ok == (1 <= index <= slots.Length)
      ensures ok ==> slots[..] == old(slots[..])[index - 1 := Some(b)]
      ensures !ok ==> slots[..] == old(slots[..])
    {
      ok := 1 <= index <= slots.Length;
      if ok {
        slots[index - 1] := Some(b);
      }
    }

    /** `addBatch()`: the current bindings become one more batch entry and stay bound. */
    method AddBatch()
      modifies this`batch
      ensures batch == old(batch) + [slots[..]]
    {
      batch := batch + [slots[..]];
    }

    /** `executeQuery()`: marks the statement run; the query raises exactly when scripted to. */
    method ExecuteQuery() returns (ok: bool)
      modifies this`executed
      ensures executed && ok == !queryFails
    {
      executed := true;
      ok := !queryFails;
    }

    /** `executeUpdate()`: marks the statement run and returns the scripted count, or a raise. */
    method ExecuteUpdate() returns (count: Option<int>)
      modifies this`executed
      ensures executed && count == updateCount
    {
      executed := true;
      count := updateCount;
    }

    /** `executeBatch()`: one count per batch entry, or a raise. */
    method ExecuteBatch() returns (counts: Option<seq<int>>)
      modifies this`executed
      ensures executed
      ensures counts == if batchEntryCount.Some? then Some(seq(|batch|, _ => batchEntryCount.value)) else None
    {
      executed := true;
      counts := if batchEntryCount.Some? then Some(seq(|batch|, _ => batchEntryCount.value)) else None;
    }
  }

  /**
   * An updatable cursor: its column types, the values pending for the row it
   * is on (column c at index c - 1), and the rows committed by insertRow and
   * updateRow.
   */
  class Cursor {
    const columnTypes: seq<int>
    var row: array<Option<Bound>>
    var onInsertRow: bool
    var inserted: seq<seq<Option<Bound>>>
    var updated: seq<seq<Option<Bound>>>

    ghost predicate Valid()
      reads this
    {
      row.Length == |columnTypes|
    }

    constructor (columnTypes: seq<int>, current: seq<Option<Bound>>)
      requires |current| == |columnTypes|
      ensures Valid() && this.columnTypes == columnTypes && row[..] == current
      ensures fresh(row)
      ensures !onInsertRow && inserted == [] && updated == []
    {
      this.columnTypes := columnTypes;
      row := new Option<Bound>[|current|](k requires 0 <= k < |current| => current[k]);
      onInsertRow := false;
      inserted, updated := [], [];
    }

    /** `moveToInsertRow()`: an empty insert buffer. */
    method MoveToInsertRow()
      requires Valid()
      modifies this
      ensures Valid() && fresh(row) && row[..] == Unbound(|columnTypes|) && onInsertRow
      ensures inserted == old(inserted) && updated == old(updated)
    {
      row := new Option<Bound>[|columnTypes|](_ => None);
      onInsertRow := true;
    }

    /** An `update...` call on 1-based column `column`; an invalid column raises. */
    method UpdateColumn(column: int, b: Bound) returns (ok: bool)
      requires Valid()
      modifies row
      ensures ok == (1 <= column <= row.Length)
      ensures ok ==> row[..] == old(row[..])[column - 1 := Some(b)]
      ensures !ok ==> row[..] == old(row[..])
    {
      ok := 1 <= column <= row.Length;
      if ok {
        row[column - 1] := Some(b);
      }
    }

    /** `insertRow()`: only legal on the insert row. */
    method InsertRow() returns (ok: bool)
      modifies this`inserted
      ensures ok == onInsertRow
      ensures inserted == old(inserted) + (if ok then [row[..]] else [])
    {
      ok := onInsertRow;
      if ok {
        inserted := inserted + [row[..]];
      }
    }

    /** `updateRow()`: illegal on the insert row. */
    method UpdateRow() returns (ok: bool)
      modifies this`updated
      ensures ok == !onInsertRow
      ensures updated == old(updated) + (if ok then [row[..]] else [])
    {
      ok := !onInsertRow;
      if ok {
        updated := updated + [row[..]];
      }
    }
  }
}
