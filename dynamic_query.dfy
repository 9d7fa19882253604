/**
 * The dynamic query engine: column discovery, INSERT text building, typed
 * parameter dispatch for a query, generic single and batch inserts, cursor
 * insert and update by column type, and delete-all. The engine's one field,
 * the borrowed connection, is passed to every operation.
 */
module DynamicQuery {
  import opened Wrappers
  import opened JdbcTypes
  import opened ColumnCatalog
  import opened InsertText
  import opened FakeJdbc

  // ---------------------------------------------------------------------
  // Column discovery and the INSERT builder

  /**
   * `getColumns`: walks the metadata rows in order and keeps the names of
   * those that pass the exclusion test. Any failure of the metadata lookup
   * or of reading a row ends the walk with the names collected so far.
   */
  method GetColumns(conn: Connection, tableName: string) returns (names: seq<string>)
    ensures names == Eligible(conn.RowsRead(tableName))
  {
    names := [];
    if !conn.metadataAvailable {
      return;
    }
    var listing := conn.ColumnsOf(tableName);
    var i := 0;
    while i < |listing.rows|
      invariant 0 <= i <= |listing.rows|
      invariant listing.failsAt.Some? ==> i <= listing.failsAt.value
      invariant names == Eligible(listing.rows[..i])
    {
      if listing.failsAt == Some(i) {
        return;
      }
      var row := listing.rows[i];
      assert listing.rows[..i + 1] == listing.rows[..i] + [row];
      EligibleAppend(listing.rows[..i], [row]);
      if !Excluded(row) {
        names := names + [row.name];
      }
      i := i + 1;
    }
    assert listing.rows[..i] == listing.rows;
  }

  /**
   * `createDynamicInsertQuery`: appends "name, " and "?, " per column, cuts
   * the last two characters of both, and fills the template. With no
   * eligible column the cut starts at -2 and raises.
   */
  method CreateDynamicInsertQuery(conn: Connection, tableName: string) returns (r: Result<string, Failure>)
    ensures var columns := Eligible(conn.RowsRead(tableName));
      && (r.Ok? <==> columns != [])
      && (r.Ok? ==> r.value == InsertStatement(tableName, columns))
      && (r.Err? ==> r.error == StringIndexOutOfBounds)
  {
    var columnNames := GetColumns(conn, tableName);
    var insertColumns, insertValues := "", "";
    for i := 0 to |columnNames|
      invariant insertColumns == Terminated(columnNames[..i])
      invariant insertValues == Terminated(Placeholders(i))
    {
      assert columnNames[..i + 1] == columnNames[..i] + [columnNames[i]];
      TerminatedSnoc(columnNames[..i], columnNames[i]);
      PlaceholdersSnoc(i);
      TerminatedSnoc(Placeholders(i), "?");
      insertColumns := insertColumns + columnNames[i] + Separator;
      insertValues := insertValues + "?" + Separator;
    }
    assert columnNames[..|columnNames|] == columnNames;
    TerminatedLength(columnNames);
    if |insertColumns| - 2 < 0 {
      return Err(StringIndexOutOfBounds);
    }
    TerminatedIsJoinAndSeparator(columnNames);
    TerminatedIsJoinAndSeparator(Placeholders(|columnNames|));
    insertColumns := insertColumns[..|insertColumns| - 2];
    insertValues := insertValues[..|insertValues| - 2];
    r := Ok(Head + tableName + Open + insertColumns + Middle + insertValues + Tail);
  }

  // ---------------------------------------------------------------------
  // Typed dispatch for a query

  /**
   * The first slot whose value the dispatch cannot cast, or the slot count
   * when every value casts.
   */
  function FirstFailure(types: seq<int>, parameters: seq<Value>): (j: nat)
    requires |types| == |parameters|
    ensures j <= |types|
    ensures forall k :: 0 <= k < j ==> SlotFailure(types[k], parameters[k]).None?
    ensures j < |types| ==> SlotFailure(types[j], parameters[j]).Some?
  {
    if types == [] then 0
    else if SlotFailure(types[0], parameters[0]).Some? then 0
    else 1 + FirstFailure(types[1..], parameters[1..])
  }

  /** The slots after the dispatch has bound slots 1..j and reached no further. */
  function BoundPrefix(types: seq<int>, parameters: seq<Value>, j: nat): (s: seq<Option<Bound>>)
    requires |types| == |parameters|
    ensures |s| == |types|
  {
    seq(|types|, k requires 0 <= k < |types| => if k < j then SlotBinding(types[k], parameters[k]) else None)
  }

  /**
   * `getResultSet`: when the list has as many values as the statement has
   * markers, binds slot k (1-based) to `parameters[k-1]` with the setter its
   * declared type selects, stopping at the first value that fails its cast,
   * and executes only if every slot was dispatched. `Ok(true)` is a returned
   * ResultSet, `Ok(false)` a returned null, `Err` a raise.
   */
  method GetResultSet(conn: Connection, query: string, parameters: seq<Value>) returns (r: Result<bool, Failure>)
    requires conn.Valid()
    modifies conn
    ensures conn.Valid()
    ensures query !in conn.parameterTypes ==> r == Err(Sql) && unchanged(conn)
    ensures query in conn.parameterTypes ==>
      && conn.query == query && conn.declared == conn.parameterTypes[query]
      && fresh(conn.slots) && conn.batch == []
    ensures query in conn.parameterTypes && |parameters| != |conn.declared| ==>
      r == Ok(false) && !conn.executed && conn.slots[..] == Unbound(|conn.declared|)
    ensures query in conn.parameterTypes && |parameters| == |conn.declared| ==>
      var types := conn.declared;
      var j := FirstFailure(types, parameters);
      && conn.slots[..] == BoundPrefix(types, parameters, j)
      && conn.executed == (j == |types|)
      && r == (if j < |types| then Err(SlotFailure(types[j], parameters[j]).value)
               else if conn.queryFails then Err(Sql) else Ok(true))
  {
    var prepared := conn.PrepareStatement(query);
    if !prepared {
      return Err(Sql);
    }
    var types := conn.declared;
    if |parameters| != |types| {
      return Ok(false);
    }
    ghost var j := FirstFailure(types, parameters);
    for i := 0 to |types|
      invariant conn.Valid() && conn.declared == types && conn.query == query
      invariant fresh(conn.slots) && conn.batch == [] && !conn.executed
      invariant i <= j
      invariant conn.slots[..] == BoundPrefix(types, parameters, i)
    {
      match KindOf(types[i]) {
        case None =>
        case Some(k) =>
          var failure := CastFailure(k, parameters[i]);
          if failure.Some? {
            return Err(failure.value);
          }
          var ok := conn.SetParameter(i + 1, Typed(k, parameters[i]));
      }
      assert conn.slots[..] == BoundPrefix(types, parameters, i + 1);
    }
    var ok := conn.ExecuteQuery();
    r := if ok then Ok(true) else Err(Sql);
  }

  // ---------------------------------------------------------------------
  // Generic inserts

  /** The slots after `setObject(i, parameters[i-1])` for every i that has a marker. */
  function Overlay(slots: seq<Option<Bound>>, parameters: seq<Value>): (s: seq<Option<Bound>>)
    ensures |s| == |slots|
  {
    seq(|slots|, k requires 0 <= k < |slots| => if k < |parameters| then Some(Generic(parameters[k])) else slots[k])
  }

  /** The batch entries added for `lists`, starting from the bindings `slots`. */
  function Batch(slots: seq<Option<Bound>>, lists: seq<seq<Value>>): (entries: seq<seq<Option<Bound>>>)
    ensures |entries| == |lists|
    ensures forall j :: 0 <= j < |entries| ==> |entries[j]| == |slots|
    decreases |lists|
  {
    if lists == [] then []
    else var next := Overlay(slots, lists[0]); [next] + Batch(next, lists[1..])
  }

  /**
   * `insertOneRow`: builds the INSERT text (a raise there is not caught),
   * binds value i to slot i with `setObject`, executes, and answers 0 for
   * any SQLException: a rejected text, a value with no marker, or a failed
   * execution.
   */
  method InsertOneRow(conn: Connection, tableName: string, parameters: seq<Value>) returns (r: Result<int, Failure>)
    requires conn.Valid()
    modifies conn
    ensures conn.Valid()
    ensures var columns := Eligible(conn.RowsRead(tableName));
      && (columns == [] ==> r == Err(StringIndexOutOfBounds) && unchanged(conn))
      && (columns != [] && InsertStatement(tableName, columns) !in conn.parameterTypes ==> r == Ok(0) && unchanged(conn))
      && (columns != [] && InsertStatement(tableName, columns) in conn.parameterTypes ==>
            && conn.query == InsertStatement(tableName, columns)
            && conn.declared == conn.parameterTypes[conn.query]
            && fresh(conn.slots) && conn.batch == []
            && conn.slots[..] == Overlay(Unbound(|conn.declared|), parameters)
            && conn.executed == (|parameters| <= |conn.declared|)
            && r == Ok(if conn.executed then conn.updateCount.GetOr(0) else 0))
  {
    var insertQuery := CreateDynamicInsertQuery(conn, tableName);
    if insertQuery.Err? {
      return Err(insertQuery.error);
    }
    var prepared := conn.PrepareStatement(insertQuery.value);
    if !prepared {
      return Ok(0);
    }
    ghost var d := conn.declared;
    ghost var n := |d|;
    for i := 1 to |parameters| + 1
      invariant conn.Valid() && conn.declared == d && conn.query == insertQuery.value
      invariant fresh(conn.slots) && conn.batch == [] && !conn.executed
      invariant i - 1 <= n
      invariant conn.slots[..] == Overlay(Unbound(n), parameters[..i - 1])
    {
      var ok := conn.SetParameter(i, Generic(parameters[i - 1]));
      if !ok {
        assert conn.slots[..] == Overlay(Unbound(n), parameters);
        return Ok(0);
      }
      assert conn.slots[..] == Overlay(Unbound(n), parameters[..i]);
    }
    assert parameters[..|parameters|] == parameters;
    var count := conn.ExecuteUpdate();
    r := Ok(count.GetOr(0));
  }

  /**
   * `insertMultipleRows`: builds the INSERT text (a raise there is not
   * caught), and for each list binds its values with `setObject`, ignoring
   * values with no marker, and adds one batch entry; then executes the batch.
   * Answers an empty array for a rejected text or a failed batch.
   */
  method InsertMultipleRows(conn: Connection, tableName: string, listOfParameters: seq<seq<Value>>)
    returns (r: Result<seq<int>, Failure>)
    requires conn.Valid()
    modifies conn
    ensures conn.Valid()
    ensures var columns := Eligible(conn.RowsRead(tableName));
      && (columns == [] ==> r == Err(StringIndexOutOfBounds) && unchanged(conn))
      && (columns != [] && InsertStatement(tableName, columns) !in conn.parameterTypes ==> r == Ok([]) && unchanged(conn))
      && (columns != [] && InsertStatement(tableName, columns) in conn.parameterTypes ==>
            && conn.query == InsertStatement(tableName, columns)
            && conn.declared == conn.parameterTypes[conn.query]
            && fresh(conn.slots) && conn.executed
            && conn.batch == Batch(Unbound(|conn.declared|), listOfParameters)
            && r == Ok(if conn.batchEntryCount.Some?
                       then seq(|listOfParameters|, _ => conn.batchEntryCount.value) else []))
  {
    var insertQuery := CreateDynamicInsertQuery(conn, tableName);
    if insertQuery.Err? {
      return Err(insertQuery.error);
    }
    var prepared := conn.PrepareStatement(insertQuery.value);
    if !prepared {
      return Ok([]);
    }
    ghost var d := conn.declared;
    ghost var n := |d|;
    for j := 0 to |listOfParameters|
      invariant conn.Valid() && conn.declared == d && conn.query == insertQuery.value
      invariant fresh(conn.slots) && !conn.executed
      invariant conn.batch + Batch(conn.slots[..], listOfParameters[j..]) == Batch(Unbound(n), listOfParameters)
    {
      var parameters := listOfParameters[j];
      ghost var before, entries := conn.slots[..], conn.batch;
      for i := 1 to |parameters| + 1
        invariant conn.Valid() && conn.declared == d && conn.query == insertQuery.value
        invariant fresh(conn.slots) && !conn.executed && conn.batch == entries
        invariant conn.slots[..] == Overlay(before, parameters[..i - 1])
      {
        var ok := conn.SetParameter(i, Generic(parameters[i - 1]));
        assert conn.slots[..] == Overlay(before, parameters[..i]);
      }
      assert parameters[..|parameters|] == parameters;
      assert listOfParameters[j..][1..] == listOfParameters[j + 1..];
      conn.AddBatch();
    }
    var counts := conn.ExecuteBatch();
    r := Ok(counts.GetOr([]));
  }

  /** With every list as long as the marker count, each entry holds exactly its own list. */
  lemma {:induction false} FullListsFillEveryEntry(slots: seq<Option<Bound>>, lists: seq<seq<Value>>)
    requires forall j :: 0 <= j < |lists| ==> |lists[j]| >= |slots|
    ensures forall j :: 0 <= j < |lists| ==>
      Batch(slots, lists)[j] == seq(|slots|, k requires 0 <= k < |slots| => Some(Generic(lists[j][k])))
    decreases |lists|
  {
    if lists != [] {
      var next := Overlay(slots, lists[0]);
      FullListsFillEveryEntry(next, lists[1..]);
      forall j | 0 <= j < |lists|
        ensures Batch(slots, lists)[j] == seq(|slots|, k requires 0 <= k < |slots| => Some(Generic(lists[j][k])))
      {
        if j > 0 {
          assert Batch(slots, lists)[j] == Batch(next, lists[1..])[j - 1];
          assert lists[1..][j - 1] == lists[j];
        }
      }
    }
  }

  /**
   * Bindings persist between batch entries: in every entry, a slot the list
   * reaches holds the list's value, and a slot past the end of a shorter list
   * keeps what the previous entry held there (for the first entry, what was
   * bound before the batch began).
   */
  lemma {:induction false} ShortListKeepsEarlierValues(slots: seq<Option<Bound>>, lists: seq<seq<Value>>)
    ensures forall j, k :: 0 <= j < |lists| && 0 <= k < |slots| && k < |lists[j]| ==>
      Batch(slots, lists)[j][k] == Some(Generic(lists[j][k]))
    ensures |lists| > 0 ==> forall k :: |lists[0]| <= k < |slots| ==> Batch(slots, lists)[0][k] == slots[k]
    ensures forall j, k {:trigger Batch(slots, lists)[j][k]} :: 0 < j < |lists| && |lists[j]| <= k < |slots| ==>
      Batch(slots, lists)[j][k] == Batch(slots, lists)[j - 1][k]
    decreases |lists|
  {
    if lists != [] {
      var next := Overlay(slots, lists[0]);
      ShortListKeepsEarlierValues(next, lists[1..]);
      var rest := Batch(next, lists[1..]);
      assert Batch(slots, lists) == [next] + rest;
      forall j, k | 0 < j < |lists| && 0 <= k < |slots| && k < |lists[j]|
        ensures Batch(slots, lists)[j][k] == Some(Generic(lists[j][k]))
      {
        assert lists[1..][j - 1] == lists[j];
      }
      forall j, k {:trigger Batch(slots, lists)[j][k]} | 0 < j < |lists| && |lists[j]| <= k < |slots|
        ensures Batch(slots, lists)[j][k] == Batch(slots, lists)[j - 1][k]
      {
        assert lists[1..][j - 1] == lists[j];
        if j > 1 {
          assert Batch(slots, lists)[j - 1] == rest[j - 2];
        }
      }
    }
  }

  // ---------------------------------------------------------------------
  // Delete-all

  function DeleteStatement(tableName: string): string {
    "DELETE FROM " + tableName + "\n"
  }

  /** `deleteAllRows`: the delete count, or 0 for any SQLException. */
  method DeleteAllRows(conn: Connection, tableName: string) returns (count: int)
    requires conn.Valid()
    modifies conn
    ensures conn.Valid()
    ensures DeleteStatement(tableName) !in conn.parameterTypes ==> count == 0 && unchanged(conn)
    ensures DeleteStatement(tableName) in conn.parameterTypes ==>
      && conn.query == DeleteStatement(tableName) && conn.declared == conn.parameterTypes[conn.query]
      && fresh(conn.slots) && conn.slots[..] == Unbound(|conn.declared|) && conn.batch == []
      && conn.executed && count == conn.updateCount.GetOr(0)
  {
    var deleteQuery := "DELETE FROM " + tableName + "\n";
    var prepared := conn.PrepareStatement(deleteQuery);
    if !prepared {
      return 0;
    }
    var result := conn.ExecuteUpdate();
    count := result.GetOr(0);
  }

  // ---------------------------------------------------------------------
  // Cursor binding by column type

  /**
   * Which column a cursor update names for the 0-based position `i`.
   * AsWritten is the source: the string and boolean cases name column i+1,
   * every other case names column i. OneBased names column i+1 throughout.
   */
  datatype Convention = AsWritten | OneBased

  function ColumnFor(convention: Convention, i: nat, k: Kind): int {
    match convention
    case AsWritten => if k == SetString || k == SetBoolean then i + 1 else i
    case OneBased => i + 1
  }

  /** The cursor's pending row after the binding loop, and what it raised, if anything. */
  datatype Written = Written(row: seq<Option<Bound>>, failure: Option<Failure>)

  /**
   * The binding loop from position `i` on: the value is fetched (past the
   * list's end raises), cast (a mismatch raises), then written to the
   * column the convention names (an invalid column raises).
   */
  function WriteColumns(convention: Convention, types: seq<int>, parameters: seq<Value>,
                        row: seq<Option<Bound>>, i: nat): (w: Written)
    requires i <= |types|
    ensures |w.row| == |row|
    decreases |types| - i
  {
    if i == |types| then Written(row, None)
    else match KindOf(types[i])
      case None => WriteColumns(convention, types, parameters, row, i + 1)
      case Some(k) =>
        if i >= |parameters| then Written(row, Some(IndexOutOfBounds))
        else if CastFailure(k, parameters[i]).Some? then Written(row, CastFailure(k, parameters[i]))
        else
          var column := ColumnFor(convention, i, k);
          if 1 <= column <= |row| then
            WriteColumns(convention, types, parameters, row[column - 1 := Some(Typed(k, parameters[i]))], i + 1)
          else Written(row, Some(Sql))
  }

  method BindColumns(rs: Cursor, parameters: seq<Value>, convention: Convention) returns (failure: Option<Failure>)
    requires rs.Valid()
    modifies rs.row
    ensures rs.Valid()
    ensures var w := WriteColumns(convention, rs.columnTypes, parameters, old(rs.row[..]), 0);
      rs.row[..] == w.row && failure == w.failure
  {
    var types := rs.columnTypes;
    for i := 0 to |types|
      invariant WriteColumns(convention, types, parameters, rs.row[..], i)
             == WriteColumns(convention, types, parameters, old(rs.row[..]), 0)
    {
      match KindOf(types[i]) {
        case None =>
        case Some(k) =>
          if i >= |parameters| {
            return Some(IndexOutOfBounds);
          }
          var cast := CastFailure(k, parameters[i]);
          if cast.Some? {
            return cast;
          }
          var ok := rs.UpdateColumn(ColumnFor(convention, i, k), Typed(k, parameters[i]));
          if !ok {
            return Some(Sql);
          }
      }
    }
    failure := None;
  }

  /**
   * `insertRowFromResultSet`: moves to the insert row, binds by column type
   * as the source does, and commits the row only if nothing raised.
   */
  method InsertRowFromResultSet(rs: Cursor, parameters: seq<Value>) returns (failure: Option<Failure>)
    requires rs.Valid()
    modifies rs
    ensures rs.Valid() && rs.onInsertRow && rs.updated == old(rs.updated)
    ensures fresh(rs.row)
    ensures var w := WriteColumns(AsWritten, rs.columnTypes, parameters, Unbound(|rs.columnTypes|), 0);
      && rs.row[..] == w.row && failure == w.failure
      && rs.inserted == old(rs.inserted) + (if w.failure.None? then [w.row] else [])
  {
    rs.MoveToInsertRow();
    failure := BindColumns(rs, parameters, AsWritten);
    if failure.None? {
      var ok := rs.InsertRow();
    }
  }

  /**
   * `update`: binds by column type into the current row as the source does,
   * and commits with `updateRow`, which raises on the insert row.
   */
  method Update(rs: Cursor, parameters: seq<Value>) returns (failure: Option<Failure>)
    requires rs.Valid()
    modifies rs, rs.row
    ensures rs.Valid() && rs.row == old(rs.row) && rs.onInsertRow == old(rs.onInsertRow)
    ensures rs.inserted == old(rs.inserted)
    ensures var w := WriteColumns(AsWritten, rs.columnTypes, parameters, old(rs.row[..]), 0);
      && rs.row[..] == w.row
      && failure == (if w.failure.Some? then w.failure else if rs.onInsertRow then Some(Sql) else None)
      && rs.updated == old(rs.updated) + (if failure.None? then [w.row] else [])
  {
    failure := BindColumns(rs, parameters, AsWritten);
    if failure.None? {
      var ok := rs.UpdateRow();
      failure := if ok then None else Some(Sql);
    }
  }

  // ---------------------------------------------------------------------
  // What the source's column convention does, and what one-based binding does

  /** The row one-based binding produces from position i on when nothing raises. */
  function Dispatched(types: seq<int>, parameters: seq<Value>, row: seq<Option<Bound>>, i: nat): (s: seq<Option<Bound>>)
    requires |row| == |types| <= |parameters|
    ensures |s| == |row|
  {
    seq(|row|, k requires 0 <= k < |row| =>
      if i <= k && KindOf(types[k]).Some? then SlotBinding(types[k], parameters[k]) else row[k])
  }

  /**
   * One-based binding writes each column with the setter its declared type
   * selects and leaves columns of unknown type as they were; it raises only
   * for a value that does not cast.
   */
  lemma {:induction false} OneBasedWritesEachColumn(types: seq<int>, parameters: seq<Value>, row: seq<Option<Bound>>, i: nat)
    requires |row| == |types| <= |parameters| && i <= |types|
    requires forall k :: i <= k < |types| ==> SlotFailure(types[k], parameters[k]).None?
    ensures WriteColumns(OneBased, types, parameters, row, i) == Written(Dispatched(types, parameters, row, i), None)
    decreases |types| - i
  {
    if i == |types| {
      assert Dispatched(types, parameters, row, i) == row;
    } else {
      match KindOf(types[i]) {
        case None =>
          OneBasedWritesEachColumn(types, parameters, row, i + 1);
          assert Dispatched(types, parameters, row, i + 1) == Dispatched(types, parameters, row, i);
        case Some(k) =>
          var next := row[i := Some(Typed(k, parameters[i]))];
          OneBasedWritesEachColumn(types, parameters, next, i + 1);
          assert Dispatched(types, parameters, next, i + 1) == Dispatched(types, parameters, row, i);
      }
    }
  }

  /** Where every typed column is a string or boolean column, the two conventions agree. */
  lemma {:induction false} ConventionsAgreeOnTextAndBoolean(types: seq<int>, parameters: seq<Value>, row: seq<Option<Bound>>, i: nat)
    requires i <= |types|
    requires forall k :: i <= k < |types| ==> KindOf(types[k]) in {None, Some(SetString), Some(SetBoolean)}
    ensures WriteColumns(AsWritten, types, parameters, row, i) == WriteColumns(OneBased, types, parameters, row, i)
    decreases |types| - i
  {
    if i < |types| {
      match KindOf(types[i]) {
        case None =>
          ConventionsAgreeOnTextAndBoolean(types, parameters, row, i + 1);
        case Some(k) =>
          if i < |parameters| && CastFailure(k, parameters[i]).None? && i < |row| {
            ConventionsAgreeOnTextAndBoolean(types, parameters, row[i := Some(Typed(k, parameters[i]))], i + 1);
          }
      }
    }
  }

  /**
   * As written, a cursor whose first column is of any type other than
   * string or boolean cannot be bound: its value is written to column 0,
   * which does not exist.
   */
  lemma AsWrittenRejectsLeadingTypedColumn(types: seq<int>, parameters: seq<Value>, row: seq<Option<Bound>>, k: Kind)
    requires |types| >= 1 && |parameters| >= 1
    requires KindOf(types[0]) == Some(k) && k != SetString && k != SetBoolean
    requires CastFailure(k, parameters[0]).None?
    ensures WriteColumns(AsWritten, types, parameters, row, 0).failure == Some(Sql)
  {
  }

  /**
   * As written, a (VARCHAR, INTEGER) row receives its integer in column 1,
   * over the string, and column 2 is never written; one-based binding puts
   * each value in its own column.
   */
  lemma AsWrittenShiftsColumns(name: string, n: int)
    ensures WriteColumns(AsWritten, [VARCHAR, INTEGER], [StringValue(name), IntegerValue(n)], Unbound(2), 0)
         == Written([Some(Typed(SetInt, IntegerValue(n))), None], None)
    ensures WriteColumns(OneBased, [VARCHAR, INTEGER], [StringValue(name), IntegerValue(n)], Unbound(2), 0)
         == Written([Some(Typed(SetString, StringValue(name))), Some(Typed(SetInt, IntegerValue(n)))], None)
  {
    var types, parameters := [VARCHAR, INTEGER], [StringValue(name), IntegerValue(n)];
    var none := Unbound(2);
    assert none == [None, None];
    var s, t := Some(Typed(SetString, StringValue(name))), Some(Typed(SetInt, IntegerValue(n)));
    assert KindOf(types[0]) == Some(SetString) && KindOf(types[1]) == Some(SetInt);
    assert none[0 := s] == [s, None];
    assert [s, None][0 := t] == [t, None];
    assert [s, None][1 := t] == [s, t];
    assert WriteColumns(AsWritten, types, parameters, [t, None], 2) == Written([t, None], None);
    assert WriteColumns(AsWritten, types, parameters, [s, None], 1) == Written([t, None], None);
    assert WriteColumns(AsWritten, types, parameters, none, 0) == Written([t, None], None);
    assert WriteColumns(OneBased, types, parameters, [s, t], 2) == Written([s, t], None);
    assert WriteColumns(OneBased, types, parameters, [s, None], 1) == Written([s, t], None);
    assert WriteColumns(OneBased, types, parameters, none, 0) == Written([s, t], None);
  }
}
