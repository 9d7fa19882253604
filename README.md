# Dynamic query engine — a verified Dafny model

This project models the core of a generic JDBC data-access layer, the class
`DynamicQuery`. Given only a table name and a list of untyped values, the
class:

- finds the table's columns through database metadata;
- drops the columns the database fills in itself;
- builds an `INSERT` statement with one `?` per remaining column;
- binds each value with the setter that the declared SQL type code selects.

The model covers, operation by operation:

- **Column discovery** (`getColumns`): the metadata rows are read in order. A
  row is dropped when its `TYPE_NAME` is `serial`, its `IS_AUTOINCREMENT` is
  `YES` or its `COLUMN_DEF` is `CURRENT_TIMESTAMP`; all three comparisons
  ignore case. If the lookup or the reading of a row fails, the names
  collected so far are returned.
- **INSERT text** (`createDynamicInsertQuery`): `INSERT INTO <t> (<c1>, ..., <cN>)\nVALUES (?, ..., ?)\n`,
  built by appending `name, ` and `?, ` and then cutting the last two
  characters. With no eligible column the cut starts at -2 and raises.
- **Typed dispatch for a query** (`getResultSet`): if the value count differs
  from the statement's marker count, `null` is returned and nothing runs.
  Otherwise slot k gets value k-1 through the setter its `java.sql.Types` code
  selects. A value of the wrong class (or a null that must be unboxed) raises
  before execution. A code with no case binds nothing.
- **Generic inserts** (`insertOneRow`, `insertMultipleRows`): values are bound
  with `setObject`. An SQLException gives 0 or an empty array, but a raise in
  the text builder is not caught. In a batch, bindings persist from one entry
  to the next.
- **Cursor insert and update** (`insertRowFromResultSet`, `update`): values are
  bound by the cursor's column types with the source's column numbering. The
  string and boolean cases write column `i+1`; every other case writes column
  `i`.
- **Delete-all** (`deleteAllRows`): `DELETE FROM <t>\n`, returning the count,
  or 0 on failure.

Table and column names are pasted into the SQL text verbatim, without
quoting. This is the source's injection exposure, and the model keeps it.

The engine's database connection is replaced by an explicit fake,
`FakeJdbc.Connection`. It holds:

- the metadata listings;
- the statement texts the database accepts, with their declared parameter
  types;
- the bound slots (an array);
- the batch entries;
- an `executed` flag;
- the results its executions return.

`FakeJdbc.Cursor` stands for an updatable `ResultSet`. It holds its column
types, the pending row (an array), and the rows committed by `insertRow` and
`updateRow`. Calls with a parameter index that has no marker, or an invalid
column index, raise an SQLException, as the JDBC API documents. The engine's
only field, `conn`, is passed to every operation.

Module layout:

- `wrappers.dfy`: Option and Result.
- `jdbc_types.dfy`: `java.sql.Types` codes (CHAR=1, VARCHAR=12, LONGVARCHAR=-1,
  BIT=-7, BOOLEAN=16, TINYINT=-6, SMALLINT=5, INTEGER=4, BIGINT=-5, REAL=7,
  FLOAT=6, DOUBLE=8, NUMERIC=2, DECIMAL=3, DATE=91, TIME=92, TIMESTAMP=93), the
  dispatch switch, Java runtime values, and cast failures.
- `column_catalog.dfy`: metadata rows, case-insensitive matching, the
  exclusion test, and the eligible-name filter.
- `insert_text.dfy`: the column and placeholder lists, the template, and their
  inverse (`Split`).
- `fake_jdbc.dfy`: the connection and cursor fakes.
- `dynamic_query.dfy`: the engine's operations and the lemmas about them.

The model follows the code in these places, where a cleaner design of the same engine would differ:

- On a failure to read rows, `getColumns` returns the names collected so far.
  The list is empty when `getMetaData` fails, when the metadata lookup or
  the first row read raises (a listing that fails at row 0), or when every
  row is excluded (`ColumnCatalog.EligibleEmpty`).
- On a type mismatch, the slots bound before the failing one stay bound. The
  statement is never executed.
- Cursor binding keeps the source's mixed column numbering (see Findings).
- The INSERT text has a line break before `VALUES` and a trailing line break.
  `DELETE FROM <t>` also ends in a line break. Both come from the source's
  Java text blocks.
- `insertRowFromResultSet` and `update` do not check that the value list has
  the cursor's length. If the list is too short, they raise
  `IndexOutOfBounds` at the first typed column past its end. If it is too
  long, the extra values are ignored.

## Model

| member | source | states |
|---|---|---|
| `JdbcTypes.KindOfMatchesCodes` | src/main/java/rafael/alcocer/caldera/jdbc/DynamicQuery.java:82-147 | the switch selects binding kind k exactly for the case labels of k (string for CHAR/VARCHAR/LONGVARCHAR, boolean for BIT/BOOLEAN, ..., float for REAL, double for FLOAT/DOUBLE) |
| `JdbcTypes.KindOfUnknown` | src/main/java/rafael/alcocer/caldera/jdbc/DynamicQuery.java:82-147 | a code no case label names selects no binding (the switch has no default) |
| `JdbcTypes.CastFailure` | src/main/java/rafael/alcocer/caldera/jdbc/DynamicQuery.java:86-146 | the cast before each setter succeeds iff the value has the named class, or is null for a reference setter; unboxing a null raises NullPointerException, any other mismatch ClassCastException |
| `ColumnCatalog.MatchIgnoresAsciiCase` | src/main/java/rafael/alcocer/caldera/jdbc/DynamicQuery.java:452-453 | the equalsIgnoreCase test gives the same answer whatever the ASCII case of the metadata string |
| `ColumnCatalog.ExclusionExamples` | src/main/java/rafael/alcocer/caldera/jdbc/DynamicQuery.java:452-455 | each of the three rules excludes a column by itself, e.g. in upper case, lower case and with a long s (Java's folding); a NULL or another default does not exclude |
| `ColumnCatalog.EligibleIsFilteredSubsequence` | src/main/java/rafael/alcocer/caldera/jdbc/DynamicQuery.java:432-457 | the result is the order-preserving subsequence of row names picked by strictly increasing indices that contain every non-excluded row and no excluded one |
| `ColumnCatalog.EligiblePrefix` | src/main/java/rafael/alcocer/caldera/jdbc/DynamicQuery.java:422-464 | what is collected before a read fails is a prefix of the full answer |
| `ColumnCatalog.EligibleEmpty` | src/main/java/rafael/alcocer/caldera/jdbc/DynamicQuery.java:452-457 | the result is empty iff every row is excluded |
| `ColumnCatalog.UsersTableKeepsAllColumns` | src/main/java/rafael/alcocer/caldera/jdbc/DynamicQuery.java:432-457 | a five-column users table with no generated column keeps all five names in definition order |
| `InsertText.TerminatedIsJoinAndSeparator` | src/main/java/rafael/alcocer/caldera/jdbc/DynamicQuery.java:500-508 | for N >= 1, what the append loop builds is the joined list plus ", ", so cutting two characters leaves no trailing separator |
| `InsertText.SplitJoin` | src/main/java/rafael/alcocer/caldera/jdbc/DynamicQuery.java:500-507 | round trip: splitting the joined column list at ", " gives back the N names in order (names without commas) |
| `InsertText.PlaceholderCount` | src/main/java/rafael/alcocer/caldera/jdbc/DynamicQuery.java:497-513 | the statement holds exactly N `?` when the identifiers hold none, and its value list splits into N `"?"` |
| `FakeJdbc.Connection.RowsRead` | src/main/java/rafael/alcocer/caldera/jdbc/DynamicQuery.java:422-464 | the rows getColumns can read are a prefix of the table's metadata rows (none when getMetaData fails) |
| `FakeJdbc.Connection.PrepareStatement` | src/main/java/rafael/alcocer/caldera/jdbc/DynamicQuery.java:66-67 | a newly prepared statement has one unbound slot per declared parameter, an empty batch and has not run; a rejected text raises and changes nothing |
| `FakeJdbc.Connection.SetParameter` | src/main/java/rafael/alcocer/caldera/jdbc/DynamicQuery.java:172-174 | a set call changes exactly slot index-1, and raises for an index with no marker |
| `FakeJdbc.Connection.AddBatch` | src/main/java/rafael/alcocer/caldera/jdbc/DynamicQuery.java:207-211 | addBatch appends the current bindings as one entry |
| `FakeJdbc.Connection.ExecuteQuery` | src/main/java/rafael/alcocer/caldera/jdbc/DynamicQuery.java:150 | executeQuery runs the statement and raises exactly when the database is scripted to fail the query |
| `FakeJdbc.Connection.ExecuteUpdate` | src/main/java/rafael/alcocer/caldera/jdbc/DynamicQuery.java:176 | executeUpdate runs the statement and returns the database's update count, or raises |
| `FakeJdbc.Connection.ExecuteBatch` | src/main/java/rafael/alcocer/caldera/jdbc/DynamicQuery.java:214 | a batch that runs returns one count per entry |
| `FakeJdbc.Cursor.MoveToInsertRow` | src/main/java/rafael/alcocer/caldera/jdbc/DynamicQuery.java:230 | the cursor is on an empty insert buffer; committed rows are kept |
| `FakeJdbc.Cursor.UpdateColumn` | src/main/java/rafael/alcocer/caldera/jdbc/DynamicQuery.java:242-289 | an update call changes exactly column `column`, and raises for an invalid column (0 included) |
| `FakeJdbc.Cursor.InsertRow` | src/main/java/rafael/alcocer/caldera/jdbc/DynamicQuery.java:294 | insertRow commits the pending row, on the insert row only |
| `FakeJdbc.Cursor.UpdateRow` | src/main/java/rafael/alcocer/caldera/jdbc/DynamicQuery.java:371 | updateRow commits the pending row, except on the insert row |
| `DynamicQuery.GetColumns` | src/main/java/rafael/alcocer/caldera/jdbc/DynamicQuery.java:418-465 | the result is exactly the eligible names of the rows readable before any failure (empty when getMetaData fails), without raising |
| `DynamicQuery.CreateDynamicInsertQuery` | src/main/java/rafael/alcocer/caldera/jdbc/DynamicQuery.java:492-514 | for N >= 1 eligible columns the text is `INSERT INTO t (c1, ..., cN)\nVALUES (?, ..., ?)\n` with the columns in discovery order; with none it raises StringIndexOutOfBounds |
| `DynamicQuery.FirstFailure` | src/main/java/rafael/alcocer/caldera/jdbc/DynamicQuery.java:76-147 | the least slot whose value fails its cast (the slot count when none does) |
| `DynamicQuery.GetResultSet` | src/main/java/rafael/alcocer/caldera/jdbc/DynamicQuery.java:59-156 | with a count mismatch: returns null, nothing bound, nothing run. Otherwise slot k holds parameters[k-1] with its code's setter up to the first failing cast; slots after it stay unbound; the query runs iff no cast fails; a failing cast raises its exception |
| `DynamicQuery.Batch` | src/main/java/rafael/alcocer/caldera/jdbc/DynamicQuery.java:198-212 | exactly one batch entry per parameter list |
| `DynamicQuery.InsertOneRow` | src/main/java/rafael/alcocer/caldera/jdbc/DynamicQuery.java:165-182 | with no eligible column the builder's raise propagates; otherwise the statement's declared parameters are those the database reports for the INSERT text, slot i holds parameters[i-1] for each i with a marker, the statement runs iff every value has a marker, and the update count is returned, or 0 for a rejected text, a value with no marker, or a failed execution |
| `DynamicQuery.InsertMultipleRows` | src/main/java/rafael/alcocer/caldera/jdbc/DynamicQuery.java:191-220 | the builder's raise propagates; otherwise the statement's declared parameters are those the database reports for the INSERT text, the batch is one entry per list in order, values with no marker are ignored, and the result is one count per list, or empty on failure |
| `DynamicQuery.FullListsFillEveryEntry` | src/main/java/rafael/alcocer/caldera/jdbc/DynamicQuery.java:198-212 | when every list fills all markers, entry j binds exactly list j's values |
| `DynamicQuery.ShortListKeepsEarlierValues` | src/main/java/rafael/alcocer/caldera/jdbc/DynamicQuery.java:198-212 | for any starting bindings and lists: in entry j, slot k holds list j's value when the list reaches it; past the end of a shorter list it keeps entry j-1's value (for entry 0, the value bound before the batch) |
| `DynamicQuery.DeleteAllRows` | src/main/java/rafael/alcocer/caldera/jdbc/DynamicQuery.java:398-410 | runs `DELETE FROM t\n` on a newly prepared statement (no parameters bound, empty batch) and returns its count, or 0 for any SQLException |
| `DynamicQuery.BindColumns` | src/main/java/rafael/alcocer/caldera/jdbc/DynamicQuery.java:235-292 | the cursor's pending row and the raised failure are those of the column-by-column binding loop |
| `DynamicQuery.InsertRowFromResultSet` | src/main/java/rafael/alcocer/caldera/jdbc/DynamicQuery.java:229-299 | binds an empty insert buffer by column type (source numbering) and commits it iff nothing raised |
| `DynamicQuery.Update` | src/main/java/rafael/alcocer/caldera/jdbc/DynamicQuery.java:308-376 | binds the current row by column type (source numbering) and commits it iff nothing raised and the cursor is not on the insert row |
| `DynamicQuery.OneBasedWritesEachColumn` | src/main/java/rafael/alcocer/caldera/jdbc/DynamicQuery.java:239-248 | numbering columns i+1 throughout, every typed column receives its own value with its code's setter, columns of unknown type keep theirs, nothing raises |
| `DynamicQuery.ConventionsAgreeOnTextAndBoolean` | src/main/java/rafael/alcocer/caldera/jdbc/DynamicQuery.java:239-248 | on cursors whose typed columns are all string or boolean, the source's numbering and one-based numbering give the same result |
| `DynamicQuery.AsWrittenRejectsLeadingTypedColumn` | src/main/java/rafael/alcocer/caldera/jdbc/DynamicQuery.java:250-290 | as written, a cursor whose first column is typed neither string nor boolean, and whose value casts, raises an SQLException (column 0) |
| `DynamicQuery.AsWrittenShiftsColumns` | src/main/java/rafael/alcocer/caldera/jdbc/DynamicQuery.java:239-260 | as written, a (VARCHAR, INTEGER) row gets its integer in column 1 over the string while column 2 stays unwritten; one-based numbering puts each value in its own column |

## Findings

| source | as written | input that shows it | evidently intended | confidence | as-written member | corrected member |
|---|---|---|---|---|---|---|
| src/main/java/rafael/alcocer/caldera/jdbc/DynamicQuery.java:251-289 (and 328-366) | every case except string and boolean updates column `i`, the 0-based position, while the type was read from column `i+1` | cursor columns (VARCHAR, INTEGER), values ("rac", 7): the 7 overwrites column 1 and column 2 is never set; a first column of type INTEGER makes `updateInt(0, ...)` raise | update column `i+1` in every case, as the string and boolean cases and the 1-based type lookup at :236 do | high; not executed | `DynamicQuery.AsWrittenShiftsColumns` | `DynamicQuery.OneBasedWritesEachColumn` |

The column numbering is a parameter of the cursor binding loop
(`DynamicQuery.Convention`). `InsertRowFromResultSet` and `Update` use
`AsWritten`, so they keep the source's observable behaviour. `OneBased` is the
corrected numbering, and `OneBasedWritesEachColumn` proves the intended
property for it. With the corrected numbering, `BindColumns` gives the
corrected operations.

## Left out

- Logging, `printStackTrace`, and the closing of statements and result sets by try-with-resources. In the model a close never raises.
- SQL execution itself. The fake returns scripted answers: an update count, a per-entry batch count, and whether a query fails. The rows of a returned `ResultSet` and its scroll and concurrency modes are not modelled. `GetResultSet` returns only whether a result set, a null or a raise came back.
- getColumns pattern matching: the table name is matched as a pattern (`_` and `%` wildcards). The fake's listings are keyed by the exact string.
- delete(rs) (source lines 384-390): a one-call passthrough to `deleteRow`, not modelled.
- SQLExceptions raised by `getParameterMetaData` and `getParameterType` are not modelled separately: for the statement operations a rejected statement text stands for them. For the cursor operations, a raise from `getMetaData`, `getColumnCount` or `getColumnType` (after `moveToInsertRow` in `insertRowFromResultSet`) is not modelled; the fake cursor's metadata always answers.
- Executions with markers left unbound: the fake answers them like any other, where a driver would typically raise.
- `addBatch`, `insertRow` and `updateRow` raise only for the reasons the fake names (wrong row). Database constraint failures are not modelled.
- Float, double, decimal, date, time and timestamp values are opaque tokens: only the setter chosen for them is modelled. The integer payloads of `Byte`, `Short`, `Integer` and `Long` values are not range-checked.
- `null` table or column names, which Java would print as `null` in the SQL text.
- ColumnCatalog.MatchesIgnoringCase: it reproduces `equalsIgnoreCase` only against ASCII literals, which are the only kind the source compares with. Surrogate pairs are not modelled.
- ExecuteDynamicQuery.java (the demonstration driver, with its random sample values and its SELECT template) and DbConfig.java (driver loading and connection set-up) are not part of this model.
