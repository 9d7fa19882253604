/**
 * The column catalog: which of the columns the database metadata reports for
 * a table are eligible for a generic INSERT, and in which order.
 */
module ColumnCatalog {
  import opened Wrappers

  /**
   * One row of `DatabaseMetaData.getColumns`: COLUMN_NAME and the three
   * string columns the exclusion test reads (each may be SQL NULL).
   */
  datatype ColumnMeta = ColumnMeta(
    name: string,
    typeName: Option<string>,
    isAutoIncrement: Option<string>,
    columnDef: Option<string>)

  /**
   * The character `String.equalsIgnoreCase` compares `c` as, when the other
   * side is ASCII: ASCII letters fold to lower case, and the four non-ASCII
   * characters whose upper or lower case is an ASCII letter fold to it
   * (dotted and dotless i, long s, Kelvin sign).
   */
  function Fold(c: char): char {
    if 'A' <= c <= 'Z' then (c as int + 32) as char
    else if c == '\U{130}' || c == '\U{131}' then 'i'
    else if c == '\U{17F}' then 's'
    else if c == '\U{212A}' then 'k'
    else c
  }

  /** `literal.equalsIgnoreCase(s)` for an ASCII `literal`; false when `s` is null. */
  predicate MatchesIgnoringCase(s: Option<string>, literal: string) {
    s.Some? && |s.value| == |literal| &&
    forall i :: 0 <= i < |literal| ==> Fold(s.value[i]) == Fold(literal[i])
  }

  function AsciiUpper(c: char): char {
    if 'a' <= c <= 'z' then (c as int - 32) as char else c
  }

  function ToAsciiUpper(s: string): (r: string)
    ensures |r| == |s|
    ensures forall i :: 0 <= i < |s| ==> r[i] == AsciiUpper(s[i])
  {
    if s == [] then [] else [AsciiUpper(s[0])] + ToAsciiUpper(s[1..])
  }

  /** Changing the ASCII case of the metadata string never changes the test. */
  lemma MatchIgnoresAsciiCase(s: string, literal: string)
    ensures MatchesIgnoringCase(Some(ToAsciiUpper(s)), literal) <==> MatchesIgnoringCase(Some(s), literal)
  {
  }

  /** The exclusion test of the metadata loop. */
  predicate Excluded(row: ColumnMeta) {
    MatchesIgnoringCase(row.typeName, "serial")
    || MatchesIgnoringCase(row.isAutoIncrement, "YES")
    || MatchesIgnoringCase(row.columnDef, "CURRENT_TIMESTAMP")
  }

  /** The names of the rows that pass the exclusion test, in metadata order. */
  function Eligible(rows: seq<ColumnMeta>): (names: seq<string>)
    ensures |names| <= |rows|
  {
    if rows == [] then []
    else if Excluded(rows[0]) then Eligible(rows[1..])
    else [rows[0].name] + Eligible(rows[1..])
  }

  lemma {:induction false} EligibleAppend(a: seq<ColumnMeta>, b: seq<ColumnMeta>)
    ensures Eligible(a + b) == Eligible(a) + Eligible(b)
  {
    if a == [] {
      assert a + b == b;
    } else {
      assert (a + b)[1..] == a[1..] + b;
      EligibleAppend(a[1..], b);
    }
  }

  /** What the loop has collected when reading stops early is a prefix of the full answer. */
  lemma {:induction false} EligiblePrefix(rows: seq<ColumnMeta>, k: nat)
    requires k <= |rows|
    ensures Eligible(rows[..k]) <= Eligible(rows)
  {
    assert rows == rows[..k] + rows[k..];
    EligibleAppend(rows[..k], rows[k..]);
  }

  /** The metadata row indices whose names `Eligible` keeps. */
  function KeptIndices(rows: seq<ColumnMeta>, from: nat): seq<nat>
    requires from <= |rows|
    decreases |rows| - from
  {
    if from == |rows| then []
    else if Excluded(rows[from]) then KeptIndices(rows, from + 1)
    else [from] + KeptIndices(rows, from + 1)
  }

  lemma {:induction false} KeptIndicesFacts(rows: seq<ColumnMeta>, from: nat)
    requires from <= |rows|
    ensures var idx := KeptIndices(rows, from);
      && |idx| == |Eligible(rows[from..])|
      && (forall j :: 0 <= j < |idx| ==> from <= idx[j] < |rows|)
      && (forall j, j' :: 0 <= j < j' < |idx| ==> idx[j] < idx[j'])
      && (forall j :: 0 <= j < |idx| ==> Eligible(rows[from..])[j] == rows[idx[j]].name)
      && (forall p :: from <= p < |rows| ==> (p in idx <==> !Excluded(rows[p])))
    decreases |rows| - from
  {
    if from < |rows| {
      KeptIndicesFacts(rows, from + 1);
      assert rows[from..][1..] == rows[from + 1..];
    }
  }

  /**
   * `Eligible` is exactly the order-preserving subsequence of the metadata
   * names whose rows pass none of the three exclusion rules: there is a
   * strictly increasing choice of row indices, containing every row that is
   * not excluded and no row that is.
   */
  lemma EligibleIsFilteredSubsequence(rows: seq<ColumnMeta>)
    ensures exists idx: seq<nat> ::
      && |idx| == |Eligible(rows)|
      && (forall j :: 0 <= j < |idx| ==> idx[j] < |rows| && Eligible(rows)[j] == rows[idx[j]].name)
      && (forall j, j' :: 0 <= j < j' < |idx| ==> idx[j] < idx[j'])
      && (forall p :: 0 <= p < |rows| ==> (p in idx <==> !Excluded(rows[p])))
  {
    KeptIndicesFacts(rows, 0);
    assert rows[0..] == rows;
    var idx := KeptIndices(rows, 0);
    assert |idx| == |Eligible(rows)|;
  }

  /** A non-empty result means some row passed the exclusion test. */
  lemma {:induction false} EligibleEmpty(rows: seq<ColumnMeta>)
    ensures Eligible(rows) == [] <==> forall p :: 0 <= p < |rows| ==> Excluded(rows[p])
  {
    if rows != [] {
      EligibleEmpty(rows[1..]);
      assert forall p :: 1 <= p < |rows| ==> rows[p] == rows[1..][p - 1];
    }
  }

  /**
   * Each rule excludes on its own, whatever the case of the reported string;
   * a SQL NULL or any other default does not.
   */
  lemma ExclusionExamples()
    ensures Excluded(ColumnMeta("id", Some("SERIAL"), Some("NO"), None))
    ensures Excluded(ColumnMeta("id", Some("int4"), Some("yes"), None))
    ensures Excluded(ColumnMeta("created", Some("timestamp"), Some("NO"), Some("current_timestamp")))
    ensures Excluded(ColumnMeta("id", Some("\U{17F}erial"), None, None))
    ensures !Excluded(ColumnMeta("created", Some("timestamp"), Some("NO"), Some("now()")))
    ensures !Excluded(ColumnMeta("username", None, None, None))
  {
  }

  /** A table with no generated column keeps every column, in definition order. */
  lemma UsersTableKeepsAllColumns()
    ensures Eligible([
      ColumnMeta("username", Some("varchar"), Some("NO"), None),
      ColumnMeta("full_name", Some("varchar"), Some("NO"), None),
      ColumnMeta("email", Some("varchar"), Some("NO"), None),
      ColumnMeta("phone", Some("varchar"), Some("NO"), None),
      ColumnMeta("active", Some("bool"), Some("NO"), Some("true"))])
      == ["username", "full_name", "email", "phone", "active"]
  {
  }
}
