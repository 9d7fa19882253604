/**
 * The text of the generated INSERT statement: the comma-separated column
 * list, the matching list of `?` placeholders, and the surrounding template.
 * Table and column names are interpolated verbatim, with no quoting.
 */
module InsertText {

  const Separator: string := ", "
  const Head: string := "INSERT INTO "
  const Open: string := " ("
  const Middle: string := ")\nVALUES ("
  const Tail: string := ")\n"

  /** `xs[0] + ", " + xs[1] + ... + xs[n-1]`: the list with no trailing separator. */
  function Join(xs: seq<string>): string
    requires |xs| >= 1
  {
    if |xs| == 1 then xs[0] else xs[0] + Separator + Join(xs[1..])
  }

  /** What the append loop builds before the tail is deleted: every element followed by ", ". */
  function Terminated(xs: seq<string>): string {
    if xs == [] then "" else xs[0] + Separator + Terminated(xs[1..])
  }

  /** `n` placeholders. */
  function Placeholders(n: nat): (r: seq<string>)
    ensures |r| == n
    ensures forall i :: 0 <= i < n ==> r[i] == "?"
  {
    if n == 0 then [] else ["?"] + Placeholders(n - 1)
  }

  /** The statement the builder returns for a non-empty column list. */
  function InsertStatement(table: string, columns: seq<string>): string
    requires |columns| >= 1
  {
    Head + table + Open + Join(columns) + Middle + Join(Placeholders(|columns|)) + Tail
  }

  lemma {:induction false} TerminatedSnoc(xs: seq<string>, x: string)
    ensures Terminated(xs + [x]) == Terminated(xs) + x + Separator
  {
    if xs == [] {
      assert [x][1..] == [];
    } else {
      assert (xs + [x])[1..] == xs[1..] + [x];
      TerminatedSnoc(xs[1..], x);
    }
  }

  /** Deleting the last two characters of the appended text leaves exactly the joined list. */
  lemma {:induction false} TerminatedIsJoinAndSeparator(xs: seq<string>)
    requires |xs| >= 1
    ensures Terminated(xs) == Join(xs) + Separator
  {
    if |xs| > 1 {
      TerminatedIsJoinAndSeparator(xs[1..]);
    }
  }

  lemma {:induction false} TerminatedLength(xs: seq<string>)
    ensures |Terminated(xs)| == 0 <==> xs == []
    ensures xs != [] ==> |Terminated(xs)| >= 2
  {
  }

  lemma {:induction false} PlaceholdersSnoc(n: nat)
    ensures Placeholders(n + 1) == Placeholders(n) + ["?"]
  {
  }

  /**
   * The inverse of `Join`: cut at every ',' and drop the one blank that
   * follows it.
   */
  function Split(s: string): (parts: seq<string>)
    ensures |parts| >= 1
  {
    if s == [] then [""]
    else if s[0] == ',' then [""] + Split(DropBlank(s[1..]))
    else var rest := Split(s[1..]); [[s[0]] + rest[0]] + rest[1..]
  }

  function DropBlank(s: string): (r: string)
    ensures |r| <= |s|
  {
    if s != [] && s[0] == ' ' then s[1..] else s
  }

  predicate NoComma(x: string) {
    forall i :: 0 <= i < |x| ==> x[i] != ','
  }

  lemma {:induction false} SplitItem(x: string, tail: string)
    requires NoComma(x)
    ensures Split(x + tail) == [x + Split(tail)[0]] + Split(tail)[1..]
  {
    if x != [] {
      assert (x + tail)[0] == x[0];
      assert (x + tail)[1..] == x[1..] + tail;
      SplitItem(x[1..], tail);
      assert [x[0]] + (x[1..] + Split(tail)[0]) == x + Split(tail)[0];
    } else {
      assert x + tail == tail;
      assert x + Split(tail)[0] == Split(tail)[0];
      assert Split(tail) == [Split(tail)[0]] + Split(tail)[1..];
    }
  }

  /** Round trip: splitting the joined column list gives back the columns, in order. */
  lemma {:induction false} SplitJoin(xs: seq<string>)
    requires |xs| >= 1
    requires forall j :: 0 <= j < |xs| ==> NoComma(xs[j])
    ensures Split(Join(xs)) == xs
  {
    if |xs| == 1 {
      SplitItem(xs[0], "");
      assert xs[0] + "" == xs[0];
    } else {
      var rest := Separator + Join(xs[1..]);
      assert Join(xs) == xs[0] + rest;
      SplitItem(xs[0], rest);
      assert rest[0] == ',' && rest[1..] == " " + Join(xs[1..]);
      assert DropBlank(rest[1..]) == Join(xs[1..]);
      SplitJoin(xs[1..]);
      assert Split(rest) == [""] + xs[1..];
      assert xs[0] + "" == xs[0];
    }
  }

  function Count(c: char, s: string): nat {
    if s == [] then 0 else (if s[0] == c then 1 else 0) + Count(c, s[1..])
  }

  lemma {:induction false} CountAppend(c: char, a: string, b: string)
    ensures Count(c, a + b) == Count(c, a) + Count(c, b)
  {
    if a == [] {
      assert a + b == b;
    } else {
      assert (a + b)[0] == a[0];
      assert (a + b)[1..] == a[1..] + b;
      CountAppend(c, a[1..], b);
    }
  }

  lemma {:induction false} CountJoin(c: char, xs: seq<string>)
    requires |xs| >= 1
    requires c != ',' && c != ' '
    ensures Count(c, Join(xs)) == CountAll(c, xs)
  {
    if |xs| == 1 {
      assert xs[1..] == [];
    } else {
      CountAppend(c, xs[0] + Separator, Join(xs[1..]));
      CountAppend(c, xs[0], Separator);
      CountFree(c, Separator);
      CountJoin(c, xs[1..]);
    }
  }

  function CountAll(c: char, xs: seq<string>): nat {
    if xs == [] then 0 else Count(c, xs[0]) + CountAll(c, xs[1..])
  }

  lemma {:induction false} CountAllPlaceholders(n: nat)
    ensures CountAll('?', Placeholders(n)) == n
  {
    if n > 0 {
      CountAllPlaceholders(n - 1);
    }
  }

  lemma {:induction false} CountAllNone(c: char, xs: seq<string>)
    requires forall j :: 0 <= j < |xs| ==> Count(c, xs[j]) == 0
    ensures CountAll(c, xs) == 0
  {
    if xs != [] {
      CountAllNone(c, xs[1..]);
    }
  }

  /** A string without `c` counts no `c`. */
  lemma {:induction false} CountFree(c: char, s: string)
    requires forall i :: 0 <= i < |s| ==> s[i] != c
    ensures Count(c, s) == 0
  {
    if s != [] {
      CountFree(c, s[1..]);
    }
  }

  lemma CountFive(c: char, a: string, b: string, m: string, d: string, e: string)
    ensures Count(c, a + b + m + d + e) == Count(c, a) + Count(c, b) + Count(c, m) + Count(c, d) + Count(c, e)
  {
    CountAppend(c, a + b + m + d, e);
    CountAppend(c, a + b + m, d);
    CountAppend(c, a + b, m);
    CountAppend(c, a, b);
  }

  /** The template around the two lists holds no placeholder of its own. */
  lemma HeadCount(table: string)
    requires Count('?', table) == 0
    ensures Count('?', Head + table + Open) == 0
  {
    var h, o := Head, Open;
    assert Count('?', h) == 0;
    assert Count('?', o) == 0;
    CountAppend('?', h + table, o);
    CountAppend('?', h, table);
  }

  lemma TailCount()
    ensures Count('?', Middle) == 0 && Count('?', Tail) == 0
  {
  }

  /**
   * For N >= 1 columns, when no identifier contains '?', the statement holds
   * exactly N placeholders; its value list is N "?" joined by ", ".
   */
  lemma PlaceholderCount(table: string, columns: seq<string>)
    requires |columns| >= 1
    requires Count('?', table) == 0
    requires forall j :: 0 <= j < |columns| ==> Count('?', columns[j]) == 0
    ensures Count('?', InsertStatement(table, columns)) == |columns|
    ensures Split(Join(Placeholders(|columns|))) == Placeholders(|columns|)
  {
    var n := |columns|;
    CountJoin('?', columns);
    CountAllNone('?', columns);
    CountJoin('?', Placeholders(n));
    CountAllPlaceholders(n);
    HeadCount(table);
    TailCount();
    CountFive('?', Head + table + Open, Join(columns), Middle, Join(Placeholders(n)), Tail);
    SplitJoin(Placeholders(n));
  }
}
