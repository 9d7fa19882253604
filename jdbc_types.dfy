/**
 * The JDBC vocabulary the engine dispatches on: the `java.sql.Types` codes,
 * the setter (or updater) each code selects, the Java runtime classes of the
 * untyped parameter values, and what the casts in the dispatch do to them.
 */
module JdbcTypes {
  import opened Wrappers

  // java.sql.Types
  const CHAR: int := 1
  const VARCHAR: int := 12
  const LONGVARCHAR: int := -1
  const BIT: int := -7
  const BOOLEAN: int := 16
  const TINYINT: int := -6
  const SMALLINT: int := 5
  const INTEGER: int := 4
  const BIGINT: int := -5
  const REAL: int := 7
  const FLOAT: int := 6
  const DOUBLE: int := 8
  const NUMERIC: int := 2
  const DECIMAL: int := 3
  const DATE: int := 91
  const TIME: int := 92
  const TIMESTAMP: int := 93

  /** The typed binding call a declared type code selects (setString/updateString, ...). */
  datatype Kind =
    | SetString | SetBoolean | SetByte | SetShort | SetInt | SetLong
    | SetFloat | SetDouble | SetBigDecimal | SetDate | SetTime | SetTimestamp

  /**
   * The runtime value of one element of a `List<?>` of parameters. Floating
   * point, decimal and temporal values are kept as opaque tokens: the model
   * only tracks which binding they receive.
   */
  datatype Value =
    | NullValue
    | StringValue(s: string)
    | BooleanValue(b: bool)
    | ByteValue(n: int)
    | ShortValue(n: int)
    | IntegerValue(n: int)
    | LongValue(n: int)
    | FloatValue(token: int)
    | DoubleValue(token: int)
    | BigDecimalValue(token: int)
    | DateValue(token: int)
    | TimeValue(token: int)
    | TimestampValue(token: int)
    | OtherValue(className: string)

  /** The Java exceptions the engine can raise or swallow. */
  datatype Failure =
    | ClassCast                // a `(T) value` cast of a value of another class
    | NullPointer              // unboxing a null (`((Integer) null).intValue()`)
    | IndexOutOfBounds         // `parameters.get(i)` past the end of the list
    | StringIndexOutOfBounds   // `StringBuilder.delete` with a negative start
    | Sql                      // any SQLException

  /** What a statement slot or a cursor column holds after a set/update call. */
  datatype Bound =
    | Typed(kind: Kind, value: Value)   // setString, setInt, updateDate, ...
    | Generic(value: Value)             // setObject

  /** The `switch (parameterType)` of the dispatch: None for a code with no case. */
  function KindOf(code: int): Option<Kind> {
    if code == CHAR || code == VARCHAR || code == LONGVARCHAR then Some(SetString)
    else if code == BIT || code == BOOLEAN then Some(SetBoolean)
    else if code == TINYINT then Some(SetByte)
    else if code == SMALLINT then Some(SetShort)
    else if code == INTEGER then Some(SetInt)
    else if code == BIGINT then Some(SetLong)
    else if code == REAL then Some(SetFloat)
    else if code == FLOAT || code == DOUBLE then Some(SetDouble)
    else if code == NUMERIC || code == DECIMAL then Some(SetBigDecimal)
    else if code == DATE then Some(SetDate)
    else if code == TIME then Some(SetTime)
    else if code == TIMESTAMP then Some(SetTimestamp)
    else None
  }

  /** Reference table: the case labels that lead to each binding kind. */
  function CodesFor(k: Kind): set<int> {
    match k
    case SetString => {CHAR, VARCHAR, LONGVARCHAR}
    case SetBoolean => {BIT, BOOLEAN}
    case SetByte => {TINYINT}
    case SetShort => {SMALLINT}
    case SetInt => {INTEGER}
    case SetLong => {BIGINT}
    case SetFloat => {REAL}
    case SetDouble => {FLOAT, DOUBLE}
    case SetBigDecimal => {NUMERIC, DECIMAL}
    case SetDate => {DATE}
    case SetTime => {TIME}
    case SetTimestamp => {TIMESTAMP}
  }

  /** The dispatch selects kind `k` exactly for the case labels listed for `k`. */
  lemma KindOfMatchesCodes(code: int, k: Kind)
    ensures KindOf(code) == Some(k) <==> code in CodesFor(k)
  {
  }

  /** A code with no case label in the switch selects no binding at all. */
  lemma KindOfUnknown(code: int)
    ensures KindOf(code).None? <==> forall k: Kind :: code !in CodesFor(k)
  {
    if KindOf(code).Some? {
      KindOfMatchesCodes(code, KindOf(code).value);
    } else {
      forall k: Kind ensures code !in CodesFor(k) {
        KindOfMatchesCodes(code, k);
      }
    }
  }

  /** True when the setter of kind `k` unboxes its argument to a primitive. */
  predicate Unboxes(k: Kind) {
    !(k == SetString || k == SetBigDecimal || k == SetDate || k == SetTime || k == SetTimestamp)
  }

  /** True when `v`'s runtime class is the class the cast for kind `k` names. */
  predicate HasClassFor(k: Kind, v: Value) {
    match k
    case SetString => v.StringValue?
    case SetBoolean => v.BooleanValue?
    case SetByte => v.ByteValue?
    case SetShort => v.ShortValue?
    case SetInt => v.IntegerValue?
    case SetLong => v.LongValue?
    case SetFloat => v.FloatValue?
    case SetDouble => v.DoubleValue?
    case SetBigDecimal => v.BigDecimalValue?
    case SetDate => v.DateValue?
    case SetTime => v.TimeValue?
    case SetTimestamp => v.TimestampValue?
  }

  /**
   * What `(String) v`, `((Integer) v).intValue()`, ... raise before the
   * setter is called: a cast of null succeeds, unboxing it does not.
   */
  function CastFailure(k: Kind, v: Value): (f: Option<Failure>)
    ensures f.None? <==> HasClassFor(k, v) || (v.NullValue? && !Unboxes(k))
    ensures f == Some(NullPointer) <==> v.NullValue? && Unboxes(k)
    ensures f == Some(ClassCast) <==> !v.NullValue? && !HasClassFor(k, v)
  {
    if v.NullValue? then (if Unboxes(k) then Some(NullPointer) else None)
    else if HasClassFor(k, v) then None
    else Some(ClassCast)
  }

  /** The failure, if any, of dispatching value `v` on a slot declared with `code`. */
  function SlotFailure(code: int, v: Value): Option<Failure> {
    match KindOf(code)
    case None => None
    case Some(k) => CastFailure(k, v)
  }

  /** What the dispatch binds for value `v` on a slot declared with `code`. */
  function SlotBinding(code: int, v: Value): Option<Bound> {
    match KindOf(code)
    case None => None
    case Some(k) => Some(Typed(k, v))
  }
}
