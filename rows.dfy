/**
 * Rows as the table service returns them: JSON-like records keyed by column
 * name, together with the Python reading rules the aggregation relies on:
 * truthiness, `dict.get` with and without a default, `float(x or 0)`, and
 * filtering a row list by the value of one column.
 */
module Rows {
  import opened Wrappers

  /** A cell value: the JSON shapes a row service can return. */
  datatype Value =
    | Null
    | Bool(b: bool)
    | Num(n: real)
    | Str(s: string)
    | Arr(items: seq<Value>)
    | Obj(fields: map<string, Value>)

  /** A row (a Python dict) from column name to value. */
  type Row = map<string, Value>

  /** The exceptions a coercion or a comparison in the aggregation can raise. */
  datatype Error =
    | NotANumber(value: Value)     // `float(x)` refused x (ValueError / TypeError)
    | NotARecord(value: Value)     // `x.get(...)` on something that is not a dict (AttributeError)
    | NotComparable(value: Value)  // `total > x` with x not a number (TypeError)

  /** How `float(s)` reads a non-empty string; `None` where Python raises. */
  type Parser = string -> Option<real>

  /** Python truthiness (`if x:`, `x or default`). */
  predicate Truthy(v: Value) {
    match v
    case Null => false
    case Bool(b) => b
    case Num(n) => n != 0.0
    case Str(s) => s != ""
    case Arr(items) => items != []
    case Obj(fields) => fields != map[]
  }

  /** `row.get(key)`: an absent key reads as `None`. */
  function Get(row: Row, key: string): Value {
    if key in row then row[key] else Null
  }

  /** `row.get(key, default)`: the default applies only when the key is absent. */
  function GetOr(row: Row, key: string, default: Value): Value {
    if key in row then row[key] else default
  }

  /** `row.get(key, d)` read as a fact about `v`: the row's own value when it has the key, else `d`. */
  predicate CopiedOr(row: Row, key: string, d: Value, v: Value) {
    if key in row then v == row[key] else v == d
  }

  /** `float(x or 0)`: falsy values read as 0, booleans as 0 or 1, strings through `parse`. */
  function ToFloat(v: Value, parse: Parser): (r: Result<real, Error>)
    ensures !Truthy(v) ==> r == Success(0.0)
    ensures v.Num? ==> r == Success(v.n)
    ensures v == Bool(true) ==> r == Success(1.0)
    ensures v.Str? && v.s != "" ==> (r.Success? <==> parse(v.s).Some?)
    ensures v.Str? && v.s != "" && parse(v.s).Some? ==> r == Success(parse(v.s).value)
    ensures r.Failure? ==> r.error == NotANumber(v)
    ensures (v.Arr? || v.Obj?) ==> (r.Success? <==> !Truthy(v))
  {
    if !Truthy(v) then Success(0.0)
    else match v
      case Num(n) => Success(n)
      case Bool(_) => Success(1.0)
      case Str(s) => if parse(s).Some? then Success(parse(s).value) else Failure(NotANumber(v))
      case _ => Failure(NotANumber(v))
  }

  /** `float(row.get(key, 0) or 0)`. */
  function Amount(row: Row, key: string, parse: Parser): Result<real, Error> {
    ToFloat(Get(row, key), parse)
  }

  /** Absent keys and the falsy values `None`, `0` and `""` all read as the amount 0. */
  lemma MissingAmountIsZero(row: Row, key: string, parse: Parser)
    requires key !in row || row[key] in {Null, Num(0.0), Str("")}
    ensures Amount(row, key, parse) == Success(0.0)
  {
  }

  /** The number a Python comparison sees: ints and floats, and booleans as 0 and 1. */
  function NumberOf(v: Value): (r: Option<real>)
    ensures r.Some? <==> (v.Num? || v.Bool?)
    ensures v.Num? ==> r == Some(v.n)
    ensures v == Bool(true) ==> r == Some(1.0)
    ensures v == Bool(false) ==> r == Some(0.0)
  {
    match v
    case Num(n) => Some(n)
    case Bool(b) => Some(if b then 1.0 else 0.0)
    case _ => None
  }

  /**
   * The rows whose column `key` reads as `v` (an absent column reads as
   * `None`), in input order: the list comprehension `[w for w in rows if
   * w.get(key) == v]`.
   */
  function RowsWhere(rows: seq<Row>, key: string, v: Value): (r: seq<Row>)
    ensures |r| <= |rows|
  {
    if rows == [] then []
    else
      var last := rows[|rows| - 1];
      RowsWhere(rows[..|rows| - 1], key, v) + (if Get(last, key) == v then [last] else [])
  }

  /** The filtered list holds exactly the input rows whose column reads as `v`. */
  lemma {:induction false} RowsWhereMembers(rows: seq<Row>, key: string, v: Value)
    ensures forall x :: x in RowsWhere(rows, key, v) <==> x in rows && Get(x, key) == v
  {
    if rows != [] {
      var p := rows[..|rows| - 1];
      RowsWhereMembers(p, key, v);
      assert rows == p + [rows[|rows| - 1]];
    }
  }

  /** Filtering distributes over concatenation, so it keeps the input order. */
  lemma {:induction false} RowsWhereAppend(a: seq<Row>, b: seq<Row>, key: string, v: Value)
    ensures RowsWhere(a + b, key, v) == RowsWhere(a, key, v) + RowsWhere(b, key, v)
  {
    if b == [] {
      assert a + b == a;
    } else {
      var b' := b[..|b| - 1];
      assert (a + b)[..|a + b| - 1] == a + b';
      assert (a + b)[|a + b| - 1] == b[|b| - 1];
      RowsWhereAppend(a, b', key, v);
    }
  }

  /** The head of the filtered list is the first matching row of the input. */
  lemma RowsWhereHead(rows: seq<Row>, key: string, v: Value, i: nat)
    requires i < |rows| && Get(rows[i], key) == v
    requires forall j :: 0 <= j < i ==> Get(rows[j], key) != v
    ensures RowsWhere(rows, key, v) != [] && RowsWhere(rows, key, v)[0] == rows[i]
  {
    assert rows == rows[..i] + ([rows[i]] + rows[i + 1..]);
    RowsWhereAppend(rows[..i], [rows[i]] + rows[i + 1..], key, v);
    RowsWhereAppend([rows[i]], rows[i + 1..], key, v);
    assert RowsWhere([rows[i]], key, v) == [rows[i]] by {
      assert [rows[i]][..0] == [];
    }
    RowsWhereNone(rows[..i], key, v);
  }

  /** No matching row leaves the filtered list empty. */
  lemma {:induction false} RowsWhereNone(rows: seq<Row>, key: string, v: Value)
    requires forall j :: 0 <= j < |rows| ==> Get(rows[j], key) != v
    ensures RowsWhere(rows, key, v) == []
  {
    if rows != [] {
      RowsWhereNone(rows[..|rows| - 1], key, v);
    }
  }
}
