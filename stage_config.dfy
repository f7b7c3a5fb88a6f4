/**
 * The two Stage 1A derivations of `complete_structured_response`: the USD
 * private-bank deposit check against its threshold, and the split of the
 * waterfall configuration into its Opening and Closing rules.
 */
module StageConfig {
  import opened Wrappers
  import opened Rows

  // ---------------------------------------------------------------------
  // USD private-bank deposit check
  // ---------------------------------------------------------------------

  /** What one deposit row adds: `float(total_usd_deposits or 0)`, nothing when that raises. */
  function DepositOf(row: Row, parse: Parser): (x: real)
    ensures Amount(row, "total_usd_deposits", parse).Success? ==> x == Amount(row, "total_usd_deposits", parse).value
    ensures Amount(row, "total_usd_deposits", parse).Failure? ==> x == 0.0
  {
    match Amount(row, "total_usd_deposits", parse)
    case Success(x) => x
    case Failure(_) => 0.0
  }

  /** The deposit total after reading `rows` in order. */
  function DepositTotal(rows: seq<Row>, parse: Parser): real {
    if rows == [] then 0.0 else DepositTotal(rows[..|rows| - 1], parse) + DepositOf(rows[|rows| - 1], parse)
  }

  /** The sum loop, skipping rows whose amount cannot be read. */
  method SumUsdPbDeposits(rows: seq<Row>, parse: Parser) returns (total: real)
    ensures total == DepositTotal(rows, parse)
  {
    total := 0.0;
    for i := 0 to |rows|
      invariant total == DepositTotal(rows[..i], parse)
    {
      assert rows[..i + 1][..i] == rows[..i];
      var amount := Amount(rows[i], "total_usd_deposits", parse);
      if amount.Success? {
        total := total + amount.value;
      }
    }
    assert rows[..|rows|] == rows;
  }

  /** The total of two batches of deposit rows is the sum of their totals. */
  lemma {:induction false} DepositTotalAppend(a: seq<Row>, b: seq<Row>, parse: Parser)
    ensures DepositTotal(a + b, parse) == DepositTotal(a, parse) + DepositTotal(b, parse)
  {
    if b == [] {
      assert a + b == a;
    } else {
      assert (a + b)[..|a + b| - 1] == a + b[..|b| - 1];
      DepositTotalAppend(a, b[..|b| - 1], parse);
    }
  }

  /** With no negative deposit the total is non-negative and at least each single deposit. */
  lemma {:induction false} DepositTotalBounds(rows: seq<Row>, parse: Parser)
    requires forall i :: 0 <= i < |rows| ==> DepositOf(rows[i], parse) >= 0.0
    ensures DepositTotal(rows, parse) >= 0.0
    ensures forall i :: 0 <= i < |rows| ==> DepositOf(rows[i], parse) <= DepositTotal(rows, parse)
  {
    if rows != [] {
      var p := rows[..|rows| - 1];
      DepositTotalBounds(p, parse);
    }
  }

  /** A deposit table whose every amount is missing or unreadable totals 0. */
  lemma {:induction false} NoReadableDeposits(rows: seq<Row>, parse: Parser)
    requires forall i :: 0 <= i < |rows| ==>
      Amount(rows[i], "total_usd_deposits", parse).Failure? || !Truthy(Get(rows[i], "total_usd_deposits"))
    ensures DepositTotal(rows, parse) == 0.0
  {
    if rows != [] {
      NoReadableDeposits(rows[..|rows| - 1], parse);
    }
  }

  datatype CheckStatus = Pass | Fail

  /** `"PASS"` / `"FAIL"`. */
  function CheckStatusName(s: CheckStatus): (name: string)
    ensures name == "PASS" <==> s == Pass
  {
    match s
    case Pass => "PASS"
    case Fail => "FAIL"
  }

  /** The `usd_pb_check` record. */
  datatype UsdPbCheck = UsdPbCheck(totalUsdEquivalent: real, threshold: Value, status: CheckStatus, excessAmount: real)

  /**
   * The check of a deposit total against the configured threshold. The
   * comparison raises when the threshold is not a number (e.g. a
   * `warning_level` stored as `None` or as text).
   */
  function UsdPbCheckOf(total: real, threshold: Value): (r: Result<UsdPbCheck, Error>)
    ensures r.Failure? <==> NumberOf(threshold).None?
    ensures r.Failure? ==> r.error == NotComparable(threshold)
    ensures r.Success? ==>
      var t := NumberOf(threshold).value;
      && r.value.totalUsdEquivalent == total && r.value.threshold == threshold
      && (r.value.status == Fail <==> total > t)
      && r.value.excessAmount >= 0.0
      && (r.value.status == Fail ==> r.value.excessAmount == total - t)
      && (r.value.status == Pass ==> r.value.excessAmount == 0.0)
  {
    match NumberOf(threshold)
    case None => Failure(NotComparable(threshold))
    case Some(t) =>
      var excess := if 0.0 >= total - t then 0.0 else total - t;
      Success(UsdPbCheck(total, threshold, if total > t then Fail else Pass, excess))
  }

  /** A total equal to the threshold passes; one cent above fails with that cent as excess. */
  lemma UsdPbBoundary()
    ensures UsdPbCheckOf(150000.0, Num(150000.0)).value.status == Pass
    ensures UsdPbCheckOf(150000.01, Num(150000.0)).value.status == Fail
    ensures UsdPbCheckOf(150000.01, Num(150000.0)).value.excessAmount == 0.01
  {
  }

  // ---------------------------------------------------------------------
  // Waterfall split
  // ---------------------------------------------------------------------

  /** The `waterfall_logic` record. */
  datatype Waterfall = Waterfall(opening: seq<Row>, closing: seq<Row>)

  /** The Opening and Closing rules, each in input order. */
  function SplitWaterfall(rows: seq<Row>): (w: Waterfall)
    ensures forall x :: x in w.opening <==> x in rows && Get(x, "waterfall_type") == Str("Opening")
    ensures forall x :: x in w.closing <==> x in rows && Get(x, "waterfall_type") == Str("Closing")
  {
    RowsWhereMembers(rows, "waterfall_type", Str("Opening"));
    RowsWhereMembers(rows, "waterfall_type", Str("Closing"));
    Waterfall(RowsWhere(rows, "waterfall_type", Str("Opening")), RowsWhere(rows, "waterfall_type", Str("Closing")))
  }

  /** No rule is in both lists, and together they hold at most the input's rows. */
  lemma {:induction false} WaterfallPartition(rows: seq<Row>)
    ensures var w := SplitWaterfall(rows);
      (forall x :: x in w.opening ==> x !in w.closing) && |w.opening| + |w.closing| <= |rows|
  {
    if rows != [] {
      WaterfallPartition(rows[..|rows| - 1]);
    }
  }

  /** Splitting two batches of rules splits each batch and concatenates. */
  lemma WaterfallAppend(a: seq<Row>, b: seq<Row>)
    ensures SplitWaterfall(a + b).opening == SplitWaterfall(a).opening + SplitWaterfall(b).opening
    ensures SplitWaterfall(a + b).closing == SplitWaterfall(a).closing + SplitWaterfall(b).closing
  {
    RowsWhereAppend(a, b, "waterfall_type", Str("Opening"));
    RowsWhereAppend(a, b, "waterfall_type", Str("Closing"));
  }

  /** Every row typed Opening or Closing lands in exactly one list; other types are dropped. */
  lemma {:induction false} WaterfallCount(rows: seq<Row>)
    requires forall i :: 0 <= i < |rows| ==> Get(rows[i], "waterfall_type") in {Str("Opening"), Str("Closing")}
    ensures |SplitWaterfall(rows).opening| + |SplitWaterfall(rows).closing| == |rows|
  {
    if rows != [] {
      WaterfallCount(rows[..|rows| - 1]);
    }
  }
}
