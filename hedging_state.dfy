/**
 * The per-position hedging state: the amounts read from the position and its
 * latest allocation, the available-amount formula, the utilisation
 * percentage, the four-way status and the rule defaults.
 */
module HedgingState {
  import opened Wrappers
  import opened Rows

  /** The hedging status, in the order the classifier tries them. */
  datatype Status = FullyHedged | PartiallyHedged | NotAvailable | Available

  /** The status as the response spells it. */
  function StatusName(s: Status): string {
    match s
    case FullyHedged => "Fully_Hedged"
    case PartiallyHedged => "Partially_Hedged"
    case NotAvailable => "Not_Available"
    case Available => "Available"
  }

  /** The seven amounts read from the position and the latest allocation, as floats. */
  datatype Amounts = Amounts(
    current: real,      // position.current_position
    allocatedAmount: real, // allocation.hedge_amount_allocation (read, then unused)
    available: real,    // allocation.available_amount_for_hedging
    hedged: real,       // allocation.hedged_position
    car: real,          // allocation.car_amount_distribution
    overlay: real,      // allocation.manual_overlay_amount
    buffer: real)       // allocation.buffer_amount

  /** The record `calculate_complete_hedging_state` returns (utilisation unrounded). */
  datatype State = State(
    alreadyHedgedAmount: real,
    availableForHedging: real,
    calculatedAvailableAmount: real,
    hedgeUtilizationPct: real,
    hedgingStatus: Status,
    carAmountDistribution: real,
    manualOverlayAmount: real,
    bufferAmount: real,
    bufferPercentage: Value,
    frameworkType: Value,
    carExemptionFlag: Value,
    frameworkCompliance: Value,
    lastAllocationDate: Value,
    waterfallPriority: Value,
    allocationSequence: Value,
    allocationStatus: Value,
    activeHedgeCount: nat,
    totalHedgeNotional: real)

  /** Reads the amounts in the order `calculate_complete_hedging_state` reads them; the first column `float` refuses raises. */
  function ReadAmounts(position: Row, allocation: Row, parse: Parser): (r: Result<Amounts, Error>)
    ensures r.Success? <==>
      && Amount(position, "current_position", parse).Success?
      && Amount(allocation, "hedge_amount_allocation", parse).Success?
      && Amount(allocation, "available_amount_for_hedging", parse).Success?
      && Amount(allocation, "hedged_position", parse).Success?
      && Amount(allocation, "car_amount_distribution", parse).Success?
      && Amount(allocation, "manual_overlay_amount", parse).Success?
      && Amount(allocation, "buffer_amount", parse).Success?
    ensures r.Success? ==>
      && r.value.current == Amount(position, "current_position", parse).value
      && r.value.available == Amount(allocation, "available_amount_for_hedging", parse).value
      && r.value.hedged == Amount(allocation, "hedged_position", parse).value
      && r.value.car == Amount(allocation, "car_amount_distribution", parse).value
      && r.value.overlay == Amount(allocation, "manual_overlay_amount", parse).value
      && r.value.buffer == Amount(allocation, "buffer_amount", parse).value
    ensures Amount(position, "current_position", parse).Failure? ==>
      r == Failure(Amount(position, "current_position", parse).error)
  {
    var current :- Amount(position, "current_position", parse);
    var allocatedAmount :- Amount(allocation, "hedge_amount_allocation", parse);
    var available :- Amount(allocation, "available_amount_for_hedging", parse);
    var hedged :- Amount(allocation, "hedged_position", parse);
    var car :- Amount(allocation, "car_amount_distribution", parse);
    var overlay :- Amount(allocation, "manual_overlay_amount", parse);
    var buffer :- Amount(allocation, "buffer_amount", parse);
    Success(Amounts(current, allocatedAmount, available, hedged, car, overlay, buffer))
  }

  /** The four-way classification, first matching rule wins. */
  function Classify(hedged: real, current: real, available: real): (s: Status)
    ensures s == FullyHedged <==> hedged >= current
    ensures s == PartiallyHedged <==> hedged < current && hedged > 0.0
    ensures s == NotAvailable <==> hedged < current && hedged <= 0.0 && available <= 0.0
    ensures s == Available <==> hedged < current && hedged <= 0.0 && available > 0.0
  {
    if hedged >= current then FullyHedged
    else if hedged > 0.0 then PartiallyHedged
    else if available <= 0.0 then NotAvailable
    else Available
  }

  /** Hedged amount as a percentage of the position, 0 for a position that is not positive. */
  function Utilization(hedged: real, current: real): (pct: real)
    ensures current <= 0.0 ==> pct == 0.0
    ensures current > 0.0 ==> pct * current == hedged * 100.0
  {
    if current > 0.0 then (hedged / current) * 100.0 else 0.0
  }

  /** `sum(float(h.get("notional_amount", 0) or 0) for h in events)`, raising at the first refusal. */
  function NotionalTotal(events: seq<Row>, parse: Parser): (r: Result<real, Error>)
    ensures r.Success? <==>
      forall i :: 0 <= i < |events| ==> Amount(events[i], "notional_amount", parse).Success?
  {
    if events == [] then Success(0.0)
    else
      var total :- NotionalTotal(events[..|events| - 1], parse);
      var x :- Amount(events[|events| - 1], "notional_amount", parse);
      Success(total + x)
  }

  /** The notional total of two event lists is the sum of their totals. */
  lemma {:induction false} NotionalTotalAppend(a: seq<Row>, b: seq<Row>, parse: Parser)
    requires NotionalTotal(a, parse).Success? && NotionalTotal(b, parse).Success?
    ensures NotionalTotal(a + b, parse).Success?
    ensures NotionalTotal(a + b, parse).value == NotionalTotal(a, parse).value + NotionalTotal(b, parse).value
  {
    if b == [] {
      assert a + b == a;
    } else {
      var b' := b[..|b| - 1];
      assert (a + b)[..|a + b| - 1] == a + b';
      assert (a + b)[|a + b| - 1] == b[|b| - 1];
      assert forall i :: 0 <= i < |b'| ==> b'[i] == b[i];
      NotionalTotalAppend(a, b', parse);
    }
  }

  /**
   * `calculate_complete_hedging_state`. The CAR record is accepted and unused,
   * as `car_info` is; the contract is `HedgingStateSpec`.
   */
  function HedgingStateOf(
    position: Row, allocation: Row, events: seq<Row>,
    frameworkRule: Row, bufferRule: Row, carInfo: Row, parse: Parser): Result<State, Error>
  {
    var a :- ReadAmounts(position, allocation, parse);
    var status := Classify(a.hedged, a.current, a.available);
    var frameworkType := GetOr(frameworkRule, "framework_type", Str("Not_Defined"));
    var bufferPercentage := GetOr(bufferRule, "buffer_percentage", GetOr(position, "buffer_percentage", Num(0.0)));
    var carExemption := GetOr(frameworkRule, "car_exemption_flag", GetOr(frameworkRule, "car_exemption_override", Str("N")));
    var calculated := a.current - a.car + a.overlay - a.buffer - a.hedged;
    var notional :- NotionalTotal(events, parse);
    Success(State(
      a.hedged, a.available, calculated, Utilization(a.hedged, a.current), status,
      a.car, a.overlay, a.buffer, bufferPercentage, frameworkType, carExemption, frameworkType,
      Get(allocation, "created_date"), Get(allocation, "waterfall_priority"),
      Get(allocation, "allocation_sequence"), GetOr(allocation, "allocation_status", Str("Pending")),
      |events|, notional))
  }

  /**
   * What a hedging state holds: it fails exactly when one of the seven
   * amounts or one notional cannot be read as a float; otherwise the formula,
   * the status and the utilisation are over the amounts read, and the
   * defaults apply to absent keys only (a key present with `None` is kept).
   */
  lemma HedgingStateSpec(
    position: Row, allocation: Row, events: seq<Row>,
    frameworkRule: Row, bufferRule: Row, carInfo: Row, parse: Parser)
    ensures var r := HedgingStateOf(position, allocation, events, frameworkRule, bufferRule, carInfo, parse);
      r.Success? <==> ReadAmounts(position, allocation, parse).Success? && NotionalTotal(events, parse).Success?
    ensures var r := HedgingStateOf(position, allocation, events, frameworkRule, bufferRule, carInfo, parse);
      r.Success? ==>
        var a := ReadAmounts(position, allocation, parse).value;
        && r.value.alreadyHedgedAmount == a.hedged
        && r.value.availableForHedging == a.available
        && r.value.calculatedAvailableAmount == a.current - a.car + a.overlay - a.buffer - a.hedged
        && r.value.carAmountDistribution == a.car
        && r.value.manualOverlayAmount == a.overlay
        && r.value.bufferAmount == a.buffer
        && r.value.hedgeUtilizationPct == Utilization(a.hedged, a.current)
        && r.value.hedgingStatus == Classify(a.hedged, a.current, a.available)
        && r.value.activeHedgeCount == |events|
        && r.value.totalHedgeNotional == NotionalTotal(events, parse).value
    ensures var r := HedgingStateOf(position, allocation, events, frameworkRule, bufferRule, carInfo, parse);
      r.Success? ==>
        && r.value.frameworkType == (if "framework_type" in frameworkRule then frameworkRule["framework_type"] else Str("Not_Defined"))
        && r.value.frameworkCompliance == r.value.frameworkType
        && r.value.bufferPercentage ==
             (if "buffer_percentage" in bufferRule then bufferRule["buffer_percentage"]
              else if "buffer_percentage" in position then position["buffer_percentage"]
              else Num(0.0))
        && r.value.carExemptionFlag ==
             (if "car_exemption_flag" in frameworkRule then frameworkRule["car_exemption_flag"]
              else if "car_exemption_override" in frameworkRule then frameworkRule["car_exemption_override"]
              else Str("N"))
        && r.value.allocationStatus == (if "allocation_status" in allocation then allocation["allocation_status"] else Str("Pending"))
        && r.value.lastAllocationDate == Get(allocation, "created_date")
        && r.value.waterfallPriority == Get(allocation, "waterfall_priority")
        && r.value.allocationSequence == Get(allocation, "allocation_sequence")
  {
  }

  /** A partially hedged position has a utilisation strictly between 0 and 100. */
  lemma PartialUtilizationBounds(a: Amounts)
    requires Classify(a.hedged, a.current, a.available) == PartiallyHedged
    ensures 0.0 < Utilization(a.hedged, a.current) < 100.0
  {
    var pct := Utilization(a.hedged, a.current);
    assert a.current > 0.0 && 0.0 < a.hedged < a.current;
    assert pct * a.current == a.hedged * 100.0;
    ProductSign(pct, a.current);
    var rest := 100.0 - pct;
    assert rest * a.current == (a.current - a.hedged) * 100.0;
    ProductSign(rest, a.current);
  }

  /** The sign of a product with a positive factor is the sign of the other factor. */
  lemma ProductSign(x: real, y: real)
    requires y > 0.0
    ensures x > 0.0 <==> x * y > 0.0
  {
  }

  /** A fully hedged position with a positive size is at least 100% utilised. */
  lemma FullUtilizationBound(a: Amounts)
    requires Classify(a.hedged, a.current, a.available) == FullyHedged && a.current > 0.0
    ensures Utilization(a.hedged, a.current) >= 100.0
  {
    var pct := Utilization(a.hedged, a.current);
    assert (100.0 - pct) * a.current == (a.current - a.hedged) * 100.0;
    ProductSign(100.0 - pct, a.current);
  }

  /** Positions that are Available or Not_Available carry no positive utilisation. */
  lemma UnhedgedUtilization(a: Amounts)
    requires Classify(a.hedged, a.current, a.available) in {Available, NotAvailable}
    ensures Utilization(a.hedged, a.current) <= 0.0
  {
    var pct := Utilization(a.hedged, a.current);
    if a.current > 0.0 && pct > 0.0 {
      assert pct * a.current > 0.0;
    }
  }

  /**
   * With no allocation every allocation amount reads as 0: the formula gives
   * the position itself and the status is never Partially_Hedged or Available.
   */
  lemma NoAllocation(position: Row, events: seq<Row>, frameworkRule: Row, bufferRule: Row, carInfo: Row, parse: Parser)
    requires Amount(position, "current_position", parse).Success? && NotionalTotal(events, parse).Success?
    ensures var r := HedgingStateOf(position, map[], events, frameworkRule, bufferRule, carInfo, parse);
      var current := Amount(position, "current_position", parse).value;
      && r.Success?
      && r.value.alreadyHedgedAmount == 0.0
      && r.value.calculatedAvailableAmount == current
      && r.value.hedgingStatus == (if current <= 0.0 then FullyHedged else NotAvailable)
      && r.value.allocationStatus == Str("Pending")
      && r.value.lastAllocationDate == Null
  {
    var empty: Row := map[];
    HedgingStateSpec(position, empty, events, frameworkRule, bufferRule, carInfo, parse);
    MissingAmountIsZero(empty, "hedge_amount_allocation", parse);
    MissingAmountIsZero(empty, "available_amount_for_hedging", parse);
    MissingAmountIsZero(empty, "hedged_position", parse);
    MissingAmountIsZero(empty, "car_amount_distribution", parse);
    MissingAmountIsZero(empty, "manual_overlay_amount", parse);
    MissingAmountIsZero(empty, "buffer_amount", parse);
  }

  /** One example per status; where several rules match, the first in precedence order wins. */
  lemma StatusExamples(anything: real)
    ensures Classify(100.0, 100.0, anything) == FullyHedged
    ensures Classify(50.0, 100.0, anything) == PartiallyHedged
    ensures Classify(0.0, 100.0, -10.0) == NotAvailable
    ensures Classify(0.0, 100.0, 10.0) == Available
  {
  }

  /**
   * A worked case: position 1,000,000, CAR 50,000, buffer 20,000 and nothing
   * hedged give 930,000 available; the status is Available exactly when the
   * allocation's available-for-hedging amount is positive.
   */
  lemma WorkedScenario(available: real, parse: Parser)
    ensures var position := map["entity_id" := Str("E1"), "current_position" := Num(1000000.0)];
      var allocation := map[
        "hedged_position" := Num(0.0), "car_amount_distribution" := Num(50000.0),
        "buffer_amount" := Num(20000.0), "manual_overlay_amount" := Num(0.0),
        "available_amount_for_hedging" := Num(available)];
      var r := HedgingStateOf(position, allocation, [], map[], map[], map[], parse);
      && r.Success?
      && r.value.calculatedAvailableAmount == 930000.0
      && (r.value.hedgingStatus == Available <==> available > 0.0)
      && (r.value.hedgingStatus == NotAvailable <==> available <= 0.0)
      && r.value.frameworkType == Str("Not_Defined")
      && r.value.carExemptionFlag == Str("N")
  {
    var position := map["entity_id" := Str("E1"), "current_position" := Num(1000000.0)];
    var allocation := map[
      "hedged_position" := Num(0.0), "car_amount_distribution" := Num(50000.0),
      "buffer_amount" := Num(20000.0), "manual_overlay_amount" := Num(0.0),
      "available_amount_for_hedging" := Num(available)];
    MissingAmountIsZero(allocation, "hedge_amount_allocation", parse);
    assert ReadAmounts(position, allocation, parse) ==
      Success(Amounts(1000000.0, 0.0, available, 0.0, 50000.0, 0.0, 20000.0));
    HedgingStateSpec(position, allocation, [], map[], map[], map[], parse);
  }

  /** The formula is not clamped: hedging beyond the position leaves a negative amount. */
  lemma AvailableNotClamped(parse: Parser)
    ensures var position := map["current_position" := Num(100.0)];
      var allocation := map["hedged_position" := Num(150.0)];
      var r := HedgingStateOf(position, allocation, [], map[], map[], map[], parse);
      r.Success? && r.value.calculatedAvailableAmount == -50.0 && r.value.hedgingStatus == FullyHedged
  {
    HedgingStateSpec(map["current_position" := Num(100.0)], map["hedged_position" := Num(150.0)], [], map[], map[], map[], parse);
  }
}
