/**
 * The pure decisions inside `fetch_complete_hedge_data`, separated from the
 * table service: which optional query steps are applied given the columns a
 * table has, the entity ids used to scope the hedge-event query, the proxy
 * currencies whose extra rates are fetched, and the USD PB threshold.
 */
module Fetch {
  import opened Wrappers
  import opened Rows
  import opened Lookups
  import opened StageConfig

  /** One step of a query under construction. */
  datatype Step =
    | Eq(column: string, value: Value)
    | InSet(column: string, values: set<Value>)
    | OrderBy(column: string, descending: bool)
    | Limit(count: nat)

  /** A query: the table and its steps in the order they were chained. */
  datatype Query = Query(table: string, steps: seq<Step>)

  /** Chains one more step onto a query. */
  function Then(q: Query, s: Step): (r: Query)
    ensures r.table == q.table && r.steps == q.steps + [s]
  {
    Query(q.table, q.steps + [s])
  }

  // ---------------------------------------------------------------------
  // Optional steps over the columns a table is known to have
  // ---------------------------------------------------------------------

  /** The position of the first candidate column the table has, if any. */
  function FirstExisting(columns: set<string>, candidates: seq<string>): (r: Option<nat>)
    ensures r.Some? ==> r.value < |candidates| && candidates[r.value] in columns &&
                        forall j :: 0 <= j < r.value ==> candidates[j] !in columns
    ensures r.None? ==> forall j :: 0 <= j < |candidates| ==> candidates[j] !in columns
  {
    if candidates == [] then None
    else if candidates[0] in columns then Some(0)
    else match FirstExisting(columns, candidates[1..])
      case Some(i) => Some(i + 1)
      case None => None
  }

  /** `_order_if_exists`: orders by the first candidate column the table has, or leaves the query unchanged. */
  method OrderIfExists(columns: set<string>, q: Query, candidates: seq<string>, descending: bool) returns (r: Query)
    ensures r == match FirstExisting(columns, candidates)
                 case Some(i) => Then(q, OrderBy(candidates[i], descending))
                 case None => q
  {
    for i := 0 to |candidates|
      invariant forall j :: 0 <= j < i ==> candidates[j] !in columns
    {
      if candidates[i] in columns {
        FirstExistingIs(columns, candidates, i);
        return Then(q, OrderBy(candidates[i], descending));
      }
    }
    FirstExistingNone(columns, candidates);
    return q;
  }

  /** The first candidate the table has is the one `FirstExisting` finds. */
  lemma {:induction false} FirstExistingIs(columns: set<string>, candidates: seq<string>, i: nat)
    requires i < |candidates| && candidates[i] in columns
    requires forall j :: 0 <= j < i ==> candidates[j] !in columns
    ensures FirstExisting(columns, candidates) == Some(i)
  {
    if i > 0 {
      FirstExistingIs(columns, candidates[1..], i - 1);
    }
  }

  /** No candidate the table has: nothing is found. */
  lemma FirstExistingNone(columns: set<string>, candidates: seq<string>)
    requires forall j :: 0 <= j < |candidates| ==> candidates[j] !in columns
    ensures FirstExisting(columns, candidates) == None
  {
  }

  /** `_eq_if_exists`: filters on the column only if the table has it. */
  function EqIfExists(columns: set<string>, q: Query, column: string, value: Value): (r: Query)
    ensures r.table == q.table
    ensures column in columns <==> r.steps == q.steps + [Eq(column, value)]
    ensures column !in columns <==> r == q
  {
    if column in columns then Then(q, Eq(column, value)) else q
  }

  /** Python truthiness of an optional string argument (`if nav_type:`). */
  predicate Given(arg: Option<string>) {
    arg.Some? && arg.value != ""
  }

  /** The candidate timestamp columns the hedge-event query is ordered by. */
  const EventOrderCandidates: seq<string> :=
    ["created_date", "created_at", "updated_date", "updated_at", "event_timestamp", "event_time", "event_at"]

  /**
   * The hedge-event query: at most 50 rows, scoped to the entity ids when
   * there are any, filtered by NAV type when one is given and the table has
   * the column, and ordered newest first by the first timestamp column it has.
   */
  method HedgeEventsQuery(columns: set<string>, entityIds: set<Value>, navType: Option<string>) returns (q: Query)
    ensures q.table == "hedge_business_events"
    ensures q.steps ==
      [Limit(50)]
      + (if entityIds != {} then [InSet("entity_id", entityIds)] else [])
      + (if Given(navType) && "nav_type" in columns then [Eq("nav_type", Str(navType.value))] else [])
      + (match FirstExisting(columns, EventOrderCandidates)
         case Some(i) => [OrderBy(EventOrderCandidates[i], true)]
         case None => [])
  {
    q := Query("hedge_business_events", [Limit(50)]);
    if entityIds != {} {
      q := Then(q, InSet("entity_id", entityIds));
    }
    if Given(navType) {
      q := EqIfExists(columns, q, "nav_type", Str(navType.value));
    }
    q := OrderIfExists(columns, q, EventOrderCandidates, true);
  }

  // ---------------------------------------------------------------------
  // Derived sets and values
  // ---------------------------------------------------------------------

  /**
   * The entity ids that scope the later queries: those of the entity rows,
   * or, when the entity rows yield none, those of the position rows.
   */
  function EntityIds(entities: seq<Row>, positions: seq<Row>): (ids: set<Value>)
    ensures EntityIdSet(entities) != {} ==> ids == EntityIdSet(entities)
    ensures EntityIdSet(entities) == {} ==> ids == EntityIdSet(positions)
    ensures forall v :: v in ids ==> Truthy(v)
    ensures ids == {} <==> EntityIdSet(entities) == {} && EntityIdSet(positions) == {}
  {
    var fromEntities := EntityIdSet(entities);
    if fromEntities != {} then fromEntities else EntityIdSet(positions)
  }

  /** The proxy currencies: the distinct truthy `proxy_currency` values, without the exposure currency. */
  function ProxyCurrencies(currencyConfig: seq<Row>, exposure: string): (r: set<Value>)
    ensures forall v :: v in r <==>
      Truthy(v) && v != Str(exposure) && exists i :: 0 <= i < |currencyConfig| && Get(currencyConfig[i], "proxy_currency") == v
  {
    (set i | 0 <= i < |currencyConfig| && Truthy(Get(currencyConfig[i], "proxy_currency")) ::
       Get(currencyConfig[i], "proxy_currency")) - {Str(exposure)}
  }

  /** The rows fetched for a list of proxies, concatenated in that order. */
  function Flatten(order: seq<Value>, fetch: Value -> seq<Row>): seq<Row> {
    if order == [] then [] else Flatten(order[..|order| - 1], fetch) + fetch(order[|order| - 1])
  }

  /** A row is among the concatenated rows exactly when one of the proxies' fetches returned it. */
  lemma {:induction false} FlattenMembers(order: seq<Value>, fetch: Value -> seq<Row>, x: Row)
    ensures x in Flatten(order, fetch) <==> exists i :: 0 <= i < |order| && x in fetch(order[i])
  {
    if order != [] {
      var p := order[..|order| - 1];
      FlattenMembers(p, fetch, x);
      if exists i :: 0 <= i < |p| && x in fetch(p[i]) {
        var i :| 0 <= i < |p| && x in fetch(p[i]);
        assert order[i] == p[i];
      }
      if exists i :: 0 <= i < |order| && x in fetch(order[i]) {
        var i :| 0 <= i < |order| && x in fetch(order[i]);
        if i < |p| {
          assert p[i] == order[i];
        }
      }
    }
  }

  /**
   * The extra rates: one fetch per proxy currency, visited once each in the
   * set's iteration order (which the model leaves open), appended in that order.
   */
  method AdditionalRates(proxies: set<Value>, fetch: Value -> seq<Row>) returns (rows: seq<Row>, order: seq<Value>)
    ensures |order| == |proxies|
    ensures forall v :: v in order <==> v in proxies
    ensures forall i, j :: 0 <= i < j < |order| ==> order[i] != order[j]
    ensures rows == Flatten(order, fetch)
  {
    var remaining := proxies;
    rows, order := [], [];
    while remaining != {}
      invariant forall v :: v in proxies <==> v in remaining || v in order
      invariant forall i :: 0 <= i < |order| ==> order[i] !in remaining
      invariant forall i, j :: 0 <= i < j < |order| ==> order[i] != order[j]
      invariant |remaining| + |order| == |proxies|
      invariant rows == Flatten(order, fetch)
      decreases |remaining|
    {
      var p :| p in remaining;
      assert (order + [p])[..|order|] == order;
      rows := rows + fetch(p);
      order := order + [p];
      remaining := remaining - {p};
    }
  }

  /** The built-in USD PB warning level, used when no active threshold row exists. */
  const DefaultThreshold: Value := Num(150000.0)

  /** `data[0].get("warning_level", 150000)` when the threshold query returned rows, else the default. */
  function ThresholdOf(rows: seq<Row>): (v: Value)
    ensures rows == [] ==> v == DefaultThreshold
    ensures rows != [] ==> v == GetOr(rows[0], "warning_level", DefaultThreshold)
  {
    if rows != [] then GetOr(rows[0], "warning_level", DefaultThreshold) else DefaultThreshold
  }

  /**
   * Without a usable threshold row the check runs against 150000, so a total
   * of exactly 150000 passes; a row whose `warning_level` is stored as null
   * makes the comparison raise.
   */
  lemma ThresholdFallback(rows: seq<Row>, total: real)
    ensures (rows == [] || "warning_level" !in rows[0]) ==>
      && UsdPbCheckOf(total, ThresholdOf(rows)).Success?
      && (UsdPbCheckOf(total, ThresholdOf(rows)).value.status == Fail <==> total > 150000.0)
    ensures rows != [] && "warning_level" in rows[0] && rows[0]["warning_level"] == Null ==>
      UsdPbCheckOf(total, ThresholdOf(rows)) == Failure(NotComparable(Null))
  {
  }
}
