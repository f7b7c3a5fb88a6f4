/**
 * The join and grouping half of `complete_structured_response`: the entity
 * metadata lookup, one output record per position that has an entity id,
 * and the groups of those records per entity in first-seen order.
 */
module Grouping {
  import opened Wrappers
  import opened Rows
  import opened Lookups
  import opened HedgingState
  import opened GroupBy

  /** The five per-entity lookups the position loop consults. */
  datatype EntityLookups = EntityLookups(
    allocations: map<Value, seq<Row>>,
    hedgeEvents: map<Value, seq<Row>>,
    frameworkRules: map<Value, Row>,
    bufferRules: map<Value, Row>,
    carData: map<Value, Row>)

  /** The record appended to an entity's group for one position. */
  datatype PositionRecord = PositionRecord(
    navType: Value,
    currentPosition: Value,
    computedTotalNav: Value,
    optimalCarAmount: Value,
    bufferPercentage: Value,
    bufferAmount: Value,
    manualOverlay: Value,
    allocationStatus: Value,
    hedgingState: State,
    allocationData: seq<Row>,
    hedgeRelationships: seq<Row>,
    frameworkRule: Row,
    bufferRule: Row,
    carData: Row)

  /** One output group: the entity's metadata and its positions' records. */
  datatype EntityGroup = EntityGroup(
    entityId: Value,
    entityName: Value,
    entityType: Value,
    exposureCurrency: Value,
    currencyType: Value,
    carExemption: Value,
    parentChildNavLink: Value,
    positions: seq<PositionRecord>)

  // ---------------------------------------------------------------------
  // Entity metadata
  // ---------------------------------------------------------------------

  /**
   * The currency classification joined onto an entity row: the
   * `currency_configuration` value if truthy, read from its first element
   * when it is a list; `None` when absent or falsy.
   */
  function CurrencyTypeOf(e: Row): (r: Result<Value, Error>)
    ensures ("currency_configuration" !in e || !Truthy(e["currency_configuration"])) ==> r == Success(Null)
    ensures "currency_configuration" in e && e["currency_configuration"].Obj? ==>
      r == Success(Get(e["currency_configuration"].fields, "currency_type"))
    ensures "currency_configuration" in e && e["currency_configuration"].Arr? && Truthy(e["currency_configuration"]) ==>
      var first := e["currency_configuration"].items[0];
      r == if first.Obj? then Success(Get(first.fields, "currency_type")) else Failure(NotARecord(first))
    ensures "currency_configuration" in e && Truthy(e["currency_configuration"]) &&
            !e["currency_configuration"].Arr? && !e["currency_configuration"].Obj? ==>
      r == Failure(NotARecord(e["currency_configuration"]))
    ensures r.Failure? ==> "currency_configuration" in e && Truthy(e["currency_configuration"]) && !e["currency_configuration"].Obj?
  {
    var config := Get(e, "currency_configuration");
    if Truthy(config) then
      match config
      case Arr(items) =>
        if items[0].Obj? then Success(Get(items[0].fields, "currency_type")) else Failure(NotARecord(items[0]))
      case Obj(fields) => Success(Get(fields, "currency_type"))
      case other => Failure(NotARecord(other))
    else Success(Null)
  }

  /** `{**e, "currency_type": c_type}` for every entity row, raising at the first row whose join cannot be read. */
  function AnnotatedEntities(es: seq<Row>): (r: Result<seq<Row>, Error>)
    ensures r.Success? <==> forall i :: 0 <= i < |es| ==> CurrencyTypeOf(es[i]).Success?
    ensures r.Success? ==> |r.value| == |es| && forall i :: 0 <= i < |es| ==>
      r.value[i] == es[i]["currency_type" := CurrencyTypeOf(es[i]).value]
  {
    if es == [] then Success([])
    else
      var done :- AnnotatedEntities(es[..|es| - 1]);
      var e := es[|es| - 1];
      var ct :- CurrencyTypeOf(e);
      Success(done + [e["currency_type" := ct]])
  }

  /** `entity_info_lookup`: entity id to its annotated row, later rows overwriting earlier ones. */
  function EntityInfoIndex(es: seq<Row>): Result<map<Value, Row>, Error> {
    var annotated :- AnnotatedEntities(es);
    Success(LastIndex(annotated))
  }

  /** Annotating an entity row leaves its entity id alone. */
  lemma AnnotateKeepsId(e: Row, ct: Value)
    ensures EntityOf(e["currency_type" := ct]) == EntityOf(e)
  {
  }

  /** A failure while annotating a prefix is the failure of the whole list. */
  lemma {:induction false} AnnotatedFailureSticks(es: seq<Row>, i: nat)
    requires i <= |es| && AnnotatedEntities(es[..i]).Failure?
    ensures AnnotatedEntities(es) == AnnotatedEntities(es[..i])
    decreases |es| - i
  {
    if i < |es| {
      PrefixSnoc(es, i);
      AnnotatedFailureSticks(es, i + 1);
    } else {
      assert es[..i] == es;
    }
  }

  /** Builds `entity_info_lookup`, raising at the first entity whose join cannot be read. */
  method BuildEntityInfo(es: seq<Row>) returns (r: Result<map<Value, Row>, Error>)
    ensures r == EntityInfoIndex(es)
  {
    var m: map<Value, Row> := map[];
    ghost var annotated: seq<Row> := [];
    for i := 0 to |es|
      invariant AnnotatedEntities(es[..i]) == Success(annotated)
      invariant m == LastIndex(annotated)
    {
      PrefixSnoc(es, i);
      var e := es[i];
      var ct := CurrencyTypeOf(e);
      if ct.Failure? {
        AnnotatedFailureSticks(es, i + 1);
        return Failure(ct.error);
      }
      var row := e["currency_type" := ct.value];
      AnnotateKeepsId(e, ct.value);
      assert (annotated + [row])[..|annotated|] == annotated;
      if Truthy(EntityOf(e)) {
        m := m[EntityOf(e) := row];
      }
      annotated := annotated + [row];
    }
    assert es[..|es|] == es;
    return Success(m);
  }

  /** Two row lists with the same ids position by position have the same last match. */
  lemma {:induction false} LastMatchSameIds(a: seq<Row>, b: seq<Row>, k: Value)
    requires |a| == |b| && forall i :: 0 <= i < |a| ==> EntityOf(a[i]) == EntityOf(b[i])
    ensures LastMatch(a, k) == LastMatch(b, k)
  {
    if a != [] {
      LastMatchSameIds(a[..|a| - 1], b[..|b| - 1], k);
    }
  }

  /**
   * `entity_info_lookup` holds a key for exactly the truthy ids of the entity
   * rows, and under it the entity's last row with its currency type added.
   */
  lemma EntityInfoSpec(es: seq<Row>, k: Value)
    requires EntityInfoIndex(es).Success?
    ensures k in EntityInfoIndex(es).value <==> Truthy(k) && LastMatch(es, k).Some?
    ensures k in EntityInfoIndex(es).value ==>
      var e := es[LastMatch(es, k).value];
      EntityInfoIndex(es).value[k] == e["currency_type" := CurrencyTypeOf(e).value]
  {
    var annotated := AnnotatedEntities(es).value;
    forall i | 0 <= i < |es| ensures EntityOf(annotated[i]) == EntityOf(es[i]) {
      AnnotateKeepsId(es[i], CurrencyTypeOf(es[i]).value);
    }
    LastMatchSameIds(annotated, es, k);
    LastIndexSpec(annotated, k);
  }

  /**
   * `entity_info_lookup.get(eid, {}).get(key, d)`: the entity's own value when
   * the entity is known and has the key, else the default.
   */
  predicate FromEntity(info: map<Value, Row>, eid: Value, key: string, d: Value, v: Value) {
    if eid in info && key in info[eid] then v == info[eid][key] else v == d
  }

  /** The group for one entity id, with the entity's metadata or the empty-string defaults. */
  function EntityGroupOf(eid: Value, info: map<Value, Row>, navs: seq<PositionRecord>): (g: EntityGroup)
    ensures g.entityId == eid && g.positions == navs
    ensures FromEntity(info, eid, "entity_name", Str(""), g.entityName)
    ensures FromEntity(info, eid, "entity_type", Str(""), g.entityType)
    ensures FromEntity(info, eid, "currency_code", Str(""), g.exposureCurrency)
    ensures FromEntity(info, eid, "currency_type", Str(""), g.currencyType)
    ensures FromEntity(info, eid, "car_exemption_flag", Str(""), g.carExemption)
    ensures FromEntity(info, eid, "parent_child_nav_link", Bool(false), g.parentChildNavLink)
    ensures eid !in info ==>
      && g.entityName == Str("") && g.entityType == Str("") && g.exposureCurrency == Str("")
      && g.currencyType == Str("") && g.carExemption == Str("") && g.parentChildNavLink == Bool(false)
  {
    var entity := RowOr(info, eid);
    EntityGroup(
      eid,
      GetOr(entity, "entity_name", Str("")),
      GetOr(entity, "entity_type", Str("")),
      GetOr(entity, "currency_code", Str("")),
      GetOr(entity, "currency_type", Str("")),
      GetOr(entity, "car_exemption_flag", Str("")),
      GetOr(entity, "parent_child_nav_link", Bool(false)),
      navs)
  }

  // ---------------------------------------------------------------------
  // Positions
  // ---------------------------------------------------------------------

  /** `allocation_lookup.get(eid, [])[0]`, or the empty record when the entity has no allocation. */
  function LatestAllocation(lk: EntityLookups, eid: Value): (a: Row)
    ensures ListOr(lk.allocations, eid) == [] ==> a == map[]
    ensures ListOr(lk.allocations, eid) != [] ==> a == ListOr(lk.allocations, eid)[0]
  {
    var l := ListOr(lk.allocations, eid);
    if l != [] then l[0] else map[]
  }

  /** The record for one position: its own fields with defaults, its hedging state and the raw lookups. */
  function PositionRecordOf(pos: Row, lk: EntityLookups, parse: Parser): Result<PositionRecord, Error>
  {
    var state :- StateOf(pos, lk, parse);
    Success(RecordOf(pos, lk, state))
  }

  /** The record around an already computed hedging state. */
  function RecordOf(pos: Row, lk: EntityLookups, state: State): PositionRecord {
    var eid := EntityOf(pos);
    PositionRecord(
      GetOr(pos, "nav_type", Str("")),
      GetOr(pos, "current_position", Num(0.0)),
      GetOr(pos, "computed_total_nav", Num(0.0)),
      GetOr(pos, "optimal_car_amount", Num(0.0)),
      GetOr(pos, "buffer_percentage", Num(0.0)),
      GetOr(pos, "buffer_amount", Num(0.0)),
      GetOr(pos, "manual_overlay", Num(0.0)),
      GetOr(pos, "allocation_status", Str("Pending")),
      state, ListOr(lk.allocations, eid), ListOr(lk.hedgeEvents, eid),
      RowOr(lk.frameworkRules, eid), RowOr(lk.bufferRules, eid), RowOr(lk.carData, eid))
  }

  /** The hedging state a position's record is built around (over the latest allocation). */
  function StateOf(pos: Row, lk: EntityLookups, parse: Parser): Result<State, Error> {
    var eid := EntityOf(pos);
    HedgingStateOf(pos, LatestAllocation(lk, eid), ListOr(lk.hedgeEvents, eid),
                   RowOr(lk.frameworkRules, eid), RowOr(lk.bufferRules, eid), RowOr(lk.carData, eid), parse)
  }

  /** A position's record fails exactly when its hedging state does, and is otherwise built around that state. */
  lemma PositionRecordState(pos: Row, lk: EntityLookups, parse: Parser)
    ensures PositionRecordOf(pos, lk, parse).Success? <==> StateOf(pos, lk, parse).Success?
    ensures PositionRecordOf(pos, lk, parse).Success? ==>
      && PositionRecordOf(pos, lk, parse).value == RecordOf(pos, lk, StateOf(pos, lk, parse).value)
      && PositionRecordOf(pos, lk, parse).value.hedgingState == StateOf(pos, lk, parse).value
  {
  }

  /** A position's record carries its entity's raw lookups, each `{}` or `[]` when absent. */
  lemma PositionRecordJoins(pos: Row, lk: EntityLookups, state: State)
    ensures var eid, r := EntityOf(pos), RecordOf(pos, lk, state);
      && r.allocationData == ListOr(lk.allocations, eid)
      && r.hedgeRelationships == ListOr(lk.hedgeEvents, eid)
      && r.frameworkRule == RowOr(lk.frameworkRules, eid)
      && r.bufferRule == RowOr(lk.bufferRules, eid)
      && r.carData == RowOr(lk.carData, eid)
  {
  }

  /** The position's own eight fields are copied when present and default only when absent. */
  lemma PositionRecordDefaults(pos: Row, lk: EntityLookups, state: State)
    ensures var r := RecordOf(pos, lk, state);
      && CopiedOr(pos, "nav_type", Str(""), r.navType)
      && CopiedOr(pos, "current_position", Num(0.0), r.currentPosition)
      && CopiedOr(pos, "computed_total_nav", Num(0.0), r.computedTotalNav)
      && CopiedOr(pos, "optimal_car_amount", Num(0.0), r.optimalCarAmount)
      && CopiedOr(pos, "buffer_percentage", Num(0.0), r.bufferPercentage)
      && CopiedOr(pos, "buffer_amount", Num(0.0), r.bufferAmount)
      && CopiedOr(pos, "manual_overlay", Num(0.0), r.manualOverlay)
      && CopiedOr(pos, "allocation_status", Str("Pending"), r.allocationStatus)
  {
  }

  /** The record builder of the position loop. */
  function RecordFn(lk: EntityLookups, parse: Parser): Row -> Result<PositionRecord, Error> {
    pos => PositionRecordOf(pos, lk, parse)
  }

  /** The position loop of `complete_structured_response`: fills `grouped` and its key order. */
  method GroupPositions(ps: seq<Row>, lk: EntityLookups, parse: Parser) returns (r: Result<Grouped<PositionRecord>, Error>)
    ensures r == GroupedOf(ps, RecordFn(lk, parse))
  {
    var order: seq<Value> := [];
    var grouped: map<Value, seq<PositionRecord>> := map[];
    for i := 0 to |ps|
      invariant GroupedOf(ps[..i], RecordFn(lk, parse)) == Success(Grouped(order, grouped))
    {
      PrefixSnoc(ps, i);
      var pos := ps[i];
      var eid := EntityOf(pos);
      if !Truthy(eid) {
        continue;
      }
      var rec := PositionRecordOf(pos, lk, parse);
      if rec.Failure? {
        GroupedFailureSticks(ps, i + 1, RecordFn(lk, parse));
        return Failure(rec.error);
      }
      if eid !in grouped {
        order := order + [eid];
      }
      grouped := grouped[eid := (if eid in grouped then grouped[eid] else []) + [rec.value]];
    }
    assert ps[..|ps|] == ps;
    return Success(Grouped(order, grouped));
  }

  /** The entity groups, one per id in key order. */
  function EntityGroups(g: Grouped<PositionRecord>, info: map<Value, Row>): (gs: seq<EntityGroup>)
    ensures |gs| == |g.order|
    ensures forall i :: 0 <= i < |gs| ==>
      gs[i].entityId == g.order[i] && gs[i].positions == ListOr(g.groups, g.order[i])
  {
    seq(|g.order|, i requires 0 <= i < |g.order| => EntityGroupOf(g.order[i], info, ListOr(g.groups, g.order[i])))
  }

  /** The loop over `grouped.items()` that builds the entity groups. */
  method BuildEntityGroups(g: Grouped<PositionRecord>, info: map<Value, Row>) returns (gs: seq<EntityGroup>)
    ensures gs == EntityGroups(g, info)
  {
    gs := [];
    for i := 0 to |g.order|
      invariant gs == EntityGroups(g, info)[..i]
    {
      var eid := g.order[i];
      gs := gs + [EntityGroupOf(eid, info, ListOr(g.groups, eid))];
    }
  }
}
