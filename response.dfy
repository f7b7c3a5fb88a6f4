/**
 * `complete_structured_response`: the structured payload assembled from the
 * rows of every table the fetch routine reads.
 */
module Response {
  import opened Wrappers
  import opened Rows
  import opened Lookups
  import opened HedgingState
  import opened GroupBy
  import opened Grouping
  import opened StageConfig

  /** The rows of every table, and the USD PB threshold, as handed to the response builder. */
  datatype Tables = Tables(
    entities: seq<Row>,
    positions: seq<Row>,
    currencyConfig: seq<Row>,
    bufferConfig: seq<Row>,
    waterfallConfig: seq<Row>,
    overlayConfig: seq<Row>,
    hedgingFramework: seq<Row>,
    systemConfig: seq<Row>,
    allocations: seq<Row>,
    hedgeInstructions: seq<Row>,
    hedgeEvents: seq<Row>,
    carMaster: seq<Row>,
    usdPbDeposits: seq<Row>,
    riskMonitoring: seq<Row>,
    threshold: Value,
    currencyRates: seq<Row>,
    proxyConfig: seq<Row>,
    additionalRates: seq<Row>,
    bookingModelConfig: seq<Row>,
    murexBooks: seq<Row>,
    hedgeInstruments: seq<Row>,
    hedgeEffectiveness: seq<Row>)

  datatype Stage1A = Stage1A(
    bufferConfiguration: seq<Row>,
    waterfallLogic: Waterfall,
    overlayConfiguration: seq<Row>,
    hedgingFramework: seq<Row>,
    systemConfiguration: seq<Row>,
    usdPbThreshold: Value,
    usdPbCheck: UsdPbCheck)

  datatype Stage1B = Stage1B(
    currentAllocations: seq<Row>,
    hedgeInstructionsHistory: seq<Row>,
    activeHedgeEvents: map<Value, seq<Row>>,
    carMasterData: seq<Row>)

  datatype Stage2 = Stage2(
    bookingModelConfig: seq<Row>,
    murexBooks: seq<Row>,
    hedgeInstruments: seq<Row>,
    hedgeEffectiveness: seq<Row>)

  /** The payload: entity groups, the three stage sections and the pass-through tables. */
  datatype Payload = Payload(
    entityGroups: seq<EntityGroup>,
    stage1A: Stage1A,
    stage1B: Stage1B,
    stage2: Stage2,
    riskMonitoring: seq<Row>,
    currencyConfiguration: seq<Row>,
    currencyRates: seq<Row>,
    proxyConfiguration: seq<Row>,
    additionalRates: seq<Row>)

  /** The five per-entity lookups built from the tables. */
  function LookupsOf(t: Tables): EntityLookups {
    EntityLookups(
      ListIndex(t.allocations),
      ListIndex(t.hedgeEvents),
      LastIndex(t.hedgingFramework),
      LastIndex(t.bufferConfig),
      FirstIndex(t.carMaster))
  }

  /** The payload around already computed groups, hedge-event lookup and deposit check. */
  function Assemble(t: Tables, groups: seq<EntityGroup>, events: map<Value, seq<Row>>, check: UsdPbCheck): Payload {
    Payload(
      groups,
      Stage1A(t.bufferConfig, SplitWaterfall(t.waterfallConfig), t.overlayConfig, t.hedgingFramework,
              t.systemConfig, t.threshold, check),
      Stage1B(t.allocations, t.hedgeInstructions, events, t.carMaster),
      Stage2(t.bookingModelConfig, t.murexBooks, t.hedgeInstruments, t.hedgeEffectiveness),
      t.riskMonitoring, t.currencyConfig, t.currencyRates, t.proxyConfig, t.additionalRates)
  }

  /**
   * The payload, or the exception the builder raises: first from the entity
   * join, then from the position loop, then from the threshold comparison.
   */
  function StructuredResponse(t: Tables, parse: Parser): Result<Payload, Error> {
    var info :- EntityInfoIndex(t.entities);
    var lk := LookupsOf(t);
    var grouped :- GroupedOf(t.positions, RecordFn(lk, parse));
    var check :- UsdPbCheckOf(DepositTotal(t.usdPbDeposits, parse), t.threshold);
    Success(Assemble(t, EntityGroups(grouped, info), lk.hedgeEvents, check))
  }

  /** Builds the payload with the lookup, grouping and sum loops. */
  method CompleteStructuredResponse(t: Tables, parse: Parser) returns (r: Result<Payload, Error>)
    ensures r == StructuredResponse(t, parse)
  {
    var info := BuildEntityInfo(t.entities);
    if info.Failure? {
      return Failure(info.error);
    }
    var allocations := GroupRowsByEntity(t.allocations);
    var events := GroupRowsByEntity(t.hedgeEvents);
    var framework := LastRowByEntity(t.hedgingFramework);
    var buffer := LastRowByEntity(t.bufferConfig);
    var car := FirstRowByEntity(t.carMaster);
    var lk := EntityLookups(allocations, events, framework, buffer, car);
    var grouped := GroupPositions(t.positions, lk, parse);
    if grouped.Failure? {
      return Failure(grouped.error);
    }
    var groups := BuildEntityGroups(grouped.value, info.value);
    var total := SumUsdPbDeposits(t.usdPbDeposits, parse);
    var check := UsdPbCheckOf(total, t.threshold);
    if check.Failure? {
      return Failure(check.error);
    }
    return Success(Assemble(t, groups, events, check.value));
  }

  // ---------------------------------------------------------------------
  // What the payload promises
  // ---------------------------------------------------------------------

  /**
   * The builder raises exactly when an entity's currency join cannot be read,
   * a position with an entity id has an unreadable amount, or the threshold
   * is not a number.
   */
  lemma ResponseFails(t: Tables, parse: Parser)
    ensures StructuredResponse(t, parse).Success? <==>
      && (forall i :: 0 <= i < |t.entities| ==> CurrencyTypeOf(t.entities[i]).Success?)
      && (forall i :: 0 <= i < |t.positions| && Truthy(EntityOf(t.positions[i])) ==>
            PositionRecordOf(t.positions[i], LookupsOf(t), parse).Success?)
      && NumberOf(t.threshold).Some?
  {
  }

  /** An unreadable currency join is reported before anything about positions or the threshold. */
  lemma EntityErrorFirst(t: Tables, parse: Parser, i: nat)
    requires i < |t.entities| && CurrencyTypeOf(t.entities[i]).Failure?
    requires forall j :: 0 <= j < i ==> CurrencyTypeOf(t.entities[j]).Success?
    ensures StructuredResponse(t, parse) == Failure(CurrencyTypeOf(t.entities[i]).error)
  {
    AnnotatedFailsAt(t.entities, i);
  }

  /** The first entity whose join cannot be read is the one whose error is raised. */
  lemma {:induction false} AnnotatedFailsAt(es: seq<Row>, i: nat)
    requires i < |es| && CurrencyTypeOf(es[i]).Failure?
    requires forall j :: 0 <= j < i ==> CurrencyTypeOf(es[j]).Success?
    ensures AnnotatedEntities(es) == Failure(CurrencyTypeOf(es[i]).error)
  {
    var p := es[..|es| - 1];
    if i < |es| - 1 {
      AnnotatedFailsAt(p, i);
    } else {
      assert AnnotatedEntities(p).Success?;
    }
  }

  /** The groups are the entity groups of the position loop's result. */
  lemma GroupsOfResponse(t: Tables, parse: Parser)
    requires StructuredResponse(t, parse).Success?
    ensures GroupedOf(t.positions, RecordFn(LookupsOf(t), parse)).Success? && EntityInfoIndex(t.entities).Success?
    ensures StructuredResponse(t, parse).value.entityGroups ==
      EntityGroups(GroupedOf(t.positions, RecordFn(LookupsOf(t), parse)).value, EntityInfoIndex(t.entities).value)
  {
  }

  /** Group ids are pairwise distinct and ordered by their first appearance among the positions. */
  lemma ResponseGroupOrder(t: Tables, parse: Parser)
    requires StructuredResponse(t, parse).Success?
    ensures var gs := StructuredResponse(t, parse).value.entityGroups;
      && (forall i, j :: 0 <= i < j < |gs| ==> gs[i].entityId != gs[j].entityId)
      && (forall i :: 0 <= i < |gs| ==> FirstMatch(t.positions, gs[i].entityId).Some?)
      && (forall i, j :: 0 <= i < j < |gs| ==>
            FirstMatch(t.positions, gs[i].entityId).value < FirstMatch(t.positions, gs[j].entityId).value)
  {
    GroupsOfResponse(t, parse);
    GroupOrderDistinct(t.positions, RecordFn(LookupsOf(t), parse));
    GroupOrderFirstSeen(t.positions, RecordFn(LookupsOf(t), parse));
  }

  /** There is a group for exactly the truthy entity ids the positions carry. */
  lemma ResponseGroupIds(t: Tables, parse: Parser, k: Value)
    requires StructuredResponse(t, parse).Success?
    ensures var gs := StructuredResponse(t, parse).value.entityGroups;
      k in EntityIdSet(t.positions) <==> exists i :: 0 <= i < |gs| && gs[i].entityId == k
  {
    GroupsOfResponse(t, parse);
    var g := GroupedOf(t.positions, RecordFn(LookupsOf(t), parse)).value;
    GroupOrderIds(t.positions, RecordFn(LookupsOf(t), parse), k);
    assert k in g.order <==> exists i :: 0 <= i < |g.order| && g.order[i] == k;
  }

  /** Each group holds the records of exactly its entity's positions, in input order. */
  lemma ResponseGroupRecords(t: Tables, parse: Parser, i: nat)
    requires StructuredResponse(t, parse).Success?
    requires i < |StructuredResponse(t, parse).value.entityGroups|
    ensures var g := StructuredResponse(t, parse).value.entityGroups[i];
      && Records(RowsOf(t.positions, g.entityId), RecordFn(LookupsOf(t), parse)).Success?
      && g.positions == Records(RowsOf(t.positions, g.entityId), RecordFn(LookupsOf(t), parse)).value
  {
    GroupsOfResponse(t, parse);
    var g := GroupedOf(t.positions, RecordFn(LookupsOf(t), parse)).value;
    GroupedContents(t.positions, RecordFn(LookupsOf(t), parse), g.order[i]);
  }

  /** The entity's last row in a table, or the empty record (`d.get(eid, {})` on a last-wins lookup). */
  function LastRowOr(rows: seq<Row>, eid: Value): Row {
    match LastMatch(rows, eid)
    case Some(i) => rows[i]
    case None => map[]
  }

  /** The entity's first row in a table, or the empty record (`d.get(eid, {})` on a first-wins lookup). */
  function FirstRowOr(rows: seq<Row>, eid: Value): Row {
    match FirstMatch(rows, eid)
    case Some(i) => rows[i]
    case None => map[]
  }

  /**
   * What a position's record joins: all of its entity's allocations and hedge
   * events in input order, the last framework and buffer rule, the first CAR
   * row, and a hedging state over the first allocation row.
   */
  lemma PositionJoins(t: Tables, pos: Row, parse: Parser)
    requires Truthy(EntityOf(pos)) && PositionRecordOf(pos, LookupsOf(t), parse).Success?
    ensures var eid, rec := EntityOf(pos), PositionRecordOf(pos, LookupsOf(t), parse).value;
      && rec.allocationData == RowsOf(t.allocations, eid)
      && rec.hedgeRelationships == RowsOf(t.hedgeEvents, eid)
      && rec.frameworkRule == LastRowOr(t.hedgingFramework, eid)
      && rec.bufferRule == LastRowOr(t.bufferConfig, eid)
      && rec.carData == FirstRowOr(t.carMaster, eid)
      && HedgingStateOf(pos, FirstRowOr(t.allocations, eid), rec.hedgeRelationships,
                        rec.frameworkRule, rec.bufferRule, rec.carData, parse) == Success(rec.hedgingState)
  {
    var eid := EntityOf(pos);
    PositionRecordState(pos, LookupsOf(t), parse);
    PositionRecordJoins(pos, LookupsOf(t), StateOf(pos, LookupsOf(t), parse).value);
    ListIndexSpec(t.allocations, eid);
    ListIndexSpec(t.hedgeEvents, eid);
    LastIndexSpec(t.hedgingFramework, eid);
    LastIndexSpec(t.bufferConfig, eid);
    FirstIndexSpec(t.carMaster, eid);
    FirstIndexSpec(t.allocations, eid);
    LookupKeys(t.allocations, eid);
    if eid in ListIndex(t.allocations) {
      ListHeadIsFirstRow(t.allocations, eid);
    }
  }

  /**
   * A group's metadata comes from the entity's last entity row (with its
   * currency type), or is the empty-string defaults when the entity has none.
   */
  lemma GroupMetadata(t: Tables, parse: Parser, i: nat)
    requires StructuredResponse(t, parse).Success?
    requires i < |StructuredResponse(t, parse).value.entityGroups|
    ensures var g := StructuredResponse(t, parse).value.entityGroups[i];
      match LastMatch(t.entities, g.entityId)
      case Some(j) =>
        && g.entityName == GetOr(t.entities[j], "entity_name", Str(""))
        && g.entityType == GetOr(t.entities[j], "entity_type", Str(""))
        && g.exposureCurrency == GetOr(t.entities[j], "currency_code", Str(""))
        && g.currencyType == CurrencyTypeOf(t.entities[j]).value
        && g.carExemption == GetOr(t.entities[j], "car_exemption_flag", Str(""))
        && g.parentChildNavLink == GetOr(t.entities[j], "parent_child_nav_link", Bool(false))
      case None =>
        && g.entityName == Str("") && g.entityType == Str("") && g.exposureCurrency == Str("")
        && g.currencyType == Str("") && g.carExemption == Str("") && g.parentChildNavLink == Bool(false)
  {
    var lk := LookupsOf(t);
    GroupsOfResponse(t, parse);
    var grouped := GroupedOf(t.positions, RecordFn(lk, parse)).value;
    var k := grouped.order[i];
    GroupedContents(t.positions, RecordFn(lk, parse), k);
    EntityInfoSpec(t.entities, k);
  }

  /** The deposit check in Stage 1A: FAIL exactly when the deposit total exceeds the threshold. */
  lemma ResponseUsdPb(t: Tables, parse: Parser)
    requires StructuredResponse(t, parse).Success?
    ensures var c := StructuredResponse(t, parse).value.stage1A.usdPbCheck;
      && NumberOf(t.threshold).Some?
      && c.totalUsdEquivalent == DepositTotal(t.usdPbDeposits, parse)
      && (c.status == Fail <==> DepositTotal(t.usdPbDeposits, parse) > NumberOf(t.threshold).value)
      && c.excessAmount >= 0.0
  {
  }

  /** The Stage 1B hedge events are keyed by the truthy event ids, each with its events in input order. */
  lemma ResponseActiveEvents(t: Tables, parse: Parser, eid: Value)
    requires StructuredResponse(t, parse).Success?
    ensures var m := StructuredResponse(t, parse).value.stage1B.activeHedgeEvents;
      && (eid in m <==> eid in EntityIdSet(t.hedgeEvents))
      && (eid in m ==> m[eid] == RowsOf(t.hedgeEvents, eid))
  {
    ListIndexSpec(t.hedgeEvents, eid);
    LookupKeys(t.hedgeEvents, eid);
  }
}
