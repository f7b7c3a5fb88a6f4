# FX hedge-data aggregation, modelled in Dafny

This project models the in-memory core of `app/services/hedge_data.py`, the service that gathers everything an FX hedging workflow needs for one exposure currency. The model covers three parts.

- **The per-position hedging state** (`calculate_complete_hedging_state`). It reads seven amounts as `float(x or 0)`. It computes the available amount, the utilisation percentage and the four-way hedging status. It resolves the rule defaults with `dict.get(key, default)`.
- **The join and grouping engine** (`complete_structured_response`). It covers:
  - the entity lookup joined with its currency type;
  - the append-list lookups for allocations and hedge events;
  - the last-wins lookups for framework and buffer rules;
  - the first-wins lookup for CAR data;
  - the position loop, which drops positions without an entity id and groups one record per position under its entity, in first-seen order;
  - the USD private-bank (USD PB) deposit check;
  - the waterfall split into Opening and Closing rules;
  - the assembled payload.
- **The pure decisions inside `fetch_complete_hedge_data`**:
  - `_order_if_exists` and `_eq_if_exists`, over a given set of column names;
  - the hedge-event query's optional steps;
  - the `entity_ids` fallback;
  - the proxy-currency set and the fan-out of extra-rate fetches;
  - the USD PB threshold fallback.

Rows are `map<string, Value>`, where `Value` has the JSON shapes (null, bool, number as `real`, string, list, object). Python truthiness, `dict.get` with and without a default, and `float(x or 0)` are written out in `Rows`. Exceptions the code lets propagate are `Result.Failure` values, raised in Python's evaluation order: the entity join first, then the position loop, then the threshold comparison.

The imperative loops are Dafny methods with loop invariants. Each is proved equal to a specification function:
- the lookups: `Lookups.GroupRowsByEntity`, `Lookups.LastRowByEntity`, `Lookups.FirstRowByEntity`;
- the entity join: `Grouping.BuildEntityInfo`;
- the position loop: `Grouping.GroupPositions`;
- the group list: `Grouping.BuildEntityGroups`;
- the deposit sum: `StageConfig.SumUsdPbDeposits`;
- the candidate-column loop: `Fetch.OrderIfExists`;
- the proxy fan-out: `Fetch.AdditionalRates`.

The whole builder, `Response.CompleteStructuredResponse`, has no loop of its own: it calls the loop methods above and is proved equal to `Response.StructuredResponse`.

Lemmas prove what those functions promise.

Facts about the code that the model keeps:
- Framework rules are last-row-wins (`framework_rules[eid] = rule`): a later rule for the same entity replaces an earlier one.
- A non-numeric string amount raises from `float(...)` inside the hedging state, and so from the whole builder. Only the USD PB sum swallows it.
- A threshold row whose `warning_level` is present but null is passed through unchanged. The comparison then raises (`Fetch.ThresholdFallback`). The 150000 default applies only when there is no row or no such key.
- `hedge_data.py` has no validation or completeness scoring.

Modules, in dependency order: `Wrappers`, `Rows`, `Lookups`, `HedgingState`, `GroupBy` (the grouping loop over any record builder), `Grouping`, `StageConfig`, `Response`, `Fetch`.

## Model

| member | source | states |
|---|---|---|
| Rows.ToFloat | app/services/hedge_data.py:534-540 | `float(x or 0)`: falsy values read as 0, numbers as themselves and `True` as 1; a non-empty string reads as its parsed value and raises iff it does not parse; non-empty lists and objects raise; every failure names the refused value |
| Rows.MissingAmountIsZero | app/services/hedge_data.py:534-540 | an absent key, `None`, `0` or `""` all read as the amount 0 |
| Rows.NumberOf | app/services/hedge_data.py:490-491 | the values a numeric comparison accepts are numbers, read as themselves, and booleans, read as 1 and 0 |
| Rows.RowsWhere | app/services/hedge_data.py:495-498 | a filtered list is no longer than the input |
| Rows.RowsWhereMembers | app/services/hedge_data.py:495-498 | a filtered list holds exactly the input rows whose column has the value |
| Rows.RowsWhereAppend | app/services/hedge_data.py:495-498 | filtering distributes over concatenation, so input order is kept |
| Rows.RowsWhereHead | app/services/hedge_data.py:436-437 | the head of a filtered list is the first matching input row |
| Lookups.EntityIdSet | app/services/hedge_data.py:79-81 | the id set holds exactly the truthy `entity_id` values that occur |
| Lookups.RowsOfMembers | app/services/hedge_data.py:395-406 | an entity's rows are exactly the input rows that carry its id |
| Lookups.RowsOfEmpty | app/services/hedge_data.py:395-406 | an entity has rows exactly when it has a first row |
| Lookups.LastMatch | app/services/hedge_data.py:408-420 | finds the entity's last row: it matches and no later row does |
| Lookups.FirstMatch | app/services/hedge_data.py:422-427 | finds the entity's first row: it matches and no earlier row does |
| Lookups.GroupRowsByEntity | app/services/hedge_data.py:395-406 | the append loop builds exactly the append-list lookup `ListIndex` |
| Lookups.LastRowByEntity | app/services/hedge_data.py:409-420 | the overwrite loop builds exactly the last-wins lookup `LastIndex` |
| Lookups.FirstRowByEntity | app/services/hedge_data.py:423-427 | the guarded loop builds exactly the first-wins lookup `FirstIndex` |
| Lookups.ListIndexSpec | app/services/hedge_data.py:395-406 | an id is a key iff it is truthy and has rows; its list is exactly that entity's rows in input order |
| Lookups.LastIndexSpec | app/services/hedge_data.py:409-420 | an id is a key iff it is truthy and occurs; its record is the entity's last row |
| Lookups.FirstIndexSpec | app/services/hedge_data.py:423-427 | an id is a key iff it is truthy and occurs; its record is the entity's first row |
| Lookups.LookupKeys | app/services/hedge_data.py:395-427 | all three lookup kinds are keyed by exactly the truthy ids that occur; rows with a falsy id are skipped |
| Lookups.ListIndexMembers | app/services/hedge_data.py:395-406 | an entity's list holds only input rows that carry its id |
| Lookups.ListIndexAppend | app/services/hedge_data.py:395-406 | the lists of two consecutive batches concatenate |
| Lookups.ListHeadIsFirstRow | app/services/hedge_data.py:436-437 | the latest allocation (the list head) is the entity's first allocation row, the first-wins choice |
| Lookups.LastRowIsListLast | app/services/hedge_data.py:409-413 | the last-wins record is the last element of the entity's append list |
| Lookups.RowsOfEndWithLast | app/services/hedge_data.py:409-413 | an entity's rows end with its last row |
| Lookups.FirstSeenMembers | app/services/hedge_data.py:430-434 | the first-seen id order lists exactly the truthy ids that occur |
| Lookups.FirstSeenIds | app/services/hedge_data.py:430-434 | the first-seen id order lists exactly the ids of the id set |
| Lookups.FirstSeenDistinct | app/services/hedge_data.py:430-434 | no id appears twice in the first-seen order |
| Lookups.FirstSeenOrder | app/services/hedge_data.py:430-434 | an id listed earlier in the first-seen order first occurs earlier among the rows |
| HedgingState.ReadAmounts | app/services/hedge_data.py:534-540 | succeeds iff all seven amounts are readable, with the amounts as read; an unreadable `current_position` is the error raised, as it is read first |
| HedgingState.Classify | app/services/hedge_data.py:546-552 | the four statuses in precedence order, each as an iff on hedged, current and available |
| HedgingState.Utilization | app/services/hedge_data.py:542-544 | 0 when the position is not positive, whatever is hedged; otherwise `pct * current == hedged * 100` |
| HedgingState.NotionalTotal | app/services/hedge_data.py:579 | succeeds iff every event's notional is readable |
| HedgingState.NotionalTotalAppend | app/services/hedge_data.py:579 | the notional sum is additive over concatenated event lists |
| HedgingState.HedgingStateOf | app/services/hedge_data.py:532-580 | `calculate_complete_hedging_state` as a `Result`; its contract is carried by `HedgingStateSpec` and the lemmas after it |
| HedgingState.HedgingStateSpec | app/services/hedge_data.py:532-580 | fails iff an amount or notional is unreadable; the available amount is exactly `current - car + overlay - buffer - hedged`; the status and utilisation follow `Classify` and `Utilization`; the count is the number of events; defaults apply only to absent keys (`"Not_Defined"`, buffer rule then position then 0, flag then override then `"N"`, `"Pending"`) |
| HedgingState.PartialUtilizationBounds | app/services/hedge_data.py:542-550 | a partially hedged position is strictly between 0% and 100% utilised |
| HedgingState.FullUtilizationBound | app/services/hedge_data.py:542-548 | a fully hedged positive position is at least 100% utilised |
| HedgingState.UnhedgedUtilization | app/services/hedge_data.py:542-552 | Available and Not_Available positions have no positive utilisation |
| HedgingState.NoAllocation | app/services/hedge_data.py:532-580 | with the empty allocation: nothing is hedged, the available amount is the position, the status is Fully_Hedged or Not_Available, and the allocation status is `"Pending"` |
| HedgingState.StatusExamples | app/services/hedge_data.py:546-552 | one example per status, showing the first matching rule wins |
| HedgingState.WorkedScenario | app/services/hedge_data.py:534-559 | 1,000,000 − 50,000 CAR − 20,000 buffer gives 930,000 available; Available iff available-for-hedging is positive |
| HedgingState.AvailableNotClamped | app/services/hedge_data.py:559 | over-hedging leaves a negative available amount; it is not clamped |
| Grouping.CurrencyTypeOf | app/services/hedge_data.py:385-390 | `None` for an absent or falsy join; the first element's `currency_type` for a list; the object's for an object; raises when that element is not a record, and raises on a truthy join that is neither list nor object |
| Grouping.AnnotatedEntities | app/services/hedge_data.py:384-392 | succeeds iff every entity's join is readable; each row gains its `currency_type` |
| Grouping.BuildEntityInfo | app/services/hedge_data.py:383-392 | the entity loop builds exactly `EntityInfoIndex`, stopping at the first join error |
| Grouping.EntityInfoSpec | app/services/hedge_data.py:383-392 | the entity lookup has a key iff the id is truthy and occurs; its record is the entity's last row with its currency type added |
| Grouping.EntityGroupOf | app/services/hedge_data.py:466-477 | a group carries its id and records; each of its six metadata fields is the known entity's own value when it has the key, else the default (`""` for five, `False` for `parent_child_nav_link`); an unknown entity gets all six defaults |
| Grouping.LatestAllocation | app/services/hedge_data.py:436-437 | the head of the entity's allocation list, or `{}` when it has none |
| Grouping.PositionRecordOf | app/services/hedge_data.py:436-462 | one position's record, failing when its hedging state raises; its contract is carried by `PositionRecordState` |
| Grouping.RecordOf | app/services/hedge_data.py:447-462 | the record dict around a computed hedging state; its contract is carried by `PositionRecordJoins` and `PositionRecordDefaults` |
| Grouping.PositionRecordState | app/services/hedge_data.py:436-462 | a position's record fails iff its hedging state over the latest allocation fails; otherwise it is built around that state |
| Grouping.PositionRecordJoins | app/services/hedge_data.py:436-462 | the record carries its entity's allocation and event lists, framework rule, buffer rule and CAR row, each empty when absent |
| Grouping.PositionRecordDefaults | app/services/hedge_data.py:447-462 | all eight copied position fields are the position's own value when present and default only when absent (`""` for `nav_type`, `"Pending"` for `allocation_status`, 0 for the six amounts) |
| GroupBy.Records | app/services/hedge_data.py:443-462 | succeeds iff each position's record does; one result per position, the i-th being the i-th position's record |
| GroupBy.GroupedOf | app/services/hedge_data.py:430-462 | the position loop fails iff the record of some position with an entity id fails; positions without an id are never built |
| Grouping.GroupPositions | app/services/hedge_data.py:430-462 | the position loop builds exactly `GroupedOf`, stopping at the first error |
| Grouping.EntityGroups | app/services/hedge_data.py:465-477 | one group per key, in key order, holding that key's records |
| Grouping.BuildEntityGroups | app/services/hedge_data.py:465-477 | the group loop builds exactly `EntityGroups` |
| GroupBy.GroupedOrder | app/services/hedge_data.py:430-434 | the key order is the first-seen order of the position ids, and the dict has exactly those keys |
| GroupBy.GroupedKeys | app/services/hedge_data.py:430-434 | the key order and the dict hold the same ids: exactly the truthy position ids |
| GroupBy.KeyedRecordsSucceed | app/services/hedge_data.py:430-462 | after success, every entity's positions have records |
| GroupBy.GroupedRecords | app/services/hedge_data.py:447-462 | each id's records are exactly the records of that entity's positions, in input order |
| GroupBy.GroupedContents | app/services/hedge_data.py:430-462 | the full per-id contents of the grouped dict |
| GroupBy.GroupOrderIds | app/services/hedge_data.py:430-434 | the key order lists exactly the truthy position ids |
| GroupBy.NoIdNoGroup | app/services/hedge_data.py:432-434 | a position without an entity id is in no group |
| GroupBy.GroupOrderDistinct | app/services/hedge_data.py:430-477 | group ids are pairwise distinct |
| GroupBy.GroupOrderFirstSeen | app/services/hedge_data.py:430-477 | groups are ordered by each id's first appearance among the positions |
| StageConfig.DepositOf | app/services/hedge_data.py:482-485 | a readable deposit adds its amount; an unreadable one adds 0 |
| StageConfig.SumUsdPbDeposits | app/services/hedge_data.py:480-485 | the sum loop computes exactly `DepositTotal` |
| StageConfig.DepositTotalAppend | app/services/hedge_data.py:480-485 | the deposit total is additive over concatenated rows |
| StageConfig.DepositTotalBounds | app/services/hedge_data.py:480-485 | with no negative deposit, the total is non-negative and at least each single deposit |
| StageConfig.NoReadableDeposits | app/services/hedge_data.py:480-485 | missing or unreadable deposits total 0 |
| StageConfig.CheckStatusName | app/services/hedge_data.py:490 | the status spells `"PASS"` exactly for Pass |
| StageConfig.UsdPbCheckOf | app/services/hedge_data.py:487-492 | raises iff the threshold is not a number; FAIL iff total > threshold; excess ≥ 0, equal to total − threshold on FAIL and 0 on PASS |
| StageConfig.UsdPbBoundary | app/services/hedge_data.py:490-491 | a total equal to the threshold passes; one cent above fails with a cent of excess |
| StageConfig.SplitWaterfall | app/services/hedge_data.py:495-498 | the Opening and Closing lists hold exactly the rows of that type |
| StageConfig.WaterfallPartition | app/services/hedge_data.py:495-498 | no rule is in both lists, and together they are no longer than the input |
| StageConfig.WaterfallAppend | app/services/hedge_data.py:495-498 | the split of concatenated rules concatenates the splits |
| StageConfig.WaterfallCount | app/services/hedge_data.py:495-498 | when every rule is Opening or Closing, the two lists together hold all of them |
| Response.StructuredResponse | app/services/hedge_data.py:372-530 | the whole payload as a `Result`, in Python's raise order; its contract is carried by `ResponseFails`, `EntityErrorFirst`, `GroupsOfResponse` and the `Response*` lemmas after them |
| Response.CompleteStructuredResponse | app/services/hedge_data.py:372-530 | the builder's loops compute exactly `StructuredResponse` |
| Response.ResponseFails | app/services/hedge_data.py:384-491 | the builder raises iff an entity join is unreadable, a position with an id has an unreadable amount, or the threshold is not a number |
| Response.EntityErrorFirst | app/services/hedge_data.py:384-392 | the first unreadable entity join is the error raised, before positions or the threshold |
| Response.AnnotatedFailsAt | app/services/hedge_data.py:384-392 | the entity loop raises the first entity's join error |
| Response.GroupsOfResponse | app/services/hedge_data.py:465-501 | the payload's groups are the entity groups of the position loop |
| Response.ResponseGroupOrder | app/services/hedge_data.py:430-477 | the payload's group ids are distinct and in first-seen order |
| Response.ResponseGroupIds | app/services/hedge_data.py:430-477 | there is a group for exactly the truthy position ids |
| Response.ResponseGroupRecords | app/services/hedge_data.py:430-477 | each group holds the records of exactly its entity's positions, in input order |
| Response.PositionJoins | app/services/hedge_data.py:436-462 | a record joins all its entity's allocations and events in order, the last framework and buffer rule, the first CAR row, and a hedging state over the first allocation |
| Response.GroupMetadata | app/services/hedge_data.py:466-477 | when the entity has rows, all six metadata fields come from its last entity row (`currency_type` from its join, the others via `get` with defaults); when it has none, all six are the `""`/`False` defaults |
| Response.ResponseUsdPb | app/services/hedge_data.py:480-510 | the payload's check is FAIL iff the deposit total exceeds the threshold, with a non-negative excess |
| Response.ResponseActiveEvents | app/services/hedge_data.py:402-406 | Stage 1B's hedge events are keyed by the truthy event ids, each with that entity's events in order |
| Fetch.FirstExisting | app/services/hedge_data.py:26-28 | finds the first candidate column the table has, or reports that none exists |
| Fetch.OrderIfExists | app/services/hedge_data.py:20-29 | orders by the first existing candidate column, or returns the query unchanged |
| Fetch.FirstExistingIs | app/services/hedge_data.py:26-28 | the first existing candidate found by the loop is the one `FirstExisting` names |
| Fetch.EqIfExists | app/services/hedge_data.py:31-38 | adds the equality filter iff the table has the column; otherwise the query is unchanged |
| Fetch.HedgeEventsQuery | app/services/hedge_data.py:148-167 | the exact step list: limit 50; then the `entity_id` filter iff there are ids; then the NAV filter iff a NAV type is given and the table has the column; then newest first by the first timestamp column the table has, if any |
| Fetch.EntityIds | app/services/hedge_data.py:79-81 | the entity rows' ids, falling back to the positions' ids only when the entity rows yield none; always truthy |
| Fetch.ProxyCurrencies | app/services/hedge_data.py:265-266 | exactly the distinct truthy `proxy_currency` values other than the exposure currency |
| Fetch.FlattenMembers | app/services/hedge_data.py:268-282 | a row is among the extra rates iff some proxy's fetch returned it |
| Fetch.AdditionalRates | app/services/hedge_data.py:268-282 | each proxy is fetched exactly once and the results are concatenated in visiting order |
| Fetch.ThresholdOf | app/services/hedge_data.py:336-338 | the default 150000 when there are no rows; otherwise the first row's `warning_level`, if present |
| Fetch.ThresholdFallback | app/services/hedge_data.py:336-338 | without a usable row the check runs against 150000; a null `warning_level` makes the comparison raise |

## Left out

- The table service: `get_supabase`, query execution and the `_sample_columns` column probe. These are foreign I/O. A table's columns are an input set, and query results are given row sequences (`Response.Tables`). Queries are step lists (`Fetch.Query`), not executed.
- The optional-step choices of query builders other than the hedge-event query. They follow the same pattern with `Fetch.OrderIfExists` and `Fetch.EqIfExists`, but are not written out one by one.
- The hedge-event query's retry without filters after a failed execution. It depends on a failure of the table service.
- The top-level `except` that turns any exception into the error-shaped payload, and the `print` logging. The model returns the `Failure` instead.
- The `or_` filter strings built by string interpolation. They are query syntax of the table service.
- `float()` parsing of strings is a parameter (`Rows.Parser`). Amounts are `real`, so IEEE rounding is not modelled.
- HedgingState.HedgingStateOf / HedgingState.HedgingStateSpec: the utilisation percentage is not passed through `round(..., 2)`. The contract states the unrounded value.
- Python key equality across types (`1 == 1.0 == True` as dict keys) and unhashable id values are not modelled. Ids are compared as `Value`s.
- Fetch.AdditionalRates: the order in which Python iterates a set is left open. The contract states only that each proxy is visited once.
- The key order of the Stage 1B hedge-event lookup is not modelled. It is a map keyed by entity id.
- `app/models/payloads.py`, a declarative request schema checked by its library.
- `app/api/v1.py` and `app/main.py`, HTTP routing and a health check. `app/api/v1.py` imports `fetch_entity_and_nav_info`, which `hedge_data.py` does not define.
