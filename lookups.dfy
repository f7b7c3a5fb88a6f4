/**
 * Per-entity lookups built before positions are grouped: append lists
 * (allocations, hedge events), last-row-wins records (framework and buffer
 * rules) and first-row-wins records (CAR data). Rows whose `entity_id` is
 * falsy are skipped by all of them.
 */
module Lookups {
  import opened Wrappers
  import opened Rows

  /** `row.get("entity_id")`. */
  function EntityOf(row: Row): Value {
    Get(row, "entity_id")
  }

  /** `{r["entity_id"] for r in rows if r.get("entity_id")}`. */
  function EntityIdSet(rows: seq<Row>): (ids: set<Value>)
    ensures forall v :: v in ids <==> Truthy(v) && exists i :: 0 <= i < |rows| && EntityOf(rows[i]) == v
  {
    set i | 0 <= i < |rows| && Truthy(EntityOf(rows[i])) :: EntityOf(rows[i])
  }

  /** The rows of one entity, in input order. */
  function RowsOf(rows: seq<Row>, eid: Value): seq<Row> {
    RowsWhere(rows, "entity_id", eid)
  }

  /** An entity's rows are exactly the input rows that carry its id. */
  lemma RowsOfMembers(rows: seq<Row>, eid: Value)
    ensures forall x :: x in RowsOf(rows, eid) <==> x in rows && EntityOf(x) == eid
  {
    RowsWhereMembers(rows, "entity_id", eid);
  }

  /** The position of the entity's last row, if it has one. */
  function LastMatch(rows: seq<Row>, eid: Value): (r: Option<nat>)
    ensures r.Some? ==> r.value < |rows| && EntityOf(rows[r.value]) == eid &&
                        (forall j :: r.value < j < |rows| ==> EntityOf(rows[j]) != eid)
    ensures r.None? ==> forall j :: 0 <= j < |rows| ==> EntityOf(rows[j]) != eid
  {
    if rows == [] then None
    else if EntityOf(rows[|rows| - 1]) == eid then Some(|rows| - 1)
    else LastMatch(rows[..|rows| - 1], eid)
  }

  /** The position of the entity's first row, if it has one. */
  function FirstMatch(rows: seq<Row>, eid: Value): (r: Option<nat>)
    ensures r.Some? ==> r.value < |rows| && EntityOf(rows[r.value]) == eid &&
                        (forall j :: 0 <= j < r.value ==> EntityOf(rows[j]) != eid)
    ensures r.None? ==> forall j :: 0 <= j < |rows| ==> EntityOf(rows[j]) != eid
  {
    if rows == [] then None
    else
      match FirstMatch(rows[..|rows| - 1], eid)
      case Some(j) => Some(j)
      case None => if EntityOf(rows[|rows| - 1]) == eid then Some(|rows| - 1) else None
  }

  /** `d.get(k, [])` on a dict of lists. */
  function ListOr<T>(m: map<Value, seq<T>>, k: Value): seq<T> {
    if k in m then m[k] else []
  }

  /** `d.get(k, {})` on a record lookup. */
  function RowOr(m: map<Value, Row>, k: Value): Row {
    if k in m then m[k] else map[]
  }

  /** The append-list lookup after reading `rows` in order (`d[eid].append(row)`). */
  function ListIndex(rows: seq<Row>): map<Value, seq<Row>> {
    if rows == [] then map[]
    else
      var m, last := ListIndex(rows[..|rows| - 1]), rows[|rows| - 1];
      if Truthy(EntityOf(last)) then m[EntityOf(last) := ListOr(m, EntityOf(last)) + [last]] else m
  }

  /** The last-wins lookup after reading `rows` in order (`d[eid] = row`). */
  function LastIndex(rows: seq<Row>): map<Value, Row> {
    if rows == [] then map[]
    else
      var m, last := LastIndex(rows[..|rows| - 1]), rows[|rows| - 1];
      if Truthy(EntityOf(last)) then m[EntityOf(last) := last] else m
  }

  /** The first-wins lookup after reading `rows` in order (`if eid not in d: d[eid] = row`). */
  function FirstIndex(rows: seq<Row>): map<Value, Row> {
    if rows == [] then map[]
    else
      var m, last := FirstIndex(rows[..|rows| - 1]), rows[|rows| - 1];
      if Truthy(EntityOf(last)) && EntityOf(last) !in m then m[EntityOf(last) := last] else m
  }

  /** A prefix extended by one row, as the recursive definitions see it. */
  lemma PrefixSnoc(rows: seq<Row>, i: nat)
    requires i < |rows|
    ensures var s := rows[..i + 1]; s != [] && s[..|s| - 1] == rows[..i] && s[|s| - 1] == rows[i]
  {
    assert rows[..i + 1][..i] == rows[..i];
  }

  /** Builds the append-list lookup: `d[eid].append(row)` for every row with a truthy id. */
  method GroupRowsByEntity(rows: seq<Row>) returns (m: map<Value, seq<Row>>)
    ensures m == ListIndex(rows)
  {
    m := map[];
    for i := 0 to |rows|
      invariant m == ListIndex(rows[..i])
    {
      PrefixSnoc(rows, i);
      var eid := EntityOf(rows[i]);
      if Truthy(eid) {
        m := m[eid := (if eid in m then m[eid] else []) + [rows[i]]];
      }
    }
    assert rows[..|rows|] == rows;
  }

  /** Builds the last-wins lookup: `d[eid] = row` for every row with a truthy id. */
  method LastRowByEntity(rows: seq<Row>) returns (m: map<Value, Row>)
    ensures m == LastIndex(rows)
  {
    m := map[];
    for i := 0 to |rows|
      invariant m == LastIndex(rows[..i])
    {
      PrefixSnoc(rows, i);
      var eid := EntityOf(rows[i]);
      if Truthy(eid) {
        m := m[eid := rows[i]];
      }
    }
    assert rows[..|rows|] == rows;
  }

  /** Builds the first-wins lookup: `d[eid] = row` only while `eid` is not yet a key. */
  method FirstRowByEntity(rows: seq<Row>) returns (m: map<Value, Row>)
    ensures m == FirstIndex(rows)
  {
    m := map[];
    for i := 0 to |rows|
      invariant m == FirstIndex(rows[..i])
    {
      PrefixSnoc(rows, i);
      var eid := EntityOf(rows[i]);
      if Truthy(eid) && eid !in m {
        m := m[eid := rows[i]];
      }
    }
    assert rows[..|rows|] == rows;
  }

  /**
   * The append-list lookup holds a key for exactly the truthy ids that occur,
   * and under it exactly that entity's rows, in input order.
   */
  lemma {:induction false} ListIndexSpec(rows: seq<Row>, eid: Value)
    ensures eid in ListIndex(rows) <==> Truthy(eid) && RowsOf(rows, eid) != []
    ensures eid in ListIndex(rows) ==> ListIndex(rows)[eid] == RowsOf(rows, eid)
  {
    if rows != [] {
      ListIndexSpec(rows[..|rows| - 1], eid);
    }
  }

  /** The last-wins lookup holds, for each truthy id that occurs, the entity's last row. */
  lemma {:induction false} LastIndexSpec(rows: seq<Row>, eid: Value)
    ensures eid in LastIndex(rows) <==> Truthy(eid) && LastMatch(rows, eid).Some?
    ensures eid in LastIndex(rows) ==> LastIndex(rows)[eid] == rows[LastMatch(rows, eid).value]
  {
    if rows != [] {
      var p := rows[..|rows| - 1];
      LastIndexSpec(p, eid);
      if LastMatch(rows, eid) == LastMatch(p, eid) && LastMatch(p, eid).Some? {
        assert rows[LastMatch(p, eid).value] == p[LastMatch(p, eid).value];
      }
    }
  }

  /** The first-wins lookup holds, for each truthy id that occurs, the entity's first row. */
  lemma {:induction false} FirstIndexSpec(rows: seq<Row>, eid: Value)
    ensures eid in FirstIndex(rows) <==> Truthy(eid) && FirstMatch(rows, eid).Some?
    ensures eid in FirstIndex(rows) ==> FirstIndex(rows)[eid] == rows[FirstMatch(rows, eid).value]
  {
    if rows != [] {
      var p := rows[..|rows| - 1];
      FirstIndexSpec(p, eid);
      if FirstMatch(p, eid).Some? {
        assert rows[FirstMatch(p, eid).value] == p[FirstMatch(p, eid).value];
      }
    }
  }

  /** All three lookups are keyed by the same ids: the truthy `entity_id`s that occur. */
  lemma LookupKeys(rows: seq<Row>, eid: Value)
    ensures eid in ListIndex(rows) <==> eid in EntityIdSet(rows)
    ensures eid in LastIndex(rows) <==> eid in EntityIdSet(rows)
    ensures eid in FirstIndex(rows) <==> eid in EntityIdSet(rows)
  {
    ListIndexSpec(rows, eid);
    LastIndexSpec(rows, eid);
    FirstIndexSpec(rows, eid);
    RowsOfMembers(rows, eid);
    if Truthy(eid) && LastMatch(rows, eid).Some? {
      assert rows[LastMatch(rows, eid).value] in RowsOf(rows, eid);
    }
    if Truthy(eid) && RowsOf(rows, eid) != [] {
      assert RowsOf(rows, eid)[0] in rows;
    }
  }

  /** An entity's list keeps only its rows: they occur in the input and carry its id. */
  lemma ListIndexMembers(rows: seq<Row>, eid: Value, x: Row)
    requires eid in ListIndex(rows)
    ensures x in ListIndex(rows)[eid] <==> x in rows && EntityOf(x) == eid
  {
    ListIndexSpec(rows, eid);
    RowsOfMembers(rows, eid);
  }

  /** The lists of two consecutive batches of rows concatenate: input order is kept. */
  lemma ListIndexAppend(a: seq<Row>, b: seq<Row>, eid: Value)
    requires Truthy(eid)
    ensures ListOr(ListIndex(a + b), eid) == ListOr(ListIndex(a), eid) + ListOr(ListIndex(b), eid)
  {
    ListIndexSpec(a + b, eid);
    ListIndexSpec(a, eid);
    ListIndexSpec(b, eid);
    RowsWhereAppend(a, b, "entity_id", eid);
  }

  /**
   * The head of an entity's list (the "latest allocation" when the rows come
   * newest first) is the entity's first row in input order: the first-wins choice.
   */
  lemma ListHeadIsFirstRow(rows: seq<Row>, eid: Value)
    requires eid in ListIndex(rows)
    ensures ListIndex(rows)[eid] != [] && eid in FirstIndex(rows)
    ensures ListIndex(rows)[eid][0] == FirstIndex(rows)[eid]
  {
    ListIndexSpec(rows, eid);
    LookupKeys(rows, eid);
    FirstIndexSpec(rows, eid);
    RowsWhereHead(rows, "entity_id", eid, FirstMatch(rows, eid).value);
  }

  /** An entity's rows end with its last row. */
  lemma RowsOfEndWithLast(rows: seq<Row>, eid: Value, i: nat)
    requires LastMatch(rows, eid) == Some(i)
    ensures RowsOf(rows, eid) == RowsOf(rows[..i], eid) + [rows[i]]
  {
    assert rows == rows[..i + 1] + rows[i + 1..];
    RowsWhereAppend(rows[..i + 1], rows[i + 1..], "entity_id", eid);
    RowsWhereNone(rows[i + 1..], "entity_id", eid);
    PrefixSnoc(rows, i);
  }

  /** The last-wins record is the last element of the entity's list. */
  lemma LastRowIsListLast(rows: seq<Row>, eid: Value)
    requires eid in ListIndex(rows)
    ensures eid in LastIndex(rows)
    ensures var l := ListIndex(rows)[eid]; l != [] && l[|l| - 1] == LastIndex(rows)[eid]
  {
    ListIndexSpec(rows, eid);
    LookupKeys(rows, eid);
    LastIndexSpec(rows, eid);
    RowsOfEndWithLast(rows, eid, LastMatch(rows, eid).value);
  }

  /** The distinct truthy ids in order of first appearance: the key order of a dict the rows fill. */
  function FirstSeen(rows: seq<Row>): seq<Value> {
    if rows == [] then []
    else
      var o, eid := FirstSeen(rows[..|rows| - 1]), EntityOf(rows[|rows| - 1]);
      if Truthy(eid) && eid !in o then o + [eid] else o
  }

  /** An entity has rows exactly when it has a first row. */
  lemma RowsOfEmpty(rows: seq<Row>, k: Value)
    ensures RowsOf(rows, k) != [] <==> FirstMatch(rows, k).Some?
  {
    RowsOfMembers(rows, k);
    if FirstMatch(rows, k).Some? {
      assert rows[FirstMatch(rows, k).value] in RowsOf(rows, k);
    }
    if RowsOf(rows, k) != [] {
      assert RowsOf(rows, k)[0] in RowsOf(rows, k);
    }
  }

  /** The first-seen order lists exactly the truthy ids that occur. */
  lemma {:induction false} FirstSeenMembers(rows: seq<Row>, k: Value)
    ensures k in FirstSeen(rows) <==> Truthy(k) && FirstMatch(rows, k).Some?
  {
    if rows != [] {
      FirstSeenMembers(rows[..|rows| - 1], k);
    }
  }

  /** The first-seen order lists exactly the ids of `EntityIdSet`. */
  lemma FirstSeenIds(rows: seq<Row>, k: Value)
    ensures k in FirstSeen(rows) <==> k in EntityIdSet(rows)
  {
    FirstSeenMembers(rows, k);
    if k in EntityIdSet(rows) {
      var i :| 0 <= i < |rows| && EntityOf(rows[i]) == k;
    }
  }

  /** No id is listed twice in the first-seen order. */
  lemma {:induction false} FirstSeenDistinct(rows: seq<Row>)
    ensures forall i, j :: 0 <= i < j < |FirstSeen(rows)| ==> FirstSeen(rows)[i] != FirstSeen(rows)[j]
  {
    if rows != [] {
      FirstSeenDistinct(rows[..|rows| - 1]);
    }
  }

  /** An id listed earlier in the first-seen order first occurs earlier in the rows. */
  lemma {:induction false} FirstSeenOrder(rows: seq<Row>)
    ensures forall i :: 0 <= i < |FirstSeen(rows)| ==> FirstMatch(rows, FirstSeen(rows)[i]).Some?
    ensures var o := FirstSeen(rows);
      forall i, j :: 0 <= i < j < |o| ==> FirstMatch(rows, o[i]).value < FirstMatch(rows, o[j]).value
  {
    if rows != [] {
      var p := rows[..|rows| - 1];
      FirstSeenOrder(p);
      var o, eid := FirstSeen(p), EntityOf(rows[|rows| - 1]);
      var n := if Truthy(eid) && eid !in o then o + [eid] else o;
      assert FirstSeen(rows) == n;
      if Truthy(eid) && eid !in o {
        FirstSeenMembers(p, eid);
      }
      forall i | 0 <= i < |n|
        ensures FirstMatch(rows, n[i]).Some?
        ensures FirstMatch(rows, n[i]).value == if i < |o| then FirstMatch(p, o[i]).value else |rows| - 1
      {
        if i < |o| {
          assert n[i] == o[i];
        }
      }
      forall i, j | 0 <= i < j < |n| ensures FirstMatch(rows, n[i]).value < FirstMatch(rows, n[j]).value {
        if j < |o| {
          assert n[i] == o[i] && n[j] == o[j];
        }
      }
    }
  }
}
