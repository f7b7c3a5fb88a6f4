/**
 * Grouping rows by entity while building one record per row, as the
 * position loop of `complete_structured_response` does with `grouped =
 * defaultdict(list)`: rows with a falsy `entity_id` are skipped, the others
 * append their record under their id, and the ids keep first-seen order.
 * The record builder is a parameter `f`; the first record that raises stops
 * the loop.
 */
module GroupBy {
  import opened Wrappers
  import opened Rows
  import opened Lookups

  /** Groups under construction: ids in first-seen order and each id's records (an insertion-ordered dict). */
  datatype Grouped<R> = Grouped(order: seq<Value>, groups: map<Value, seq<R>>)

  /** The records of a list of positions, in order, raising at the first that fails. */
  function Records<R>(ps: seq<Row>, f: Row -> Result<R, Error>): (r: Result<seq<R>, Error>)
    ensures r.Success? <==> forall i :: 0 <= i < |ps| ==> f(ps[i]).Success?
    ensures r.Success? ==> |r.value| == |ps|
    ensures r.Success? ==> forall i :: 0 <= i < |ps| ==> r.value[i] == f(ps[i]).value
  {
    if ps == [] then Success([])
    else
      var done :- Records(ps[..|ps| - 1], f);
      var rec :- f(ps[|ps| - 1]);
      Success(done + [rec])
  }

  /**
   * The `grouped` dict after the position loop has read `ps`: positions with
   * a falsy id are skipped, the others append their record under their id,
   * and a new id joins the key order when first seen.
   */
  function GroupedOf<R>(ps: seq<Row>, f: Row -> Result<R, Error>): (r: Result<Grouped<R>, Error>)
    ensures r.Success? <==>
      forall i :: 0 <= i < |ps| && Truthy(EntityOf(ps[i])) ==> f(ps[i]).Success?
  {
    if ps == [] then Success(Grouped([], map[]))
    else
      var g :- GroupedOf(ps[..|ps| - 1], f);
      var pos := ps[|ps| - 1];
      var eid := EntityOf(pos);
      if !Truthy(eid) then Success(g)
      else
        var rec :- f(pos);
        Success(Grouped(
          if eid in g.groups then g.order else g.order + [eid],
          g.groups[eid := ListOr(g.groups, eid) + [rec]]))
  }

  /** A failure while grouping a prefix is the failure of the whole loop. */
  lemma {:induction false} GroupedFailureSticks<R>(ps: seq<Row>, i: nat, f: Row -> Result<R, Error>)
    requires i <= |ps| && GroupedOf(ps[..i], f).Failure?
    ensures GroupedOf(ps, f) == GroupedOf(ps[..i], f)
    decreases |ps| - i
  {
    if i < |ps| {
      PrefixSnoc(ps, i);
      GroupedFailureSticks(ps, i + 1, f);
    } else {
      assert ps[..i] == ps;
    }
  }

  // ---------------------------------------------------------------------
  // What the grouping promises
  // ---------------------------------------------------------------------

  /** The key order is the first-seen order of the position ids, and the dict holds exactly its ids. */
  lemma {:induction false} GroupedOrder<R>(ps: seq<Row>, f: Row -> Result<R, Error>)
    requires GroupedOf(ps, f).Success?
    ensures GroupedOf(ps, f).value.order == FirstSeen(ps)
    ensures forall k :: k in GroupedOf(ps, f).value.groups <==> k in GroupedOf(ps, f).value.order
  {
    if ps != [] {
      GroupedOrder(ps[..|ps| - 1], f);
    }
  }

  /**
   * After grouping, the key order and the dict hold the same ids: exactly
   * the truthy ids the positions carry.
   */
  lemma GroupedKeys<R>(ps: seq<Row>, f: Row -> Result<R, Error>, k: Value)
    requires GroupedOf(ps, f).Success?
    ensures var g := GroupedOf(ps, f).value;
      && (k in g.groups <==> k in g.order)
      && (k in g.order <==> Truthy(k) && RowsOf(ps, k) != [])
  {
    GroupedOrder(ps, f);
    FirstSeenMembers(ps, k);
    RowsOfEmpty(ps, k);
  }

  /** When grouping succeeds, every entity's positions have records. */
  lemma KeyedRecordsSucceed<R>(ps: seq<Row>, f: Row -> Result<R, Error>, k: Value)
    requires GroupedOf(ps, f).Success? && Truthy(k)
    ensures Records(RowsOf(ps, k), f).Success?
  {
    var rs := RowsOf(ps, k);
    RowsOfMembers(ps, k);
    forall i | 0 <= i < |rs| ensures f(rs[i]).Success? {
      assert rs[i] in rs;
      assert rs[i] in ps && EntityOf(rs[i]) == k;
      var j :| 0 <= j < |ps| && ps[j] == rs[i];
    }
  }

  /** Each id's records are the records of exactly that entity's positions, in input order. */
  lemma {:induction false} GroupedRecords<R>(ps: seq<Row>, f: Row -> Result<R, Error>, k: Value)
    requires GroupedOf(ps, f).Success?
    requires k in GroupedOf(ps, f).value.groups
    ensures Truthy(k) && Records(RowsOf(ps, k), f).Success?
    ensures GroupedOf(ps, f).value.groups[k] == Records(RowsOf(ps, k), f).value
  {
    GroupedKeys(ps, f, k);
    KeyedRecordsSucceed(ps, f, k);
    var p := ps[..|ps| - 1];
    var last := ps[|ps| - 1];
    var g := GroupedOf(p, f).value;
    var rp := RowsOf(p, k);
    assert RowsOf(ps, k) == rp + (if EntityOf(last) == k then [last] else []);
    if EntityOf(last) == k {
      var rec := f(last).value;
      assert GroupedOf(ps, f).value.groups[k] == ListOr(g.groups, k) + [rec];
      assert (rp + [last])[..|rp|] == rp;
      if k in g.groups {
        GroupedRecords(p, f, k);
      } else {
        GroupedKeys(p, f, k);
        assert Records(rp, f) == Success([]);
      }
    } else {
      GroupedRecords(p, f, k);
    }
  }

  /** The whole contents of the grouped dict, for one id. */
  lemma GroupedContents<R>(ps: seq<Row>, f: Row -> Result<R, Error>, k: Value)
    requires GroupedOf(ps, f).Success?
    ensures var g := GroupedOf(ps, f).value;
      && (k in g.groups <==> k in g.order)
      && (k in g.order <==> Truthy(k) && RowsOf(ps, k) != [])
      && (Truthy(k) ==> Records(RowsOf(ps, k), f).Success?)
      && (k in g.groups ==> g.groups[k] == Records(RowsOf(ps, k), f).value)
  {
    GroupedKeys(ps, f, k);
    if Truthy(k) {
      KeyedRecordsSucceed(ps, f, k);
    }
    if k in GroupedOf(ps, f).value.groups {
      GroupedRecords(ps, f, k);
    }
  }

  /** The key order lists exactly the truthy entity ids the positions carry. */
  lemma GroupOrderIds<R>(ps: seq<Row>, f: Row -> Result<R, Error>, k: Value)
    requires GroupedOf(ps, f).Success?
    ensures k in GroupedOf(ps, f).value.order <==> k in EntityIdSet(ps)
  {
    GroupedOrder(ps, f);
    FirstSeenIds(ps, k);
  }

  /** A position without an entity id is in no group. */
  lemma NoIdNoGroup<R>(ps: seq<Row>, f: Row -> Result<R, Error>, pos: Row, k: Value)
    requires GroupedOf(ps, f).Success?
    requires !Truthy(EntityOf(pos)) && k in GroupedOf(ps, f).value.order
    ensures pos !in RowsOf(ps, k)
  {
    GroupedKeys(ps, f, k);
    RowsOfMembers(ps, k);
  }

  /** The ids in key order are pairwise distinct. */
  lemma GroupOrderDistinct<R>(ps: seq<Row>, f: Row -> Result<R, Error>)
    requires GroupedOf(ps, f).Success?
    ensures var o := GroupedOf(ps, f).value.order;
      forall i, j :: 0 <= i < j < |o| ==> o[i] != o[j]
  {
    GroupedOrder(ps, f);
    FirstSeenDistinct(ps);
  }

  /**
   * Groups come out in first-seen order: an id listed earlier first occurs
   * earlier among the positions.
   */
  lemma GroupOrderFirstSeen<R>(ps: seq<Row>, f: Row -> Result<R, Error>)
    requires GroupedOf(ps, f).Success?
    ensures var o := GroupedOf(ps, f).value.order;
      forall i :: 0 <= i < |o| ==> FirstMatch(ps, o[i]).Some?
    ensures var o := GroupedOf(ps, f).value.order;
      forall i, j :: 0 <= i < j < |o| ==> FirstMatch(ps, o[i]).value < FirstMatch(ps, o[j]).value
  {
    GroupedOrder(ps, f);
    FirstSeenOrder(ps);
  }
}
