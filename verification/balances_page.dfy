/**
 * The stock balances page: the min-quantity lookup built from the items list,
 * the stock status tag, the status filter, the low-stock alert, the row class
 * and the summary count. All of them compare a row's quantity on hand with
 * its item's minimum quantity, which is 0 for an item the lookup lacks.
 */
module BalancesPage {
  import opened Wrappers
  import opened Entities
  import opened BalancesRoute

  datatype StockStatus = OutOfStock | LowStock | InStock

  /** `items.reduce((acc, item) => { acc[item.id] = item.minQty; ... }, {}) || {}`. */
  method ItemMinQtyMap(items: Option<seq<Item>>) returns (acc: map<int, real>)
    ensures items.None? ==> acc == map[]
    ensures items.Some? ==> acc.Keys == ItemIds(items.value)
    ensures items.Some? ==> forall i :: 0 <= i < |items.value| && LastWithId(items.value, i) ==>
              acc[items.value[i].id] == items.value[i].minQty
  {
    acc := map[];
    if items.None? {
      return;
    }
    var s := items.value;
    for k := 0 to |s|
      invariant acc.Keys == ItemIds(s[..k])
      invariant forall i :: 0 <= i < k && LastWithIdBefore(s, i, k) ==> acc[s[i].id] == s[i].minQty
    {
      assert ItemIds(s[..k + 1]) == ItemIds(s[..k]) + {s[k].id} by {
        assert s[..k + 1] == s[..k] + [s[k]];
      }
      acc := acc[s[k].id := s[k].minQty];
    }
    assert s[..|s|] == s;
  }

  /** No later item of `s[..end]` has the id of item i: the last write to that key. */
  predicate LastWithIdBefore(s: seq<Item>, i: nat, end: nat)
    requires i < end <= |s|
  {
    forall j :: i < j < end ==> s[j].id != s[i].id
  }

  predicate LastWithId(s: seq<Item>, i: nat)
    requires i < |s|
  {
    LastWithIdBefore(s, i, |s|)
  }

  /** `itemMinQtyMap[id] || 0`. */
  function MinQtyFor(minQty: map<int, real>, itemId: int): (r: real)
    ensures itemId !in minQty ==> r == 0.0
    ensures itemId in minQty ==> r == minQty[itemId]
  {
    if itemId in minQty then minQty[itemId] else 0.0
  }

  /** The Status column's tag. */
  function StatusOf(qty: real, minQty: real): (s: StockStatus)
    ensures s == OutOfStock <==> qty <= 0.0
    ensures s == LowStock <==> 0.0 < qty < minQty
    ensures s == InStock <==> 0.0 < qty && minQty <= qty
  {
    if qty <= 0.0 then OutOfStock
    else if qty < minQty then LowStock
    else InStock
  }

  function RowStatus(row: Row, minQty: map<int, real>): StockStatus
  {
    StatusOf(row.qtyOnHand, MinQtyFor(minQty, row.itemId))
  }

  /** The test that the alert, the row class and the summary all share: `qty < minQty`. */
  predicate BelowMinimum(row: Row, minQty: map<int, real>)
  {
    row.qtyOnHand < MinQtyFor(minQty, row.itemId)
  }

  /** The rows below their minimum, in their original order. */
  function LowRows(rows: seq<Row>, minQty: map<int, real>): (r: seq<Row>)
    ensures |r| <= |rows|
    ensures forall x :: x in r <==> x in rows && BelowMinimum(x, minQty)
  {
    if rows == [] then []
    else
      var last := rows[|rows| - 1];
      LowRows(rows[..|rows| - 1], minQty) + (if BelowMinimum(last, minQty) then [last] else [])
  }

  /** The low-stock filter keeps order: filtering a concatenation concatenates the filtered parts. */
  lemma {:induction false} LowRowsConcat(a: seq<Row>, b: seq<Row>, minQty: map<int, real>)
    ensures LowRows(a + b, minQty) == LowRows(a, minQty) + LowRows(b, minQty)
  {
    if b == [] {
      assert a + b == a;
    } else {
      assert (a + b)[..|a + b| - 1] == a + b[..|b| - 1];
      LowRowsConcat(a, b[..|b| - 1], minQty);
    }
  }

  /** `balances?.filter(...) || []`. */
  function LowStockItems(balances: Option<seq<Row>>, minQty: map<int, real>): (r: seq<Row>)
    ensures balances.None? ==> r == []
    ensures forall x :: x in r <==> balances.Some? && x in balances.value && BelowMinimum(x, minQty)
  {
    match balances
    case None => []
    case Some(rows) => LowRows(rows, minQty)
  }

  /** The alert is shown iff the low-stock list is not empty. */
  predicate AlertShown(balances: Option<seq<Row>>, minQty: map<int, real>)
  {
    |LowStockItems(balances, minQty)| > 0
  }

  lemma AlertShownIff(balances: Option<seq<Row>>, minQty: map<int, real>)
    ensures AlertShown(balances, minQty) <==> balances.Some? && exists x :: x in balances.value && BelowMinimum(x, minQty)
  {
    if balances.Some? && exists x :: x in balances.value && BelowMinimum(x, minQty) {
      var x :| x in balances.value && BelowMinimum(x, minQty);
      assert x in LowStockItems(balances, minQty);
    }
    if AlertShown(balances, minQty) {
      var low := LowStockItems(balances, minQty);
      assert low[0] in low;
    }
  }

  function RowClassName(row: Row, minQty: map<int, real>): (c: string)
    ensures c == "low-stock" <==> BelowMinimum(row, minQty)
    ensures c != "low-stock" ==> c == ""
  {
    if BelowMinimum(row, minQty) then "low-stock" else ""
  }

  /** The positions of the rows below their minimum. */
  function LowPositions(rows: seq<Row>, minQty: map<int, real>): set<int>
  {
    set i | 0 <= i < |rows| && BelowMinimum(rows[i], minQty)
  }

  /** Appending a row adds its position exactly when it is low. */
  lemma LowPositionsSnoc(init: seq<Row>, row: Row, minQty: map<int, real>)
    ensures LowPositions(init + [row], minQty)
            == LowPositions(init, minQty) + (if BelowMinimum(row, minQty) then {|init|} else {})
  {
    var rows := init + [row];
    forall i | 0 <= i < |init|
      ensures rows[i] == init[i]
    {
    }
  }

  /** The low-stock filter keeps one row per low position. */
  lemma {:induction false} LowRowsCount(rows: seq<Row>, minQty: map<int, real>)
    ensures |LowRows(rows, minQty)| == |LowPositions(rows, minQty)|
  {
    if rows != [] {
      var n := |rows|;
      var init := rows[..n - 1];
      var row := rows[n - 1];
      LowRowsCount(init, minQty);
      assert rows == init + [row];
      LowPositionsSnoc(init, row, minQty);
      assert n - 1 !in LowPositions(init, minQty);
    }
  }

  /** The table summary of one page: total rows and low-stock rows. */
  function Summary(page: seq<Row>, minQty: map<int, real>): (r: (nat, nat))
    ensures r.0 == |page| && r.1 <= r.0
    ensures r.1 == |LowPositions(page, minQty)|
    ensures r.1 == 0 <==> forall x :: x in page ==> !BelowMinimum(x, minQty)
  {
    var low := LowRows(page, minQty);
    assert low != [] ==> low[0] in low;
    LowRowsCount(page, minQty);
    (|page|, |low|)
  }

  /**
   * A row with nothing on hand and a positive minimum shows the Out of Stock
   * tag, yet the alert, the row class and the summary all count it as low.
   */
  lemma OutOfStockCountedLow(row: Row, minQty: map<int, real>)
    requires row.qtyOnHand <= 0.0 && MinQtyFor(minQty, row.itemId) > 0.0
    ensures RowStatus(row, minQty) == OutOfStock
    ensures row in LowStockItems(Some([row]), minQty)
    ensures RowClassName(row, minQty) == "low-stock"
    ensures Summary([row], minQty).1 == 1
  {
    assert LowRows([row], minQty) == [row] by {
      assert [row][..0] == [];
    }
  }

  // ---------------------------------------------------------------------------
  // The Status column's filter

  /** `onFilter` as written: 'out', 'low', 'in', and every row for any other value. */
  predicate StatusFilter(value: string, row: Row, minQty: map<int, real>)
  {
    var qty := row.qtyOnHand;
    var min := MinQtyFor(minQty, row.itemId);
    if value == "out" then qty <= 0.0
    else if value == "low" then qty > 0.0 && qty < min
    else if value == "in" then qty >= min
    else true
  }

  lemma OutFilterMatchesTag(row: Row, minQty: map<int, real>)
    ensures StatusFilter("out", row, minQty) <==> RowStatus(row, minQty) == OutOfStock
  {
  }

  lemma LowFilterMatchesTag(row: Row, minQty: map<int, real>)
    ensures StatusFilter("low", row, minQty) <==> RowStatus(row, minQty) == LowStock
  {
  }

  lemma InFilterAcceptsInRows(row: Row, minQty: map<int, real>)
    ensures RowStatus(row, minQty) == InStock ==> StatusFilter("in", row, minQty)
  {
  }

  lemma UnknownFilterAcceptsAll(value: string, row: Row, minQty: map<int, real>)
    requires value != "out" && value != "low" && value != "in"
    ensures StatusFilter(value, row, minQty)
  {
  }

  /** The 'in' filter also lets through a row whose tag says Out of Stock: nothing on hand, no minimum. */
  lemma InFilterAcceptsOutRow()
    ensures var row := Row(1, "SKU-1", "Item", 1, "W", 0.0);
            StatusFilter("in", row, map[]) && RowStatus(row, map[]) == OutOfStock
  {
  }

  /** The filter as its labels promise: each status value selects exactly the rows with that tag. */
  predicate StatusFilterByTag(value: string, row: Row, minQty: map<int, real>)
  {
    var status := RowStatus(row, minQty);
    if value == "out" then status == OutOfStock
    else if value == "low" then status == LowStock
    else if value == "in" then status == InStock
    else true
  }

  lemma StatusFilterByTagAgrees(row: Row, minQty: map<int, real>)
    ensures StatusFilterByTag("out", row, minQty) == StatusFilter("out", row, minQty)
    ensures StatusFilterByTag("low", row, minQty) == StatusFilter("low", row, minQty)
    ensures StatusFilterByTag("in", row, minQty) <==> StatusFilter("in", row, minQty) && row.qtyOnHand > 0.0
  {
  }

  /** Under the corrected filter each row passes exactly one of the three status values. */
  lemma StatusFilterByTagPartitions(row: Row, minQty: map<int, real>)
    ensures StatusFilterByTag("out", row, minQty) || StatusFilterByTag("low", row, minQty) || StatusFilterByTag("in", row, minQty)
    ensures !(StatusFilterByTag("out", row, minQty) && StatusFilterByTag("low", row, minQty))
    ensures !(StatusFilterByTag("out", row, minQty) && StatusFilterByTag("in", row, minQty))
    ensures !(StatusFilterByTag("low", row, minQty) && StatusFilterByTag("in", row, minQty))
  {
  }
}
