/**
 * GET /api/balances: quantity on hand per item and location. The database
 * view is tried first; when that query fails, the balances are recomputed
 * from the tables by a nested loop over items and locations, and when that
 * fails too the handler answers 500.
 */
module BalancesRoute {
  import opened Wrappers
  import opened Entities
  import opened Store

  /** One balance row, with the columns of the view. */
  datatype Row = Row(itemId: int, sku: string, name: string, locationId: int, location: string, qtyOnHand: real)

  datatype Response = Rows(rows: seq<Row>) | Failed(status: int, error: string)

  // ---------------------------------------------------------------------------
  // The specification of a balance

  /** The change one move makes at its own (item, location): IN and ADJUST add qty, OUT subtracts it. */
  function Delta(m: Move): real
  {
    match m.moveType
    case IN => m.qty
    case ADJUST => m.qty
    case OUT => -m.qty
  }

  predicate AtPair(m: Move, itemId: int, locationId: int)
  {
    m.itemId == itemId && m.locationId == locationId
  }

  function Contribution(m: Move, itemId: int, locationId: int): real
  {
    if AtPair(m, itemId, locationId) then Delta(m) else 0.0
  }

  /** The quantity on hand of `itemId` at `locationId`: the fold of the ledger's moves at that pair. */
  function Balance(moves: seq<Move>, itemId: int, locationId: int): real
  {
    if moves == [] then 0.0
    else Balance(moves[..|moves| - 1], itemId, locationId) + Contribution(moves[|moves| - 1], itemId, locationId)
  }

  /** The total qty of the moves of one type at one pair. */
  function TypeTotal(moves: seq<Move>, t: MoveType, itemId: int, locationId: int): real
  {
    if moves == [] then 0.0
    else
      var m := moves[|moves| - 1];
      TypeTotal(moves[..|moves| - 1], t, itemId, locationId)
      + (if AtPair(m, itemId, locationId) && m.moveType == t then m.qty else 0.0)
  }

  /** A balance is the IN total plus the ADJUST total minus the OUT total at its pair. */
  lemma {:induction false} BalanceByType(moves: seq<Move>, itemId: int, locationId: int)
    ensures Balance(moves, itemId, locationId)
         == TypeTotal(moves, IN, itemId, locationId) + TypeTotal(moves, ADJUST, itemId, locationId)
            - TypeTotal(moves, OUT, itemId, locationId)
  {
    if moves != [] {
      BalanceByType(moves[..|moves| - 1], itemId, locationId);
    }
  }

  lemma {:induction false} BalanceConcat(a: seq<Move>, b: seq<Move>, itemId: int, locationId: int)
    ensures Balance(a + b, itemId, locationId) == Balance(a, itemId, locationId) + Balance(b, itemId, locationId)
  {
    if b != [] {
      assert (a + b)[..|a + b| - 1] == a + b[..|b| - 1];
      BalanceConcat(a, b[..|b| - 1], itemId, locationId);
    } else {
      assert a + b == a;
    }
  }

  /** A pair with no moves of its own has balance 0. */
  lemma {:induction false} NoMovesNoStock(moves: seq<Move>, itemId: int, locationId: int)
    requires forall m :: m in moves ==> !AtPair(m, itemId, locationId)
    ensures Balance(moves, itemId, locationId) == 0.0
  {
    if moves != [] {
      assert moves[|moves| - 1] in moves;
      NoMovesNoStock(moves[..|moves| - 1], itemId, locationId);
    }
  }

  /** Moves at other pairs never contribute, wherever they stand in the ledger. */
  lemma OtherPairsIgnored(before: seq<Move>, others: seq<Move>, after: seq<Move>, itemId: int, locationId: int)
    requires forall m :: m in others ==> !AtPair(m, itemId, locationId)
    ensures Balance(before + others + after, itemId, locationId) == Balance(before + after, itemId, locationId)
  {
    BalanceConcat(before + others, after, itemId, locationId);
    BalanceConcat(before, others, itemId, locationId);
    BalanceConcat(before, after, itemId, locationId);
    NoMovesNoStock(others, itemId, locationId);
  }

  /**
   * Appending one move changes only its own row: by +qty for IN and ADJUST,
   * by -qty for OUT; every other pair keeps its balance.
   */
  lemma AppendMove(moves: seq<Move>, m: Move, itemId: int, locationId: int)
    ensures AtPair(m, itemId, locationId) && m.moveType in {IN, ADJUST} ==>
              Balance(moves + [m], itemId, locationId) == Balance(moves, itemId, locationId) + m.qty
    ensures AtPair(m, itemId, locationId) && m.moveType == OUT ==>
              Balance(moves + [m], itemId, locationId) == Balance(moves, itemId, locationId) - m.qty
    ensures !AtPair(m, itemId, locationId) ==>
              Balance(moves + [m], itemId, locationId) == Balance(moves, itemId, locationId)
  {
    assert (moves + [m])[..|moves + [m]| - 1] == moves;
  }

  /** Removing the move at index k takes away exactly its contribution. */
  lemma {:induction false} BalanceRemove(s: seq<Move>, k: nat, itemId: int, locationId: int)
    requires k < |s|
    ensures Balance(s, itemId, locationId)
         == Balance(s[..k] + s[k + 1..], itemId, locationId) + Contribution(s[k], itemId, locationId)
  {
    var n := |s|;
    if k == n - 1 {
      assert s[..k] + s[k + 1..] == s[..n - 1];
    } else {
      var init := s[..n - 1];
      BalanceRemove(init, k, itemId, locationId);
      assert s[..k] + s[k + 1..] == (init[..k] + init[k + 1..]) + [s[n - 1]];
      var rest := init[..k] + init[k + 1..];
      assert (rest + [s[n - 1]])[..|rest + [s[n - 1]]| - 1] == rest;
    }
  }

  lemma MultisetRemove(s: seq<Move>, k: nat)
    requires k < |s|
    ensures multiset(s[..k] + s[k + 1..]) == multiset(s) - multiset{s[k]}
  {
    assert s == s[..k] + [s[k]] + s[k + 1..];
  }

  /** With exact arithmetic the order of the ledger does not matter: a permutation has the same balances. */
  lemma {:induction false} BalancePermutation(a: seq<Move>, b: seq<Move>, itemId: int, locationId: int)
    requires multiset(a) == multiset(b)
    ensures Balance(a, itemId, locationId) == Balance(b, itemId, locationId)
    decreases |a|
  {
    if a == [] {
      assert b == [];
    } else {
      var n := |a|;
      assert a[n - 1] in multiset(b);
      var k :| 0 <= k < |b| && b[k] == a[n - 1];
      MultisetRemove(a, n - 1);
      MultisetRemove(b, k);
      assert a[..n - 1] + a[n..] == a[..n - 1];
      BalancePermutation(a[..n - 1], b[..k] + b[k + 1..], itemId, locationId);
      BalanceRemove(b, k, itemId, locationId);
    }
  }

  // ---------------------------------------------------------------------------
  // The fallback computation

  /**
   * The moves of a ledger that `keep` accepts, in ledger order: `include: { moves }`
   * on an item keeps its item id, `item.moves.filter(...)` then keeps a location id.
   */
  function MovesWhere(moves: seq<Move>, keep: Move -> bool): (r: seq<Move>)
    ensures |r| <= |moves|
    ensures forall m :: m in r <==> m in moves && keep(m)
  {
    if moves == [] then []
    else
      var m := moves[|moves| - 1];
      MovesWhere(moves[..|moves| - 1], keep) + (if keep(m) then [m] else [])
  }

  /** A filter that keeps every move of a pair leaves that pair's balance unchanged. */
  lemma {:induction false} FilterKeepsBalance(moves: seq<Move>, keep: Move -> bool, itemId: int, locationId: int)
    requires forall m :: AtPair(m, itemId, locationId) ==> keep(m)
    ensures Balance(MovesWhere(moves, keep), itemId, locationId) == Balance(moves, itemId, locationId)
  {
    if moves != [] {
      var m := moves[|moves| - 1];
      var init := moves[..|moves| - 1];
      FilterKeepsBalance(init, keep, itemId, locationId);
      BalanceConcat(MovesWhere(init, keep), if keep(m) then [m] else [], itemId, locationId);
      assert [m][..0] == [];
    }
  }

  /** The row of one (item, location) pair: identity columns copied, quantity the balance. */
  function RowFor(item: Item, location: Location, moves: seq<Move>): Row
  {
    Row(item.id, item.sku, item.name, location.id, location.name, Balance(moves, item.id, location.id))
  }

  function RowsForItem(item: Item, locations: seq<Location>, moves: seq<Move>): (r: seq<Row>)
    ensures |r| == |locations|
  {
    seq(|locations|, j requires 0 <= j < |locations| => RowFor(item, locations[j], moves))
  }

  /** Every item crossed with every location, items outer and locations inner, in table order. */
  function CrossProduct(items: seq<Item>, locations: seq<Location>, moves: seq<Move>): (r: seq<Row>)
    ensures |r| == |items| * |locations|
  {
    if items == [] then []
    else
      var n := |items|;
      var r := CrossProduct(items[..n - 1], locations, moves) + RowsForItem(items[n - 1], locations, moves);
      assert |r| == (n - 1) * |locations| + |locations| == n * |locations|;
      r
  }

  /** Row i * |locations| + j is the row of item i at location j. */
  lemma {:induction false} CrossProductAt(items: seq<Item>, locations: seq<Location>, moves: seq<Move>, i: nat, j: nat)
    requires i < |items| && j < |locations|
    ensures i * |locations| + j < |CrossProduct(items, locations, moves)|
    ensures CrossProduct(items, locations, moves)[i * |locations| + j] == RowFor(items[i], locations[j], moves)
  {
    var n := |items|;
    var L := |locations|;
    var prefix := CrossProduct(items[..n - 1], locations, moves);
    assert |prefix| == (n - 1) * L;
    if i < n - 1 {
      CrossProductAt(items[..n - 1], locations, moves, i, j);
      assert i * L + j < (n - 1) * L by {
        assert i * L <= (n - 2) * L;
        assert (n - 2) * L + L == (n - 1) * L;
      }
    } else {
      assert i * L + j == |prefix| + j;
    }
  }

  /**
   * `movesForLocation.forEach(...)`: starting from 0, IN and ADJUST add qty
   * and OUT subtracts it. Every move passed in is at the given pair.
   */
  method Accumulate(movesForLocation: seq<Move>, itemId: int, locationId: int) returns (qtyOnHand: real)
    requires forall m :: m in movesForLocation ==> AtPair(m, itemId, locationId)
    ensures qtyOnHand == Balance(movesForLocation, itemId, locationId)
  {
    qtyOnHand := 0.0;
    for k := 0 to |movesForLocation|
      invariant qtyOnHand == Balance(movesForLocation[..k], itemId, locationId)
    {
      var move := movesForLocation[k];
      assert move in movesForLocation;
      assert movesForLocation[..k + 1][..k] == movesForLocation[..k];
      match move.moveType {
        case IN => qtyOnHand := qtyOnHand + move.qty;
        case ADJUST => qtyOnHand := qtyOnHand + move.qty;
        case OUT => qtyOnHand := qtyOnHand - move.qty;
      }
    }
    assert movesForLocation[..|movesForLocation|] == movesForLocation;
  }

  /**
   * The fallback: for each item, for each location, filter the item's moves
   * to that location and accumulate IN/ADJUST as +qty and OUT as -qty.
   */
  method Fallback(items: seq<Item>, locations: seq<Location>, moves: seq<Move>) returns (balances: seq<Row>)
    ensures balances == CrossProduct(items, locations, moves)
  {
    balances := [];
    for i := 0 to |items|
      invariant balances == CrossProduct(items[..i], locations, moves)
    {
      var item := items[i];
      var ofItem := (m: Move) => m.itemId == item.id;
      var itemMoves := MovesWhere(moves, ofItem);
      ghost var done := balances;
      for j := 0 to |locations|
        invariant balances == done + RowsForItem(item, locations[..j], moves)
      {
        var location := locations[j];
        var atLocation := (m: Move) => m.locationId == location.id;
        var movesForLocation := MovesWhere(itemMoves, atLocation);
        assert forall m :: m in movesForLocation ==> AtPair(m, item.id, location.id);
        var qtyOnHand := Accumulate(movesForLocation, item.id, location.id);
        FilterKeepsBalance(itemMoves, atLocation, item.id, location.id);
        FilterKeepsBalance(moves, ofItem, item.id, location.id);
        balances := balances + [Row(item.id, item.sku, item.name, location.id, location.name, qtyOnHand)];
        assert RowsForItem(item, locations[..j + 1], moves) == RowsForItem(item, locations[..j], moves) + [RowFor(item, location, moves)];
      }
      assert locations[..|locations|] == locations;
      assert items[..i + 1][..i] == items[..i];
    }
    assert items[..|items|] == items;
  }

  /**
   * The handler: the view's rows when its query succeeds (already ordered by
   * sku, then location); otherwise the fallback's rows, unsorted; when the
   * fallback's reads fail as well, 500 and no rows at all.
   */
  method Get(view: Option<seq<Row>>, db: Database, fallbackFails: bool) returns (r: Response)
    ensures view.Some? ==> r == Rows(view.value)
    ensures view.None? && fallbackFails ==> r == Failed(500, "Failed to fetch balances")
    ensures view.None? && !fallbackFails ==> r == Rows(CrossProduct(db.items, db.locations, db.moves))
  {
    if view.Some? {
      return Rows(view.value);
    }
    if fallbackFails {
      return Failed(500, "Failed to fetch balances");
    }
    var balances := Fallback(db.items, db.locations, db.moves);
    r := Rows(balances);
  }
}
