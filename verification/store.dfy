/**
 * The database behind the route handlers: the items, locations and
 * inventory_moves tables held in memory, with autoincrement ids, the unique
 * columns (item sku and barcode, location name) and the foreign keys of a
 * move. A failure of the database itself (lost connection, a constraint the
 * model does not know) is an input, `injected`, that the caller chooses.
 */
module Store {
  import opened Wrappers
  import opened Entities

  /** A database error: a known request error carrying a code, or one without a code. */
  datatype DbError = KnownRequest(code: string) | Unknown

  /** Unique constraint failed. */
  const UniqueViolation := "P2002"
  /** Foreign key constraint failed. */
  const ForeignKeyViolation := "P2003"

  class Database {
    var items: seq<Item>
    var locations: seq<Location>
    var moves: seq<Move>
    var nextItemId: int
    var nextLocationId: int
    var nextMoveId: int

    /** Ids are unique and below the next id; unique columns hold; moves reference rows that exist. */
    ghost predicate Valid()
      reads this
    {
      && 1 <= nextItemId && 1 <= nextLocationId && 1 <= nextMoveId
      && (forall i :: 0 <= i < |items| ==> 1 <= items[i].id < nextItemId)
      && (forall i, j :: 0 <= i < j < |items| ==>
            items[i].id != items[j].id && items[i].sku != items[j].sku
            && (items[i].barcode.Some? ==> items[i].barcode != items[j].barcode))
      && (forall i :: 0 <= i < |locations| ==> 1 <= locations[i].id < nextLocationId)
      && (forall i, j :: 0 <= i < j < |locations| ==>
            locations[i].id != locations[j].id && locations[i].name != locations[j].name)
      && (forall i :: 0 <= i < |moves| ==> 1 <= moves[i].id < nextMoveId)
      && (forall i, j :: 0 <= i < j < |moves| ==> moves[i].id != moves[j].id)
      && (forall m :: m in moves ==> m.itemId in ItemIds(items) && m.locationId in LocationIds(locations))
    }

    constructor ()
      ensures Valid()
      ensures items == [] && locations == [] && moves == []
    {
      items, locations, moves := [], [], [];
      nextItemId, nextLocationId, nextMoveId := 1, 1, 1;
    }

    /** `prisma.location.create`: a new row with the next id, unless the name is taken. */
    method CreateLocation(name: string, injected: Option<DbError>) returns (r: Result<Location, DbError>)
      requires Valid()
      modifies this
      ensures Valid()
      ensures injected.Some? ==> r == Err(injected.value)
      ensures injected.None? && name in LocationNames(old(locations)) ==>
                r == Err(KnownRequest(UniqueViolation))
      ensures injected.None? && name !in LocationNames(old(locations)) ==>
                r == Ok(Location(old(nextLocationId), name))
      ensures r.Ok? ==> locations == old(locations) + [r.value] && nextLocationId == old(nextLocationId) + 1
      ensures r.Err? ==> unchanged(this)
      ensures items == old(items) && moves == old(moves)
      ensures nextItemId == old(nextItemId) && nextMoveId == old(nextMoveId)
    {
      if injected.Some? {
        return Err(injected.value);
      }
      if name in LocationNames(locations) {
        return Err(KnownRequest(UniqueViolation));
      }
      var loc := Location(nextLocationId, name);
      locations := locations + [loc];
      nextLocationId := nextLocationId + 1;
      assert forall l :: l in old(locations) ==> l.name != name;
      r := Ok(loc);
    }

    predicate BarcodeTaken(barcode: Option<string>)
      reads this
    {
      barcode.Some? && exists i :: 0 <= i < |items| && items[i].barcode == barcode
    }

    predicate SkuTaken(sku: string)
      reads this
    {
      exists i :: 0 <= i < |items| && items[i].sku == sku
    }

    /** `prisma.item.create`: a new row with the next id and `createdAt := now`, unless sku or barcode is taken. */
    method CreateItem(sku: string, name: string, category: Option<string>, uom: string,
                      barcode: Option<string>, minQty: real, imageUrl: Option<string>,
                      now: int, injected: Option<DbError>)
      returns (r: Result<Item, DbError>)
      requires Valid()
      modifies this
      ensures Valid()
      ensures injected.Some? ==> r == Err(injected.value)
      ensures injected.None? && (old(SkuTaken(sku)) || old(BarcodeTaken(barcode))) ==>
                r == Err(KnownRequest(UniqueViolation))
      ensures injected.None? && !old(SkuTaken(sku)) && !old(BarcodeTaken(barcode)) ==>
                r == Ok(Item(old(nextItemId), sku, name, category, uom, barcode, minQty, imageUrl, now))
      ensures r.Ok? ==> items == old(items) + [r.value] && nextItemId == old(nextItemId) + 1
      ensures r.Err? ==> unchanged(this)
      ensures locations == old(locations) && moves == old(moves)
      ensures nextLocationId == old(nextLocationId) && nextMoveId == old(nextMoveId)
    {
      if injected.Some? {
        return Err(injected.value);
      }
      if SkuTaken(sku) || BarcodeTaken(barcode) {
        return Err(KnownRequest(UniqueViolation));
      }
      var item := Item(nextItemId, sku, name, category, uom, barcode, minQty, imageUrl, now);
      ghost var before := items;
      items := items + [item];
      nextItemId := nextItemId + 1;
      assert ItemIds(items) == ItemIds(before) + {item.id};
      r := Ok(item);
    }

    /**
     * `prisma.inventoryMove.create` with `include: { item, location }`: a new
     * row with the next id and `movedAt := now`, returned with the rows it
     * references, unless a foreign key does not resolve.
     */
    method CreateMove(itemId: int, locationId: int, moveType: MoveType, qty: real,
                      unitCost: Option<real>, sellPrice: Option<real>, ref: Option<string>,
                      note: Option<string>, userName: Option<string>,
                      now: int, injected: Option<DbError>)
      returns (r: Result<(Move, Item, Location), DbError>)
      requires Valid()
      modifies this
      ensures Valid()
      ensures injected.Some? ==> r == Err(injected.value)
      ensures injected.None? && (itemId !in ItemIds(items) || locationId !in LocationIds(locations)) ==>
                r == Err(KnownRequest(ForeignKeyViolation))
      ensures injected.None? && itemId in ItemIds(items) && locationId in LocationIds(locations) ==>
                && r.Ok?
                && r.value.0 == Move(old(nextMoveId), itemId, locationId, moveType, qty, unitCost,
                                     sellPrice, ref, note, userName, now)
                && Some(r.value.1) == FindItem(items, itemId)
                && Some(r.value.2) == FindLocation(locations, locationId)
      ensures r.Ok? ==> moves == old(moves) + [r.value.0] && nextMoveId == old(nextMoveId) + 1
      ensures r.Err? ==> unchanged(this)
      ensures items == old(items) && locations == old(locations)
      ensures nextItemId == old(nextItemId) && nextLocationId == old(nextLocationId)
    {
      if injected.Some? {
        return Err(injected.value);
      }
      var item := FindItem(items, itemId);
      var location := FindLocation(locations, locationId);
      if item.None? || location.None? {
        return Err(KnownRequest(ForeignKeyViolation));
      }
      var move := Move(nextMoveId, itemId, locationId, moveType, qty, unitCost, sellPrice, ref, note, userName, now);
      moves := moves + [move];
      nextMoveId := nextMoveId + 1;
      r := Ok((move, item.value, location.value));
    }
  }
}
