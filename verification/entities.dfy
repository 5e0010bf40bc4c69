/**
 * The three tables of the inventory database: items, locations and
 * inventory moves. Decimal columns (`minQty`, `qty`, `unitCost`,
 * `sellPrice`) are exact numbers; timestamps are integers on one clock.
 */
module Entities {
  import opened Wrappers

  datatype MoveType = IN | OUT | ADJUST

  datatype Item = Item(
    id: int,
    sku: string,
    name: string,
    category: Option<string>,
    uom: string,
    barcode: Option<string>,
    minQty: real,
    imageUrl: Option<string>,
    createdAt: int)

  datatype Location = Location(id: int, name: string)

  datatype Move = Move(
    id: int,
    itemId: int,
    locationId: int,
    moveType: MoveType,
    qty: real,
    unitCost: Option<real>,
    sellPrice: Option<real>,
    ref: Option<string>,
    note: Option<string>,
    userName: Option<string>,
    movedAt: int)

  function ItemIds(items: seq<Item>): set<int>
  {
    set it | it in items :: it.id
  }

  function LocationIds(locations: seq<Location>): set<int>
  {
    set l | l in locations :: l.id
  }

  function LocationNames(locations: seq<Location>): set<string>
  {
    set l | l in locations :: l.name
  }

  /** The item with the given id, as a `findUnique` by primary key. */
  function FindItem(items: seq<Item>, id: int): (r: Option<Item>)
    ensures r.Some? <==> id in ItemIds(items)
    ensures r.Some? ==> r.value in items && r.value.id == id
  {
    if items == [] then None
    else if items[0].id == id then Some(items[0])
    else FindItem(items[1..], id)
  }

  /** The location with the given id, as a `findUnique` by primary key. */
  function FindLocation(locations: seq<Location>, id: int): (r: Option<Location>)
    ensures r.Some? <==> id in LocationIds(locations)
    ensures r.Some? ==> r.value in locations && r.value.id == id
  {
    if locations == [] then None
    else if locations[0].id == id then Some(locations[0])
    else FindLocation(locations[1..], id)
  }
}
