/**
 * /api/items: POST validates the body with `CreateItemSchema` and inserts
 * the item; every failure, validation included, answers 500. GET lists all
 * items, newest first.
 */
module ItemsRoute {
  import opened Wrappers
  import opened Json
  import opened Entities
  import opened Ordering
  import opened Store
  import opened Validations

  datatype PostResponse = Created(status: int, item: Item) | Failed(status: int, error: string)

  datatype GetResponse = Listed(status: int, items: seq<Item>) | ListFailed(status: int, error: string)

  /** `request.json()` followed by `CreateItemSchema.parse`: None where either throws. */
  function ParseBody(body: Body, urlParses: string -> bool): Option<ItemInput>
  {
    match body
    case Malformed => None
    case Parsed(v) => ParseItem(v, urlParses)
  }

  method Post(db: Database, body: Body, urlParses: string -> bool, now: int, injected: Option<DbError>)
    returns (r: PostResponse)
    requires db.Valid()
    modifies db
    ensures db.Valid()
    ensures ParseBody(body, urlParses).None? ==> r == Failed(500, "Failed to create item") && unchanged(db)
    ensures ParseBody(body, urlParses).Some? ==>
              var i := ParseBody(body, urlParses).value;
              if injected.None? && !old(db.SkuTaken(i.sku)) && !old(db.BarcodeTaken(i.barcode)) then
                && r == Created(201, Item(old(db.nextItemId), i.sku, i.name, i.category, i.uom, i.barcode,
                                          i.minQty, i.imageUrl, now))
                && db.items == old(db.items) + [r.item]
              else
                r == Failed(500, "Failed to create item") && unchanged(db)
    ensures db.locations == old(db.locations) && db.moves == old(db.moves)
  {
    var parsed := ParseBody(body, urlParses);
    if parsed.None? {
      return Failed(500, "Failed to create item");
    }
    var i := parsed.value;
    var created := db.CreateItem(i.sku, i.name, i.category, i.uom, i.barcode, i.minQty, i.imageUrl, now, injected);
    if created.Err? {
      return Failed(500, "Failed to create item");
    }
    r := Created(201, created.value);
  }

  /** `orderBy: { createdAt: 'desc' }`. */
  predicate NewerItemFirst(a: Item, b: Item)
  {
    a.createdAt >= b.createdAt
  }

  lemma NewerItemFirstIsTotalPreorder()
    ensures TotalPreorder(NewerItemFirst)
  {
  }

  method Get(db: Database, fails: bool) returns (r: GetResponse)
    ensures fails ==> r == ListFailed(500, "Failed to fetch items")
    ensures !fails ==> r.Listed? && r.status == 200
    ensures r.Listed? ==> multiset(r.items) == multiset(db.items)
    ensures r.Listed? ==> forall i, j :: 0 <= i < j < |r.items| ==> r.items[i].createdAt >= r.items[j].createdAt
  {
    if fails {
      return ListFailed(500, "Failed to fetch items");
    }
    NewerItemFirstIsTotalPreorder();
    var items := Sort(db.items, NewerItemFirst);
    r := Listed(200, items);
  }
}
