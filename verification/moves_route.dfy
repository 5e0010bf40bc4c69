/**
 * /api/moves: POST validates the body with `CreateMoveSchema` and appends the
 * move; every failure, validation included, answers 500. GET returns the 100
 * most recent moves with their item and location.
 */
module MovesRoute {
  import opened Wrappers
  import opened Json
  import opened Entities
  import opened Ordering
  import opened Store
  import opened Validations

  const PageSize := 100

  datatype PostResponse =
    | Created(status: int, move: Move, item: Item, location: Location)
    | Failed(status: int, error: string)

  /** A listed move with the item and location it references. */
  datatype MoveRow = MoveRow(move: Move, item: Item, location: Location)

  datatype GetResponse = Listed(status: int, rows: seq<MoveRow>) | ListFailed(status: int, error: string)

  /** Every move in the ledger has a strictly positive quantity. */
  ghost predicate PositiveLedger(moves: seq<Move>)
  {
    forall m :: m in moves ==> m.qty > 0.0
  }

  /** `request.json()` followed by `CreateMoveSchema.parse`: None where either throws. */
  function ParseBody(body: Body): Option<MoveInput>
  {
    match body
    case Malformed => None
    case Parsed(v) => ParseMove(v)
  }

  method Post(db: Database, body: Body, now: int, injected: Option<DbError>) returns (r: PostResponse)
    requires db.Valid()
    modifies db
    ensures db.Valid()
    ensures ParseBody(body).None? ==> r == Failed(500, "Failed to create move") && unchanged(db)
    ensures ParseBody(body).Some? ==>
              var m := ParseBody(body).value;
              if injected.None? && m.itemId in ItemIds(old(db.items)) && m.locationId in LocationIds(old(db.locations)) then
                && r.Created? && r.status == 201
                && r.move == Move(old(db.nextMoveId), m.itemId, m.locationId, m.moveType, m.qty, m.unitCost,
                                  m.sellPrice, m.ref, m.note, m.userName, now)
                && Some(r.item) == FindItem(db.items, m.itemId)
                && Some(r.location) == FindLocation(db.locations, m.locationId)
                && db.moves == old(db.moves) + [r.move]
              else
                r == Failed(500, "Failed to create move") && unchanged(db)
    ensures db.items == old(db.items) && db.locations == old(db.locations)
    ensures PositiveLedger(old(db.moves)) ==> PositiveLedger(db.moves)
  {
    var parsed := ParseBody(body);
    if parsed.None? {
      return Failed(500, "Failed to create move");
    }
    var m := parsed.value;
    var created := db.CreateMove(m.itemId, m.locationId, m.moveType, m.qty, m.unitCost, m.sellPrice,
                                 m.ref, m.note, m.userName, now, injected);
    if created.Err? {
      return Failed(500, "Failed to create move");
    }
    var (move, item, location) := created.value;
    r := Created(201, move, item, location);
  }

  /** `orderBy: { movedAt: 'desc' }`. */
  predicate NewerMoveFirst(a: Move, b: Move)
  {
    a.movedAt >= b.movedAt
  }

  lemma NewerMoveFirstIsTotalPreorder()
    ensures TotalPreorder(NewerMoveFirst)
  {
  }

  function MovesOf(rows: seq<MoveRow>): (r: seq<Move>)
    ensures |r| == |rows| && forall i :: 0 <= i < |rows| ==> r[i] == rows[i].move
  {
    seq(|rows|, i requires 0 <= i < |rows| => rows[i].move)
  }

  /** `include: { item: true, location: true }`: each move with the rows its foreign keys name. */
  function WithReferences(moves: seq<Move>, items: seq<Item>, locations: seq<Location>): (rows: seq<MoveRow>)
    requires forall m :: m in moves ==> m.itemId in ItemIds(items) && m.locationId in LocationIds(locations)
    ensures MovesOf(rows) == moves
    ensures forall i :: 0 <= i < |rows| ==>
              Some(rows[i].item) == FindItem(items, rows[i].move.itemId)
              && Some(rows[i].location) == FindLocation(locations, rows[i].move.locationId)
  {
    seq(|moves|, i requires 0 <= i < |moves| =>
      MoveRow(moves[i], FindItem(items, moves[i].itemId).value, FindLocation(locations, moves[i].locationId).value))
  }

  /** `orderBy: { movedAt: 'desc' }, take: 100` over the ledger. */
  function Latest(moves: seq<Move>): (page: seq<Move>)
    ensures |page| == Min(PageSize, |moves|)
    ensures Sorted(page, NewerMoveFirst)
    ensures multiset(page) <= multiset(moves)
    ensures forall x, y :: x in page && y in multiset(moves) - multiset(page) ==> x.movedAt >= y.movedAt
  {
    NewerMoveFirstIsTotalPreorder();
    var sorted := Sort(moves, NewerMoveFirst);
    TakeOfSorted(sorted, moves, Min(PageSize, |sorted|), NewerMoveFirst);
    sorted[..Min(PageSize, |sorted|)]
  }

  method Get(db: Database, fails: bool) returns (r: GetResponse)
    requires db.Valid()
    ensures fails ==> r == ListFailed(500, "Failed to fetch moves")
    ensures !fails ==> r == Listed(200, WithReferences(Latest(db.moves), db.items, db.locations))
  {
    if fails {
      return ListFailed(500, "Failed to fetch moves");
    }
    var page := Latest(db.moves);
    forall m | m in page ensures m.itemId in ItemIds(db.items) && m.locationId in LocationIds(db.locations) {
      assert m in multiset(page);
      assert m in db.moves;
    }
    r := Listed(200, WithReferences(page, db.items, db.locations));
  }
}
