# Inventory ledger and balances — a Dafny model

This project models the logic of a small inventory web application: a
catalog of items and storage locations, a ledger of stock moves
(`IN`, `OUT`, `ADJUST`), and the quantity on hand of every item at every
location, derived from the ledger on each read. It covers:

- the balances endpoint, with its fallback that folds the ledger in nested
  loops over items and locations (`balances_route.dfy`);
- the balances page: min-quantity lookup, stock status, status filter,
  low-stock alert, row class and summary (`balances_page.dfy`);
- the request schemas for items and moves as validity predicates plus
  normalising functions, and the location schema (`validations.dfy`);
- the items, locations and moves endpoints over an in-memory database with
  autoincrement ids, unique columns and foreign keys (`items_route.dfy`,
  `locations_route.dfy`, `moves_route.dfy`, `store.dfy`);
- the moves page: payload normalisation, location options, type colours
  (`moves_page.dfy`).

Shared modules: `Wrappers` (Option, Result), `Json` (request bodies),
`Entities` (table rows), `Ordering` (the database's `orderBy` as an
insertion sort over a total preorder, and code-point string order).

Quantities and money are exact `real` numbers, so the fold has no rounding.
String lengths in the schemas are JavaScript lengths, counted in UTF-16 code
units (`Json.Utf16Length`): an astral character such as an emoji counts twice.
The database, the clock (`now`), URL parsing (`urlParses`) and every
database failure (`injected`, `fails`, `fallbackFails`, the view's outcome)
are parameters.

## Model

| member | source | states |
|---|---|---|
| `BalancesRoute.Fallback` | src/app/api/balances/route.ts:37-68 | the nested loops build exactly the cross product of items (outer) and locations (inner), in the order the store returns them and unsorted, each row carrying its pair's balance |
| `BalancesRoute.Accumulate` | src/app/api/balances/route.ts:45-57 | the `forEach` accumulator over a pair's moves, starting at 0, ends at that pair's balance |
| `BalancesRoute.CrossProduct` | src/app/api/balances/route.ts:39-40 | the fallback emits exactly |items| * |locations| rows, zero-move pairs included |
| `BalancesRoute.CrossProductAt` | src/app/api/balances/route.ts:59-66 | row i * |locations| + j copies id, sku and name from item i, id and name from location j, and holds their balance |
| `BalancesRoute.Balance` | src/app/api/balances/route.ts:41-57 | the quantity on hand of one (item, location): the fold over the ledger of +qty for each IN and ADJUST move at that pair and -qty for each OUT move there, 0 for no moves; its meaning is pinned by the lemmas below |
| `BalancesRoute.BalanceByType` | src/app/api/balances/route.ts:46-57 | a balance is the IN total plus the ADJUST total minus the OUT total over that pair's moves |
| `BalancesRoute.NoMovesNoStock` | src/app/api/balances/route.ts:41-45 | a pair with no moves of its own has balance 0 |
| `BalancesRoute.OtherPairsIgnored` | src/app/api/balances/route.ts:41-43 | moves of other items or other locations never contribute, wherever they sit in the ledger |
| `BalancesRoute.AppendMove` | src/app/api/balances/route.ts:48-56 | appending a move adds its qty to its own row for IN and ADJUST, subtracts it for OUT, and leaves every other row unchanged |
| `BalancesRoute.BalancePermutation` | src/app/api/balances/route.ts:46-57 | any permutation of the ledger gives the same balance for every pair |
| `BalancesRoute.BalanceConcat` | src/app/api/balances/route.ts:46-57 | the balance of two concatenated ledgers is the sum of their balances |
| `BalancesRoute.MovesWhere` | src/app/api/balances/route.ts:25-43 | an item's included moves, and their filter by location, keep exactly the moves the test accepts, never more than the ledger holds |
| `BalancesRoute.FilterKeepsBalance` | src/app/api/balances/route.ts:25-43 | folding only the moves a filter keeps, when it keeps every move of the pair (the item's moves, then the location's), gives the same balance as folding the whole ledger |
| `BalancesRoute.Get` | src/app/api/balances/route.ts:4-79 | view rows are returned unchanged when the view query succeeds; otherwise the fallback rows; if the fallback also fails, 500 and no rows |
| `BalancesPage.ItemMinQtyMap` | src/app/balances/page.tsx:57-61 | the reduce builds a map whose keys are exactly the item ids and whose value for an id is the minQty of the last item with that id; with no items loaded, the map is empty |
| `BalancesPage.MinQtyFor` | src/app/balances/page.tsx:68 | an item missing from the map has minimum 0 |
| `BalancesPage.StatusOf` | src/app/balances/page.tsx:155-161 | exactly one status: Out iff qty <= 0, Low iff 0 < qty < minQty, In iff qty > 0 and qty >= minQty |
| `BalancesPage.LowRows` | src/app/balances/page.tsx:64-70 | a row is in the low-stock list iff it is a balance row with qty < minQty |
| `BalancesPage.LowRowsConcat` | src/app/balances/page.tsx:64-70 | the low-stock list keeps the original order |
| `BalancesPage.LowStockItems` | src/app/balances/page.tsx:64-70 | no rows before balances load; otherwise exactly the balance rows with qty < minQty |
| `BalancesPage.AlertShown` | src/app/balances/page.tsx:194 | the alert is shown when the low-stock list is non-empty (characterised by `AlertShownIff`) |
| `BalancesPage.AlertShownIff` | src/app/balances/page.tsx:194 | the alert shows iff some balance row is below its minimum |
| `BalancesPage.RowClassName` | src/app/balances/page.tsx:217-223 | the row class is "low-stock" iff qty < minQty, otherwise empty |
| `BalancesPage.Summary` | src/app/balances/page.tsx:224-232 | the summary counts every row of the page, and its low count is the number of rows below their minimum, so 0 iff no row is below its minimum |
| `BalancesPage.LowRowsCount` | src/app/balances/page.tsx:226-231 | the low-stock filter keeps one row per position whose row is below its minimum |
| `BalancesPage.OutOfStockCountedLow` | src/app/balances/page.tsx:64-70 | a row with qty <= 0 and a positive minimum is tagged Out of Stock, yet the alert, the row class and the summary all count it as low |
| `BalancesPage.StatusFilter` | src/app/balances/page.tsx:168-184 | the Status column's filter as written: 'out' keeps qty <= 0, 'low' keeps 0 < qty < minQty, 'in' keeps qty >= minQty, any other value keeps every row (characterised by the lemmas below) |
| `BalancesPage.OutFilterMatchesTag` | src/app/balances/page.tsx:175-176 | the 'out' filter selects exactly the rows tagged Out of Stock |
| `BalancesPage.LowFilterMatchesTag` | src/app/balances/page.tsx:177-178 | the 'low' filter selects exactly the rows tagged Low Stock |
| `BalancesPage.InFilterAcceptsInRows` | src/app/balances/page.tsx:179-180 | the 'in' filter accepts every row tagged In Stock |
| `BalancesPage.InFilterAcceptsOutRow` | src/app/balances/page.tsx:179-180 | the 'in' filter also accepts a row with qty 0 and minimum 0, whose tag is Out of Stock |
| `BalancesPage.UnknownFilterAcceptsAll` | src/app/balances/page.tsx:181-182 | any other filter value accepts every row |
| `BalancesPage.StatusFilterByTagAgrees` | src/app/balances/page.tsx:174-183 | the corrected filter agrees with the written one on 'out' and 'low', and on 'in' it differs exactly by also requiring qty > 0 |
| `BalancesPage.StatusFilterByTagPartitions` | src/app/balances/page.tsx:163-167 | under the corrected filter every row passes exactly one of the three status values |
| `Validations.ParseItem` | src/lib/validations.ts:3-49 | an accepted item takes every field from the body: sku and name as given; category and barcode as given, absent when null or missing; uom as given or "pcs" when missing; minQty as given or 0 when missing; imageUrl as given when a non-empty string, absent for null, "" or missing. The result meets every rule: a 1-50 unit SKU of letters, digits, '-' and '_', a 1-255 unit name, category and barcode of at most 100, uom of 1-20, minQty in [0, 999999999], an imageUrl of at most 500 that is root-relative or URL-parsable. So a present field that breaks its rule rejects the body, and a non-object body is rejected. Conversely every body meeting each field's rule, read field by field as the schema does, is accepted |
| `Validations.ItemDefaultsApplied` | src/lib/validations.ts:11-48 | a body with a valid sku and name, no uom or minQty, and category, barcode and imageUrl absent, null or (imageUrl) "" is accepted as uom "pcs", minQty 0 and no category, barcode or imageUrl |
| `Validations.ItemFieldRulesEnforced` | src/lib/validations.ts:11-48 | a negative or too-large minQty, a category or barcode over 100, an empty or over-20 uom, a non-empty imageUrl that is neither root-relative nor URL-parsable, or a category of the wrong type rejects the item |
| `Validations.ItemRoundTrip` | src/lib/validations.ts:3-49 | every well-formed item, including a root-relative or URL-parsable imageUrl of at most 500 characters, is accepted and normalised to itself |
| `Validations.ItemNormalizationIdempotent` | src/lib/validations.ts:15-47 | normalising already-normalised item data changes nothing |
| `Validations.ParseMove` | src/lib/validations.ts:51-91 | an accepted move takes every field from the body: ids, qty and the type's name as given; unitCost, sellPrice, ref, note and userName as given, absent when null or missing. The result meets every rule: integer ids >= 1, qty in [0.01, 999999999] (so qty > 0), costs in [0, 999999999], ref <= 100, note <= 500 and userName <= 100 units. Conversely every body meeting each field's rule, nulls included, is accepted. A body missing itemId, locationId, type or qty is rejected |
| `Validations.MoveFieldRulesEnforced` | src/lib/validations.ts:58-90 | a type other than IN, OUT or ADJUST, a qty outside [0.01, 999999999], a negative or too-large unitCost or sellPrice, or a ref, note or userName over its limit rejects the move |
| `Validations.MoveRoundTrip` | src/lib/validations.ts:51-91 | every well-formed move is accepted and normalised to itself |
| `Validations.MoveNormalizationIdempotent` | src/lib/validations.ts:64-90 | normalising already-normalised move data changes nothing |
| `Validations.ParseLocation` | src/app/api/locations/route.ts:5-9 | a location body is accepted iff it is an object whose name is a string of 1-100 UTF-16 code units; a rejection carries exactly one issue |
| `Validations.LocationNameAccepted` | src/app/api/locations/route.ts:5-9 | every name of 1-100 UTF-16 code units is accepted as given |
| `Validations.AstralNameRejected` | src/app/api/locations/route.ts:5-9 | a name of 60 emoji (120 code units) is rejected with 'Location name must be 100 characters or less' |
| `Json.Utf16Length` | src/lib/validations.ts:4-10 | the JavaScript length that zod's `.min`/`.max` measure: at least one and at most two code units per character, 0 only for the empty string |
| `Json.Utf16LengthOfBmp` | src/lib/validations.ts:4-10 | without astral characters the JavaScript length is the character count |
| `Json.Utf16LengthOfAstral` | src/lib/validations.ts:4-10 | with only astral characters the JavaScript length is twice the character count |
| `Store.Database.CreateLocation` | src/app/api/locations/route.ts:33-35 | a new location gets the next id and the given name; a taken name fails with P2002 and leaves the tables unchanged; names stay unique |
| `Store.Database.CreateItem` | src/app/api/items/route.ts:27-32 | a new item gets the next id and createdAt; a taken SKU or barcode fails with P2002; failure leaves the tables unchanged |
| `Store.Database.CreateMove` | src/app/api/moves/route.ts:10-20 | a new move gets the next id and movedAt and is returned with its item and location; an unknown item or location fails and stores nothing |
| `Entities.FindItem` | src/app/api/moves/route.ts:16-18 | the included item exists iff its id is in the table, and carries that id |
| `Entities.FindLocation` | src/app/api/moves/route.ts:16-19 | the included location exists iff its id is in the table, and carries that id |
| `ItemsRoute.Post` | src/app/api/items/route.ts:22-42 | an item is stored only when the schema accepts the body, with defaults applied and the validated minQty; success is 201; any failure, validation included, is 500 'Failed to create item' with nothing stored |
| `ItemsRoute.Get` | src/app/api/items/route.ts:5-20 | all items, newest createdAt first; failure is 500 'Failed to fetch items' |
| `LocationsRoute.Classify` | src/app/api/locations/route.ts:38-97 | a ZodError gives 400 with one {field, message} per issue and their "field: message" entries joined by ", "; otherwise a code gives 409 for P2002 and 500 for any other; otherwise a SyntaxError gives 400; anything else 500 |
| `LocationsRoute.SingleIssueMessage` | src/app/api/locations/route.ts:43-52 | a single issue's message is its field, a colon and its message |
| `LocationsRoute.Post` | src/app/api/locations/route.ts:28-99 | invalid JSON is 400; an invalid name is 400 with the zod details; a duplicate name is 409 'A location with this name already exists'; success is 201 with the next id and the given name; every failure leaves the tables unchanged |
| `LocationsRoute.NameAscendingIsTotalPreorder` | src/app/api/locations/route.ts:13-17 | ordering by name is total and transitive, so the listing order is well defined up to ties |
| `LocationsRoute.Get` | src/app/api/locations/route.ts:11-26 | all locations sorted by name ascending; failure is 500 |
| `MovesRoute.Post` | src/app/api/moves/route.ts:5-30 | a move is appended only when the schema accepts the body and its item and location exist, with the validated qty and unitCost; success is 201 with the move, its item and its location; any failure, validation included, is 500 'Failed to create move' with nothing stored; a ledger of positive quantities stays positive |
| `MovesRoute.Latest` | src/app/api/moves/route.ts:34-43 | at most 100 moves, ordered by movedAt descending, drawn from the ledger, and no move left out is newer than one returned |
| `MovesRoute.WithReferences` | src/app/api/moves/route.ts:35-38 | each listed move comes with the item and the location its ids name |
| `MovesRoute.Get` | src/app/api/moves/route.ts:32-53 | the listing is the latest 100 moves with their references; failure is 500 'Failed to fetch moves' |
| `Ordering.Sort` | src/app/api/moves/route.ts:39-41 | the ordered listing is a permutation of the table, sorted by the key |
| `Ordering.TakeOfSorted` | src/app/api/moves/route.ts:42 | taking the first n rows of a sorted listing keeps them sorted and leaves out no row that sorts before a returned one |
| `LocationsRoute.NameOrderedListingUnique` | src/app/api/locations/route.ts:13-17 | with location names unique, any two name-sorted permutations of the table are equal, so the listing's order is fully determined |
| `Ordering.LexTotal` | src/app/api/locations/route.ts:14-16 | any two names are ordered one way or the other |
| `Ordering.LexTransitive` | src/app/api/locations/route.ts:14-16 | name order is transitive |
| `Ordering.LexAntisymmetric` | src/app/api/locations/route.ts:14-16 | two names that sort both ways are equal |
| `MovesPage.ProcessMove` | src/app/moves/page.tsx:204-217 | userName becomes 'Current User'; a typed location becomes locationName without locationId; any other present location becomes locationId without locationName; an absent location sends neither key, since `JSON.stringify` drops `locationId` set to undefined; every other field, the original location included, is copied unchanged |
| `MovesPage.HandleSubmit` | src/app/moves/page.tsx:201-237 | the posted body is an object: in single mode the processed move, signed 'Current User'; in multiple mode exactly the key `moves`, an array with one entry per form move |
| `MovesPage.ExactlyOneLocationKey` | src/app/moves/page.tsx:226-233 | with the form's required location given, exactly one of locationId and locationName is sent |
| `MovesPage.MultipleKeepsOrder` | src/app/moves/page.tsx:204-218 | multiple mode posts `{ moves }` with one processed move per form move, same count and order |
| `MovesPage.TypedLocationRejected` | src/app/moves/page.tsx:227-229 | a single move with a typed location carries no locationId, so POST /api/moves rejects it with 500 and stores nothing |
| `MovesPage.BatchRejected` | src/app/moves/page.tsx:173-186 | the `{ moves: [...] }` body lacks the schema's top-level fields, so POST /api/moves rejects it with 500 and stores nothing |
| `MovesPage.SelectedLocationAccepted` | src/app/moves/page.tsx:230-233 | when a location value that is not a string passes the schema, it becomes the move's locationId and the move is signed by 'Current User' |
| `MovesPage.LocationIdSentAccepted` | src/app/moves/page.tsx:221-233 | a single move whose location is a positive id and whose own fields meet the schema is accepted at that id, signed by 'Current User' |
| `MovesPage.SelectedOptionRejected` | src/app/moves/page.tsx:74-81 | picking any option puts the location's name, a string, into the form, so the posted move is rejected |
| `MovesPage.SelectedOptionAcceptedWhenResolved` | src/app/moves/page.tsx:222-233 | when the client sends the picked location's id instead of its name, a form whose other fields meet the schema is accepted, at that location, signed by 'Current User' |
| `MovesPage.GetLocationOptions` | src/app/moves/page.tsx:74-81 | no options before locations load; otherwise one option per location, same order, value and label the name, id the id |
| `MovesPage.GetTypeColor` | src/app/moves/page.tsx:265-276 | the colour is green iff the type is IN, red iff OUT, orange iff ADJUST, and 'default' iff it is none of the three |
| `MovesPage.TypeColors` | src/app/moves/page.tsx:265-276 | IN, OUT and ADJUST get green, red and orange, three different colours, none of them 'default' |
| `MovesPage.UnknownTypeColor` | src/app/moves/page.tsx:273-274 | any other type gets 'default' |

## Findings

| source | as written | input that shows it | evidently intended | confidence | as-written member | corrected member |
|---|---|---|---|---|---|---|
| src/app/balances/page.tsx:179-180 | the 'In Stock' filter accepts `qty >= minQty` | a row with qty 0 and no minimum (0): accepted by 'In Stock', tagged Out of Stock | the 'In Stock' filter selects the rows tagged In Stock | medium, not executed | `BalancesPage.InFilterAcceptsOutRow` | `BalancesPage.StatusFilterByTagPartitions` |
| src/app/moves/page.tsx:222-233 | the location selector's options carry the location's name as their value (lines 74-81), so a picked location is a string and is sent as `locationName`, which the move schema drops | a single move with location "Main Warehouse" picked from the options: rejected, 500, nothing stored | a picked location is sent as its `locationId` | high, not executed | `MovesPage.SelectedOptionRejected` | `MovesPage.SelectedOptionAcceptedWhenResolved` |

`BalancesPage.StatusFilter` models the filter as written;
`BalancesPage.StatusFilterByTag` is the corrected filter.
`MovesPage.ProcessMove` models the client as written;
`MovesPage.ProcessMoveResolved` is the corrected client, which resolves a
picked name to the option's id (`MovesPage.OptionIdFor`).

## Left out

- BalancesRoute.Fallback: `findMany()` on items and locations has no `orderBy`, so the database promises no order; the model takes the fallback's item and location order to be the store's sequence order.
- The database view `v_item_location_balances` is not part of this model. Its rows are an input to `BalancesRoute.Get`, so whether the view agrees with the fallback is not stated.
- Prisma, `NextRequest`/`NextResponse` and JSON parsing are replaced by the in-memory `Store.Database`, by typed responses carrying a status code, and by `Json.Body`. Database failures (a known error code, an error without a code) are inputs.
- `new URL(...)` in the imageUrl rule is the parameter `urlParses`.
- Floating-point parsing and formatting (`parseFloat`, `toString`, `toFixed`) are not modelled: quantities are exact. Storing `qty`, `unitCost` and `minQty` as strings keeps the validated value, so the model stores the number itself.
- The database's string collation is modelled as code-point order (`Ordering.LexLe`). Ties in `orderBy` may come back in any order, and the contracts only claim sortedness and permutation.
- Zod messages that the schemas do not spell out ("Required", "Expected string, received …", "Expected object, received …") use zod's default wording. Items and moves surface no issues, because any failure there is 500.
- Zod's handling of `undefined` values inside an object is not modelled: JSON cannot carry them, and a missing key stands for `undefined`.
- Autoincrement ids are not consumed by failed inserts in the model; the real sequence may skip values.
- Updating and deleting items, locations and moves, get-or-create of locations by name, and batch append are not implemented by the modelled handlers (the `[id]` routes are not part of this model).
- The upload route, middleware, configuration, seed, layout components, loading overlay, the items and config pages, React Query caching, and the moves page's edit and delete handlers are I/O or presentation. They are not modelled.
- Concurrency between requests is not modelled: each handler is one sequential step.
