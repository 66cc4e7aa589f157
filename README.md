# ReFlow decision engine in Dafny

ReFlow is a reverse-logistics server. When a customer returns a product, it picks the nearest warehouse, scores the return and recommends a tier. It then walks the return through approval, warehouse assignment, pipeline stages, condition grading and the seller's routing decision. Returned goods that are relabelled become local-pool stock. New orders are filled from that stock at the nearest warehouse when possible, and the savings are reported.

This project models that decision engine and proves properties of it:

- the nearest-warehouse search and the cost and time helpers;
- the return score and its recommendation tier;
- the six return handlers;
- order fulfilment, with its in-place inventory decrement;
- the two inventory processing updates and the inventory queries;
- the mongoose schemas' closed enums and creation defaults.

Modules, in dependency order:

- `JsBase`:
  - JavaScript numbers (`Finite`, `Infinite`, `NaN`) with truthiness and `Number.isFinite`;
  - `Math.round` as `(x + 0.5).Floor`, and rounding to 1 or 2 decimals;
  - the error results the handlers answer with;
  - the requesting principal.
- `Text`:
  - the `trim`/`toLowerCase` pair used by the category gate;
  - decimal rendering and `padStart`;
  - the `RET-00001` / `ORD-00001` numbers.
- `Timeline`: the `{status, timestamp, note}` entries and the append-only relation `Extends`.
- `WarehouseSchema`, `ProductSchema`, `InventorySchema`, `OrderSchema`, `ReturnSchema`:
  - the records;
  - the enums, each with its name, the validator that parses a stored string, and a round-trip lemma;
  - the creation defaults.
- `Geo`: `findNearestWarehouse` as an imperative loop proved against a recursive specification, plus `calculateDeliveryTime` and `calculateCostSaving`.
- `ReturnRules`:
  - the category gate and the score;
  - each return handler's effect on the loaded Return, as a function from the record and the request to a `Result`.
- `InventoryRules`: the inventory filters as predicates, `find`/`findOne`, check-local, and the two processing updates.
- `Fulfilment`: the fulfilment decision of POST /api/orders, the inventory decrement, the farthest-warehouse fold and the order record.
- `Backend`: class `Store`.
  - It holds the warehouse list, the products, the inventory lines (in the order `findOne` visits them) and the order and return maps.
  - Its methods are the route handlers, written as the code writes them: step by step, reassigning fields and collections.
  - Each method's `ensures` ties its result and the new state to the functions of the modules above.

Inputs the server takes from its environment are parameters:

- the haversine distance, an abstract `Distance` function; the laws callers may rely on are stated as `Geo.HaversineLaws`;
- timestamps (`now`);
- the number of the user's returns in the last 30 days;
- the ids of newly created records.

A return should put at most one line into the local pool, whichever path takes it to `in-local-pool`. The code does not keep to that, and the model follows the code:

- Every status update to `in-local-pool` creates a line (`Backend.LocalPoolTwice` shows two calls adding two lines).
- The `keep-local` seller decision sets the status to `in-local-pool` and creates no stock.

A handler that assigns an absent request field (`undefined`) to an enum path saves the record with that path unset. Mongoose runs no enum check on an undefined value, and it fills a missing path with the schema default when the record is next loaded. Each store collection holds its records as they are next loaded, so such a path holds its schema default.

## Model

| member | source | states |
|---|---|---|
| Geo.IsFull | server/utils/geo.js:26 | a warehouse is full when its capacity is truthy and its load has reached it |
| Geo.Candidate | server/utils/geo.js:20-28 | the search considers exactly the active warehouses that are not full |
| Geo.NearestUpTo | server/utils/geo.js:24-35 | the index the loop holds after a prefix is a candidate (active, not full) inside that prefix |
| Geo.NearestUpToIsFirstMinimum | server/utils/geo.js:24-35 | no index exactly when no candidate; otherwise a candidate at least as near as every candidate, and strictly nearer than every earlier one (strict `<` tie-break) |
| Geo.NearestOf | server/utils/geo.js:19-37 | a selected warehouse is in the list, and only a finite point selects one |
| Geo.NearestOfSpec | server/utils/geo.js:19-37 | null result with distance 0 exactly when the point is not finite or no candidate survives; otherwise an active non-full nearest warehouse, earliest on ties, its distance rounded to 2 decimals |
| Geo.NearestAtPoint | server/utils/geo.js:4-13 | under the haversine laws, a candidate standing at the point makes the search return distance 0 |
| Geo.FindNearest | server/utils/geo.js:19-38 | the loop with its `continue` filter returns exactly `NearestOf`; the warehouse returned is a candidate |
| Geo.DeliveryTime | server/utils/geo.js:40-45 | hours at 40 km/h, within 0.05 of distance/40 |
| Geo.DeliveryTimeMonotone | server/utils/geo.js:40-45 | a longer distance never gives a shorter time |
| Geo.CostSaving | server/utils/geo.js:47-50 | 0 when the distances are equal, non-negative when the original is farther, within 0.5 of 2.5 per km |
| Geo.CostSavingMonotone | server/utils/geo.js:47-50 | the saving grows with the original distance |
| JsBase.CoordOf | server/routes/returns.js:37-41 | a coordinate exists exactly when both parts are finite, and it reads back as the same point |
| JsBase.JsRound | server/utils/geo.js:49 | `Math.round` lies in (x - 0.5, x + 0.5] |
| JsBase.RoundTo1 | server/utils/geo.js:44 | rounding to one decimal moves a value by at most 0.05 |
| JsBase.RoundTo2 | server/utils/geo.js:37 | rounding to two decimals moves a value by at most 0.005 |
| JsBase.JsRoundMonotone | server/utils/geo.js:49 | `Math.round` is monotone |
| JsBase.RoundTo1Monotone | server/utils/geo.js:44 | rounding to one decimal is monotone |
| Text.TrimStart | server/routes/returns.js:12-14 | the result is a suffix of the input, everything dropped is whitespace, and it does not start with whitespace |
| Text.TrimEnd | server/routes/returns.js:12-14 | the result is a prefix of the input, everything dropped is whitespace, and it does not end with whitespace |
| Text.Trim | server/routes/returns.js:13 | `trim` is `trimEnd` after `trimStart`: what remains has no whitespace at either end |
| Text.Lower | server/routes/returns.js:12-14 | same length, each character lower-cased |
| Text.TrimIgnoresPadding | server/routes/returns.js:12-14 | whitespace added on either side does not change the trimmed string |
| Text.LowerIdempotent | server/routes/returns.js:12-14 | lower-casing twice is lower-casing once |
| Text.NatToDecimal | server/routes/returns.js:87 | `String(n)` is non-empty, all digits, no leading zero from 10 up |
| Text.DecimalRoundTrip | server/routes/returns.js:87 | reading back `String(n)` gives n |
| Text.PadStart | server/routes/returns.js:87 | `padStart`: length max(width, len), the input kept as suffix, fill characters before it |
| Text.PadStartValue | server/routes/returns.js:87 | zero-padding a numeral does not change its value |
| Text.SequenceNumberDigits | server/routes/orders.js:63 | `PREFIX-` followed by digits spelling count + 1; exactly five digits up to 99999 records |
| Text.SequenceNumberInjective | server/routes/orders.js:63 | distinct counts give distinct numbers |
| WarehouseSchema.LoadPercentage | server/models/Warehouse.js:19-21 | finite exactly when capacity is non-zero; within [0, 100] for a load between 0 and capacity; 0 at no load, 100 at full load |
| WarehouseSchema.NewWarehouse | server/models/Warehouse.js:3-17 | a new warehouse takes the schema defaults: capacity 1000, load 0, active, empty manager and phone, demand score 50 |
| WarehouseSchema.NewWarehouseIsEmpty | server/models/Warehouse.js:11-16 | a new warehouse is active, below capacity and at 0% load |
| ProductSchema.ParseCategory | server/models/Product.js:7-11 | an accepted category string is the name of the category it parses to |
| ProductSchema.ParseCategoryName | server/models/Product.js:7-11 | every category name validates back to its category |
| ProductSchema.NewProduct | server/models/Product.js:3-16 | a new product takes the schema defaults: empty description and image, local stocking allowed |
| ProductSchema.NewProductDefaults | server/models/Product.js:3-16 | a new product may be stocked locally and has no description or image |
| InventorySchema.ParseInspection | server/models/Inventory.js:8 | an accepted inspection status string is the name of the value it parses to |
| InventorySchema.ParseInspectionName | server/models/Inventory.js:8 | every inspection status name validates back to its value |
| InventorySchema.ParseRepackaging | server/models/Inventory.js:9 | an accepted repackaging status string is the name of the value it parses to |
| InventorySchema.ParseRepackagingName | server/models/Inventory.js:9 | every repackaging status name validates back to its value |
| InventorySchema.NewInventoryItem | server/models/Inventory.js:3-14 | a new line takes the schema defaults: quantity 1, condition new, inspection pending, repackaging not needed, no label, not local, source original, no return reference |
| InventorySchema.NewInventoryItemNotLocal | server/models/Inventory.js:6-12 | a line with only the defaults has quantity 1, source original, and is not local stock |
| OrderSchema.NewOrder | server/models/Order.js:3-31 | a new order takes the schema defaults: quantity 1, placed, not local, no warehouse, location or dates, empty timeline, zero savings |
| OrderSchema.NewOrderDefaults | server/models/Order.js:7-30 | a new order is placed, for one unit, not local, with zero savings and an empty timeline |
| ReturnSchema.ParseStatus | server/models/Return.js:10-14 | an accepted status string is the name of the stage it parses to |
| ReturnSchema.ParseStatusName | server/models/Return.js:10-14 | each of the 11 stage names validates back to its stage |
| ReturnSchema.ParseSellerDecision | server/models/Return.js:40-44 | an accepted decision string is the name of the decision it parses to |
| ReturnSchema.ParseSellerDecisionName | server/models/Return.js:40-44 | each decision name validates back to its decision |
| ReturnSchema.ParseInspectionResult | server/models/Return.js:47-51 | an accepted inspection result, including legacy passed and failed, is the name of its value |
| ReturnSchema.ParseInspectionResultName | server/models/Return.js:47-51 | each inspection result name validates back to its value |
| ReturnSchema.NewReturn | server/models/Return.js:3-68 | a new return takes the schema defaults: initiated, every decision pending, score 0, no coordinates, no warehouse, empty timeline, zero distances and CO2 |
| ReturnSchema.NewReturnDefaults | server/models/Return.js:10-67 | a new return is initiated, pending on approval, recommendation, seller decision, inspection and resale, with no warehouse, no history and zero score, distance and CO2 |
| ReturnRules.NormalizeCategory | server/routes/returns.js:12-14 | the category lower-cased after trimming (a missing category is the empty string) |
| ReturnRules.NormalizedIsNormal | server/routes/returns.js:12-14 | the normalized category is no longer than the input and already normal: normalizing, trimming or lower-casing it again changes nothing |
| ReturnRules.TrimTrimmed | server/routes/returns.js:13 | trimming twice is trimming once |
| ReturnRules.IsAllowedCategory | server/routes/returns.js:16-18 | a category is returnable exactly when its normalized form is one of the four allowed names |
| ReturnRules.ProductCategoryReturnable | server/routes/returns.js:10-18 | every category the product schema allows passes the return gate |
| ReturnRules.ElectronicsNotReturnable | server/routes/returns.js:10-18 | a category outside the allow-list, such as "Electronics", is refused |
| ReturnRules.CategoryGateIgnoresPadding | server/routes/returns.js:12-18 | surrounding whitespace never changes the gate's answer |
| ReturnRules.CategoryGateIgnoresCase | server/routes/returns.js:12-18 | lower-casing the category first never changes the gate's answer |
| ReturnRules.ReturnScore | server/routes/returns.js:53-76 | the score is always within [0, 100] |
| ReturnRules.ScoreCapIsInert | server/routes/returns.js:53-76 | the uncapped sum already lies within [0, 100], so the cap never changes it |
| ReturnRules.ScoreMonotoneInDistance | server/routes/returns.js:56-62 | a nearer warehouse never lowers the score |
| ReturnRules.ScoreMonotoneInFrequency | server/routes/returns.js:69-74 | more past returns never raise the score |
| ReturnRules.CreationScoreRange | server/routes/returns.js:33-76 | a return that passed the gate scores in [20, 100] |
| ReturnRules.ScoreReturn | server/routes/returns.js:53-76 | the handler's `+=` accumulation and clamp equal `ReturnScore` |
| ReturnRules.Recommend | server/routes/returns.js:78-81 | approve exactly above 70, manual review exactly from 40 to 70, reject exactly below 40; never pending |
| ReturnRules.RecommendMonotone | server/routes/returns.js:78-81 | a higher score never gives a lower tier |
| ReturnRules.RecommendBoundaries | server/routes/returns.js:78-81 | 71 approves, 70 and 40 go to manual review, 39 rejects |
| ReturnRules.ScoreScenarios | server/routes/returns.js:53-81 | a clothes return 10 km away scores 100 (approve) with no past returns and 60 (manual review) with four |
| ReturnRules.Co2Saved | server/routes/returns.js:84 | within 0.05 kg of 0.2 kg per km |
| ReturnRules.DistanceBetween | server/routes/returns.js:43-48 | 0 unless both original delivery coordinates are finite; otherwise within 0.005 km of the haversine distance to the pickup point |
| ReturnRules.MayReturn | server/routes/returns.js:26-28 | a principal with role `user` may return only their own orders; sellers and admins may return any order |
| ReturnRules.InitiatedReturn | server/routes/returns.js:21-112 | the failures in handler order (unauthorized, product missing, category refused, pickup not finite, then a validation failure for an empty reason); success exactly when all checks pass; the created record's number, category, score, tier, warehouse, distance to it, distance between the delivery and pickup points (`DistanceBetween`), CO2, locations and single `initiated` entry with its score note |
| ReturnRules.OrderWithReturn | server/routes/returns.js:114-117 | the order becomes return-initiated and gains exactly one appended `return-initiated` entry; nothing else changes |
| ReturnRules.ApprovalCategory | server/routes/returns.js:161 | the return's own category when it is non-empty, else the populated product's category name, else the empty string |
| ReturnRules.MayApprove | server/routes/returns.js:157-159 | a seller may decide only on a return whose populated product they sell (none when the product is missing); admins may decide on any |
| ReturnRules.RelooksUp | server/routes/returns.js:183 | the warehouse is looked up again exactly on an approval of a return with no warehouse whose pickup coordinates are both truthy |
| ReturnRules.AfterApproval | server/routes/returns.js:152-195 | failure exactly for a seller not owning the product or an invalid decision on an eligible category; an ineligible category rejects whatever the decision; a success never leaves the approval pending; approved goes with pickup-scheduled, rejected with rejected; one entry appended; the warehouse is looked up again only on approval with none assigned and truthy pickup coordinates |
| ReturnRules.RejectionKeepsWarehouse | server/routes/returns.js:176-188 | a rejection succeeds and never (re)assigns a warehouse |
| ReturnRules.IneligibleAlwaysRejected | server/routes/returns.js:162-169 | on an ineligible category any decision string, valid or not, rejects |
| ReturnRules.AfterAssignment | server/routes/returns.js:198-215 | fails exactly when a pickup coordinate is falsy; otherwise assigns the nearest warehouse and its distance and appends one `warehouse-assigned` entry, nothing else changing |
| ReturnRules.AfterStatusUpdate | server/routes/returns.js:218-250 | fails validation exactly for a given status or a given inspection result outside its enum; otherwise sets a given status (an absent one reads back as the default `initiated`), appends one entry carrying the given status or none, takes a given inspection result, resets it to pending on `inspecting` when none is given, and changes nothing else |
| ReturnRules.AbsentStatusIsSaved | server/routes/returns.js:223-224 | a body with no status is saved: the status reads back as `initiated`, one entry with no status is appended, nothing else changes |
| ReturnRules.LocalPoolLine | server/routes/returns.js:230-243 | the created line is fully processed local stock of quantity 1, like-new, from a return, referring to the return, at its assigned warehouse |
| ReturnRules.ResaleFor | server/routes/returns.js:263-269 | the resale route is pending exactly for the grades the inspection handler never stores (pending and the legacy passed and failed) |
| ReturnRules.ParseGrade | server/routes/returns.js:259-261 | exactly the four grades are accepted, each stored under its own name |
| ReturnRules.ResaleRoundTrip | server/routes/returns.js:265-269 | each accepted grade has its own resale route, and the route gives the grade back |
| ReturnRules.AfterInspection | server/routes/returns.js:253-284 | fails exactly on a condition outside the four grades; otherwise stores the grade and its resale route, keeps the status, and appends one `inspection-completed` entry |
| ReturnRules.RoutedStatus | server/routes/returns.js:297-299 | return-original, transfer-high-demand and keep-local move the return to sent-back, transferred and in-local-pool; pending keeps its stage |
| ReturnRules.AfterSellerDecision | server/routes/returns.js:287-306 | fails unless approved, and on a given decision outside the enum; otherwise stores a given decision (an absent one reads back as the default `pending`), routes return-original, transfer-high-demand and keep-local to sent-back, transferred and in-local-pool, keeps the status on pending or an absent decision, and appends one `seller-decision: ...` entry naming the decision or `undefined` |
| ReturnRules.AbsentDecisionIsSaved | server/routes/returns.js:294-295 | on an approved return, a body with no decision is saved: the decision reads back as `pending`, the stage stays, and the entry reads `seller-decision: undefined` |
| ReturnRules.NewReturnNeedsApproval | server/routes/returns.js:86-112 | a freshly created return cannot be routed before it is approved |
| InventoryRules.ByIdIsUnique | server/routes/inventory.js:44 | with distinct ids, `findById` finds the only line with that id |
| InventoryRules.Find | server/routes/inventory.js:14 | the lines listed are exactly the stored lines the filter selects |
| InventoryRules.FindOne | server/routes/orders.js:23-27 | the first selected line, or none exactly when no line is selected |
| InventoryRules.FindOneIsFirstFound | server/routes/orders.js:50 | `findOne` gives the first line `find` lists, and none exactly when `find` lists none |
| InventoryRules.EmptyListingIsEverything | server/routes/inventory.js:9-14 | a listing with no query parameter returns the whole inventory |
| InventoryRules.CheckLocal | server/routes/inventory.js:27-35 | available exactly when some processed local-pool line of the product has quantity above 0; the items are exactly those lines |
| InventoryRules.LocalStockIsAvailable | server/routes/orders.js:23-27 | stock that can fill an order locally is also listed by check-local and matches the fallback query |
| InventoryRules.WithInspection | server/routes/inventory.js:46-50 | fails validation exactly on a given value outside the enum; sets a given status (an absent one reads back as the default `pending`); moves repackaging from not-needed to pending only on `passed`; nothing else changes |
| InventoryRules.AbsentInspectionIsSaved | server/routes/inventory.js:46 | a body with no `inspectionStatus` is saved, and the status reads back as `pending` |
| InventoryRules.WithRepackaging | server/routes/inventory.js:62-64 | fails validation exactly on a given value outside the enum; sets a given status (an absent one reads back as the default `not-needed`); the label is generated exactly if it already was or the value is `done` |
| InventoryRules.AbsentRepackagingIsSaved | server/routes/inventory.js:62 | a body with no `repackagingStatus` is saved, and the status reads back as `not-needed` |
| InventoryRules.ProcessingMakesLocalStock | server/routes/inventory.js:42-69 | a local-pool line that passes inspection and then finishes repackaging becomes fully processed local stock |
| InventoryRules.UnfinishedRepackagingNotLocal | server/routes/inventory.js:62-63 | a line left in an unfinished repackaging stage is not local stock, and a label once generated stays |
| Fulfilment.OrderQuantity | server/routes/orders.js:26 | `quantity \|\| 1` is never 0 |
| Fulfilment.DeliveryPoint | server/routes/orders.js:13-14 | each delivery coordinate is the requested one when it is truthy, else the user's |
| Fulfilment.ZeroCoordinateFallsBack | server/routes/orders.js:13-14 | a delivery coordinate of exactly 0 is replaced by the user's |
| Fulfilment.Consume | server/routes/orders.js:33-35 | the drawn line loses q units and is deleted at 0 or below; every other line stays in place |
| Fulfilment.Stock | server/routes/orders.js:52-55 | the units held by the lines of one product, the measure that drawing on stock lowers |
| Fulfilment.ConsumeTakesExactly | server/routes/orders.js:52-55 | drawing on a line that holds at least q lowers its product's stock by exactly q and leaves the other products' stock unchanged |
| Fulfilment.FarthestUpTo | server/routes/orders.js:38-42 | the fold's distance is that of the warehouse it holds, or 0 when it holds none |
| Fulfilment.FarthestIsMaximum | server/routes/orders.js:38-42 | the fold finds the largest distance over all warehouses, active or not (or 0), at the earliest warehouse reaching it |
| Fulfilment.FarthestLocation | server/routes/orders.js:44 | the location of the warehouse the fold holds, or (0, 0) when it holds none |
| Fulfilment.LocalCandidate | server/routes/orders.js:23-28 | a line found is a stored line of the product at the nearest warehouse, fully processed local stock holding at least q units |
| Fulfilment.FulfilmentPlan | server/routes/orders.js:16-58 | local exactly when the nearest warehouse holds processed local stock; otherwise the first stocked line at any warehouse; otherwise the bare nearest warehouse; savings 0 unless local; when local, `costSaved` is `CostSaving` of the farthest and nearest distances and `timeSaved` the rounded difference of their delivery times; fails only when the stocked line's warehouse is missing |
| Fulfilment.CostSavedNonNegative | server/routes/orders.js:38-43 | a successful order never reports a negative cost saving |
| Fulfilment.TimeSavedNonNegative | server/routes/orders.js:44 | under the haversine laws, a successful order never reports a negative time saving |
| Fulfilment.EstimatedDelivery | server/routes/orders.js:75 | 4 hours after now when local, 24 otherwise |
| Fulfilment.PlacedOrder | server/routes/orders.js:61-76 | the created order's number, quantity, source, local flag, savings, location, address fallback, delivery estimate and single `placed` entry |
| Backend.ProductById | server/routes/returns.js:30 | `Product.findById` gives the product stored under the id, or none |
| Backend.ConsumeKeepsIds | server/routes/orders.js:33-35 | drawing on a line keeps the inventory ids distinct |
| Backend.StoringKeepsOrders | server/models/Order.js:23-27 | storing an order that extends the timeline it replaces loses no order and rewrites no entry |
| Backend.StoringKeepsReturns | server/models/Return.js:58-62 | storing a return that extends the timeline it replaces loses no return and rewrites no entry |
| Backend.Store.constructor | server/models/Order.js:33 | the collections of the five registered models (Order.js:33, Return.js:70, Inventory.js:16, Warehouse.js:25, Product.js:18): no orders or returns yet, over the given warehouses, products and stock |
| Backend.Store.ConsumeLine | server/routes/orders.js:33-35 | the in-place decrement and delete-or-save leave the inventory equal to `Consume` |
| Backend.Store.PutOrder | server/routes/orders.js:62 | the order is stored under its id; the order history is kept |
| Backend.Store.PutReturn | server/routes/returns.js:190 | the return is stored under its id; the return history is kept |
| Backend.Store.DrawLocal | server/routes/orders.js:16-46 | step 1 succeeds exactly when `FulfilmentPlan` chooses local stock, gives that plan, and draws on that line |
| Backend.Store.Fulfil | server/routes/orders.js:16-58 | the reassigned `fulfilledFrom`, `fromLocal`, `costSaved` and `timeSaved` equal `FulfilmentPlan`, and the inventory is drawn on exactly as the plan says |
| Backend.Store.PlaceOrder | server/routes/orders.js:10-83 | the result is `PlacedOrder` of the plan, stored under its id, stock drawn as planned; on failure nothing changes |
| Backend.Store.AssessReturn | server/routes/returns.js:24-112 | the handler's checks and computations give exactly `InitiatedReturn`, changing nothing |
| Backend.Store.CreateReturn | server/routes/returns.js:21-123 | order not found when missing; otherwise `InitiatedReturn`, and on success the return is stored and the order becomes `OrderWithReturn`; otherwise nothing changes |
| Backend.Store.Approve | server/routes/returns.js:152-195 | return not found when missing; otherwise `AfterApproval`, saved on success; inventory and orders untouched |
| Backend.Store.AssignWarehouse | server/routes/returns.js:198-215 | return not found when missing; otherwise `AfterAssignment`, saved on success |
| Backend.Store.UpdateStatus | server/routes/returns.js:218-250 | return not found when missing; an absent status is no `in-local-pool` update and is saved; any `in-local-pool` update on a return with a warehouse appends one `LocalPoolLine`, even when the return then fails validation; with no warehouse it fails with no change; the return becomes `AfterStatusUpdate` |
| Backend.Store.Inspect | server/routes/returns.js:253-284 | return not found when missing; otherwise `AfterInspection`, saved on success |
| Backend.Store.SellerDecision | server/routes/returns.js:287-306 | return not found when missing; otherwise `AfterSellerDecision`, saved on success; the inventory is never touched |
| Backend.Store.UpdateInspection | server/routes/inventory.js:42-55 | not found when no line has the id; otherwise that line becomes `WithInspection`, and on failure nothing changes |
| Backend.Store.UpdateRepackaging | server/routes/inventory.js:58-69 | not found when no line has the id; otherwise that line becomes `WithRepackaging`, and on failure nothing changes |
| Backend.LocalPoolTwice | server/routes/returns.js:230-243 | two `in-local-pool` updates of one return add two lines referring to it, keeping the earlier stock |

## Left out

- Haversine arithmetic and the floating-point error of its trigonometry: the distance is an abstract function. Arithmetic is on exact reals.
- JavaScript's rendering of numbers in timeline notes: notes that interpolate numbers keep the values as a structured `Note`.
- `trim` also strips the Unicode space separators U+1680, U+2000 to U+200A, U+202F, U+205F and U+3000, and `toLowerCase` also maps non-ASCII letters. The model trims only the characters `Text.IsSpace` lists and lowers only A to Z.
- `Number(null) == 0`: the pickup coordinates are taken after conversion, as a `Num`.
- HTTP, Express routing, the `protect`/`authorize` middleware, `populate` and `sort('-createdAt')`. Lookups are map and sequence accesses, and a missing record is an error result.
- The GET listings of returns and orders, GET /api/orders/:id and PATCH /api/orders/:id/status: read-only queries or plain field setters outside the decision engine.
- Concurrency: the `countDocuments` numbering and the unlocked read-modify-write of stock quantities race under parallel requests. Here one request runs at a time, and the count is the size of the stored collection.
- A failure of `Order.create` after stock was drawn, and database errors in general (the 500 responses).
- Request bodies with fields of the wrong JSON type or `null`. The quantity is an integer (0 when absent). The `status`, `decision`, `inspectionStatus` and `repackagingStatus` fields are optional strings. Other strings are empty when absent, which the handlers treat like an absent value.
- The JSON response of a handler that unsets a path shows the path absent. The model gives the record as it is next loaded, with the default.
- Backend.Store.PlaceOrder: the `ORD-` and `RET-` numbers use the size of the stored collection, which matches `countDocuments()` only while nothing is deleted.
- server.js, demo.js, analytics.js, warehouses.js, products.js, DemoOrder.js, test-demo.js and all client files are not part of this model.
