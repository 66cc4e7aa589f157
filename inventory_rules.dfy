/** The inventory queries and the two processing updates
    (server/routes/inventory.js), and the two `findOne` queries of order
    fulfilment (server/routes/orders.js), all as filters over the stock lines
    in store order. */
module InventoryRules {
  import opened JsBase
  import opened InventorySchema

  /** The filter objects handed to `Inventory.find` / `findOne`. */
  datatype InventoryFilter =
      // GET /: each part constrains only when its query parameter is present
      // (a missing string parameter is the empty string)
    | Listing(byWarehouse: Option<Id>, byLocalPool: string, byInspection: string)
      // GET /check-local/:productId
    | AvailableLocal(product: Id)
      // order fulfilment, step 1: processed local-pool stock at one warehouse
    | LocalStock(product: Id, warehouse: Id, quantity: int)
      // order fulfilment, step 2: any stock of the product
    | AnyStock(product: Id, quantity: int)
      // `findById`
    | ById(id: Id)

  /** The line matches the filter. A query string parameter is present when
      it is not empty; `isLocalPool` selects local-pool lines exactly
      when it is the string "true". */
  predicate Selects(f: InventoryFilter, line: InventoryItem)
  {
    match f
    case Listing(w, lp, st) =>
      && (w.Some? ==> line.warehouse == w.value)
      && (lp != "" ==> line.isLocalPool == (lp == "true"))
      && (st != "" ==> InspectionName(line.inspectionStatus) == st)
    case AvailableLocal(p) =>
      line.product == p && FullyProcessedLocal(line) && line.quantity > 0
    case LocalStock(p, w, q) =>
      line.product == p && line.warehouse == w && FullyProcessedLocal(line) && line.quantity >= q
    case AnyStock(p, q) =>
      line.product == p && line.quantity >= q
    case ById(id) =>
      line.id == id
  }

  /** Each stock line has its own id. */
  predicate DistinctIds(lines: seq<InventoryItem>)
  {
    forall i, j :: 0 <= i < j < |lines| ==> lines[i].id != lines[j].id
  }

  /** With distinct ids, `findById` finds the only line with that id. */
  lemma ByIdIsUnique(lines: seq<InventoryItem>, id: Id)
    requires DistinctIds(lines)
    ensures FindOne(lines, ById(id)).Some? ==>
      forall j :: 0 <= j < |lines| && lines[j].id == id ==> j == FindOne(lines, ById(id)).value
  {
  }

  /** `Inventory.find(filter)`: the matching lines, in store order. */
  function Find(lines: seq<InventoryItem>, f: InventoryFilter): (r: seq<InventoryItem>)
    ensures |r| <= |lines|
    ensures forall x :: x in r <==> x in lines && Selects(f, x)
  {
    if lines == [] then []
    else
      var rest := Find(lines[1..], f);
      assert forall x :: x in lines <==> x == lines[0] || x in lines[1..];
      if Selects(f, lines[0]) then [lines[0]] + rest else rest
  }

  /** `Inventory.findOne(filter)`: the index of the first matching line. */
  function FindOne(lines: seq<InventoryItem>, f: InventoryFilter): (k: Option<nat>)
    ensures k.Some? ==> k.value < |lines| && Selects(f, lines[k.value])
    ensures k.Some? ==> forall j :: 0 <= j < k.value ==> !Selects(f, lines[j])
    ensures k.None? <==> forall j :: 0 <= j < |lines| ==> !Selects(f, lines[j])
  {
    if lines == [] then None
    else if Selects(f, lines[0]) then Some(0)
    else
      match FindOne(lines[1..], f)
      case None => None
      case Some(k) => Some(k + 1)
  }

  /** `findOne` yields the first of the lines `find` lists, and nothing exactly
      when `find` lists nothing. */
  lemma {:induction false} FindOneIsFirstFound(lines: seq<InventoryItem>, f: InventoryFilter)
    ensures FindOne(lines, f).None? <==> Find(lines, f) == []
    ensures FindOne(lines, f).Some? ==> Find(lines, f)[0] == lines[FindOne(lines, f).value]
  {
    if lines != [] && !Selects(f, lines[0]) {
      FindOneIsFirstFound(lines[1..], f);
    }
  }

  /** A listing with no query parameter returns the whole inventory. */
  lemma {:induction false} EmptyListingIsEverything(lines: seq<InventoryItem>)
    ensures Find(lines, Listing(None, "", "")) == lines
  {
    if lines != [] {
      EmptyListingIsEverything(lines[1..]);
    }
  }

  /** The check-local answer: whether processed local stock of `product`
      exists, and exactly those lines. */
  datatype LocalAvailability = LocalAvailability(available: bool, items: seq<InventoryItem>)

  function CheckLocal(lines: seq<InventoryItem>, product: Id): (r: LocalAvailability)
    ensures r.available <==> exists j :: 0 <= j < |lines| && Selects(AvailableLocal(product), lines[j])
    ensures forall x :: x in r.items <==> x in lines && x.product == product && FullyProcessedLocal(x) && x.quantity > 0
  {
    var items := Find(lines, AvailableLocal(product));
    assert items != [] ==> items[0] in lines;
    LocalAvailability(|items| > 0, items)
  }

  /** Processed local stock that can fill an order of quantity `q >= 1` is also
      listed by check-local. */
  lemma LocalStockIsAvailable(line: InventoryItem, product: Id, warehouse: Id, q: int)
    requires q >= 1 && Selects(LocalStock(product, warehouse, q), line)
    ensures Selects(AvailableLocal(product), line)
    ensures Selects(AnyStock(product, q), line)
  {
  }

  // ----- processing updates -----

  /** PATCH /:id/inspection on the loaded line, as saved and next loaded.
      `value` is the request's `inspectionStatus`, `None` when absent. A value
      outside the schema's enum fails validation. An absent value unsets the
      path, which the next load fills with the schema default `pending`.
      Passing inspection moves a line that needs no repackaging to pending
      repackaging. */
  function WithInspection(line: InventoryItem, value: Option<string>): (r: Result<InventoryItem, Error>)
    ensures r.Failure? <==> value.Some? && ParseInspection(value.value).None?
    ensures r.Failure? ==> r.error == ValidationFailed
    ensures r.Success? && value.Some? ==> InspectionName(r.value.inspectionStatus) == value.value
    ensures r.Success? && value.None? ==> r.value.inspectionStatus == InspectionStatus.Pending
    ensures r.Success? && value == Some("passed") && line.repackagingStatus == NotNeeded
            ==> r.value.repackagingStatus == RepackagingStatus.Pending
    ensures r.Success? && !(value == Some("passed") && line.repackagingStatus == NotNeeded)
            ==> r.value.repackagingStatus == line.repackagingStatus
    ensures r.Success? ==> r.value == line.(inspectionStatus := r.value.inspectionStatus,
                                            repackagingStatus := r.value.repackagingStatus)
  {
    var parsed := if value.Some? then ParseInspection(value.value) else Some(InspectionStatus.Pending);
    match parsed
    case None => Failure(ValidationFailed)
    case Some(s) =>
      var repackaging := if value == Some("passed") && line.repackagingStatus == NotNeeded
                         then RepackagingStatus.Pending else line.repackagingStatus;
      Success(line.(inspectionStatus := s, repackagingStatus := repackaging))
  }

  /** PATCH /:id/repackaging on the loaded line, as saved and next loaded.
      `value` is the request's `repackagingStatus`, `None` when absent; an
      absent value unsets the path, which the next load fills with the schema
      default `not-needed`. Finishing repackaging generates the label;
      nothing clears it. */
  function WithRepackaging(line: InventoryItem, value: Option<string>): (r: Result<InventoryItem, Error>)
    ensures r.Failure? <==> value.Some? && ParseRepackaging(value.value).None?
    ensures r.Failure? ==> r.error == ValidationFailed
    ensures r.Success? && value.Some? ==> RepackagingName(r.value.repackagingStatus) == value.value
    ensures r.Success? && value.None? ==> r.value.repackagingStatus == NotNeeded
    ensures r.Success? ==> (r.value.labelGenerated <==> line.labelGenerated || value == Some("done"))
    ensures r.Success? ==> r.value == line.(repackagingStatus := r.value.repackagingStatus,
                                            labelGenerated := r.value.labelGenerated)
  {
    var parsed := if value.Some? then ParseRepackaging(value.value) else Some(NotNeeded);
    match parsed
    case None => Failure(ValidationFailed)
    case Some(s) => Success(line.(repackagingStatus := s, labelGenerated := line.labelGenerated || value == Some("done")))
  }

  /** An inspection update whose body has no `inspectionStatus` is saved, and
      the status reads back as the schema default. */
  lemma AbsentInspectionIsSaved(line: InventoryItem)
    ensures WithInspection(line, None) == Success(line.(inspectionStatus := InspectionStatus.Pending))
  {
  }

  /** A repackaging update whose body has no `repackagingStatus` is saved, and
      the status reads back as the schema default. */
  lemma AbsentRepackagingIsSaved(line: InventoryItem)
    ensures WithRepackaging(line, None) == Success(line.(repackagingStatus := NotNeeded))
  {
  }

  /** A local-pool line that passes inspection and then finishes repackaging
      is fully processed local stock, whatever state it started in. */
  lemma ProcessingMakesLocalStock(line: InventoryItem)
    requires line.isLocalPool
    ensures var inspected := WithInspection(line, Some("passed"));
      && inspected.Success?
      && WithRepackaging(inspected.value, Some("done")).Success?
      && FullyProcessedLocal(WithRepackaging(inspected.value, Some("done")).value)
  {
    assert ParseInspection("passed") == Some(Passed);
    assert ParseRepackaging("done") == Some(Done);
  }

  /** A line that passes inspection but is then sent back to an unfinished
      repackaging stage is not local stock, though its label stays. */
  lemma UnfinishedRepackagingNotLocal(line: InventoryItem, value: Option<string>)
    requires WithRepackaging(line, value).Success? && value != Some("done")
    ensures !FullyProcessedLocal(WithRepackaging(line, value).value)
    ensures line.labelGenerated ==> WithRepackaging(line, value).value.labelGenerated
  {
  }
}
