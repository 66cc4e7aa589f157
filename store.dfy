/** The server's collections and the route handlers that change them
    (server/routes/orders.js, server/routes/returns.js,
    server/routes/inventory.js). Each handler loads its record, changes it
    step by step and stores it, and its contract ties the outcome to the
    decision functions of modules Fulfilment, ReturnRules and InventoryRules.
    A handler that fails leaves every collection as it was, except where the
    server writes before it fails (see UpdateStatus). */
module Backend {
  import opened JsBase
  import opened Text
  import opened Timeline
  import opened WarehouseSchema
  import opened ProductSchema
  import opened InventorySchema
  import opened OrderSchema
  import opened ReturnSchema
  import opened Geo
  import opened InventoryRules
  import opened Fulfilment
  import opened ReturnRules

  /** `Product.findById`. */
  function ProductById(products: map<Id, Product>, id: Id): Option<Product>
  {
    if id in products then Some(products[id]) else None
  }

  /** Drawing on a line keeps the stock lines' ids distinct. */
  lemma ConsumeKeepsIds(lines: seq<InventoryItem>, k: nat, q: int)
    requires k < |lines| && DistinctIds(lines)
    ensures DistinctIds(Consume(lines, k, q))
  {
    var r := Consume(lines, k, q);
    if lines[k].quantity - q <= 0 {
      assert forall i :: 0 <= i < |r| ==> r[i] == (if i < k then lines[i] else lines[i + 1]);
    } else {
      assert forall i :: 0 <= i < |r| ==> r[i].id == lines[i].id;
    }
  }

  /** No order disappears and no order's timeline loses or rewrites an entry. */
  predicate OrdersKept(before: map<Id, Order>, after: map<Id, Order>)
  {
    before.Keys <= after.Keys && forall k :: k in before ==> Extends(before[k].timeline, after[k].timeline)
  }

  /** No return disappears and no return's timeline loses or rewrites an entry. */
  predicate ReturnsKept(before: map<Id, Return>, after: map<Id, Return>)
  {
    before.Keys <= after.Keys && forall k :: k in before ==> Extends(before[k].timeline, after[k].timeline)
  }

  /** Storing a record that extends the timeline it replaces keeps the history. */
  lemma StoringKeepsOrders(m: map<Id, Order>, k: Id, v: Order)
    requires k in m ==> Extends(m[k].timeline, v.timeline)
    ensures OrdersKept(m, m[k := v])
  {
  }

  lemma StoringKeepsReturns(m: map<Id, Return>, k: Id, v: Return)
    requires k in m ==> Extends(m[k].timeline, v.timeline)
    ensures ReturnsKept(m, m[k := v])
  {
  }

  class Store {
    /** The haversine distance. */
    const dist: Distance
    var warehouses: seq<Warehouse>
    var products: map<Id, Product>
    /** Stock lines in the order `findOne` visits them. */
    var inventory: seq<InventoryItem>
    var orders: map<Id, Order>
    var returnRecords: map<Id, Return>

    /** Stock line ids are distinct and every order is stored under its id. */
    predicate Valid()
      reads this
    {
      DistinctIds(inventory) && forall k :: k in orders ==> orders[k].id == k
    }

    constructor (dist: Distance, warehouses: seq<Warehouse>, products: map<Id, Product>, inventory: seq<InventoryItem>)
      requires DistinctIds(inventory)
      ensures Valid()
      ensures this.dist == dist && this.warehouses == warehouses && this.products == products
      ensures this.inventory == inventory && orders == map[] && returnRecords == map[]
    {
      this.dist := dist;
      this.warehouses := warehouses;
      this.products := products;
      this.inventory := inventory;
      orders := map[];
      returnRecords := map[];
    }

    // ----- orders -----

    /** `line.quantity -= q`, then delete the line at 0 or below, else save it. */
    method ConsumeLine(k: nat, q: int)
      requires Valid() && k < |inventory|
      modifies this
      ensures Valid()
      ensures inventory == Consume(old(inventory), k, q)
      ensures warehouses == old(warehouses) && products == old(products)
      ensures orders == old(orders) && returnRecords == old(returnRecords)
    {
      ConsumeKeepsIds(inventory, k, q);
      var line := inventory[k];
      line := line.(quantity := line.quantity - q);
      if line.quantity <= 0 {
        inventory := inventory[..k] + inventory[k + 1..];
      } else {
        inventory := inventory[k := line];
      }
    }

    /** `order.save()` / `Order.create`: stores `order` under its id, extending
        the timeline of the order it replaces. */
    method PutOrder(order: Order)
      requires Valid()
      requires order.id in orders ==> Extends(orders[order.id].timeline, order.timeline)
      modifies this
      ensures Valid() && OrdersKept(old(orders), orders)
      ensures orders == old(orders)[order.id := order]
      ensures warehouses == old(warehouses) && products == old(products)
      ensures inventory == old(inventory) && returnRecords == old(returnRecords)
    {
      StoringKeepsOrders(orders, order.id, order);
      orders := orders[order.id := order];
    }

    /** `ret.save()`: stores `ret` under `id`, extending the timeline of the
        return it replaces. */
    method PutReturn(id: Id, ret: Return)
      requires Valid()
      requires id in returnRecords ==> Extends(returnRecords[id].timeline, ret.timeline)
      modifies this
      ensures Valid() && ReturnsKept(old(returnRecords), returnRecords)
      ensures returnRecords == old(returnRecords)[id := ret]
      ensures warehouses == old(warehouses) && products == old(products)
      ensures inventory == old(inventory) && orders == old(orders)
    {
      StoringKeepsReturns(returnRecords, id, ret);
      returnRecords := returnRecords[id := ret];
    }

    /** Step 1 of POST /api/orders: processed local-pool stock of `product`
        at the warehouse `near` nearest to `point`, with the savings against
        the farthest warehouse. */
    method DrawLocal(product: Id, q: int, point: NumPoint, near: Nearest) returns (r: Option<Plan>)
      requires Valid() && near == NearestOf(dist, point, warehouses)
      modifies this
      ensures Valid()
      ensures r.Some? <==> LocalCandidate(old(inventory), warehouses, near, product, q).Some?
      ensures r.Some? ==> && Success(r.value) == FulfilmentPlan(dist, warehouses, old(inventory), product, q, point)
                          && r.value.consumed.Some?
                          && inventory == Consume(old(inventory), r.value.consumed.value, q)
      ensures r.None? ==> inventory == old(inventory)
      ensures warehouses == old(warehouses) && products == old(products)
      ensures orders == old(orders) && returnRecords == old(returnRecords)
    {
      if near.index.None? {
        return None;
      }
      var nearestWH := warehouses[near.index.value];
      var local := FindOne(inventory, LocalStock(product, nearestWH.id, q));
      assert local == LocalCandidate(inventory, warehouses, near, product, q);
      if local.None? {
        return None;
      }
      ghost var plan := FulfilmentPlan(dist, warehouses, inventory, product, q, point);
      ConsumeLine(local.value, q);
      var c := CoordOf(point).value;
      var farthest := FarthestUpTo(dist, c, warehouses, |warehouses|);
      var costSaved := CostSaving(farthest.d, near.distance);
      var timeSaved := RoundTo1(DeliveryTime(dist, FarthestLocation(warehouses, farthest), c)
                                - DeliveryTime(dist, nearestWH.location, c));
      r := Some(Plan(Some(nearestWH.id), true, local, costSaved, timeSaved));
      assert plan == Success(r.value);
    }

    /** Steps 1 and 2 of POST /api/orders: where `q` units of `product` for
        `point` ship from, drawing on the stock line they take. */
    method Fulfil(product: Id, q: int, point: NumPoint) returns (r: Result<Plan, Error>)
      requires Valid()
      modifies this
      ensures Valid()
      ensures r == FulfilmentPlan(dist, warehouses, old(inventory), product, q, point)
      ensures r.Failure? ==> inventory == old(inventory)
      ensures r.Success? ==> inventory == if r.value.consumed.Some? then Consume(old(inventory), r.value.consumed.value, q)
                                         else old(inventory)
      ensures warehouses == old(warehouses) && products == old(products)
      ensures orders == old(orders) && returnRecords == old(returnRecords)
    {
      var near := FindNearest(dist, point, warehouses);
      var local := DrawLocal(product, q, point, near);
      if local.Some? {
        return Success(local.value);
      }

      // step 2: any stock of the product, else the bare nearest warehouse
      var any := FindOne(inventory, AnyStock(product, q));
      if any.Some? {
        var line := inventory[any.value];
        if !HasWarehouse(warehouses, line.warehouse) {
          return Failure(MissingWarehouse);
        }
        ConsumeLine(any.value, q);
        r := Success(Plan(Some(line.warehouse), false, any, 0, 0.0));
      } else {
        r := Success(Plan(NearestId(warehouses, near), false, None, 0, 0.0));
      }
    }

    /** POST /api/orders by `user`: `quantity`, `deliveryLocation`,
        `deliveryAddress` and `totalPrice` are the request's (0, NaN or the
        empty string when absent); `orderId` is the new order's id. */
    method PlaceOrder(orderId: Id, user: Principal, product: Id, quantity: int, deliveryLocation: NumPoint,
                      deliveryAddress: string, totalPrice: real, now: int) returns (r: Result<Order, Error>)
      requires Valid() && orderId !in orders
      modifies this
      ensures Valid() && OrdersKept(old(orders), orders)
      ensures var q := OrderQuantity(quantity);
        var point := DeliveryPoint(deliveryLocation, user.location);
        var plan := FulfilmentPlan(dist, old(warehouses), old(inventory), product, q, point);
        && (plan.Failure? ==> r == Failure(plan.error) && inventory == old(inventory) && orders == old(orders))
        && (plan.Success? ==>
              && r == Success(PlacedOrder(orderId, |old(orders)|, user, product, q, totalPrice, point,
                                          deliveryAddress, plan.value, now))
              && inventory == (if plan.value.consumed.Some? then Consume(old(inventory), plan.value.consumed.value, q)
                               else old(inventory))
              && orders == old(orders)[orderId := r.value])
      ensures warehouses == old(warehouses) && products == old(products) && returnRecords == old(returnRecords)
    {
      var q := if quantity != 0 then quantity else 1;
      var lat := if Truthy(deliveryLocation.lat) then deliveryLocation.lat else user.location.lat;
      var lng := if Truthy(deliveryLocation.lng) then deliveryLocation.lng else user.location.lng;
      var point := NumPoint(lat, lng);
      var plan := Fulfil(product, q, point);
      if plan.Failure? {
        return Failure(plan.error);
      }
      var order := PlacedOrder(orderId, |orders|, user, product, q, totalPrice, point, deliveryAddress, plan.value, now);
      PutOrder(order);
      r := Success(order);
    }

    // ----- returns -----

    /** The checks and the computed fields of POST /api/returns for `order`,
        up to `Return.create`; it writes nothing. */
    method AssessReturn(user: Principal, order: Order, reason: string, pickup: NumPoint, pickupAddress: string,
                        pastReturns: nat, now: int) returns (r: Result<Return, Error>)
      ensures r == InitiatedReturn(dist, warehouses, user, order, ProductById(products, order.product), reason,
                                   pickup, pickupAddress, pastReturns, |returnRecords|, now)
    {
      if user.role == User && order.user != user.id {
        return Failure(Unauthorized);
      }
      if order.product !in products {
        return Failure(ProductNotFound);
      }
      var product := products[order.product];
      var category := CategoryName(product.category);
      if !IsAllowedCategory(category) {
        return Failure(CategoryNotReturnable);
      }
      if !IsFinite(pickup.lat) || !IsFinite(pickup.lng) {
        return Failure(InvalidPickupLocation);
      }
      var pickupCoord := Coord(pickup.lat.value, pickup.lng.value);
      var distanceBetween := DistanceBetween(dist, order.deliveryLocation, pickupCoord);
      var near := FindNearest(dist, pickup, warehouses);
      var score := ScoreReturn(near.index.Some?, near.distance, IsAllowedCategory(category), pastReturns);
      var recommendation := Recommend(score);
      var number := SequenceNumber("RET", |returnRecords|);
      var co2 := Co2Saved(near.distance);
      if reason == "" {
        return Failure(ValidationFailed);
      }
      var ret := NewReturn(number, order.id, user.id, order.product, category, reason).(
        approvalStatus := ApprovalStatus.Pending,
        returnScore := score,
        recommendationStatus := recommendation,
        co2Saved := co2,
        originalDeliveryLocation := Location(order.deliveryLocation, order.deliveryAddress),
        returnPickupLocation := Location(pickup, pickupAddress),
        assignedWarehouse := NearestId(warehouses, near),
        originalWarehouse := order.fulfilledFrom,
        distanceSaved := near.distance,
        distanceBetweenLocations := distanceBetween,
        timeline := [Logged("initiated", now, ScoreNote(score, NearestName(warehouses, near), near.distance))]);
      r := Success(ret);
    }

    /** POST /api/returns by `user` for order `orderId`; `newId` is the new
        return's id and `pastReturns` the user's returns of the last 30 days. */
    method CreateReturn(newId: Id, user: Principal, orderId: Id, reason: string, pickup: NumPoint,
                        pickupAddress: string, pastReturns: nat, now: int) returns (r: Result<Return, Error>)
      requires Valid() && newId !in returnRecords
      modifies this
      ensures Valid() && OrdersKept(old(orders), orders) && ReturnsKept(old(returnRecords), returnRecords)
      ensures orderId !in old(orders) ==>
        r == Failure(OrderNotFound) && orders == old(orders) && returnRecords == old(returnRecords)
      ensures orderId in old(orders) ==>
        var order := old(orders)[orderId];
        && r == InitiatedReturn(dist, warehouses, user, order, ProductById(products, order.product), reason,
                                pickup, pickupAddress, pastReturns, |old(returnRecords)|, now)
        && (r.Success? ==> && returnRecords == old(returnRecords)[newId := r.value]
                           && orders == old(orders)[orderId := OrderWithReturn(order, r.value.returnNumber, now)])
        && (r.Failure? ==> returnRecords == old(returnRecords) && orders == old(orders))
      ensures warehouses == old(warehouses) && products == old(products) && inventory == old(inventory)
    {
      if orderId !in orders {
        return Failure(OrderNotFound);
      }
      var order := orders[orderId];
      r := AssessReturn(user, order, reason, pickup, pickupAddress, pastReturns, now);
      if r.Failure? {
        return;
      }
      PutReturn(newId, r.value);
      order := order.(status := ReturnInitiated);
      order := order.(timeline := order.timeline + [Logged("return-initiated", now, Text("Return " + r.value.returnNumber + " initiated"))]);
      PutOrder(order);
    }

    /** PATCH /api/returns/:id/approval by `principal`. */
    method Approve(id: Id, principal: Principal, decision: string, note: string, now: int) returns (r: Result<Return, Error>)
      requires Valid()
      modifies this
      ensures Valid() && ReturnsKept(old(returnRecords), returnRecords)
      ensures id !in old(returnRecords) ==> r == Failure(ReturnNotFound) && returnRecords == old(returnRecords)
      ensures id in old(returnRecords) ==>
        && r == AfterApproval(dist, warehouses, old(returnRecords)[id], ProductById(products, old(returnRecords)[id].product),
                              principal, decision, note, now)
        && returnRecords == if r.Success? then old(returnRecords)[id := r.value] else old(returnRecords)
      ensures warehouses == old(warehouses) && products == old(products)
      ensures inventory == old(inventory) && orders == old(orders)
    {
      if id !in returnRecords {
        return Failure(ReturnNotFound);
      }
      var ret := returnRecords[id];
      var product := ProductById(products, ret.product);
      if principal.role == Seller && (product.None? || product.value.seller != principal.id) {
        return Failure(Unauthorized);
      }
      if !IsAllowedCategory(ApprovalCategory(ret, product)) {
        ret := ret.(approvalStatus := ApprovalStatus.Rejected);
        ret := ret.(status := ReturnStatus.Rejected);
        ret := ret.(timeline := ret.timeline + [Logged("rejected", now, Text("Rejected: Electronics not allowed"))]);
        PutReturn(id, ret);
        return Success(ret);
      }
      if decision != "approved" && decision != "rejected" {
        return Failure(InvalidDecision);
      }
      ret := ret.(approvalStatus := if decision == "approved" then Approved else ApprovalStatus.Rejected);
      if decision == "approved" {
        ret := ret.(status := PickupScheduled);
      } else {
        ret := ret.(status := ReturnStatus.Rejected);
      }
      ret := ret.(timeline := ret.timeline + [Logged("approval-" + decision, now, Text(note))]);
      var pickup := ret.returnPickupLocation.point;
      if decision == "approved" && ret.assignedWarehouse.None? && Truthy(pickup.lat) && Truthy(pickup.lng) {
        var near := FindNearest(dist, pickup, warehouses);
        ret := ret.(assignedWarehouse := NearestId(warehouses, near));
        ret := ret.(distanceSaved := near.distance);
      }
      PutReturn(id, ret);
      r := Success(ret);
    }

    /** PATCH /api/returns/:id/assign-warehouse. */
    method AssignWarehouse(id: Id, now: int) returns (r: Result<Return, Error>)
      requires Valid()
      modifies this
      ensures Valid() && ReturnsKept(old(returnRecords), returnRecords)
      ensures id !in old(returnRecords) ==> r == Failure(ReturnNotFound) && returnRecords == old(returnRecords)
      ensures id in old(returnRecords) ==>
        && r == AfterAssignment(dist, warehouses, old(returnRecords)[id], now)
        && returnRecords == if r.Success? then old(returnRecords)[id := r.value] else old(returnRecords)
      ensures warehouses == old(warehouses) && products == old(products)
      ensures inventory == old(inventory) && orders == old(orders)
    {
      if id !in returnRecords {
        return Failure(ReturnNotFound);
      }
      var ret := returnRecords[id];
      var pickup := ret.returnPickupLocation.point;
      if !Truthy(pickup.lat) || !Truthy(pickup.lng) {
        return Failure(PickupLocationMissing);
      }
      var near := FindNearest(dist, pickup, warehouses);
      ret := ret.(assignedWarehouse := NearestId(warehouses, near));
      ret := ret.(distanceSaved := near.distance);
      ret := ret.(timeline := ret.timeline + [Logged("warehouse-assigned", now, AssignedNote(NearestName(warehouses, near), near.distance))]);
      PutReturn(id, ret);
      r := Success(ret);
    }

    /** PATCH /api/returns/:id/status: `status` is the request's `status`
        (`None` when absent), `inspection` its `inspectionResult` (empty when
        absent), `lineId` the id a new stock
        line gets. A move to `in-local-pool` creates the line before the
        return is saved: a return with no assigned warehouse fails the line's
        validation and nothing is written, and a return that then fails its
        own validation leaves the line behind. */
    method UpdateStatus(id: Id, status: Option<string>, inspection: string, note: string, lineId: Id, now: int)
      returns (r: Result<Return, Error>)
      requires Valid()
      requires forall j :: 0 <= j < |inventory| ==> inventory[j].id != lineId
      modifies this
      ensures Valid() && ReturnsKept(old(returnRecords), returnRecords)
      ensures id !in old(returnRecords) ==> r == Failure(ReturnNotFound) && returnRecords == old(returnRecords) && inventory == old(inventory)
      ensures id in old(returnRecords) && status == Some("in-local-pool") && old(returnRecords)[id].assignedWarehouse.None? ==>
        r == Failure(ValidationFailed) && returnRecords == old(returnRecords) && inventory == old(inventory)
      ensures id in old(returnRecords) && !(status == Some("in-local-pool") && old(returnRecords)[id].assignedWarehouse.None?) ==>
        && r == AfterStatusUpdate(old(returnRecords)[id], status, inspection, note, now)
        && returnRecords == (if r.Success? then old(returnRecords)[id := r.value] else old(returnRecords))
        && inventory == if status == Some("in-local-pool") then old(inventory) + [LocalPoolLine(lineId, id, old(returnRecords)[id])]
                        else old(inventory)
      ensures warehouses == old(warehouses) && products == old(products) && orders == old(orders)
    {
      if id !in returnRecords {
        return Failure(ReturnNotFound);
      }
      var ret := returnRecords[id];
      var saved := ret;
      // an absent status unsets the path; the next load reads the default
      var parsed := if status.Some? then ParseStatus(status.value) else Some(Initiated);
      ret := ret.(timeline := ret.timeline + [Entry(status, now, Text(note))]);
      if status == Some("inspecting") {
        ret := ret.(inspectionResult := InspectionResult.Pending);
      }
      var grade: Option<InspectionResult> := None;
      if inspection != "" {
        grade := ParseInspectionResult(inspection);
        if grade.Some? {
          ret := ret.(inspectionResult := grade.value);
        }
      }
      if status == Some("in-local-pool") {
        if saved.assignedWarehouse.None? {
          return Failure(ValidationFailed);
        }
        inventory := inventory + [LocalPoolLine(lineId, id, saved)];
      }
      if parsed.None? || (inspection != "" && grade.None?) {
        return Failure(ValidationFailed);
      }
      ret := ret.(status := parsed.value);
      PutReturn(id, ret);
      r := Success(ret);
    }

    /** PATCH /api/returns/:id/inspect. */
    method Inspect(id: Id, condition: string, note: string, now: int) returns (r: Result<Return, Error>)
      requires Valid()
      modifies this
      ensures Valid() && ReturnsKept(old(returnRecords), returnRecords)
      ensures id !in old(returnRecords) ==> r == Failure(ReturnNotFound) && returnRecords == old(returnRecords)
      ensures id in old(returnRecords) ==>
        && r == AfterInspection(old(returnRecords)[id], condition, note, now)
        && returnRecords == if r.Success? then old(returnRecords)[id := r.value] else old(returnRecords)
      ensures warehouses == old(warehouses) && products == old(products)
      ensures inventory == old(inventory) && orders == old(orders)
    {
      if id !in returnRecords {
        return Failure(ReturnNotFound);
      }
      var ret := returnRecords[id];
      // the grade is the accepted condition string as stored in the schema
      var grade := ParseGrade(condition);
      if grade.None? {
        return Failure(InvalidCondition);
      }
      ret := ret.(inspectionResult := grade.value);
      var resale := ResaleDecision.Pending;
      if grade.value == InspectionResult.LikeNew {
        resale := LocalResale;
      } else if grade.value == InspectionResult.Good {
        resale := DiscountedResale;
      } else if grade.value == Damaged {
        resale := ReturnToSeller;
      } else if grade.value == InspectionResult.Reject {
        resale := NonResellable;
      }
      ret := ret.(resaleDecision := resale);
      ret := ret.(timeline := ret.timeline + [Logged("inspection-completed", now, ConditionNote(condition, ResaleName(resale), note))]);
      PutReturn(id, ret);
      r := Success(ret);
    }

    /** PATCH /api/returns/:id/seller-decision. It never touches the stock. */
    method SellerDecision(id: Id, decision: Option<string>, note: string, now: int) returns (r: Result<Return, Error>)
      requires Valid()
      modifies this
      ensures Valid() && ReturnsKept(old(returnRecords), returnRecords)
      ensures id !in old(returnRecords) ==> r == Failure(ReturnNotFound) && returnRecords == old(returnRecords)
      ensures id in old(returnRecords) ==>
        && r == AfterSellerDecision(old(returnRecords)[id], decision, note, now)
        && returnRecords == if r.Success? then old(returnRecords)[id := r.value] else old(returnRecords)
      ensures warehouses == old(warehouses) && products == old(products)
      ensures inventory == old(inventory) && orders == old(orders)
    {
      if id !in returnRecords {
        return Failure(ReturnNotFound);
      }
      var ret := returnRecords[id];
      if ret.approvalStatus != Approved {
        return Failure(ApprovalRequired);
      }
      // an absent decision unsets the path; the next load reads the default
      var parsed := if decision.Some? then ParseSellerDecision(decision.value) else Some(ReturnSchema.SellerDecision.Pending);
      if parsed.None? {
        return Failure(ValidationFailed);
      }
      ret := ret.(sellerDecision := parsed.value);
      ret := ret.(timeline := ret.timeline + [Logged("seller-decision: " + Interpolated(decision), now, Text(note))]);
      if decision == Some("return-original") {
        ret := ret.(status := SentBack);
      }
      if decision == Some("transfer-high-demand") {
        ret := ret.(status := Transferred);
      }
      if decision == Some("keep-local") {
        ret := ret.(status := InLocalPool);
      }
      PutReturn(id, ret);
      r := Success(ret);
    }

    // ----- stock processing -----

    /** PATCH /api/inventory/:id/inspection; `value` is the request's
        `inspectionStatus`, `None` when absent. */
    method UpdateInspection(lineId: Id, value: Option<string>) returns (r: Result<InventoryItem, Error>)
      requires Valid()
      modifies this
      ensures Valid()
      ensures FindOne(old(inventory), ById(lineId)).None? ==> r == Failure(InventoryNotFound) && inventory == old(inventory)
      ensures FindOne(old(inventory), ById(lineId)).Some? ==>
        var k := FindOne(old(inventory), ById(lineId)).value;
        && r == WithInspection(old(inventory)[k], value)
        && inventory == if r.Success? then old(inventory)[k := r.value] else old(inventory)
      ensures warehouses == old(warehouses) && products == old(products)
      ensures orders == old(orders) && returnRecords == old(returnRecords)
    {
      var k := FindOne(inventory, ById(lineId));
      if k.None? {
        return Failure(InventoryNotFound);
      }
      var line := inventory[k.value];
      // an absent value unsets the path; the next load reads the default
      var parsed := if value.Some? then ParseInspection(value.value) else Some(InspectionStatus.Pending);
      if parsed.None? {
        return Failure(ValidationFailed);
      }
      line := line.(inspectionStatus := parsed.value);
      if value == Some("passed") && line.repackagingStatus == NotNeeded {
        line := line.(repackagingStatus := RepackagingStatus.Pending);
      }
      inventory := inventory[k.value := line];
      r := Success(line);
    }

    /** PATCH /api/inventory/:id/repackaging; `value` is the request's
        `repackagingStatus`, `None` when absent. */
    method UpdateRepackaging(lineId: Id, value: Option<string>) returns (r: Result<InventoryItem, Error>)
      requires Valid()
      modifies this
      ensures Valid()
      ensures FindOne(old(inventory), ById(lineId)).None? ==> r == Failure(InventoryNotFound) && inventory == old(inventory)
      ensures FindOne(old(inventory), ById(lineId)).Some? ==>
        var k := FindOne(old(inventory), ById(lineId)).value;
        && r == WithRepackaging(old(inventory)[k], value)
        && inventory == if r.Success? then old(inventory)[k := r.value] else old(inventory)
      ensures warehouses == old(warehouses) && products == old(products)
      ensures orders == old(orders) && returnRecords == old(returnRecords)
    {
      var k := FindOne(inventory, ById(lineId));
      if k.None? {
        return Failure(InventoryNotFound);
      }
      var line := inventory[k.value];
      // an absent value unsets the path; the next load reads the default
      var parsed := if value.Some? then ParseRepackaging(value.value) else Some(NotNeeded);
      if parsed.None? {
        return Failure(ValidationFailed);
      }
      line := line.(repackagingStatus := parsed.value);
      if value == Some("done") {
        line := line.(labelGenerated := true);
      }
      inventory := inventory[k.value := line];
      r := Success(line);
    }
  }

  /** Moving a return to `in-local-pool` twice stocks it twice: each call adds
      its own line for the same return, whatever is already in stock. */
  method LocalPoolTwice(s: Store, id: Id, lineA: Id, lineB: Id, now: int)
    requires s.Valid() && id in s.returnRecords && s.returnRecords[id].assignedWarehouse.Some? && lineA != lineB
    requires forall j :: 0 <= j < |s.inventory| ==> s.inventory[j].id != lineA && s.inventory[j].id != lineB
    modifies s
    ensures |s.inventory| == |old(s.inventory)| + 2
    ensures s.inventory[..|old(s.inventory)|] == old(s.inventory)
    ensures s.inventory[|old(s.inventory)|].returnRef == Some(id) && s.inventory[|old(s.inventory)| + 1].returnRef == Some(id)
  {
    var first := s.UpdateStatus(id, Some("in-local-pool"), "", "", lineA, now);
    var second := s.UpdateStatus(id, Some("in-local-pool"), "", "", lineB, now);
  }
}
