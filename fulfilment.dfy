/** The order fulfilment decision of POST /api/orders
    (server/routes/orders.js): where an order ships from, which stock line it
    draws on, what the local shipment saves, and the order record created. The
    store method `Backend.Store.PlaceOrder` performs these steps on the stored
    collections. */
module Fulfilment {
  import opened JsBase
  import opened Text
  import opened Timeline
  import opened WarehouseSchema
  import opened InventorySchema
  import opened OrderSchema
  import opened Geo
  import opened InventoryRules

  /** `quantity || 1`: a missing or zero quantity means one. */
  function OrderQuantity(quantity: int): (q: int)
    ensures q != 0
  {
    if quantity != 0 then quantity else 1
  }

  /** `deliveryLocation?.lat || req.user.location.lat`, and the same for the
      longitude: each part falls back to the user's on its own when it is
      missing, NaN or 0. */
  function DeliveryPoint(requested: NumPoint, user: NumPoint): NumPoint
  {
    NumPoint(if Truthy(requested.lat) then requested.lat else user.lat,
             if Truthy(requested.lng) then requested.lng else user.lng)
  }

  /** A delivery latitude or longitude of exactly 0 is treated as missing. */
  lemma ZeroCoordinateFallsBack(requested: NumPoint, user: NumPoint)
    requires requested.lat == Finite(0.0) || requested.lng == Finite(0.0)
    ensures var p := DeliveryPoint(requested, user);
      (requested.lat == Finite(0.0) ==> p.lat == user.lat) && (requested.lng == Finite(0.0) ==> p.lng == user.lng)
  {
  }

  // ----- drawing on a stock line -----

  /** The stock after the line at `k` gives up `q` units: the line is removed
      when nothing is left of it, otherwise its quantity drops; every other
      line stays where it was. */
  function Consume(lines: seq<InventoryItem>, k: nat, q: int): (r: seq<InventoryItem>)
    requires k < |lines|
    ensures |r| == if lines[k].quantity - q <= 0 then |lines| - 1 else |lines|
    ensures r[..k] == lines[..k] && r[|r| - (|lines| - k - 1)..] == lines[k + 1..]
    ensures lines[k].quantity - q > 0 ==> r[k] == lines[k].(quantity := lines[k].quantity - q)
  {
    if lines[k].quantity - q <= 0 then lines[..k] + lines[k + 1..]
    else lines[k := lines[k].(quantity := lines[k].quantity - q)]
  }

  /** Total units held by the lines of product `p`. */
  function Stock(lines: seq<InventoryItem>, p: Id): int
  {
    if lines == [] then 0
    else (if lines[0].product == p then lines[0].quantity else 0) + Stock(lines[1..], p)
  }

  lemma {:induction false} StockAppend(a: seq<InventoryItem>, b: seq<InventoryItem>, p: Id)
    ensures Stock(a + b, p) == Stock(a, p) + Stock(b, p)
  {
    if a == [] {
      assert a + b == b;
    } else {
      assert (a + b)[1..] == a[1..] + b;
      StockAppend(a[1..], b, p);
    }
  }

  /** A line that can fill the order loses exactly `q` units: the product's
      stock drops by `q`, and every other product's stock is unchanged. */
  lemma ConsumeTakesExactly(lines: seq<InventoryItem>, k: nat, q: int, p: Id)
    requires k < |lines| && lines[k].quantity >= q
    ensures Stock(Consume(lines, k, q), p) == Stock(lines, p) - (if lines[k].product == p then q else 0)
  {
    var r := Consume(lines, k, q);
    assert lines == lines[..k] + [lines[k]] + lines[k + 1..];
    StockAppend(lines[..k] + [lines[k]], lines[k + 1..], p);
    StockAppend(lines[..k], [lines[k]], p);
    if lines[k].quantity - q <= 0 {
      assert r == lines[..k] + lines[k + 1..];
      StockAppend(lines[..k], lines[k + 1..], p);
    } else {
      assert r == lines[..k] + [r[k]] + lines[k + 1..];
      StockAppend(lines[..k] + [r[k]], lines[k + 1..], p);
      StockAppend(lines[..k], [r[k]], p);
    }
  }

  // ----- the farthest warehouse -----

  /** `{ wh, d }` of the `reduce` over all warehouses. */
  datatype Farthest = Farthest(index: Option<nat>, d: real)

  /** The fold over ws[0..n) from `{ wh: null, d: 0 }`, replacing the maximum
      only on a strictly greater distance from `c`. */
  function FarthestUpTo(dist: Distance, c: Coord, ws: seq<Warehouse>, n: nat): (f: Farthest)
    requires n <= |ws|
    ensures f.index.Some? ==> f.index.value < n && f.d == dist(c, ws[f.index.value].location)
    ensures f.index.None? ==> f.d == 0.0
    decreases n
  {
    if n == 0 then Farthest(None, 0.0)
    else
      var m := FarthestUpTo(dist, c, ws, n - 1);
      var d := dist(c, ws[n - 1].location);
      if d > m.d then Farthest(Some(n - 1), d) else m
  }

  /** The fold finds the largest distance (or 0 if every distance is at most
      0), at the earliest warehouse that reaches it; it considers every
      warehouse, active or not. */
  lemma {:induction false} FarthestIsMaximum(dist: Distance, c: Coord, ws: seq<Warehouse>, n: nat)
    requires n <= |ws|
    ensures var f := FarthestUpTo(dist, c, ws, n);
      && f.d >= 0.0
      && (forall j :: 0 <= j < n ==> dist(c, ws[j].location) <= f.d)
      && (f.index.Some? ==> f.d > 0.0 && forall j :: 0 <= j < f.index.value ==> dist(c, ws[j].location) < f.d)
    decreases n
  {
    if n > 0 {
      FarthestIsMaximum(dist, c, ws, n - 1);
    }
  }

  /** `farthest.wh?.location.lat || 0` and the same for the longitude. */
  function FarthestLocation(ws: seq<Warehouse>, f: Farthest): Coord
  {
    if f.index.Some? && f.index.value < |ws| then ws[f.index.value].location else Coord(0.0, 0.0)
  }

  // ----- the decision -----

  /** Where the order ships from and what it draws on: `consumed` is the index
      of the stock line drawn on, if any. */
  datatype Plan = Plan(fulfilledFrom: Option<Id>, fromLocal: bool, consumed: Option<nat>,
                       costSaved: int, timeSaved: real)

  /** `anyInventory.warehouse` names a stored warehouse (else `populate`
      leaves it null and reading its `_id` throws). */
  predicate HasWarehouse(ws: seq<Warehouse>, id: Id)
  {
    exists j :: 0 <= j < |ws| && ws[j].id == id
  }

  /** The local stock query at the nearest warehouse, if there is one. */
  function LocalCandidate(lines: seq<InventoryItem>, ws: seq<Warehouse>, near: Nearest, product: Id, q: int): (r: Option<nat>)
    ensures r.Some? ==> near.index.Some? && near.index.value < |ws| && r.value < |lines|
    ensures r.Some? ==> var line := lines[r.value];
      && line.product == product && line.warehouse == ws[near.index.value].id
      && FullyProcessedLocal(line) && line.quantity >= q
  {
    if near.index.Some? && near.index.value < |ws|
    then FindOne(lines, LocalStock(product, ws[near.index.value].id, q))
    else None
  }

  /** The fulfilment decision for `q` units of `product` delivered to `point`,
      over the warehouse list `ws` and the stock `lines`. */
  function FulfilmentPlan(dist: Distance, ws: seq<Warehouse>, lines: seq<InventoryItem>,
                          product: Id, q: int, point: NumPoint): (r: Result<Plan, Error>)
    ensures var near := NearestOf(dist, point, ws);
      var local := LocalCandidate(lines, ws, near, product, q);
      var any := FindOne(lines, AnyStock(product, q));
      && (r.Failure? <==> local.None? && any.Some? && !HasWarehouse(ws, lines[any.value].warehouse))
      && (r.Failure? ==> r.error == MissingWarehouse)
      && (r.Success? ==> (r.value.fromLocal <==> local.Some?))
      && (r.Success? && local.Some? ==>
            r.value.consumed == local && r.value.fulfilledFrom == NearestId(ws, near))
      && (r.Success? && local.Some? ==>
            var c := CoordOf(point).value;
            var far := FarthestUpTo(dist, c, ws, |ws|);
            && r.value.costSaved == CostSaving(far.d, near.distance)
            && r.value.timeSaved == RoundTo1(DeliveryTime(dist, FarthestLocation(ws, far), c)
                                             - DeliveryTime(dist, ws[near.index.value].location, c)))
      && (r.Success? && local.None? ==>
            && r.value.consumed == any
            && r.value.fulfilledFrom == (if any.Some? then Some(lines[any.value].warehouse) else NearestId(ws, near))
            && r.value.costSaved == 0 && r.value.timeSaved == 0.0)
      && (r.Success? && r.value.consumed.Some? ==> r.value.consumed.value < |lines|)
  {
    var near := NearestOf(dist, point, ws);
    var local := LocalCandidate(lines, ws, near, product, q);
    if local.Some? then
      var c := CoordOf(point).value;
      var nearest := ws[near.index.value];
      var far := FarthestUpTo(dist, c, ws, |ws|);
      var time := DeliveryTime(dist, FarthestLocation(ws, far), c) - DeliveryTime(dist, nearest.location, c);
      Success(Plan(Some(nearest.id), true, local, CostSaving(far.d, near.distance), RoundTo1(time)))
    else
      match FindOne(lines, AnyStock(product, q))
      case Some(k) =>
        if HasWarehouse(ws, lines[k].warehouse) then Success(Plan(Some(lines[k].warehouse), false, Some(k), 0, 0.0))
        else Failure(MissingWarehouse)
      case None => Success(Plan(NearestId(ws, near), false, None, 0, 0.0))
  }

  /** A local shipment never reports a negative cost saving: the farthest
      warehouse is at least as far as the nearest one, and rounding the
      nearest distance to 2 decimals moves it by less than a rupee's worth. */
  lemma CostSavedNonNegative(dist: Distance, ws: seq<Warehouse>, lines: seq<InventoryItem>,
                             product: Id, q: int, point: NumPoint)
    requires FulfilmentPlan(dist, ws, lines, product, q, point).Success?
    ensures FulfilmentPlan(dist, ws, lines, product, q, point).value.costSaved >= 0
  {
    var near := NearestOf(dist, point, ws);
    if LocalCandidate(lines, ws, near, product, q).Some? {
      var c := CoordOf(point).value;
      NearestOfSpec(dist, point, ws);
      FarthestIsMaximum(dist, c, ws, |ws|);
      var far := FarthestUpTo(dist, c, ws, |ws|);
      assert dist(c, ws[near.index.value].location) <= far.d;
      assert far.d - near.distance >= -0.005;
      assert (far.d - near.distance) * 2.5 > -0.5;
    }
  }

  /** Under the laws of the haversine distance, a local shipment never reports
      a negative time saving either. */
  lemma TimeSavedNonNegative(dist: Distance, ws: seq<Warehouse>, lines: seq<InventoryItem>,
                             product: Id, q: int, point: NumPoint)
    requires HaversineLaws(dist)
    requires FulfilmentPlan(dist, ws, lines, product, q, point).Success?
    ensures FulfilmentPlan(dist, ws, lines, product, q, point).value.timeSaved >= 0.0
  {
    var near := NearestOf(dist, point, ws);
    if LocalCandidate(lines, ws, near, product, q).Some? {
      var c := CoordOf(point).value;
      FarthestIsMaximum(dist, c, ws, |ws|);
      var far := FarthestUpTo(dist, c, ws, |ws|);
      var nearLoc := ws[near.index.value].location;
      var farLoc := FarthestLocation(ws, far);
      assert dist(c, nearLoc) <= far.d;
      if far.index.Some? {
        assert dist(farLoc, c) == far.d;
      } else {
        assert dist(c, nearLoc) == 0.0;
      }
      assert dist(nearLoc, c) <= dist(farLoc, c);
      DeliveryTimeMonotone(dist, nearLoc, c, farLoc, c);
      RoundTo1Monotone(0.0, DeliveryTime(dist, farLoc, c) - DeliveryTime(dist, nearLoc, c));
    }
  }

  /** Estimated delivery in milliseconds: 4 hours from a local warehouse,
      24 otherwise. */
  function EstimatedDelivery(now: int, fromLocal: bool): (t: int)
    ensures t - now == (if fromLocal then 4 else 24) * 3600000
  {
    now + (if fromLocal then 4 else 24) * 60 * 60 * 1000
  }

  /** The order `Order.create` stores: `orderCount` orders exist before it. */
  function PlacedOrder(id: Id, orderCount: nat, user: Principal, product: Id, q: int, totalPrice: real,
                       point: NumPoint, deliveryAddress: string, plan: Plan, now: int): (o: Order)
    ensures o.id == id && o.orderNumber == SequenceNumber("ORD", orderCount)
    ensures o.user == user.id && o.product == product && o.quantity == q && o.totalPrice == totalPrice
    ensures o.status == Placed && o.actualDelivery.None?
    ensures o.fulfilledFrom == plan.fulfilledFrom && o.sellerWarehouse == plan.fulfilledFrom
    ensures o.fulfilledFromLocal == plan.fromLocal
    ensures o.costSaved == plan.costSaved && o.timeSaved == plan.timeSaved
    ensures o.deliveryLocation == point
    ensures o.deliveryAddress == if deliveryAddress != "" then deliveryAddress else user.address
    ensures o.estimatedDelivery == Some(now + (if plan.fromLocal then 4 else 24) * 3600000)
    ensures |o.timeline| == 1 && o.timeline[0].status == Some("placed") && o.timeline[0].timestamp == now
    ensures o.timeline[0].note == Text(if plan.fromLocal then "Fulfilled from local warehouse"
                                       else "Fulfilled from seller warehouse")
  {
    var note := if plan.fromLocal then "Fulfilled from local warehouse" else "Fulfilled from seller warehouse";
    NewOrder(id, SequenceNumber("ORD", orderCount), user.id, product, totalPrice).(
      quantity := q,
      fulfilledFrom := plan.fulfilledFrom,
      fulfilledFromLocal := plan.fromLocal,
      deliveryLocation := point,
      deliveryAddress := if deliveryAddress != "" then deliveryAddress else user.address,
      sellerWarehouse := plan.fulfilledFrom,
      costSaved := plan.costSaved,
      timeSaved := plan.timeSaved,
      estimatedDelivery := Some(EstimatedDelivery(now, plan.fromLocal)),
      timeline := [Logged("placed", now, Text(note))])
  }
}
