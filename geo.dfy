/** Nearest-warehouse selection and the cost and time helpers
    (server/utils/geo.js). The haversine distance is a parameter `dist`. */
module Geo {
  import opened JsBase
  import opened WarehouseSchema

  /** The great-circle distance in km between two finite coordinates. */
  type Distance = (Coord, Coord) -> real

  /** What the haversine formula guarantees and callers may rely on. */
  ghost predicate HaversineLaws(dist: Distance)
  {
    && (forall a, b :: dist(a, b) >= 0.0)
    && (forall a :: dist(a, a) == 0.0)
    && (forall a, b :: dist(a, b) == dist(b, a))
  }

  /** The search skips a warehouse that is full: its capacity is truthy (not
      0) and its load has reached it. */
  predicate IsFull(w: Warehouse)
  {
    w.capacity != 0 && w.currentLoad >= w.capacity
  }

  /** The warehouses the search considers: the active ones (the database
      query) that are not full (the loop's `continue`). */
  predicate Candidate(w: Warehouse)
  {
    w.status == Active && !IsFull(w)
  }

  /** The index the loop holds after visiting ws[0..n): the first candidate
      of least distance to `c` (an update needs a strictly smaller distance). */
  function NearestUpTo(dist: Distance, c: Coord, ws: seq<Warehouse>, n: nat): (k: Option<nat>)
    requires n <= |ws|
    ensures k.Some? ==> k.value < n && Candidate(ws[k.value])
    decreases n
  {
    if n == 0 then None
    else
      var best := NearestUpTo(dist, c, ws, n - 1);
      if Candidate(ws[n - 1])
         && (best.None? || dist(c, ws[n - 1].location) < dist(c, ws[best.value].location))
      then Some(n - 1)
      else best
  }

  /** The selected candidate is the one of least distance, and among those of
      least distance the earliest; none is selected only if none survives. */
  lemma {:induction false} NearestUpToIsFirstMinimum(dist: Distance, c: Coord, ws: seq<Warehouse>, n: nat)
    requires n <= |ws|
    ensures var k := NearestUpTo(dist, c, ws, n);
      && (k.None? <==> forall j :: 0 <= j < n ==> !Candidate(ws[j]))
      && (k.Some? ==> forall j :: 0 <= j < n && Candidate(ws[j]) ==>
            dist(c, ws[k.value].location) <= dist(c, ws[j].location))
      && (k.Some? ==> forall j :: 0 <= j < k.value && Candidate(ws[j]) ==>
            dist(c, ws[k.value].location) < dist(c, ws[j].location))
    decreases n
  {
    if n > 0 {
      NearestUpToIsFirstMinimum(dist, c, ws, n - 1);
    }
  }

  /** `{ warehouse, distance }` as returned by `findNearestWarehouse`, the
      warehouse given by its index in the list searched. */
  datatype Nearest = Nearest(index: Option<nat>, distance: real)

  /** The result of the search from point `p`. A non-finite point makes every
      distance NaN, and no comparison with NaN succeeds. */
  function NearestOf(dist: Distance, p: NumPoint, ws: seq<Warehouse>): (r: Nearest)
    ensures r.index.Some? ==> r.index.value < |ws| && CoordOf(p).Some?
  {
    match CoordOf(p)
    case None => Nearest(None, 0.0)
    case Some(c) =>
      var k := NearestUpTo(dist, c, ws, |ws|);
      if k.Some? then Nearest(k, RoundTo2(dist(c, ws[k.value].location))) else Nearest(None, 0.0)
  }

  /** The id of the selected warehouse (`warehouse?._id`). */
  function NearestId(ws: seq<Warehouse>, r: Nearest): Option<Id>
  {
    if r.index.Some? && r.index.value < |ws| then Some(ws[r.index.value].id) else None
  }

  /** `warehouse?.name || 'N/A'`, as written into timeline notes. */
  function NearestName(ws: seq<Warehouse>, r: Nearest): string
  {
    if r.index.Some? && r.index.value < |ws| && ws[r.index.value].name != "" then ws[r.index.value].name else "N/A"
  }

  /** What the search promises its callers. */
  lemma NearestOfSpec(dist: Distance, p: NumPoint, ws: seq<Warehouse>)
    ensures var r := NearestOf(dist, p, ws);
      && (r.index.None? <==> CoordOf(p).None? || forall j :: 0 <= j < |ws| ==> !Candidate(ws[j]))
      && (r.index.None? ==> r.distance == 0.0)
      && (r.index.Some? ==>
            var c := CoordOf(p).value;
            var w := ws[r.index.value];
            && Candidate(w)
            && r.distance == RoundTo2(dist(c, w.location))
            && (forall j :: 0 <= j < |ws| && Candidate(ws[j]) ==> dist(c, w.location) <= dist(c, ws[j].location))
            && (forall j :: 0 <= j < r.index.value && Candidate(ws[j]) ==> dist(c, w.location) < dist(c, ws[j].location)))
  {
    if CoordOf(p).Some? {
      NearestUpToIsFirstMinimum(dist, CoordOf(p).value, ws, |ws|);
    }
  }

  /** A candidate standing exactly at the point is at distance 0, so the
      search selects one at distance 0. */
  lemma NearestAtPoint(dist: Distance, c: Coord, ws: seq<Warehouse>, j: nat)
    requires HaversineLaws(dist)
    requires j < |ws| && Candidate(ws[j]) && ws[j].location == c
    ensures NearestOf(dist, PointOf(c), ws).index.Some?
    ensures NearestOf(dist, PointOf(c), ws).distance == 0.0
  {
    NearestOfSpec(dist, PointOf(c), ws);
    var k := NearestOf(dist, PointOf(c), ws).index.value;
    assert dist(c, ws[j].location) == 0.0;
    assert dist(c, ws[k].location) >= 0.0;
  }

  /** `findNearestWarehouse(lat, lng)` over the warehouse list `ws`. */
  method FindNearest(dist: Distance, p: NumPoint, ws: seq<Warehouse>) returns (r: Nearest)
    ensures r == NearestOf(dist, p, ws)
    ensures r.index.Some? ==> r.index.value < |ws| && Candidate(ws[r.index.value])
    ensures r.index.None? ==> r.distance == 0.0
  {
    var point := CoordOf(p);
    var nearest: Option<nat> := None;
    var minDist: real := 0.0;  // stands for Infinity while nearest is None
    var i := 0;
    while i < |ws|
      invariant 0 <= i <= |ws|
      invariant point.None? ==> nearest.None?
      invariant point.Some? ==> nearest == NearestUpTo(dist, point.value, ws, i)
      invariant point.Some? && nearest.Some? ==> minDist == dist(point.value, ws[nearest.value].location)
    {
      var wh := ws[i];
      if wh.status != Active || IsFull(wh) {
        i := i + 1;
        continue;
      }
      // the distance is NaN when the point is not finite
      var d: Option<real> := if point.Some? then Some(dist(point.value, wh.location)) else None;
      if d.Some? && (nearest.None? || d.value < minDist) {
        minDist := d.value;
        nearest := Some(i);
      }
      i := i + 1;
    }
    r := Nearest(nearest, if nearest.Some? then RoundTo2(minDist) else 0.0);
  }

  /** `calculateDeliveryTime`: hours at 40 km/h from the warehouse to the
      user, rounded to one decimal. */
  function DeliveryTime(dist: Distance, warehouse: Coord, user: Coord): (hours: real)
    ensures dist(warehouse, user) / 40.0 - 0.05 < hours <= dist(warehouse, user) / 40.0 + 0.05
  {
    RoundTo1(dist(warehouse, user) / 40.0)
  }

  /** A farther delivery never takes less time. */
  lemma DeliveryTimeMonotone(dist: Distance, w1: Coord, u1: Coord, w2: Coord, u2: Coord)
    requires dist(w1, u1) <= dist(w2, u2)
    ensures DeliveryTime(dist, w1, u1) <= DeliveryTime(dist, w2, u2)
  {
    RoundTo1Monotone(dist(w1, u1) / 40.0, dist(w2, u2) / 40.0);
  }

  /** `calculateCostSaving`: rupees saved at 2.5 per km not driven. */
  function CostSaving(originalDistance: real, localDistance: real): (saving: int)
    ensures originalDistance == localDistance ==> saving == 0
    ensures originalDistance >= localDistance ==> saving >= 0
    ensures (originalDistance - localDistance) * 2.5 - 0.5 < saving as real <= (originalDistance - localDistance) * 2.5 + 0.5
  {
    JsRound((originalDistance - localDistance) * 2.5)
  }

  /** The saving grows with the distance avoided. */
  lemma CostSavingMonotone(o1: real, o2: real, local: real)
    requires o1 <= o2
    ensures CostSaving(o1, local) <= CostSaving(o2, local)
  {
    JsRoundMonotone((o1 - local) * 2.5, (o2 - local) * 2.5);
  }
}
