/** The warehouse schema (server/models/Warehouse.js). */
module WarehouseSchema {
  import opened JsBase

  datatype WarehouseStatus = Active | Maintenance | Full

  datatype Warehouse = Warehouse(
    id: Id,
    name: string,
    code: string,
    location: Coord,
    address: string,
    capacity: int,
    currentLoad: int,
    status: WarehouseStatus,
    manager: string,
    contactPhone: string,
    demandScore: int)

  const DefaultCapacity: int := 1000
  const DefaultDemandScore: int := 50

  /** A warehouse created from its required fields, the rest taking the
      schema's defaults. */
  function NewWarehouse(id: Id, name: string, code: string, location: Coord, address: string): Warehouse
  {
    Warehouse(id, name, code, location, address, DefaultCapacity, 0, Active, "", "", DefaultDemandScore)
  }

  /** The `loadPercentage` virtual, `Math.round(currentLoad / capacity * 100)`.
      A zero capacity gives JavaScript's Infinity (or NaN for 0 / 0). */
  function LoadPercentage(w: Warehouse): (p: Num)
    ensures w.capacity != 0 <==> p.Finite?
    ensures 0 < w.capacity && 0 <= w.currentLoad <= w.capacity ==> 0.0 <= p.value <= 100.0
    ensures w.capacity != 0 && w.currentLoad == 0 ==> p == Finite(0.0)
    ensures w.capacity != 0 && w.currentLoad == w.capacity ==> p == Finite(100.0)
  {
    if w.capacity == 0 then
      (if w.currentLoad == 0 then NaN else Infinite(w.currentLoad < 0))
    else
      var ratio := w.currentLoad as real / w.capacity as real;
      assert 0 < w.capacity && 0 <= w.currentLoad <= w.capacity ==> 0.0 <= ratio <= 1.0;
      assert w.currentLoad == 0 ==> ratio == 0.0;
      assert w.currentLoad == w.capacity ==> ratio == 1.0;
      Finite(JsRound(ratio * 100.0) as real)
  }

  /** A new warehouse is active, empty and at 0% load. */
  lemma NewWarehouseIsEmpty(id: Id, name: string, code: string, location: Coord, address: string)
    ensures var w := NewWarehouse(id, name, code, location, address);
      w.status == Active && w.currentLoad < w.capacity && LoadPercentage(w) == Finite(0.0)
  {
  }
}
