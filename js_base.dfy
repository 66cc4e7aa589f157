/** JavaScript-level values the server code works with: numbers that may be
    non-finite, coordinates, `Math.round` and rounding to a fixed number of
    decimals, and the error kinds the route handlers answer with. */
module JsBase {

  datatype Option<T> = None | Some(value: T)

  datatype Result<T, E> = Success(value: T) | Failure(error: E)

  /** A request-body string as a template literal renders it: `undefined`
      when the field is absent. */
  function Interpolated(s: Option<string>): string
  {
    if s.Some? then s.value else "undefined"
  }

  /** Database identity (a Mongo ObjectId). */
  type Id = nat

  /** A JavaScript number as a handler sees it. `NaN` also stands for a field
      that is missing (undefined): the code only ever tests such values for
      truthiness or finiteness, and both answer the same for the two. */
  datatype Num = Finite(value: real) | Infinite(negative: bool) | NaN

  /** JavaScript truthiness of a number: 0 and NaN are falsy. */
  predicate Truthy(n: Num)
  {
    match n
    case Finite(v) => v != 0.0
    case Infinite(_) => true
    case NaN => false
  }

  /** `Number.isFinite`. */
  predicate IsFinite(n: Num)
  {
    n.Finite?
  }

  /** A finite coordinate in degrees. */
  datatype Coord = Coord(lat: real, lng: real)

  /** A coordinate as received or stored, whose parts may be missing or non-finite. */
  datatype NumPoint = NumPoint(lat: Num, lng: Num)

  function PointOf(c: Coord): NumPoint
  {
    NumPoint(Finite(c.lat), Finite(c.lng))
  }

  /** The finite coordinate a point denotes, if both of its parts are finite. */
  function CoordOf(p: NumPoint): (c: Option<Coord>)
    ensures c.Some? <==> IsFinite(p.lat) && IsFinite(p.lng)
    ensures c.Some? ==> PointOf(c.value) == p
  {
    if p.lat.Finite? && p.lng.Finite? then Some(Coord(p.lat.value, p.lng.value)) else None
  }

  /** `Math.round`: the nearest integer, halves rounded up (also for negatives). */
  function JsRound(x: real): (r: int)
    ensures x - 0.5 < r as real <= x + 0.5
  {
    (x + 0.5).Floor
  }

  /** `Math.round(x * 10) / 10`. */
  function RoundTo1(x: real): (r: real)
    ensures x - 0.05 < r <= x + 0.05
  {
    JsRound(x * 10.0) as real / 10.0
  }

  /** `Math.round(x * 100) / 100`. */
  function RoundTo2(x: real): (r: real)
    ensures x - 0.005 < r <= x + 0.005
  {
    JsRound(x * 100.0) as real / 100.0
  }

  lemma JsRoundMonotone(x: real, y: real)
    requires x <= y
    ensures JsRound(x) <= JsRound(y)
  {
  }

  lemma RoundTo1Monotone(x: real, y: real)
    requires x <= y
    ensures RoundTo1(x) <= RoundTo1(y)
  {
    JsRoundMonotone(x * 10.0, y * 10.0);
  }

  /** Error kinds of the route handlers (HTTP status in the comment). */
  datatype Error =
    | OrderNotFound            // 404
    | ProductNotFound          // 404
    | ReturnNotFound           // 404
    | InventoryNotFound        // 404
    | Unauthorized             // 403, ownership check
    | CategoryNotReturnable    // 400
    | InvalidPickupLocation    // 400
    | PickupLocationMissing    // 400
    | InvalidDecision          // 400
    | InvalidCondition         // 400
    | ApprovalRequired         // 400
    | ValidationFailed         // 500, a save or create rejected by the schema
    | MissingWarehouse         // 500, dereferencing a warehouse that is gone

  /** The acting principal supplied by the authentication layer. */
  datatype Role = User | Seller | Admin

  datatype Principal = Principal(id: Id, role: Role, location: NumPoint, address: string)
}
