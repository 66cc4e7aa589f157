/** The decision logic of the return handlers (server/routes/returns.js): the
    category gate, the eligibility score and its recommendation tier, and each
    handler's effect on the loaded Return record, as a function of the record
    and the request. The store methods in module Backend perform these same
    steps on the stored records. */
module ReturnRules {
  import opened JsBase
  import opened Text
  import opened Timeline
  import opened WarehouseSchema
  import opened ProductSchema
  import opened InventorySchema
  import opened OrderSchema
  import opened ReturnSchema
  import opened Geo

  // ----- category gate -----

  const AllowedReturnCategories: seq<string> := ["clothes", "footwear", "apparel", "fashion accessories"]

  /** `String(category || '').trim().toLowerCase()`; a missing category is the
      empty string. */
  function NormalizeCategory(category: string): string
  {
    Lower(Trim(category))
  }

  /** A normalized category is already normal: normalizing it again, or
      trimming or lower-casing it, changes nothing. */
  lemma NormalizedIsNormal(category: string)
    ensures var n := NormalizeCategory(category);
      |n| <= |category| && Trim(n) == n && Lower(n) == n && NormalizeCategory(n) == n
  {
    var t := Trim(category);
    TrimTrimmed(category);
    TrimStartLower(t);
    TrimEndLower(TrimStart(t));
    LowerIdempotent(t);
  }

  predicate IsAllowedCategory(category: string)
  {
    NormalizeCategory(category) in AllowedReturnCategories
  }

  /** Trimming twice is trimming once. */
  lemma TrimTrimmed(s: string)
    ensures Trim(Trim(s)) == Trim(s)
  {
    if Trim(s) != [] {
      TrimUnpadded(Trim(s));
    }
  }

  /** A string with a visible first and last character is its own trim. */
  lemma TrimUnpadded(s: string)
    requires s != [] && !IsSpace(s[0]) && !IsSpace(s[|s| - 1])
    ensures Trim(s) == s
  {
    assert TrimStart(s) == s;
  }

  /** `Lower(s)` is the word `l` when `l` spells `s` letter by letter in lower case. */
  lemma LowerSpells(s: string, l: string)
    requires |s| == |l| && forall i :: 0 <= i < |s| ==> LowerChar(s[i]) == l[i]
    ensures Lower(s) == l
  {
  }

  /** The gate's verdict on an unpadded name whose lower-case spelling is `lower`. */
  lemma GateDecides(name: string, lower: string)
    requires name != [] && !IsSpace(name[0]) && !IsSpace(name[|name| - 1])
    requires |name| == |lower| && forall i :: 0 <= i < |name| ==> LowerChar(name[i]) == lower[i]
    ensures IsAllowedCategory(name) <==> lower in AllowedReturnCategories
  {
    TrimUnpadded(name);
    LowerSpells(name, lower);
  }

  lemma AllowedLengths(x: string)
    requires x in AllowedReturnCategories
    ensures |x| == 7 || |x| == 8 || |x| == 19
  {
  }

  /** An unpadded name of a length no allowed name has fails the gate. */
  lemma GateRejectsByLength(name: string)
    requires name != [] && !IsSpace(name[0]) && !IsSpace(name[|name| - 1])
    requires |name| != 7 && |name| != 8 && |name| != 19
    ensures !IsAllowedCategory(name)
  {
    TrimUnpadded(name);
    if IsAllowedCategory(name) {
      AllowedLengths(Lower(name));
    }
  }

  lemma ClothesReturnable()
    ensures IsAllowedCategory("Clothes")
  {
    GateDecides("Clothes", "clothes");
  }

  lemma FootwearReturnable()
    ensures IsAllowedCategory("Footwear")
  {
    GateDecides("Footwear", "footwear");
  }

  lemma ApparelReturnable()
    ensures IsAllowedCategory("Apparel")
  {
    GateDecides("Apparel", "apparel");
  }

  lemma AccessoriesReturnable()
    ensures IsAllowedCategory("Fashion Accessories")
  {
    GateDecides("Fashion Accessories", "fashion accessories");
  }

  /** Every category the product schema admits passes the return gate, so the
      gate never rejects a stored product. */
  lemma ProductCategoryReturnable(c: ProductCategory)
    ensures IsAllowedCategory(CategoryName(c))
  {
    match c
    case Clothes => ClothesReturnable();
    case Footwear => FootwearReturnable();
    case Apparel => ApparelReturnable();
    case FashionAccessories => AccessoriesReturnable();
  }

  /** A category outside the allow-list, such as "Electronics", fails the gate. */
  lemma ElectronicsNotReturnable()
    ensures !IsAllowedCategory("Electronics")
  {
    GateRejectsByLength("Electronics");
  }

  /** Surrounding white space does not change the verdict of the gate. */
  lemma CategoryGateIgnoresPadding(w1: string, category: string, w2: string)
    requires AllSpace(w1) && AllSpace(w2)
    ensures IsAllowedCategory(w1 + category + w2) <==> IsAllowedCategory(category)
  {
    TrimIgnoresPadding(w1, category, w2);
  }

  lemma LowerCharSpace(c: char)
    ensures IsSpace(LowerChar(c)) <==> IsSpace(c)
  {
  }

  lemma {:induction false} TrimStartLower(s: string)
    ensures TrimStart(Lower(s)) == Lower(TrimStart(s))
  {
    if s != [] {
      LowerCharSpace(s[0]);
      if IsSpace(s[0]) {
        assert Lower(s)[1..] == Lower(s[1..]);
        TrimStartLower(s[1..]);
      }
    }
  }

  lemma LowerPrefix(s: string)
    requires s != []
    ensures Lower(s)[..|s| - 1] == Lower(s[..|s| - 1])
  {
  }

  lemma {:induction false} TrimEndLower(s: string)
    ensures TrimEnd(Lower(s)) == Lower(TrimEnd(s))
  {
    if s != [] {
      var l := Lower(s);
      LowerCharSpace(s[|s| - 1]);
      assert l[|l| - 1] == LowerChar(s[|s| - 1]);
      if IsSpace(s[|s| - 1]) {
        LowerPrefix(s);
        TrimEndLower(s[..|s| - 1]);
      }
    }
  }

  /** The gate does not depend on letter case. */
  lemma CategoryGateIgnoresCase(category: string)
    ensures IsAllowedCategory(Lower(category)) <==> IsAllowedCategory(category)
  {
    TrimStartLower(category);
    TrimEndLower(TrimStart(category));
    LowerIdempotent(Trim(category));
  }

  // ----- eligibility score -----

  /** Proximity: only when a warehouse was found. */
  function DistancePoints(found: bool, distance: real): int
  {
    if !found then 0
    else if distance < 20.0 then 40
    else if distance < 50.0 then 30
    else if distance < 100.0 then 15
    else 5
  }

  function CategoryPoints(allowed: bool): int
  {
    if allowed then 20 else 0
  }

  /** Return frequency over the trailing 30 days. */
  function FrequencyPoints(pastReturns: nat): int
  {
    if pastReturns == 0 then 20 else if pastReturns < 3 then 10 else -20
  }

  function Clamp(x: int): int
  {
    if x < 0 then 0 else if x > 100 then 100 else x
  }

  /** The score: base 20 plus the three factors, capped to [0, 100]. */
  function ReturnScore(found: bool, distance: real, allowed: bool, pastReturns: nat): (score: int)
    ensures 0 <= score <= 100
  {
    Clamp(20 + DistancePoints(found, distance) + CategoryPoints(allowed) + FrequencyPoints(pastReturns))
  }

  /** The factors alone already keep the sum within [0, 100]: the cap never
      changes the score. */
  lemma ScoreCapIsInert(found: bool, distance: real, allowed: bool, pastReturns: nat)
    ensures var raw := 20 + DistancePoints(found, distance) + CategoryPoints(allowed) + FrequencyPoints(pastReturns);
      0 <= raw <= 100 && ReturnScore(found, distance, allowed, pastReturns) == raw
  {
  }

  /** Holding the other inputs fixed, a nearer warehouse never lowers the score. */
  lemma ScoreMonotoneInDistance(found: bool, d1: real, d2: real, allowed: bool, pastReturns: nat)
    requires d1 <= d2
    ensures ReturnScore(found, d1, allowed, pastReturns) >= ReturnScore(found, d2, allowed, pastReturns)
  {
  }

  /** More past returns never raise the score. */
  lemma ScoreMonotoneInFrequency(found: bool, distance: real, allowed: bool, p1: nat, p2: nat)
    requires p1 <= p2
    ensures ReturnScore(found, distance, allowed, p1) >= ReturnScore(found, distance, allowed, p2)
  {
  }

  /** At creation the category has passed the gate, so the score is never
      below 20. */
  lemma CreationScoreRange(found: bool, distance: real, pastReturns: nat)
    ensures 20 <= ReturnScore(found, distance, true, pastReturns) <= 100
  {
  }

  /** The handler's accumulation of `returnScore`. */
  method ScoreReturn(found: bool, distance: real, allowed: bool, pastReturns: nat) returns (score: int)
    ensures score == ReturnScore(found, distance, allowed, pastReturns)
    ensures 0 <= score <= 100
  {
    score := 20;
    if found {
      if distance < 20.0 {
        score := score + 40;
      } else if distance < 50.0 {
        score := score + 30;
      } else if distance < 100.0 {
        score := score + 15;
      } else {
        score := score + 5;
      }
    }
    if allowed {
      score := score + 20;
    }
    if pastReturns == 0 {
      score := score + 20;
    } else if pastReturns < 3 {
      score := score + 10;
    } else {
      score := score - 20;
    }
    score := if score > 100 then 100 else score;
    score := if score < 0 then 0 else score;
  }

  /** The recommendation tier: approve above 70, manual review from 40 to 70,
      reject below 40. */
  function Recommend(score: int): (r: Recommendation)
    ensures r != Recommendation.Pending
    ensures r == Approve <==> score > 70
    ensures r == ManualReview <==> 40 <= score <= 70
    ensures r == Recommendation.Reject <==> score < 40
  {
    if score > 70 then Approve else if score >= 40 then ManualReview else Recommendation.Reject
  }

  function TierRank(r: Recommendation): int
  {
    match r
    case Reject => 0
    case ManualReview => 1
    case Approve => 2
    case Pending => -1
  }

  /** A higher score never gives a lower tier. */
  lemma RecommendMonotone(s1: int, s2: int)
    requires s1 <= s2
    ensures TierRank(Recommend(s1)) <= TierRank(Recommend(s2))
  {
  }

  /** The exact cutoffs: 70 is not yet approve, 40 is still manual review. */
  lemma RecommendBoundaries()
    ensures Recommend(71) == Approve && Recommend(70) == ManualReview
    ensures Recommend(40) == ManualReview && Recommend(39) == Recommendation.Reject
  {
  }

  /** A Clothes return 10 km from the nearest warehouse: with no past return it
      scores 100 (approve), with four it scores 60 (manual review). */
  lemma ScoreScenarios()
    ensures ReturnScore(true, 10.0, true, 0) == 100 && Recommend(100) == Approve
    ensures ReturnScore(true, 10.0, true, 4) == 60 && Recommend(60) == ManualReview
  {
  }

  /** `Math.round(distance * 0.2 * 10) / 10`: kg of CO2 at 0.2 kg per km. */
  function Co2Saved(distance: real): (kg: real)
    ensures distance * 0.2 - 0.05 < kg <= distance * 0.2 + 0.05
  {
    JsRound(distance * 0.2 * 10.0) as real / 10.0
  }

  // ----- create -----

  /** `Math.round(haversine(original, pickup) * 100) / 100` when the order's
      delivery coordinates are finite, else 0. */
  function DistanceBetween(dist: Distance, original: NumPoint, pickup: Coord): (r: real)
    ensures CoordOf(original).None? ==> r == 0.0
    ensures CoordOf(original).Some? ==> -0.005 < r - dist(CoordOf(original).value, pickup) <= 0.005
  {
    match CoordOf(original)
    case Some(o) => RoundTo2(dist(o, pickup))
    case None => 0.0
  }

  /** The ownership check of the create handler. */
  predicate MayReturn(principal: Principal, order: Order)
  {
    !(principal.role == User && order.user != principal.id)
  }

  /** The Return created for `order`, or the reason it is not. `returnCount`
      is the number of returns stored, `pastReturns` the user's returns of the
      last 30 days, `ws` the warehouse list. */
  function InitiatedReturn(dist: Distance, ws: seq<Warehouse>, principal: Principal, order: Order,
                        product: Option<Product>, reason: string, pickup: NumPoint, pickupAddress: string,
                        pastReturns: nat, returnCount: nat, now: int): (r: Result<Return, Error>)
    ensures !MayReturn(principal, order) ==> r == Failure(Unauthorized)
    ensures MayReturn(principal, order) && product.None? ==> r == Failure(ProductNotFound)
    ensures MayReturn(principal, order) && product.Some? && !IsAllowedCategory(CategoryName(product.value.category))
            ==> r == Failure(CategoryNotReturnable)
    ensures (MayReturn(principal, order) && product.Some? && IsAllowedCategory(CategoryName(product.value.category))
             && CoordOf(pickup).None?) ==> r == Failure(InvalidPickupLocation)
    ensures (MayReturn(principal, order) && product.Some? && IsAllowedCategory(CategoryName(product.value.category))
             && CoordOf(pickup).Some? && reason == "") ==> r == Failure(ValidationFailed)
    ensures r.Success? <==> (MayReturn(principal, order) && product.Some?
            && IsAllowedCategory(CategoryName(product.value.category)) && CoordOf(pickup).Some? && reason != "")
    ensures r.Success? ==>
      var ret := r.value;
      var near := NearestOf(dist, pickup, ws);
      && ret.status == Initiated && ret.approvalStatus == ApprovalStatus.Pending
      && ret.sellerDecision == SellerDecision.Pending && ret.inspectionResult == InspectionResult.Pending
      && ret.resaleDecision == ResaleDecision.Pending
      && ret.returnNumber == SequenceNumber("RET", returnCount)
      && ret.order == order.id && ret.user == principal.id && ret.product == order.product && ret.reason == reason
      && ret.category == CategoryName(product.value.category)
      && ret.returnScore == ReturnScore(near.index.Some?, near.distance, true, pastReturns)
      && ret.recommendationStatus == Recommend(ret.returnScore)
      && ret.assignedWarehouse == NearestId(ws, near) && ret.originalWarehouse == order.fulfilledFrom
      && ret.distanceSaved == near.distance
      && ret.co2Saved == Co2Saved(near.distance)
      && ret.returnPickupLocation == Location(pickup, pickupAddress)
      && ret.originalDeliveryLocation == Location(order.deliveryLocation, order.deliveryAddress)
      && ret.distanceBetweenLocations == DistanceBetween(dist, order.deliveryLocation, CoordOf(pickup).value)
      && |ret.timeline| == 1 && ret.timeline[0].status == Some("initiated") && ret.timeline[0].timestamp == now
      && ret.timeline[0].note == ScoreNote(ret.returnScore, NearestName(ws, near), near.distance)
  {
    if !MayReturn(principal, order) then Failure(Unauthorized)
    else if product.None? then Failure(ProductNotFound)
    else if !IsAllowedCategory(CategoryName(product.value.category)) then Failure(CategoryNotReturnable)
    else if CoordOf(pickup).None? then Failure(InvalidPickupLocation)
    else if reason == "" then Failure(ValidationFailed)  // `reason` is a required field
    else
      var category := CategoryName(product.value.category);
      var near := NearestOf(dist, pickup, ws);
      var score := ReturnScore(near.index.Some?, near.distance, IsAllowedCategory(category), pastReturns);
      var number := SequenceNumber("RET", returnCount);
      Success(NewReturn(number, order.id, principal.id, order.product, category, reason).(
        approvalStatus := ApprovalStatus.Pending,
        returnScore := score,
        recommendationStatus := Recommend(score),
        co2Saved := Co2Saved(near.distance),
        originalDeliveryLocation := Location(order.deliveryLocation, order.deliveryAddress),
        returnPickupLocation := Location(pickup, pickupAddress),
        assignedWarehouse := NearestId(ws, near),
        originalWarehouse := order.fulfilledFrom,
        distanceSaved := near.distance,
        distanceBetweenLocations := DistanceBetween(dist, order.deliveryLocation, CoordOf(pickup).value),
        timeline := [Logged("initiated", now, ScoreNote(score, NearestName(ws, near), near.distance))]))
  }

  /** The order once a return was initiated for it. */
  function OrderWithReturn(order: Order, returnNumber: string, now: int): (o: Order)
    ensures o.status == ReturnInitiated
    ensures |o.timeline| == |order.timeline| + 1 && Extends(order.timeline, o.timeline)
    ensures o.timeline[|order.timeline|].status == Some("return-initiated")
    ensures o == order.(status := o.status, timeline := o.timeline)
  {
    order.(status := ReturnInitiated,
           timeline := order.timeline + [Logged("return-initiated", now, Text("Return " + returnNumber + " initiated"))])
  }

  // ----- fields the lifecycle handlers never touch -----

  /** `b` agrees with `a` on everything fixed at creation. */
  predicate SameRecord(a: Return, b: Return)
  {
    && a.returnNumber == b.returnNumber && a.order == b.order && a.user == b.user
    && a.product == b.product && a.category == b.category && a.reason == b.reason
    && a.returnScore == b.returnScore && a.recommendationStatus == b.recommendationStatus
    && a.originalDeliveryLocation == b.originalDeliveryLocation
    && a.returnPickupLocation == b.returnPickupLocation
    && a.originalWarehouse == b.originalWarehouse
    && a.distanceBetweenLocations == b.distanceBetweenLocations && a.co2Saved == b.co2Saved
  }

  /** `later` has exactly one more timeline entry than `ret`, appended. */
  predicate AppendsOne(ret: Return, later: Return)
  {
    |later.timeline| == |ret.timeline| + 1 && Extends(ret.timeline, later.timeline)
  }

  // ----- approval -----

  /** `ret.category || ret.product?.category`. */
  function ApprovalCategory(ret: Return, product: Option<Product>): string
  {
    if ret.category != "" then ret.category
    else if product.Some? then CategoryName(product.value.category)
    else ""
  }

  /** A seller may only decide on returns of their own products. */
  predicate MayApprove(principal: Principal, product: Option<Product>)
  {
    !(principal.role == Seller && (product.None? || product.value.seller != principal.id))
  }

  /** The approval handler's warehouse lookup runs only for an approval of a
      return with no warehouse whose pickup coordinates are both truthy. */
  predicate RelooksUp(ret: Return, decision: string)
  {
    decision == "approved" && ret.assignedWarehouse.None?
    && Truthy(ret.returnPickupLocation.point.lat) && Truthy(ret.returnPickupLocation.point.lng)
  }

  /** The seller's or admin's approval decision on `ret` (the populated product
      is `product`). */
  function AfterApproval(dist: Distance, ws: seq<Warehouse>, ret: Return, product: Option<Product>,
                    principal: Principal, decision: string, note: string, now: int): (r: Result<Return, Error>)
    ensures r.Failure? <==> (!MayApprove(principal, product)
            || (IsAllowedCategory(ApprovalCategory(ret, product)) && decision != "approved" && decision != "rejected"))
    ensures r.Failure? ==> r.error == if !MayApprove(principal, product) then Unauthorized else InvalidDecision
    ensures r.Success? ==>
      var n := r.value;
      && SameRecord(ret, n) && AppendsOne(ret, n)
      && n.sellerDecision == ret.sellerDecision && n.inspectionResult == ret.inspectionResult
      && n.resaleDecision == ret.resaleDecision
      && n.approvalStatus != ApprovalStatus.Pending
      && (n.status == PickupScheduled <==> n.approvalStatus == Approved)
      && (n.status == ReturnStatus.Rejected <==> n.approvalStatus == ApprovalStatus.Rejected)
      && (n.approvalStatus == Approved <==> IsAllowedCategory(ApprovalCategory(ret, product)) && decision == "approved")
    ensures r.Success? && !IsAllowedCategory(ApprovalCategory(ret, product)) ==>
      r.value.timeline[|ret.timeline|] == Logged("rejected", now, Text("Rejected: Electronics not allowed"))
      && r.value.assignedWarehouse == ret.assignedWarehouse && r.value.distanceSaved == ret.distanceSaved
    ensures r.Success? && IsAllowedCategory(ApprovalCategory(ret, product)) ==>
      r.value.timeline[|ret.timeline|] == Logged("approval-" + decision, now, Text(note))
    ensures r.Success? && IsAllowedCategory(ApprovalCategory(ret, product)) && RelooksUp(ret, decision) ==>
      var near := NearestOf(dist, ret.returnPickupLocation.point, ws);
      r.value.assignedWarehouse == NearestId(ws, near) && r.value.distanceSaved == near.distance
    ensures r.Success? && !(IsAllowedCategory(ApprovalCategory(ret, product)) && RelooksUp(ret, decision)) ==>
      r.value.assignedWarehouse == ret.assignedWarehouse && r.value.distanceSaved == ret.distanceSaved
  {
    if !MayApprove(principal, product) then Failure(Unauthorized)
    else if !IsAllowedCategory(ApprovalCategory(ret, product)) then
      Success(ret.(approvalStatus := ApprovalStatus.Rejected, status := ReturnStatus.Rejected,
                   timeline := ret.timeline + [Logged("rejected", now, Text("Rejected: Electronics not allowed"))]))
    else if decision != "approved" && decision != "rejected" then Failure(InvalidDecision)
    else
      var approved := decision == "approved";
      var decided := ret.(approvalStatus := if approved then Approved else ApprovalStatus.Rejected,
                          status := if approved then PickupScheduled else ReturnStatus.Rejected,
                          timeline := ret.timeline + [Logged("approval-" + decision, now, Text(note))]);
      if RelooksUp(ret, decision) then
        var near := NearestOf(dist, ret.returnPickupLocation.point, ws);
        Success(decided.(assignedWarehouse := NearestId(ws, near), distanceSaved := near.distance))
      else Success(decided)
  }

  /** A rejection never (re)assigns a warehouse, even when none is assigned. */
  lemma RejectionKeepsWarehouse(dist: Distance, ws: seq<Warehouse>, ret: Return, product: Option<Product>,
                                principal: Principal, note: string, now: int)
    requires MayApprove(principal, product)
    ensures var r := AfterApproval(dist, ws, ret, product, principal, "rejected", note, now);
      && r.Success? && r.value.status == ReturnStatus.Rejected && r.value.approvalStatus == ApprovalStatus.Rejected
      && r.value.assignedWarehouse == ret.assignedWarehouse
  {
  }

  /** On an ineligible category the decision is not even validated: any
      decision string, valid or not, yields a rejection. */
  lemma IneligibleAlwaysRejected(dist: Distance, ws: seq<Warehouse>, ret: Return, product: Option<Product>,
                                 principal: Principal, decision: string, note: string, now: int)
    requires MayApprove(principal, product)
    requires !IsAllowedCategory(ApprovalCategory(ret, product))
    ensures var r := AfterApproval(dist, ws, ret, product, principal, decision, note, now);
      r.Success? && r.value.status == ReturnStatus.Rejected && r.value.approvalStatus == ApprovalStatus.Rejected
  {
  }

  // ----- warehouse reassignment -----

  /** The admin's reassignment of the nearest warehouse to the pickup point. */
  function AfterAssignment(dist: Distance, ws: seq<Warehouse>, ret: Return, now: int): (r: Result<Return, Error>)
    ensures r.Failure? <==> !Truthy(ret.returnPickupLocation.point.lat) || !Truthy(ret.returnPickupLocation.point.lng)
    ensures r.Failure? ==> r.error == PickupLocationMissing
    ensures r.Success? ==>
      var near := NearestOf(dist, ret.returnPickupLocation.point, ws);
      && SameRecord(ret, r.value) && AppendsOne(ret, r.value)
      && r.value.assignedWarehouse == NearestId(ws, near) && r.value.distanceSaved == near.distance
      && r.value.timeline[|ret.timeline|].status == Some("warehouse-assigned")
      && r.value == ret.(assignedWarehouse := r.value.assignedWarehouse, distanceSaved := r.value.distanceSaved,
                         timeline := r.value.timeline)
  {
    var p := ret.returnPickupLocation.point;
    if !Truthy(p.lat) || !Truthy(p.lng) then Failure(PickupLocationMissing)
    else
      var near := NearestOf(dist, p, ws);
      Success(ret.(assignedWarehouse := NearestId(ws, near), distanceSaved := near.distance,
                   timeline := ret.timeline + [Logged("warehouse-assigned", now, AssignedNote(NearestName(ws, near), near.distance))]))
  }

  // ----- free-form status advance -----

  /** The record after the admin's status update, as saved and next loaded.
      `status` is the request's `status`, `None` when absent; `inspection` is
      its `inspectionResult`, the empty string when absent. The schema rejects
      a status or inspection result outside its enum. An absent status
      unsets the path, which the next load fills with the schema default
      `initiated`, and the entry pushed for it has no status. */
  function AfterStatusUpdate(ret: Return, status: Option<string>, inspection: string, note: string, now: int): (r: Result<Return, Error>)
    ensures r.Failure? <==> (status.Some? && ParseStatus(status.value).None?)
                            || (inspection != "" && ParseInspectionResult(inspection).None?)
    ensures r.Failure? ==> r.error == ValidationFailed
    ensures r.Success? ==>
      && SameRecord(ret, r.value) && AppendsOne(ret, r.value)
      && (status.Some? ==> StatusName(r.value.status) == status.value)
      && (status.None? ==> r.value.status == Initiated)
      && r.value.timeline[|ret.timeline|] == Entry(status, now, Text(note))
      && (inspection != "" ==> InspectionResultName(r.value.inspectionResult) == inspection)
      && (inspection == "" && status == Some("inspecting") ==> r.value.inspectionResult == InspectionResult.Pending)
      && (inspection == "" && status != Some("inspecting") ==> r.value.inspectionResult == ret.inspectionResult)
      && r.value == ret.(status := r.value.status, inspectionResult := r.value.inspectionResult,
                         timeline := r.value.timeline)
  {
    var parsed := if status.Some? then ParseStatus(status.value) else Some(Initiated);
    match parsed
    case None => Failure(ValidationFailed)
    case Some(s) =>
      var reset := if status == Some("inspecting") then InspectionResult.Pending else ret.inspectionResult;
      if inspection == "" then
        Success(ret.(status := s, timeline := ret.timeline + [Entry(status, now, Text(note))], inspectionResult := reset))
      else
        match ParseInspectionResult(inspection)
        case None => Failure(ValidationFailed)
        case Some(g) =>
          Success(ret.(status := s, timeline := ret.timeline + [Entry(status, now, Text(note))], inspectionResult := g))
  }

  /** The stock line a status update to `in-local-pool` creates for the return
      `returnId`, at its assigned warehouse. */
  function LocalPoolLine(lineId: Id, returnId: Id, ret: Return): (line: InventoryItem)
    requires ret.assignedWarehouse.Some?
    ensures FullyProcessedLocal(line) && line.quantity == 1 && line.condition == Condition.LikeNew
    ensures line.source == Source.Return && line.returnRef == Some(returnId)
    ensures line.product == ret.product && line.warehouse == ret.assignedWarehouse.value && line.id == lineId
  {
    NewInventoryItem(lineId, ret.product, ret.assignedWarehouse.value).(
      quantity := 1, condition := Condition.LikeNew, inspectionStatus := InspectionStatus.Passed, repackagingStatus := Done,
      labelGenerated := true, isLocalPool := true, source := Source.Return, returnRef := Some(returnId))
  }

  // ----- inspection grading -----

  /** The four grades the inspection handler accepts. */
  function ParseGrade(condition: string): (g: Option<InspectionResult>)
    ensures g.Some? <==> condition in ["Like New", "Good", "Damaged", "Reject"]
    ensures g.Some? ==> InspectionResultName(g.value) == condition
  {
    if condition == "Like New" then Some(InspectionResult.LikeNew)
    else if condition == "Good" then Some(InspectionResult.Good)
    else if condition == "Damaged" then Some(Damaged)
    else if condition == "Reject" then Some(InspectionResult.Reject)
    else None
  }

  /** The resale route of a grade. */
  function ResaleFor(grade: InspectionResult): (d: ResaleDecision)
    ensures d == ResaleDecision.Pending <==> grade.Pending? || grade.Passed? || grade.Failed?
  {
    match grade
    case LikeNew => LocalResale
    case Good => DiscountedResale
    case Damaged => ReturnToSeller
    case Reject => NonResellable
    case _ => ResaleDecision.Pending
  }

  /** The grade a resale route comes from: distinct grades get distinct routes. */
  function GradeOf(d: ResaleDecision): InspectionResult
  {
    match d
    case LocalResale => InspectionResult.LikeNew
    case DiscountedResale => InspectionResult.Good
    case ReturnToSeller => Damaged
    case NonResellable => InspectionResult.Reject
    case Pending => InspectionResult.Pending
  }

  lemma ResaleRoundTrip(condition: string)
    requires ParseGrade(condition).Some?
    ensures ResaleFor(ParseGrade(condition).value) != ResaleDecision.Pending
    ensures GradeOf(ResaleFor(ParseGrade(condition).value)) == ParseGrade(condition).value
  {
  }

  /** The admin's condition classification. */
  function AfterInspection(ret: Return, condition: string, note: string, now: int): (r: Result<Return, Error>)
    ensures r.Failure? <==> condition !in ["Like New", "Good", "Damaged", "Reject"]
    ensures r.Failure? ==> r.error == InvalidCondition
    ensures r.Success? ==>
      && SameRecord(ret, r.value) && AppendsOne(ret, r.value)
      && r.value.status == ret.status && r.value.approvalStatus == ret.approvalStatus
      && InspectionResultName(r.value.inspectionResult) == condition
      && r.value.resaleDecision == ResaleFor(r.value.inspectionResult)
      && r.value.timeline[|ret.timeline|] ==
           Logged("inspection-completed", now, ConditionNote(condition, ResaleName(r.value.resaleDecision), note))
      && r.value == ret.(inspectionResult := r.value.inspectionResult, resaleDecision := r.value.resaleDecision,
                         timeline := r.value.timeline)
  {
    match ParseGrade(condition)
    case None => Failure(InvalidCondition)
    case Some(g) =>
      Success(ret.(inspectionResult := g, resaleDecision := ResaleFor(g),
                   timeline := ret.timeline + [Logged("inspection-completed", now, ConditionNote(condition, ResaleName(ResaleFor(g)), note))]))
  }

  // ----- seller routing decision -----

  /** The pipeline stage a routing decision moves to; `pending` leaves it. */
  function RoutedStatus(d: SellerDecision, current: ReturnStatus): ReturnStatus
  {
    match d
    case ReturnOriginal => SentBack
    case TransferHighDemand => Transferred
    case KeepLocal => InLocalPool
    case Pending => current
  }

  /** The seller's or admin's routing decision, as saved and next loaded.
      `decision` is the request's `decision`, `None` when absent. The schema
      rejects a decision outside its enum when the record is saved. An absent
      decision unsets the path, which the next load fills with the schema
      default `pending`; the entry then reads `seller-decision: undefined`. */
  function AfterSellerDecision(ret: Return, decision: Option<string>, note: string, now: int): (r: Result<Return, Error>)
    ensures ret.approvalStatus != Approved ==> r == Failure(ApprovalRequired)
    ensures r.Success? <==> ret.approvalStatus == Approved && (decision.None? || ParseSellerDecision(decision.value).Some?)
    ensures r.Failure? && ret.approvalStatus == Approved ==> r.error == ValidationFailed
    ensures r.Success? ==>
      && SameRecord(ret, r.value) && AppendsOne(ret, r.value)
      && (decision.Some? ==> SellerDecisionName(r.value.sellerDecision) == decision.value)
      && (decision.None? ==> r.value.sellerDecision == SellerDecision.Pending)
      && (decision == Some("return-original") ==> r.value.status == SentBack)
      && (decision == Some("transfer-high-demand") ==> r.value.status == Transferred)
      && (decision == Some("keep-local") ==> r.value.status == InLocalPool)
      && (decision == Some("pending") || decision.None? ==> r.value.status == ret.status)
      && r.value.timeline[|ret.timeline|] == Logged("seller-decision: " + Interpolated(decision), now, Text(note))
      && r.value == ret.(sellerDecision := r.value.sellerDecision, status := r.value.status,
                         timeline := r.value.timeline)
  {
    if ret.approvalStatus != Approved then Failure(ApprovalRequired)
    else
      var parsed := if decision.Some? then ParseSellerDecision(decision.value) else Some(SellerDecision.Pending);
      match parsed
      case None => Failure(ValidationFailed)
      case Some(d) =>
        Success(ret.(sellerDecision := d, status := RoutedStatus(d, ret.status),
                     timeline := ret.timeline + [Logged("seller-decision: " + Interpolated(decision), now, Text(note))]))
  }

  /** A status update whose body has no status is saved: the status reads
      back as the schema default and the entry has no status. */
  lemma AbsentStatusIsSaved(ret: Return, note: string, now: int)
    ensures AfterStatusUpdate(ret, None, "", note, now) ==
      Success(ret.(status := Initiated, timeline := ret.timeline + [Entry(None, now, Text(note))]))
  {
  }

  /** An approved return's routing decision whose body has no decision is
      saved: the decision reads back as the schema default, the stage stays,
      and the entry says `undefined`. */
  lemma AbsentDecisionIsSaved(ret: Return, note: string, now: int)
    ensures ret.approvalStatus == Approved ==>
      (AfterSellerDecision(ret, None, note, now) ==
       Success(ret.(sellerDecision := SellerDecision.Pending,
                    timeline := ret.timeline + [Logged("seller-decision: undefined", now, Text(note))])))
  {
    assert "seller-decision: " + Interpolated(None) == "seller-decision: undefined";
  }

  /** A freshly created return cannot be routed yet: approval comes first. */
  lemma NewReturnNeedsApproval(dist: Distance, ws: seq<Warehouse>, principal: Principal, order: Order,
                               product: Option<Product>, reason: string, pickup: NumPoint, pickupAddress: string,
                               pastReturns: nat, returnCount: nat, now: int, decision: Option<string>, note: string, later: int)
    requires InitiatedReturn(dist, ws, principal, order, product, reason, pickup, pickupAddress, pastReturns, returnCount, now).Success?
    ensures var ret := InitiatedReturn(dist, ws, principal, order, product, reason, pickup, pickupAddress, pastReturns, returnCount, now).value;
      AfterSellerDecision(ret, decision, note, later) == Failure(ApprovalRequired)
  {
  }
}
