/** The return schema (server/models/Return.js). */
module ReturnSchema {
  import opened JsBase
  import opened Timeline

  /** The pipeline stage. */
  datatype ReturnStatus =
    | Initiated | PickupScheduled | PickedUp | Received | Inspecting | Repackaging
    | Relabeled | InLocalPool | SentBack | Transferred | Rejected

  function StatusName(s: ReturnStatus): string
  {
    match s
    case Initiated => "initiated"
    case PickupScheduled => "pickup-scheduled"
    case PickedUp => "picked-up"
    case Received => "received"
    case Inspecting => "inspecting"
    case Repackaging => "repackaging"
    case Relabeled => "relabeled"
    case InLocalPool => "in-local-pool"
    case SentBack => "sent-back"
    case Transferred => "transferred"
    case Rejected => "rejected"
  }

  /** The enum validator for `status`. */
  function ParseStatus(s: string): (r: Option<ReturnStatus>)
    ensures r.Some? ==> StatusName(r.value) == s
  {
    if s == "initiated" then Some(Initiated)
    else if s == "pickup-scheduled" then Some(PickupScheduled)
    else if s == "picked-up" then Some(PickedUp)
    else if s == "received" then Some(Received)
    else if s == "inspecting" then Some(Inspecting)
    else if s == "repackaging" then Some(Repackaging)
    else if s == "relabeled" then Some(Relabeled)
    else if s == "in-local-pool" then Some(InLocalPool)
    else if s == "sent-back" then Some(SentBack)
    else if s == "transferred" then Some(Transferred)
    else if s == "rejected" then Some(ReturnStatus.Rejected)
    else None
  }

  lemma ParseStatusName(s: ReturnStatus)
    ensures ParseStatus(StatusName(s)) == Some(s)
  {
  }

  datatype ApprovalStatus = Pending | Approved | Rejected

  datatype Recommendation = Approve | ManualReview | Reject | Pending

  datatype SellerDecision = Pending | KeepLocal | ReturnOriginal | TransferHighDemand

  function SellerDecisionName(d: SellerDecision): string
  {
    match d
    case Pending => "pending"
    case KeepLocal => "keep-local"
    case ReturnOriginal => "return-original"
    case TransferHighDemand => "transfer-high-demand"
  }

  /** The enum validator for `sellerDecision`. */
  function ParseSellerDecision(s: string): (r: Option<SellerDecision>)
    ensures r.Some? ==> SellerDecisionName(r.value) == s
  {
    if s == "pending" then Some(SellerDecision.Pending)
    else if s == "keep-local" then Some(KeepLocal)
    else if s == "return-original" then Some(ReturnOriginal)
    else if s == "transfer-high-demand" then Some(TransferHighDemand)
    else None
  }

  lemma ParseSellerDecisionName(d: SellerDecision)
    ensures ParseSellerDecision(SellerDecisionName(d)) == Some(d)
  {
  }

  /** Condition grades, with the legacy `passed` and `failed`. */
  datatype InspectionResult = Pending | Passed | Failed | LikeNew | Good | Damaged | Reject

  function InspectionResultName(r: InspectionResult): string
  {
    match r
    case Pending => "pending"
    case Passed => "passed"
    case Failed => "failed"
    case LikeNew => "Like New"
    case Good => "Good"
    case Damaged => "Damaged"
    case Reject => "Reject"
  }

  /** The enum validator for `inspectionResult`. */
  function ParseInspectionResult(s: string): (r: Option<InspectionResult>)
    ensures r.Some? ==> InspectionResultName(r.value) == s
  {
    if s == "pending" then Some(InspectionResult.Pending)
    else if s == "passed" then Some(Passed)
    else if s == "failed" then Some(Failed)
    else if s == "Like New" then Some(LikeNew)
    else if s == "Good" then Some(Good)
    else if s == "Damaged" then Some(Damaged)
    else if s == "Reject" then Some(InspectionResult.Reject)
    else None
  }

  lemma ParseInspectionResultName(r: InspectionResult)
    ensures ParseInspectionResult(InspectionResultName(r)) == Some(r)
  {
  }

  datatype ResaleDecision = Pending | LocalResale | DiscountedResale | ReturnToSeller | NonResellable

  function ResaleName(d: ResaleDecision): string
  {
    match d
    case Pending => "pending"
    case LocalResale => "local-resale"
    case DiscountedResale => "discounted-resale"
    case ReturnToSeller => "return-to-seller"
    case NonResellable => "non-resellable"
  }

  /** A stored location: coordinates that may be missing, and an address. */
  datatype Location = Location(point: NumPoint, address: string)

  datatype Return = Return(
    returnNumber: string,
    order: Id,
    user: Id,
    product: Id,
    category: string,
    reason: string,
    status: ReturnStatus,
    approvalStatus: ApprovalStatus,
    returnScore: int,
    recommendationStatus: Recommendation,
    originalDeliveryLocation: Location,
    returnPickupLocation: Location,
    assignedWarehouse: Option<Id>,
    originalWarehouse: Option<Id>,
    sellerDecision: SellerDecision,
    inspectionResult: InspectionResult,
    resaleDecision: ResaleDecision,
    timeline: seq<Entry>,
    distanceSaved: real,
    distanceBetweenLocations: real,
    co2Saved: real)

  /** A return created from its required fields, the rest taking the schema's
      defaults. */
  function NewReturn(returnNumber: string, order: Id, user: Id, product: Id, category: string, reason: string): Return
  {
    Return(returnNumber, order, user, product, category, reason,
           Initiated, ApprovalStatus.Pending, 0, Recommendation.Pending,
           Location(NumPoint(NaN, NaN), ""), Location(NumPoint(NaN, NaN), ""),
           None, None, SellerDecision.Pending, InspectionResult.Pending, ResaleDecision.Pending,
           [], 0.0, 0.0, 0.0)
  }

  /** A new return is initiated and pending on every decision, with no
      warehouse and no history. */
  lemma NewReturnDefaults(returnNumber: string, order: Id, user: Id, product: Id, category: string, reason: string)
    ensures var r := NewReturn(returnNumber, order, user, product, category, reason);
      && r.status == Initiated && r.approvalStatus == ApprovalStatus.Pending
      && r.recommendationStatus == Recommendation.Pending && r.sellerDecision == SellerDecision.Pending
      && r.inspectionResult == InspectionResult.Pending && r.resaleDecision == ResaleDecision.Pending
      && r.assignedWarehouse.None? && r.timeline == [] && r.returnScore == 0
      && r.distanceSaved == 0.0 && r.co2Saved == 0.0
  {
  }
}
