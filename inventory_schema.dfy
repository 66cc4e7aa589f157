/** The inventory-line schema (server/models/Inventory.js). */
module InventorySchema {
  import opened JsBase

  datatype Condition = New | LikeNew | Good | Fair

  datatype InspectionStatus = Pending | Inspecting | Passed | Failed

  datatype RepackagingStatus = NotNeeded | Pending | InProgress | Done

  datatype Source = Original | Return

  function InspectionName(s: InspectionStatus): string
  {
    match s
    case Pending => "pending"
    case Inspecting => "inspecting"
    case Passed => "passed"
    case Failed => "failed"
  }

  /** The enum validator for `inspectionStatus`. */
  function ParseInspection(s: string): (r: Option<InspectionStatus>)
    ensures r.Some? ==> InspectionName(r.value) == s
  {
    if s == "pending" then Some(InspectionStatus.Pending)
    else if s == "inspecting" then Some(Inspecting)
    else if s == "passed" then Some(Passed)
    else if s == "failed" then Some(Failed)
    else None
  }

  lemma ParseInspectionName(s: InspectionStatus)
    ensures ParseInspection(InspectionName(s)) == Some(s)
  {
  }

  function RepackagingName(s: RepackagingStatus): string
  {
    match s
    case NotNeeded => "not-needed"
    case Pending => "pending"
    case InProgress => "in-progress"
    case Done => "done"
  }

  /** The enum validator for `repackagingStatus`. */
  function ParseRepackaging(s: string): (r: Option<RepackagingStatus>)
    ensures r.Some? ==> RepackagingName(r.value) == s
  {
    if s == "not-needed" then Some(NotNeeded)
    else if s == "pending" then Some(RepackagingStatus.Pending)
    else if s == "in-progress" then Some(InProgress)
    else if s == "done" then Some(Done)
    else None
  }

  lemma ParseRepackagingName(s: RepackagingStatus)
    ensures ParseRepackaging(RepackagingName(s)) == Some(s)
  {
  }

  datatype InventoryItem = InventoryItem(
    id: Id,
    product: Id,
    warehouse: Id,
    quantity: int,
    condition: Condition,
    inspectionStatus: InspectionStatus,
    repackagingStatus: RepackagingStatus,
    labelGenerated: bool,
    isLocalPool: bool,
    source: Source,
    returnRef: Option<Id>)

  /** A line created from its required fields, the rest taking the schema's
      defaults. */
  function NewInventoryItem(id: Id, product: Id, warehouse: Id): InventoryItem
  {
    InventoryItem(id, product, warehouse, 1, New, InspectionStatus.Pending, NotNeeded, false, false, Original, None)
  }

  /** Local-pool stock that has been inspected, repackaged and labelled: the
      only kind of line offered for local fulfilment. */
  predicate FullyProcessedLocal(line: InventoryItem)
  {
    line.isLocalPool && line.inspectionStatus == Passed && line.repackagingStatus == Done && line.labelGenerated
  }

  /** A line that only has the defaults is never offered as local stock. */
  lemma NewInventoryItemNotLocal(id: Id, product: Id, warehouse: Id)
    ensures var line := NewInventoryItem(id, product, warehouse);
      line.quantity == 1 && line.source == Original && !FullyProcessedLocal(line)
  {
  }
}
