/** Timeline entries, the `{status, timestamp, note}` records that orders and
    returns append to (server/models/Order.js and server/models/Return.js). */
module Timeline {
  import opened JsBase

  /** The note of an entry. Notes that interpolate numbers keep the values they
      were built from; how JavaScript renders them as text is not modelled. */
  datatype Note =
    | Text(text: string)
      // `Score: ${score}, Nearest node: ${node} (${distance} km)`
    | ScoreNote(score: int, node: string, distance: real)
      // `Assigned ${node} (${distance} km)`
    | AssignedNote(node: string, distance: real)
      // `Condition: ${condition}. Decision: ${decision}. ${note}`
    | ConditionNote(condition: string, decision: string, note: string)

  /** The timestamp is milliseconds since the epoch, passed in by the caller.
      The status is `None` when the handler pushed an undefined status, which
      the schema leaves unset. */
  datatype Entry = Entry(status: Option<string>, timestamp: int, note: Note)

  /** An entry whose status is the string `status`. */
  function Logged(status: string, timestamp: int, note: Note): Entry
  {
    Entry(Some(status), timestamp, note)
  }

  /** `later` is `earlier` with entries appended at the end: nothing was
      rewritten or removed. */
  predicate Extends(earlier: seq<Entry>, later: seq<Entry>)
  {
    |earlier| <= |later| && later[..|earlier|] == earlier
  }
}
