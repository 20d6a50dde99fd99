/** The errors the node raises for one item, and their messages. */
module Errors {
  import opened JsValues
  import opened Protocol

  /** Why an operation rejected an item. */
  datatype Reason =
    | Blank                                          // the required url or prompt is blank
    | NoJobId                                        // the submit response carries no truthy identifier
    | RemoteFailed(detail: Value)                    // the job reported a failure status
    | NotCompleted(seconds: int, lastStatus: Value)  // the budget ran out after a status check
    | TimedOut(seconds: int)                         // the budget ran out at the head of the poll loop

  /** An error raised by the node for the item at `itemIndex`, or a
      transport error propagated unchanged. */
  datatype NodeError =
    | Raised(op: Operation, reason: Reason, itemIndex: nat)
    | Transport(message: string)

  /** The error's message, as the batch driver copies it into a failure record. */
  function Message(e: NodeError): string {
    match e
    case Transport(m) => m
    case Raised(ScrapeUrl, reason, _) =>
      (match reason
      case Blank => "URL is required"
      case NoJobId => "No request ID received from API"
      case RemoteFailed(d) => "Scraping job failed: " + Render(d)
      case NotCompleted(s, st) =>
        "Job did not complete within " + IntToString(s) + " seconds. Last status: " + Render(st)
      case TimedOut(s) => "Job timed out after " + IntToString(s) + " seconds")
    case Raised(AgenticSearch, reason, _) =>
      (match reason
      case Blank => "Search prompt is required"
      case NoJobId => "No job ID received from API"
      case RemoteFailed(d) => "Agentic search failed: " + Render(d)
      case NotCompleted(s, st) =>
        "Agentic search did not complete within " + IntToString(s) + " seconds. Last status: " + Render(st)
      case TimedOut(s) => "Agentic search timed out after " + IntToString(s) + " seconds")
    case Raised(Search, reason, _) =>
      if reason.Blank? then "Search query is required" else "Unknown error"
  }
}
