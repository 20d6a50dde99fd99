/** The operations the node offers and the HTTP exchanges it has with the
    remote API. The transport itself is not modelled: a request is recorded
    as an event and answered by a reply supplied from outside. */
module Protocol {
  import opened Results
  import opened JsValues

  /** The value of the node's `operation` parameter. */
  datatype Operation = ScrapeUrl | Search | AgenticSearch

  function OperationName(op: Operation): string {
    match op
    case ScrapeUrl => "scrapeUrl"
    case Search => "search"
    case AgenticSearch => "agenticSearch"
  }

  /** The dispatch on the operation name; any other name is not recognised. */
  function ParseOperation(name: string): (r: Option<Operation>)
    ensures r.Some? <==> name == "scrapeUrl" || name == "search" || name == "agenticSearch"
    ensures r.Some? ==> OperationName(r.value) == name
  {
    if name == "scrapeUrl" then Some(ScrapeUrl)
    else if name == "search" then Some(Search)
    else if name == "agenticSearch" then Some(AgenticSearch)
    else None
  }

  /** Every operation name is recognised as the operation it names. */
  lemma ParseOperationName(op: Operation)
    ensures ParseOperation(OperationName(op)) == Some(op)
  {
  }

  /** The two operations that run as a remote job which is then polled. */
  datatype JobKind = ScrapeJob | AgenticJob

  function JobOperation(kind: JobKind): Operation {
    match kind
    case ScrapeJob => ScrapeUrl
    case AgenticJob => AgenticSearch
  }

  /** The requests the node issues, one constructor per endpoint. */
  datatype Request =
    | SubmitScrape(url: string, country: string, forceFresh: bool)
    | ScrapeStatus(requestId: Value)
    | RunSearch(prompt: string, limit: int)
    | SubmitAgentic(prompt: string, useBrowser: bool)
    | AgenticStatus(jobId: Value)

  function Verb(req: Request): string {
    if req.ScrapeStatus? || req.AgenticStatus? then "GET" else "POST"
  }

  /** The path appended to the credential's base URL. */
  function Path(req: Request): string {
    match req
    case SubmitScrape(_, _, _) => "/v1/request"
    case ScrapeStatus(id) => "/v1/request/" + Render(id)
    case RunSearch(_, _) => "/v1/search"
    case SubmitAgentic(_, _) => "/v1/agentic-search"
    case AgenticStatus(id) => "/v1/agentic-search/" + Render(id)
  }

  /** The JSON body sent with a POST request. */
  function RequestBody(req: Request): Option<Payload> {
    match req
    case SubmitScrape(url, country, forceFresh) =>
      Some(map["job_type" := Str("url_scraper"), "url" := Str(url),
               "country" := Str(country), "force_fresh" := Bool(forceFresh)])
    case RunSearch(prompt, limit) =>
      Some(map["prompt" := Str(prompt), "limit" := Num(limit)])
    case SubmitAgentic(prompt, useBrowser) =>
      Some(map["prompt" := Str(prompt), "useBrowser" := Bool(useBrowser)])
    case _ => None
  }

  /** The status check for a submitted job. */
  function StatusRequest(kind: JobKind, id: Value): Request {
    match kind
    case ScrapeJob => ScrapeStatus(id)
    case AgenticJob => AgenticStatus(id)
  }

  /** What a request yields: a parsed JSON object, or a transport error
      (network failure, non-2xx status, malformed body) with its message. */
  datatype Answer = Body(payload: Payload) | Broken(message: string)

  /** An answer, the time in milliseconds the exchange took, and, for a
      status response that leaves the job in progress, the time that passes
      after the node has read the clock against the maximum wait and before
      it reads it again at the head of the poll loop. */
  datatype Reply = Reply(answer: Answer, latency: nat, idle: nat)

  /** What the node does to the outside world, in order. */
  datatype Event = Issued(request: Request) | Slept(ms: int)

  /** The number of requests among `events`. */
  function Requests(events: seq<Event>): nat {
    if events == [] then 0
    else (if events[0].Issued? then 1 else 0) + Requests(events[1..])
  }

  lemma {:induction false} RequestsAppend(a: seq<Event>, b: seq<Event>)
    ensures Requests(a + b) == Requests(a) + Requests(b)
  {
    if a == [] {
      assert a + b == b;
    } else {
      assert (a + b)[1..] == a[1..] + b;
      RequestsAppend(a[1..], b);
    }
  }

  /** Appending events to a trace in two steps appends them in one. */
  lemma TraceAppend(trace: seq<Event>, a: seq<Event>, b: seq<Event>)
    ensures (trace + a) + b == trace + (a + b)
  {
  }
}
