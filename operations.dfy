/** The node's three operations for one input item: scrape a URL, search,
    and agentic search. The scrape and agentic search operations submit a
    job and poll it; the search operation makes a single request. */
module Operations {
  import opened Results
  import opened JsValues
  import opened Text
  import opened Protocol
  import opened Config
  import opened Classifier
  import opened Errors
  import opened Environment
  import opened Polling

  /** What running an operation against given replies produces: the value
      it returns or the error it raises, the requests and sleeps it makes,
      and the time it takes, in milliseconds. */
  datatype Run<T> = Run(result: Result<T, NodeError>, events: seq<Event>, elapsed: int)

  /** One output item: its JSON record and the index of the input item it
      comes from. */
  datatype OutputItem = OutputItem(json: Payload, pairedItem: nat)

  /** A job that completed: its identifier and the final status response. */
  datatype Completion = Completion(id: Value, body: Payload)

  /** The node parameters of one input item. Parameters of the operations
      not selected are present but unused. */
  datatype Params = Params(
    operation: string,
    url: string,
    options: ScrapeOptions,
    searchPrompt: string,
    searchLimit: Option<int>,
    agenticPrompt: string,
    useBrowser: Option<bool>,
    agenticOptions: AgenticOptions)

  /** The properties the scrape operation puts before the status response. */
  function ScrapeRecord(url: string, requestId: Value): Payload {
    map["success" := Bool(true), "operation" := Str("scrapeUrl"), "request_id" := requestId, "url" := Str(url)]
  }

  /** The properties the search operation puts before the search response. */
  function SearchRecord(prompt: string): Payload {
    map["success" := Bool(true), "operation" := Str("search"), "query" := Str(prompt)]
  }

  /** The properties the agentic search operation puts before the status response. */
  function AgenticRecord(jobId: Value, prompt: string): Payload {
    map["success" := Bool(true), "operation" := Str("agenticSearch"), "job_id" := jobId, "prompt" := Str(prompt)]
  }

  /** Submit a job with the request `submit` and poll it: the submit request
      gets the reply `respond(base)`, the status checks the replies after it. */
  function AsyncRun(kind: JobKind, itemIndex: nat, submit: Request, cfg: PollConfig,
                    respond: nat -> Reply, base: nat): Run<Completion>
  {
    var reply := respond(base);
    match reply.answer
    case Broken(m) => Run(Err(Transport(m)), [Issued(submit)], reply.latency)
    case Body(body) =>
      var id := JobId(kind, body);
      if !Truthy(id) then
        Run(Err(Raised(JobOperation(kind), NoJobId, itemIndex)), [Issued(submit)], reply.latency)
      else
        var job := Job(kind, id, itemIndex);
        var polled := PollRun(job, cfg, respond, base + 1);
        Run(if polled.result.Ok? then Ok(Completion(id, polled.result.value)) else Err(polled.result.error),
            [Issued(submit)] + Checks(job, cfg, polled.checks),
            reply.latency + polled.elapsed)
  }

  /** The scrape operation for the item at `itemIndex`. */
  function ScrapeRun(itemIndex: nat, url: string, options: ScrapeOptions, respond: nat -> Reply, base: nat): Run<OutputItem> {
    if IsBlank(url) then Run(Err(Raised(ScrapeUrl, Blank, itemIndex)), [], 0)
    else
      var settings := ScrapeSettingsOf(options);
      var submit := SubmitScrape(Trim(url), settings.country, settings.forceFresh);
      var run := AsyncRun(ScrapeJob, itemIndex, submit, settings.poll, respond, base);
      Run(match run.result
          case Ok(c) => Ok(OutputItem(Spread(ScrapeRecord(url, c.id), c.body), itemIndex))
          case Err(e) => Err(e),
          run.events, run.elapsed)
  }

  /** The search operation for the item at `itemIndex`. */
  function SearchRun(itemIndex: nat, prompt: string, limit: Option<int>, respond: nat -> Reply, base: nat): Run<OutputItem> {
    if IsBlank(prompt) then Run(Err(Raised(Search, Blank, itemIndex)), [], 0)
    else
      var request := RunSearch(Trim(prompt), SearchLimitOf(limit));
      var reply := respond(base);
      Run(match reply.answer
          case Broken(m) => Err(Transport(m))
          case Body(body) => Ok(OutputItem(Spread(SearchRecord(prompt), body), itemIndex)),
          [Issued(request)], reply.latency)
  }

  /** The agentic search operation for the item at `itemIndex`. */
  function AgenticRun(itemIndex: nat, prompt: string, useBrowser: Option<bool>, options: AgenticOptions,
                      respond: nat -> Reply, base: nat): Run<OutputItem>
  {
    if IsBlank(prompt) then Run(Err(Raised(AgenticSearch, Blank, itemIndex)), [], 0)
    else
      var submit := SubmitAgentic(Trim(prompt), UseBrowserOf(useBrowser));
      var run := AsyncRun(AgenticJob, itemIndex, submit, AgenticPollOf(options), respond, base);
      Run(match run.result
          case Ok(c) => Ok(OutputItem(Spread(AgenticRecord(c.id, prompt), c.body), itemIndex))
          case Err(e) => Err(e),
          run.events, run.elapsed)
  }

  /** The operation `op` with the parameters of the item at `itemIndex`. */
  function OperationRun(op: Operation, p: Params, itemIndex: nat, respond: nat -> Reply, base: nat): Run<OutputItem> {
    match op
    case ScrapeUrl => ScrapeRun(itemIndex, p.url, p.options, respond, base)
    case Search => SearchRun(itemIndex, p.searchPrompt, p.searchLimit, respond, base)
    case AgenticSearch => AgenticRun(itemIndex, p.agenticPrompt, p.useBrowser, p.agenticOptions, respond, base)
  }

  /** One input item: the operation its `operation` parameter names, or
      nothing at all for a name that is not recognised. */
  function ItemRun(p: Params, itemIndex: nat, respond: nat -> Reply, base: nat): Run<Option<OutputItem>> {
    match ParseOperation(p.operation)
    case None => Run(Ok(None), [], 0)
    case Some(op) =>
      var run := OperationRun(op, p, itemIndex, respond, base);
      Run(if run.result.Ok? then Ok(Some(run.result.value)) else Err(run.result.error), run.events, run.elapsed)
  }

  /** The reply to the last of the requests in `events`, whose first
      request got the reply `respond(base)`. */
  function LastAnswer(respond: nat -> Reply, base: nat, events: seq<Event>): Answer {
    if Requests(events) == 0 then respond(base).answer else respond(base + Requests(events) - 1).answer
  }

  /** A single request counts once. */
  lemma RequestsOne(e: Event)
    ensures Requests([e]) == if e.Issued? then 1 else 0
  {
    assert [e][1..] == [];
  }

  /** The submit and poll run of a job whose submit response carries a
      truthy identifier. */
  lemma AsyncPolled(kind: JobKind, itemIndex: nat, submit: Request, cfg: PollConfig, respond: nat -> Reply, base: nat)
    requires respond(base).answer.Body? && Truthy(JobId(kind, respond(base).answer.payload))
    ensures var id := JobId(kind, respond(base).answer.payload);
      var job := Job(kind, id, itemIndex);
      var polled := PollRun(job, cfg, respond, base + 1);
      AsyncRun(kind, itemIndex, submit, cfg, respond, base)
      == Run(if polled.result.Ok? then Ok(Completion(id, polled.result.value)) else Err(polled.result.error),
             [Issued(submit)] + Checks(job, cfg, polled.checks),
             respond(base).latency + polled.elapsed)
  {
  }

  /** Submits a job and polls it against the host. */
  method SubmitAndPoll(host: Host, kind: JobKind, itemIndex: nat, submit: Request, cfg: PollConfig)
    returns (r: Result<Completion, NodeError>)
    modifies host
    ensures var run := AsyncRun(kind, itemIndex, submit, cfg, host.respond, old(host.sent));
      && r == run.result
      && host.sent == old(host.sent) + Requests(run.events)
      && host.trace == old(host.trace) + run.events
      && host.now == old(host.now) + run.elapsed
  {
    RequestsOne(Issued(submit));
    var answer := host.Request(submit);
    if answer.Broken? {
      r := Err(Transport(answer.message));
    } else {
      var id := JobId(kind, answer.payload);
      if !Truthy(id) {
        r := Err(Raised(JobOperation(kind), NoJobId, itemIndex));
      } else {
        r := AwaitJob(host, Job(kind, id, itemIndex), cfg, submit, old(host.sent), old(host.trace));
        AsyncPolled(kind, itemIndex, submit, cfg, host.respond, old(host.sent));
      }
    }
  }

  /** Polls a job submitted by `submit` and wraps the completed response. */
  method AwaitJob(host: Host, job: Job, cfg: PollConfig, ghost submit: Request, ghost base: nat, ghost prior: seq<Event>)
    returns (r: Result<Completion, NodeError>)
    modifies host
    requires host.sent == base + 1
    requires host.trace == prior + [Issued(submit)]
    ensures var polled := PollRun(job, cfg, host.respond, base + 1);
      && r == (if polled.result.Ok? then Ok(Completion(job.id, polled.result.value)) else Err(polled.result.error))
      && host.sent == base + Requests([Issued(submit)] + Checks(job, cfg, polled.checks))
      && host.trace == prior + ([Issued(submit)] + Checks(job, cfg, polled.checks))
      && host.now == old(host.now) + polled.elapsed
  {
    var status := Poll(host, job, cfg);
    ghost var polled := PollRun(job, cfg, host.respond, base + 1);
    RequestsOne(Issued(submit));
    RequestsAppend([Issued(submit)], Checks(job, cfg, polled.checks));
    assert host.trace == prior + ([Issued(submit)] + Checks(job, cfg, polled.checks));
    r := if status.Ok? then Ok(Completion(job.id, status.value)) else Err(status.error);
  }

  /** `executeScrapeUrl`: validates the URL, submits the scrape job, polls
      it and returns the status response behind the scrape record. */
  method ExecuteScrapeUrl(host: Host, itemIndex: nat, url: string, options: ScrapeOptions)
    returns (r: Result<OutputItem, NodeError>)
    modifies host
    ensures var run := ScrapeRun(itemIndex, url, options, host.respond, old(host.sent));
      && r == run.result
      && host.sent == old(host.sent) + Requests(run.events)
      && host.trace == old(host.trace) + run.events
      && host.now == old(host.now) + run.elapsed
  {
    var settings := ScrapeSettingsOf(options);
    if IsBlank(url) {
      return Err(Raised(ScrapeUrl, Blank, itemIndex));
    }
    var job := SubmitAndPoll(host, ScrapeJob, itemIndex, SubmitScrape(Trim(url), settings.country, settings.forceFresh), settings.poll);
    r := if job.Ok? then Ok(OutputItem(Spread(ScrapeRecord(url, job.value.id), job.value.body), itemIndex)) else Err(job.error);
  }

  /** `executeSearch`: validates the prompt and makes the one search request. */
  method ExecuteSearch(host: Host, itemIndex: nat, prompt: string, limit: Option<int>)
    returns (r: Result<OutputItem, NodeError>)
    modifies host
    ensures var run := SearchRun(itemIndex, prompt, limit, host.respond, old(host.sent));
      && r == run.result
      && host.sent == old(host.sent) + Requests(run.events)
      && host.trace == old(host.trace) + run.events
      && host.now == old(host.now) + run.elapsed
  {
    if IsBlank(prompt) {
      return Err(Raised(Search, Blank, itemIndex));
    }
    RequestsOne(Issued(RunSearch(Trim(prompt), SearchLimitOf(limit))));
    var answer := host.Request(RunSearch(Trim(prompt), SearchLimitOf(limit)));
    if answer.Broken? {
      return Err(Transport(answer.message));
    }
    return Ok(OutputItem(Spread(SearchRecord(prompt), answer.payload), itemIndex));
  }

  /** `executeAgenticSearch`: validates the prompt, submits the agentic
      search job, polls it and returns the status response behind the
      agentic search record. */
  method ExecuteAgenticSearch(host: Host, itemIndex: nat, prompt: string, useBrowser: Option<bool>, options: AgenticOptions)
    returns (r: Result<OutputItem, NodeError>)
    modifies host
    ensures var run := AgenticRun(itemIndex, prompt, useBrowser, options, host.respond, old(host.sent));
      && r == run.result
      && host.sent == old(host.sent) + Requests(run.events)
      && host.trace == old(host.trace) + run.events
      && host.now == old(host.now) + run.elapsed
  {
    var cfg := AgenticPollOf(options);
    if IsBlank(prompt) {
      return Err(Raised(AgenticSearch, Blank, itemIndex));
    }
    var job := SubmitAndPoll(host, AgenticJob, itemIndex, SubmitAgentic(Trim(prompt), UseBrowserOf(useBrowser)), cfg);
    r := if job.Ok? then Ok(OutputItem(Spread(AgenticRecord(job.value.id, prompt), job.value.body), itemIndex)) else Err(job.error);
  }

  /** Runs the operation `op` for the item at `itemIndex`. */
  method ExecuteOperation(host: Host, op: Operation, p: Params, itemIndex: nat) returns (r: Result<OutputItem, NodeError>)
    modifies host
    ensures var run := OperationRun(op, p, itemIndex, host.respond, old(host.sent));
      && r == run.result
      && host.sent == old(host.sent) + Requests(run.events)
      && host.trace == old(host.trace) + run.events
      && host.now == old(host.now) + run.elapsed
  {
    match op
    case ScrapeUrl => r := ExecuteScrapeUrl(host, itemIndex, p.url, p.options);
    case Search => r := ExecuteSearch(host, itemIndex, p.searchPrompt, p.searchLimit);
    case AgenticSearch => r := ExecuteAgenticSearch(host, itemIndex, p.agenticPrompt, p.useBrowser, p.agenticOptions);
  }

  /** The body of the batch loop for one item: run the operation the item's
      `operation` parameter names; an unrecognised name does nothing. */
  method ExecuteItem(host: Host, p: Params, itemIndex: nat) returns (r: Result<Option<OutputItem>, NodeError>)
    modifies host
    ensures var run := ItemRun(p, itemIndex, host.respond, old(host.sent));
      && r == run.result
      && host.sent == old(host.sent) + Requests(run.events)
      && host.trace == old(host.trace) + run.events
      && host.now == old(host.now) + run.elapsed
  {
    var op := ParseOperation(p.operation);
    if op.None? {
      return Ok(None);
    }
    var out := ExecuteOperation(host, op.value, p, itemIndex);
    r := if out.Ok? then Ok(Some(out.value)) else Err(out.error);
  }
}
