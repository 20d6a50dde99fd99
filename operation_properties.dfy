/** What each operation does for every input and every sequence of replies:
    which inputs it rejects before any request, what it sends, and which
    reply its result comes from. */
module OperationProperties {
  import opened Results
  import opened JsValues
  import opened Text
  import opened Protocol
  import opened Config
  import opened Classifier
  import opened Errors
  import opened Environment
  import opened Polling
  import opened PollProperties
  import opened Operations

  /** The submit and poll run starts with the submit request. A submit
      response without a truthy identifier ends it with exactly that one
      request; any other error it raises belongs to the job's operation and
      item and is never a blank-input error. */
  lemma AsyncShape(kind: JobKind, itemIndex: nat, submit: Request, cfg: PollConfig, respond: nat -> Reply, base: nat)
    ensures var run := AsyncRun(kind, itemIndex, submit, cfg, respond, base);
      var reply := respond(base).answer;
      && |run.events| >= 1 && run.events[0] == Issued(submit)
      && (run.result == Err(Raised(JobOperation(kind), NoJobId, itemIndex)) <==>
            reply.Body? && !Truthy(JobId(kind, reply.payload)))
      && (reply.Body? && !Truthy(JobId(kind, reply.payload)) ==> run.events == [Issued(submit)])
      && (run.result.Err? && run.result.error.Raised? ==>
            && run.result.error.op == JobOperation(kind)
            && run.result.error.itemIndex == itemIndex
            && !run.result.error.reason.Blank?)
  {
    var reply := respond(base).answer;
    if reply.Body? && Truthy(JobId(kind, reply.payload)) {
      var job := Job(kind, JobId(kind, reply.payload), itemIndex);
      PollErrors(job, cfg, respond, base + 1);
    }
  }

  /** A submit and poll run that succeeds got a status response with a
      truthy identifier to its submit request and a completion status to
      its last request, and returns that identifier and that last response. */
  lemma AsyncSuccess(kind: JobKind, itemIndex: nat, submit: Request, cfg: PollConfig, respond: nat -> Reply, base: nat)
    requires AsyncRun(kind, itemIndex, submit, cfg, respond, base).result.Ok?
    ensures var run := AsyncRun(kind, itemIndex, submit, cfg, respond, base);
      var reply := respond(base).answer;
      var c := run.result.value;
      var last := LastAnswer(respond, base, run.events);
      && reply.Body? && c.id == JobId(kind, reply.payload) && Truthy(c.id)
      && Requests(run.events) >= 2
      && last == Body(c.body)
      && IsCompletion(kind, StatusOf(c.body))
  {
    var reply := respond(base).answer;
    var job := Job(kind, JobId(kind, reply.payload), itemIndex);
    var polled := PollRun(job, cfg, respond, base + 1);
    PollErrors(job, cfg, respond, base + 1);
    LastCheck(job, cfg, respond, base + 1);
    RequestsOne(Issued(submit));
    RequestsAppend([Issued(submit)], Checks(job, cfg, polled.checks));
  }

  /** A url that is missing or only whitespace is rejected with the
      `URL is required` error before any request; any other url is
      submitted trimmed, with the defaulted country and `force_fresh`. */
  lemma ScrapeValidation(itemIndex: nat, url: string, options: ScrapeOptions, respond: nat -> Reply, base: nat)
    ensures var run := ScrapeRun(itemIndex, url, options, respond, base);
      var settings := ScrapeSettingsOf(options);
      && (run.result == Err(Raised(ScrapeUrl, Blank, itemIndex)) <==> IsBlank(url))
      && (IsBlank(url) ==> run.events == [] && run.elapsed == 0)
      && (!IsBlank(url) ==>
            |run.events| >= 1 && run.events[0] == Issued(SubmitScrape(Trim(url), settings.country, settings.forceFresh)))
  {
    if !IsBlank(url) {
      var settings := ScrapeSettingsOf(options);
      AsyncShape(ScrapeJob, itemIndex, SubmitScrape(Trim(url), settings.country, settings.forceFresh), settings.poll, respond, base);
    }
  }

  /** A scrape that succeeds returns the scrape record, which echoes the url
      as given, overlaid by the last status response, which completed the
      job: response properties win over the record's. */
  lemma ScrapeSuccess(itemIndex: nat, url: string, options: ScrapeOptions, respond: nat -> Reply, base: nat)
    requires ScrapeRun(itemIndex, url, options, respond, base).result.Ok?
    ensures var run := ScrapeRun(itemIndex, url, options, respond, base);
      var last := LastAnswer(respond, base, run.events);
      var id := JobId(ScrapeJob, respond(base).answer.payload);
      && !IsBlank(url)
      && respond(base).answer.Body? && Truthy(id)
      && last.Body? && IsCompletion(ScrapeJob, StatusOf(last.payload))
      && run.result.value == OutputItem(Spread(ScrapeRecord(url, id), last.payload), itemIndex)
  {
    var settings := ScrapeSettingsOf(options);
    AsyncSuccess(ScrapeJob, itemIndex, SubmitScrape(Trim(url), settings.country, settings.forceFresh), settings.poll, respond, base);
  }

  /** A prompt that is missing or only whitespace is rejected with the
      `Search query is required` error before any request; any other prompt
      is sent trimmed in exactly one request, with the defaulted limit. */
  lemma SearchValidation(itemIndex: nat, prompt: string, limit: Option<int>, respond: nat -> Reply, base: nat)
    ensures var run := SearchRun(itemIndex, prompt, limit, respond, base);
      && (run.result == Err(Raised(Search, Blank, itemIndex)) <==> IsBlank(prompt))
      && (IsBlank(prompt) ==> run.events == [] && run.elapsed == 0)
      && (!IsBlank(prompt) ==> run.events == [Issued(RunSearch(Trim(prompt), SearchLimitOf(limit)))])
      && Requests(run.events) <= 1
  {
    RequestsOne(Issued(RunSearch(Trim(prompt), SearchLimitOf(limit))));
  }

  /** A search succeeds exactly when its prompt is not blank and its request
      gets a response, and returns the search record, which echoes the
      prompt as given, overlaid by that response; a failed request's error
      is passed on unchanged. */
  lemma SearchResult(itemIndex: nat, prompt: string, limit: Option<int>, respond: nat -> Reply, base: nat)
    ensures var run := SearchRun(itemIndex, prompt, limit, respond, base);
      var reply := respond(base).answer;
      && (run.result.Ok? <==> !IsBlank(prompt) && reply.Body?)
      && (run.result.Ok? ==> run.result.value == OutputItem(Spread(SearchRecord(prompt), reply.payload), itemIndex))
      && (forall m :: run.result == Err(Transport(m)) <==> !IsBlank(prompt) && reply == Broken(m))
  {
  }

  /** A prompt that is missing or only whitespace is rejected with the
      `Search prompt is required` error before any request; any other
      prompt is submitted trimmed, with `use_browser` defaulting to true. */
  lemma AgenticValidation(itemIndex: nat, prompt: string, useBrowser: Option<bool>, options: AgenticOptions,
                          respond: nat -> Reply, base: nat)
    ensures var run := AgenticRun(itemIndex, prompt, useBrowser, options, respond, base);
      && (run.result == Err(Raised(AgenticSearch, Blank, itemIndex)) <==> IsBlank(prompt))
      && (IsBlank(prompt) ==> run.events == [] && run.elapsed == 0)
      && (!IsBlank(prompt) ==>
            |run.events| >= 1 && run.events[0] == Issued(SubmitAgentic(Trim(prompt), UseBrowserOf(useBrowser))))
  {
    if !IsBlank(prompt) {
      AsyncShape(AgenticJob, itemIndex, SubmitAgentic(Trim(prompt), UseBrowserOf(useBrowser)), AgenticPollOf(options), respond, base);
    }
  }

  /** An agentic search that succeeds returns the agentic search record,
      which echoes the prompt as given, overlaid by the last status
      response, whose status was `completed`. */
  lemma AgenticSuccess(itemIndex: nat, prompt: string, useBrowser: Option<bool>, options: AgenticOptions,
                       respond: nat -> Reply, base: nat)
    requires AgenticRun(itemIndex, prompt, useBrowser, options, respond, base).result.Ok?
    ensures var run := AgenticRun(itemIndex, prompt, useBrowser, options, respond, base);
      var last := LastAnswer(respond, base, run.events);
      var id := JobId(AgenticJob, respond(base).answer.payload);
      && !IsBlank(prompt)
      && respond(base).answer.Body? && Truthy(id)
      && last.Body? && StatusOf(last.payload) == Str("completed")
      && run.result.value == OutputItem(Spread(AgenticRecord(id, prompt), last.payload), itemIndex)
  {
    AsyncSuccess(AgenticJob, itemIndex, SubmitAgentic(Trim(prompt), UseBrowserOf(useBrowser)), AgenticPollOf(options), respond, base);
  }

  /** Whatever a scrape outputs is paired with its item, and every error it
      raises is a scrape error for the item. */
  lemma ScrapeShape(itemIndex: nat, url: string, options: ScrapeOptions, respond: nat -> Reply, base: nat)
    ensures var run := ScrapeRun(itemIndex, url, options, respond, base);
      && (run.result.Ok? ==> run.result.value.pairedItem == itemIndex)
      && (run.result.Err? && run.result.error.Raised? ==>
            run.result.error.itemIndex == itemIndex && run.result.error.op == ScrapeUrl)
  {
    if !IsBlank(url) {
      var settings := ScrapeSettingsOf(options);
      AsyncShape(ScrapeJob, itemIndex, SubmitScrape(Trim(url), settings.country, settings.forceFresh), settings.poll, respond, base);
    }
  }

  /** Whatever an agentic search outputs is paired with its item, and every
      error it raises is an agentic search error for the item. */
  lemma AgenticShape(itemIndex: nat, prompt: string, useBrowser: Option<bool>, options: AgenticOptions,
                     respond: nat -> Reply, base: nat)
    ensures var run := AgenticRun(itemIndex, prompt, useBrowser, options, respond, base);
      && (run.result.Ok? ==> run.result.value.pairedItem == itemIndex)
      && (run.result.Err? && run.result.error.Raised? ==>
            run.result.error.itemIndex == itemIndex && run.result.error.op == AgenticSearch)
  {
    if !IsBlank(prompt) {
      AsyncShape(AgenticJob, itemIndex, SubmitAgentic(Trim(prompt), UseBrowserOf(useBrowser)), AgenticPollOf(options), respond, base);
    }
  }

  /** The output of an operation is paired with its item, and every error
      it raises carries the operation and the item. */
  lemma OperationShape(op: Operation, p: Params, itemIndex: nat, respond: nat -> Reply, base: nat)
    ensures var run := OperationRun(op, p, itemIndex, respond, base);
      && (run.result.Ok? ==> run.result.value.pairedItem == itemIndex)
      && (run.result.Err? && run.result.error.Raised? ==>
            run.result.error.itemIndex == itemIndex && run.result.error.op == op)
  {
    match op
    case ScrapeUrl => ScrapeShape(itemIndex, p.url, p.options, respond, base);
    case Search =>
    case AgenticSearch => AgenticShape(itemIndex, p.agenticPrompt, p.useBrowser, p.agenticOptions, respond, base);
  }

  /** One item: a name that is not an operation does nothing; otherwise
      the output, if any, is paired with the item, and every error the
      operation raises carries the operation and the item. */
  lemma ItemShape(p: Params, itemIndex: nat, respond: nat -> Reply, base: nat)
    ensures var run := ItemRun(p, itemIndex, respond, base);
      && (ParseOperation(p.operation).None? ==> run == Run(Ok(None), [], 0))
      && (run.result == Ok(None) <==> ParseOperation(p.operation).None?)
      && (run.result.Ok? && run.result.value.Some? ==> run.result.value.value.pairedItem == itemIndex)
      && (run.result.Err? && run.result.error.Raised? ==>
            run.result.error.itemIndex == itemIndex && Some(run.result.error.op) == ParseOperation(p.operation))
  {
    var op := ParseOperation(p.operation);
    if op.Some? {
      OperationShape(op.value, p, itemIndex, respond, base);
    }
  }
}
