# Anakin node for n8n: a verified model of its execution core

The Anakin node (`n8n/nodes/AnakinScraper/AnakinScraper.node.ts`) offers
three operations on each input item of an n8n workflow:

- **scrape URL** submits a scraping job and polls its status;
- **search** makes one synchronous search request;
- **agentic search** submits an agentic search job and polls it.

The node's `execute` runs the items in order. Without the workflow's
`continueOnFail` setting it stops at the first error. With it, it records
the error as a `{success: false, error}` output item and goes on.

This project models that core in Dafny:

- the validation of the required url or prompt (`Text`);
- the `||` defaulting of the options (`Config`);
- the job identifier and the status classification (`Classifier`);
- the poll loop (`Polling`) and the three operations (`Operations`);
- the batch driver (`Batch`);
- the error messages (`Errors`).

The code that updates state step by step is written as methods on a
`Host`. The `Host` stands for what the node reaches outside itself:

- it answers the n-th request with a reply given in advance (a parsed JSON
  body or a transport error, plus the time the exchange took);
- it keeps a monotonic clock;
- it records every request and every sleep in a trace.

Each method is proved equal to a function of the replies:

| method | function |
|---|---|
| `Poll` | `PollRun` |
| `ExecuteScrapeUrl` | `ScrapeRun` |
| `ExecuteSearch` | `SearchRun` |
| `ExecuteAgenticSearch` | `AgenticRun` |
| `Execute` | `BatchRun` |

"Equal" here covers the result, the requests sent, the trace and the time
taken. The properties of the node are then proved as lemmas about those
functions, for every input and every sequence of replies (`PollProperties`,
`OperationProperties`, `BatchProperties`).

## Model

With a 10 s maximum wait and a 3 s interval the loop makes five checks, at 0, 3, 6, 9 and 12 s, because the wait is tested at the loop head, before the sleep (`PollProperties.SlowJob`).


| member | source | states |
|---|---|---|
| JsValues.Truthy | n8n/nodes/AnakinScraper/AnakinScraper.node.ts:286 | JavaScript truthiness: `undefined`, `null`, `false`, `0` and the empty text are falsy; definition used by the `or` chains and the `!requestId` tests |
| JsValues.Render | n8n/nodes/AnakinScraper/AnakinScraper.node.ts:364 | the text a template literal gives a status or detail value; definition used by the messages and the status paths |
| JsValues.OrChain | n8n/nodes/AnakinScraper/AnakinScraper.node.ts:349-351 | a chain of `or` operators yields one of its operands: the first truthy one, or the last when none is truthy; it is truthy exactly when some operand is |
| JsValues.OrChainRepeated | n8n/nodes/AnakinScraper/AnakinScraper.node.ts:284 | reading the same property twice in an `or` chain is reading it once |
| JsValues.Spread | n8n/nodes/AnakinScraper/AnakinScraper.node.ts:335-344 | the spread record has the keys of both records; a response property overrides the node's property of the same name, and the node's other properties are kept |
| JsValues.SpreadIdempotent | n8n/nodes/AnakinScraper/AnakinScraper.node.ts:418-426 | spreading the same response a second time changes nothing |
| JsValues.SpreadAssociative | n8n/nodes/AnakinScraper/AnakinScraper.node.ts:522-531 | successive spreads group either way |
| Text.Trim | n8n/nodes/AnakinScraper/AnakinScraper.node.ts:275 | `trim` yields a slice of its input with only whitespace cut off at both ends, and the result neither starts nor ends with whitespace |
| Text.IsBlank | n8n/nodes/AnakinScraper/AnakinScraper.node.ts:387 | the test that a prompt is missing or empty once trimmed; definition, characterised by `Text.BlankIffAllWhitespace` |
| Text.BlankIffAllWhitespace | n8n/nodes/AnakinScraper/AnakinScraper.node.ts:252 | the blank test (no text, or an empty trimmed text) rejects exactly the texts made only of whitespace, the empty text included |
| Text.TrimIdempotent | n8n/nodes/AnakinScraper/AnakinScraper.node.ts:409 | trimming a trimmed text changes nothing |
| Config.OrDefaultNumber | n8n/nodes/AnakinScraper/AnakinScraper.node.ts:246-247 | for a number option, `OrDefault(o, 0, d)` is the JavaScript value of `o` or-ed with `d` (the first operand if truthy, else the second), with an option the user did not add read as `undefined` |
| Config.OrDefaultText | n8n/nodes/AnakinScraper/AnakinScraper.node.ts:248 | for a text option, `OrDefault(o, '', d)` is the JavaScript value of `o` or-ed with `d` (the first operand if truthy, else the second) |
| Config.OrDefaultFlag | n8n/nodes/AnakinScraper/AnakinScraper.node.ts:249 | for a flag, `OrDefault(o, false, d)` is the JavaScript value of `o` or-ed with `d` (the first operand if truthy, else the second) |
| Config.ScrapeSettingsOf | n8n/nodes/AnakinScraper/AnakinScraper.node.ts:246-249 | the scrape defaults are a 300 s wait, a 3 s interval, country `us` and no forced refresh; an absent or falsy option gives the default; durations are converted to milliseconds; `force_fresh` is true only when set to true |
| Config.AgenticPollOf | n8n/nodes/AnakinScraper/AnakinScraper.node.ts:437-438 | the agentic defaults are a 600 s wait and a 5 s interval, used the same way, in milliseconds |
| Config.SearchLimitOf | n8n/nodes/AnakinScraper/AnakinScraper.node.ts:384-410 | the limit sent is the given limit unless that is absent or 0, which gives 5; it is never 0 |
| Config.UseBrowserOf | n8n/nodes/AnakinScraper/AnakinScraper.node.ts:433 | `useBrowser` is false exactly when it is given as false |
| Config.MillisRoundTrip | n8n/nodes/AnakinScraper/AnakinScraper.node.ts:364 | the seconds a timeout message reports, `maxWaitTime / 1000`, are exactly the effective option value |
| Classifier.FailureDetail | n8n/nodes/AnakinScraper/AnakinScraper.node.ts:349-351 | the failure detail is always truthy: the first truthy property among the kind's two detail properties (`error`, `error_message` for a scrape; `message`, `error` for an agentic search), else `Unknown error occurred` |
| Classifier.Classify | n8n/nodes/AnakinScraper/AnakinScraper.node.ts:327-358 | completion is tested first and then failure; a failure carries the failure detail; in both directions |
| Classifier.ScrapeStatuses | n8n/nodes/AnakinScraper/AnakinScraper.node.ts:332-348 | for a scrape, `completed` and `success` complete, `failed` and `error` fail, and every other status is in progress, each in both directions |
| Classifier.AgenticStatuses | n8n/nodes/AnakinScraper/AnakinScraper.node.ts:519-535 | for an agentic search only `completed` completes, `failed` and `error` fail, and `success` leaves the job in progress |
| Classifier.JobId | n8n/nodes/AnakinScraper/AnakinScraper.node.ts:471 | the job identifier is the first candidate property if that is truthy, else the second; it is truthy exactly when one of the two is |
| Classifier.ScrapeJobIdIsJobId | n8n/nodes/AnakinScraper/AnakinScraper.node.ts:284 | a scrape's identifier is its `jobId` property and nothing else |
| Protocol.ParseOperation | n8n/nodes/AnakinScraper/AnakinScraper.node.ts:206-217 | exactly the names `scrapeUrl`, `search` and `agenticSearch` are recognised, each as the operation it names |
| Protocol.ParseOperationName | n8n/nodes/AnakinScraper/AnakinScraper.node.ts:208-216 | every operation's name dispatches to that operation |
| Protocol.Path | n8n/nodes/AnakinScraper/AnakinScraper.node.ts:319 | the endpoint path of each request, the job identifier rendered into the status paths; definition |
| Protocol.RequestBody | n8n/nodes/AnakinScraper/AnakinScraper.node.ts:273-278 | the JSON body of each POST request: `job_type`, `url`, `country`, `force_fresh` for a scrape, `prompt` and `limit` for a search, `prompt` and `useBrowser` for an agentic search; definition |
| Errors.Message | n8n/nodes/AnakinScraper/AnakinScraper.node.ts:353-377 | the message of each error the node raises, per operation and reason, as the failure record copies it at line 222; definition |
| Environment.TimerDelay | n8n/nodes/AnakinScraper/AnakinScraper.node.ts:305-308 | the timer waits for the interval when it lies between 1 ms and 2^31-1 ms, and for 1 ms otherwise |
| Environment.Host.Request | n8n/nodes/AnakinScraper/AnakinScraper.node.ts:314-325 | a request gets the next reply, takes its latency and is recorded in the trace |
| Environment.Host.Sleep | n8n/nodes/AnakinScraper/AnakinScraper.node.ts:305-308 | a sleep advances the clock by the timer's delay and is recorded in the trace |
| Environment.Host.Idle | n8n/nodes/AnakinScraper/AnakinScraper.node.ts:361-370 | the time between the clock reading after a status check and the next loop head advances the clock, with no request and nothing recorded |
| Polling.Decide | n8n/nodes/AnakinScraper/AnakinScraper.node.ts:327-367 | the decision after a status check: completion returns the body, a failure raises its detail, a pending status at or past the maximum wait raises "did not complete", otherwise the loop goes on; definition, characterised by `PollProperties.LastCheck` |
| Polling.PollFrom | n8n/nodes/AnakinScraper/AnakinScraper.node.ts:300-377 | the loop from its head after `k` checks: the head-of-loop timeout once the maximum wait is used up, else one more check and its decision; definition, characterised by the `PollProperties` lemmas |
| Polling.PollRun | n8n/nodes/AnakinScraper/AnakinScraper.node.ts:297-377 | the whole loop from its start; definition that `Polling.Poll` is proved equal to |
| Polling.Expired | n8n/nodes/AnakinScraper/AnakinScraper.node.ts:373-377 | the head-of-loop timeout error, reporting `maxWaitTime / 1000` seconds; definition |
| Polling.CheckEvents | n8n/nodes/AnakinScraper/AnakinScraper.node.ts:304-325 | a status check issues exactly one request, and that request is its last event |
| Polling.Checks | n8n/nodes/AnakinScraper/AnakinScraper.node.ts:300-325 | `n` status checks issue exactly `n` requests |
| Polling.PollResume | n8n/nodes/AnakinScraper/AnakinScraper.node.ts:300-371 | one loop iteration below the maximum wait either decides the whole loop or leaves it to resume after one more check, still below the maximum wait |
| Polling.PollExpired | n8n/nodes/AnakinScraper/AnakinScraper.node.ts:373-377 | at the loop head with the maximum wait used up, the loop raises the timeout for the item without another check |
| Polling.CheckStatus | n8n/nodes/AnakinScraper/AnakinScraper.node.ts:301-368 | an iteration sleeps only after the first check, so the clock moves forward after the first; it issues one status request and then ends the loop or resumes it |
| Polling.Poll | n8n/nodes/AnakinScraper/AnakinScraper.node.ts:297-377 | the loop returns the result of `PollRun`, makes exactly its checks and nothing else, and takes its time |
| PollProperties.ChecksShape | n8n/nodes/AnakinScraper/AnakinScraper.node.ts:300-325 | `n` checks are `2n - 1` events; status requests and sleeps of the poll interval alternate, starting and ending with a request, so no sleep precedes the first check |
| PollProperties.BoundFrom | n8n/nodes/AnakinScraper/AnakinScraper.node.ts:300-309 | checks that kept to the poll interval so far keep to it until the loop ends: after `n` checks the loop has taken at least `n - 1` effective intervals, and `n - 2` intervals are less than the maximum wait |
| PollProperties.OutcomeFrom | n8n/nodes/AnakinScraper/AnakinScraper.node.ts:300-371 | a loop resumed below the maximum wait makes another check, and every reply before its last was a pending status; the last check decides the result, unless it was pending too and the maximum wait ran out before the loop head, where the loop then times out |
| PollProperties.CheckCount | n8n/nodes/AnakinScraper/AnakinScraper.node.ts:300-371 | the loop makes no check exactly when the maximum wait is not positive; otherwise it makes at most `ceil(W / d) + 1` checks for a maximum wait `W` and an effective interval `d`; a loop that made `n` checks took at least `n - 1` intervals |
| PollProperties.LastCheck | n8n/nodes/AnakinScraper/AnakinScraper.node.ts:327-377 | with a positive maximum wait, in both directions: the loop returns the body exactly when the last reply completes the job, passes a transport error on exactly when the last reply is one, and raises the failure detail exactly when the last reply is a failure; a last reply still in progress ends in "did not complete" with the seconds and that status, or in the head-of-loop timeout, both past the maximum wait |
| PollProperties.PollErrors | n8n/nodes/AnakinScraper/AnakinScraper.node.ts:348-377 | every error the loop raises belongs to the job's operation and item; a maximum wait that is not positive gives the head-of-loop timeout with no check made and no time taken; otherwise that timeout comes past the maximum wait, after a check that left the job in progress |
| PollProperties.IdleTimeout | n8n/nodes/AnakinScraper/AnakinScraper.node.ts:300-377 | a scrape still `processing` whose only check ends 1 ms before a 3 s maximum wait, with 1 ms passing before the loop head, times out at the head after one check, reporting 3 seconds |
| PollProperties.SlowJob | n8n/nodes/AnakinScraper/AnakinScraper.node.ts:300-367 | a scrape still `processing` with a 10 s maximum wait and the default 3 s interval is checked five times, at 0, 3, 6, 9 and 12 s, and fails reporting 10 seconds and `processing` |
| Operations.AsyncRun | n8n/nodes/AnakinScraper/AnakinScraper.node.ts:263-377 | the submit request and the poll loop of a job; definition, characterised by `OperationProperties.AsyncShape` and `AsyncSuccess` |
| Operations.ScrapeRun | n8n/nodes/AnakinScraper/AnakinScraper.node.ts:240-378 | `executeScrapeUrl` as a function of the replies; definition, characterised by `ScrapeValidation`, `ScrapeSuccess` and `ScrapeShape` |
| Operations.SearchRun | n8n/nodes/AnakinScraper/AnakinScraper.node.ts:381-427 | `executeSearch` as a function of the replies; definition, characterised by `SearchValidation` and `SearchResult` |
| Operations.AgenticRun | n8n/nodes/AnakinScraper/AnakinScraper.node.ts:430-565 | `executeAgenticSearch` as a function of the replies; definition, characterised by `AgenticValidation`, `AgenticSuccess` and `AgenticShape` |
| Operations.OperationRun | n8n/nodes/AnakinScraper/AnakinScraper.node.ts:208-216 | the dispatch to the three operations; definition |
| Operations.ItemRun | n8n/nodes/AnakinScraper/AnakinScraper.node.ts:206-217 | one item of the loop: nothing for an unknown operation name; definition, characterised by `OperationProperties.ItemShape` |
| Operations.AsyncPolled | n8n/nodes/AnakinScraper/AnakinScraper.node.ts:284-300 | a submit response with a truthy identifier starts the poll loop for that identifier from the next reply on |
| Operations.SubmitAndPoll | n8n/nodes/AnakinScraper/AnakinScraper.node.ts:263-300 | submitting and polling against the host is the run `AsyncRun`: same result, requests, trace and time |
| Operations.AwaitJob | n8n/nodes/AnakinScraper/AnakinScraper.node.ts:297-377 | polling after the submit request ends with the submit request followed by the loop's checks, and returns the completed body with the identifier |
| Operations.ExecuteScrapeUrl | n8n/nodes/AnakinScraper/AnakinScraper.node.ts:240-378 | `executeScrapeUrl` is the run `ScrapeRun`: same result, requests, trace and time |
| Operations.ExecuteSearch | n8n/nodes/AnakinScraper/AnakinScraper.node.ts:381-427 | `executeSearch` is the run `SearchRun` |
| Operations.ExecuteAgenticSearch | n8n/nodes/AnakinScraper/AnakinScraper.node.ts:430-565 | `executeAgenticSearch` is the run `AgenticRun` |
| Operations.ExecuteOperation | n8n/nodes/AnakinScraper/AnakinScraper.node.ts:208-216 | each operation runs its own method, and the result is the run `OperationRun` |
| Operations.ExecuteItem | n8n/nodes/AnakinScraper/AnakinScraper.node.ts:206-217 | one item is the run `ItemRun`; an unknown operation does nothing |
| OperationProperties.AsyncShape | n8n/nodes/AnakinScraper/AnakinScraper.node.ts:283-292 | the submit request comes first; a missing identifier raises "No ... ID" after exactly that one request, in both directions; every error raised names the job's operation and item and is never a blank-input error |
| OperationProperties.AsyncSuccess | n8n/nodes/AnakinScraper/AnakinScraper.node.ts:284-345 | a job that succeeds had a truthy identifier and at least one status check, and its last reply was a completion status whose body is returned |
| OperationProperties.ScrapeValidation | n8n/nodes/AnakinScraper/AnakinScraper.node.ts:251-281 | a blank url raises `URL is required` exactly when the url is blank, with no request and no time taken; any other url is submitted trimmed with the defaulted country and `force_fresh` |
| OperationProperties.ScrapeSuccess | n8n/nodes/AnakinScraper/AnakinScraper.node.ts:332-344 | a successful scrape returns `{success, operation, request_id, url}` with the url as given, overlaid by the completed status response |
| OperationProperties.SearchValidation | n8n/nodes/AnakinScraper/AnakinScraper.node.ts:386-414 | a blank prompt raises `Search query is required` exactly when the prompt is blank, with no request; any other prompt is sent trimmed, with the defaulted limit, in exactly one request |
| OperationProperties.SearchResult | n8n/nodes/AnakinScraper/AnakinScraper.node.ts:398-426 | a search succeeds exactly when its prompt is not blank and its request gets a response, and then returns the search record with the prompt as given, overlaid by the response; a transport error passes through unchanged, in both directions |
| OperationProperties.AgenticValidation | n8n/nodes/AnakinScraper/AnakinScraper.node.ts:440-468 | a blank prompt raises `Search prompt is required` exactly when the prompt is blank, with no request; any other prompt is submitted trimmed with `useBrowser` |
| OperationProperties.AgenticSuccess | n8n/nodes/AnakinScraper/AnakinScraper.node.ts:519-531 | a successful agentic search had a `completed` last status, and returns `{success, operation, job_id, prompt}` with the prompt as given, overlaid by that response |
| OperationProperties.ScrapeShape | n8n/nodes/AnakinScraper/AnakinScraper.node.ts:343 | a scrape's output is paired with its item, and its errors name the scrape operation and the item |
| OperationProperties.AgenticShape | n8n/nodes/AnakinScraper/AnakinScraper.node.ts:530 | an agentic search's output is paired with its item, and its errors name that operation and the item |
| OperationProperties.OperationShape | n8n/nodes/AnakinScraper/AnakinScraper.node.ts:208-216 | any operation's output is paired with its item, and its errors name the operation and the item |
| OperationProperties.ItemShape | n8n/nodes/AnakinScraper/AnakinScraper.node.ts:206-217 | an item produces no output exactly when it names no operation, and then does nothing; otherwise its output is paired with it and its errors name its operation and index |
| Batch.FailureItem | n8n/nodes/AnakinScraper/AnakinScraper.node.ts:223-229 | the failure record `{success: false, error: message}` paired with the item; definition |
| Batch.Extend | n8n/nodes/AnakinScraper/AnakinScraper.node.ts:208-232 | the output list after one item: its output appended, its error recorded with `continueOnFail` or raised without it; definition |
| Batch.Advance | n8n/nodes/AnakinScraper/AnakinScraper.node.ts:204-233 | the batch after one more item, which changes nothing once an error was raised; definition |
| Batch.BatchPrefix | n8n/nodes/AnakinScraper/AnakinScraper.node.ts:204-234 | the batch after its first `n` items; definition, characterised by the `BatchProperties` lemmas |
| Batch.BatchRun | n8n/nodes/AnakinScraper/AnakinScraper.node.ts:199-237 | the batch of all the node's items; definition that `Batch.Execute` is proved equal to |
| Batch.NextCountsRequests | n8n/nodes/AnakinScraper/AnakinScraper.node.ts:204-234 | after any number of items, the next reply index is the first index plus the number of requests made |
| Batch.StoppedStays | n8n/nodes/AnakinScraper/AnakinScraper.node.ts:232 | once an error has been raised, later items change nothing |
| Batch.ExecuteStep | n8n/nodes/AnakinScraper/AnakinScraper.node.ts:205-233 | one pass of the loop advances the batch by one item: the host has done what that item does, and its output, failure record or error is added |
| Batch.ExecuteItems | n8n/nodes/AnakinScraper/AnakinScraper.node.ts:204-234 | the loop over all items ends in the state of `BatchPrefix` after all items |
| Batch.Execute | n8n/nodes/AnakinScraper/AnakinScraper.node.ts:199-237 | `execute` is the run `BatchRun`: same output or error, requests, trace and time |
| BatchProperties.ContinueOnFailOk | n8n/nodes/AnakinScraper/AnakinScraper.node.ts:219-231 | with `continueOnFail` the batch never raises |
| BatchProperties.ModesAgree | n8n/nodes/AnakinScraper/AnakinScraper.node.ts:219-233 | a batch that raises nothing without `continueOnFail` is the same batch with it |
| BatchProperties.FirstError | n8n/nodes/AnakinScraper/AnakinScraper.node.ts:219-233 | a batch that raises without `continueOnFail` stopped at some item `k`: the items before it raised nothing, item `k` raised the batch's error, and nothing ran after it |
| BatchProperties.PairedInOrder | n8n/nodes/AnakinScraper/AnakinScraper.node.ts:204-230 | the output items are paired with items of the batch in strictly increasing order |
| BatchProperties.OutputCount | n8n/nodes/AnakinScraper/AnakinScraper.node.ts:204-231 | with `continueOnFail` every item that names an operation gives exactly one output item and every other item none |
| BatchProperties.OutputsGrow | n8n/nodes/AnakinScraper/AnakinScraper.node.ts:204-231 | with `continueOnFail` the outputs and the events of earlier items are prefixes of the later ones: items are processed in order and only appended to |
| BatchProperties.FailureRecorded | n8n/nodes/AnakinScraper/AnakinScraper.node.ts:221-230 | with `continueOnFail` a failing item `k` is recorded right after the outputs of the items before it as `{success: false, error: message}` paired with item `k` |
| BatchProperties.SuccessRecorded | n8n/nodes/AnakinScraper/AnakinScraper.node.ts:208-216 | with `continueOnFail` an item that outputs a record has that record right after the outputs of the items before it |
| BatchProperties.NodeItemsShape | n8n/nodes/AnakinScraper/AnakinScraper.node.ts:206-217 | the node's items pair their outputs with themselves, and an item outputs nothing exactly when it names no operation |
| BatchProperties.ContinueOnFailBatch | n8n/nodes/AnakinScraper/AnakinScraper.node.ts:199-237 | `execute` with `continueOnFail` never raises, outputs one item for every item that names an operation, and pairs them with the input items in order |
| BatchProperties.FailFastBatch | n8n/nodes/AnakinScraper/AnakinScraper.node.ts:199-237 | `execute` without `continueOnFail` that raises nothing outputs what it would with it, in item order |
| BatchProperties.FailFastError | n8n/nodes/AnakinScraper/AnakinScraper.node.ts:219-233 | `execute` without `continueOnFail` that raises raises the error of the first failing item, after the events of the items before it and of that item only; an error the node raised names that item's index and operation |

## Left out

- The node's `description` (lines 10-197) is declarative parameter schema with no behaviour.
- The credential file `credentials/AnakinScraperApi.credentials.ts` is not part of this model. Neither is the credential lookup before the loop (line 202), whose failure would abort the node.
- The base URL is not modelled: a request is described by its endpoint, verb, path and body (`Protocol.Path`, `Protocol.RequestBody`). Headers are not modelled either.
- HTTP transport is not modelled. A request's answer is a parsed JSON object or a transport error with its message, supplied as a reply. The message the n8n HTTP helper gives is not modelled.
- Real time is not modelled. The clock moves when a request answers (by the reply's latency), when a timer fires (by the timer's delay), and after a status check that leaves the job in progress (by the reply's idle time, which covers the work between the clock reading at line 361 or 548 and the next loop head at line 300 or 487). Time lost elsewhere in an iteration, such as a late timer, only matters through the clock reading after the check, and counts as part of the reply's latency.
- The time between reading `startTime` (line 297 or 484) and the first loop-head test (line 300 or 487) is taken to be zero: no call or `await` lies between them.
- The timer is looked up as `(this.constructor as any).prototype.constructor('return this')().setTimeout` (lines 306 and 493). The model assumes this expression yields the global `setTimeout` and keeps only the delay Node.js honours (`Environment.TimerDelay`). Read as text, the expression calls the constructor of the node's execution context, not `Function`, and would then likely throw a `TypeError` inside the promise executor at the second status check, so that no second check is made; this was not executed, and the model does not capture it.
- Logging (`this.logger`), async/await and promise scheduling are not modelled.
- Numbers are integers, not JavaScript floats. A fractional option (for example 1.5 seconds) and the float result of `maxWaitTime / 1000` for one are not modelled.
- Parameters and options are typed, as n8n's parameter definitions make them: a `maxWaitTime` given as a string, for instance, is not modelled.
- A response body is a JSON object. Spreading an array or a string response (`...` over indices or characters) is not modelled.
- The order of properties in an output record is not modelled: records are maps.
- `error instanceof Error ? error.message : 'Unknown error'` (line 222) is modelled only for Error values. Every error the node or a failed request raises is an `Error`, so the `'Unknown error'` branch is never taken.
- `execute` wraps its output in a one-element list of outputs (line 236). The model returns the list of output items itself.
