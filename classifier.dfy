/** Reading a job's identifier from the submit response and classifying a
    status response as completed, failed or still in progress. */
module Classifier {
  import opened JsValues
  import opened Protocol

  /** The `status` property of a status response. */
  function StatusOf(body: Payload): Value {
    Get(body, "status")
  }

  /** The statuses that end a job successfully: a scrape accepts
      `completed` and `success`, an agentic search only `completed`. */
  predicate IsCompletion(kind: JobKind, status: Value) {
    status == Str("completed") || (kind == ScrapeJob && status == Str("success"))
  }

  /** The statuses that end a job with a failure, for both kinds. */
  predicate IsFailure(status: Value) {
    status == Str("failed") || status == Str("error")
  }

  /** A status check's classification. */
  datatype Outcome = InProgress | Completed | Failed(detail: Value)

  /** The response properties a failure message is taken from, in priority order. */
  function DetailFields(kind: JobKind): seq<string> {
    match kind
    case ScrapeJob => ["error", "error_message"]
    case AgenticJob => ["message", "error"]
  }

  const UnknownError: Value := Str("Unknown error occurred")

  /** The failure detail: the first truthy property among the kind's detail
      fields, else the fixed text `Unknown error occurred`. */
  function FailureDetail(kind: JobKind, body: Payload): (m: Value)
    ensures Truthy(m)
    ensures var f := DetailFields(kind);
      && (Truthy(Get(body, f[0])) ==> m == Get(body, f[0]))
      && (!Truthy(Get(body, f[0])) && Truthy(Get(body, f[1])) ==> m == Get(body, f[1]))
      && (!Truthy(Get(body, f[0])) && !Truthy(Get(body, f[1])) ==> m == UnknownError)
  {
    var f := DetailFields(kind);
    var operands := [Get(body, f[0]), Get(body, f[1]), UnknownError];
    assert !Truthy(operands[0]) ==> forall j :: 0 <= j < 1 ==> !Truthy(operands[j]);
    assert Truthy(operands[1]) == Truthy(Get(body, f[1]));
    OrChain(operands)
  }

  /** Completion is checked first, then failure; any other status, including
      a missing one, leaves the job in progress. */
  function Classify(kind: JobKind, body: Payload): (o: Outcome)
    ensures o == Completed <==> IsCompletion(kind, StatusOf(body))
    ensures o.Failed? <==> !IsCompletion(kind, StatusOf(body)) && IsFailure(StatusOf(body))
    ensures o.Failed? ==> o.detail == FailureDetail(kind, body)
  {
    var status := StatusOf(body);
    if IsCompletion(kind, status) then Completed
    else if IsFailure(status) then Failed(FailureDetail(kind, body))
    else InProgress
  }

  /** The scrape job's terminal statuses. */
  lemma ScrapeStatuses(body: Payload)
    ensures Classify(ScrapeJob, body) == Completed <==> StatusOf(body) in {Str("completed"), Str("success")}
    ensures Classify(ScrapeJob, body).Failed? <==> StatusOf(body) in {Str("failed"), Str("error")}
    ensures Classify(ScrapeJob, body) == InProgress <==>
      StatusOf(body) !in {Str("completed"), Str("success"), Str("failed"), Str("error")}
  {
  }

  /** The agentic search job's terminal statuses: `success` is not one. */
  lemma AgenticStatuses(body: Payload)
    ensures Classify(AgenticJob, body) == Completed <==> StatusOf(body) == Str("completed")
    ensures Classify(AgenticJob, body).Failed? <==> StatusOf(body) in {Str("failed"), Str("error")}
    ensures StatusOf(body) == Str("success") ==> Classify(AgenticJob, body) == InProgress
  {
  }

  /** The properties the job identifier is read from, in priority order. The
      scrape operation reads `jobId` twice. */
  function IdFields(kind: JobKind): seq<string> {
    match kind
    case ScrapeJob => ["jobId", "jobId"]
    case AgenticJob => ["job_id", "jobId"]
  }

  /** The job identifier: `body[f0] || body[f1]`. The node proceeds only
      when it is truthy. */
  function JobId(kind: JobKind, body: Payload): (id: Value)
    ensures Truthy(id) <==> Truthy(Get(body, IdFields(kind)[0])) || Truthy(Get(body, IdFields(kind)[1]))
    ensures Truthy(Get(body, IdFields(kind)[0])) ==> id == Get(body, IdFields(kind)[0])
    ensures !Truthy(Get(body, IdFields(kind)[0])) ==> id == Get(body, IdFields(kind)[1])
  {
    var f := IdFields(kind);
    OrChain([Get(body, f[0]), Get(body, f[1])])
  }

  /** A scrape job's identifier is its `jobId` property and nothing else. */
  lemma ScrapeJobIdIsJobId(body: Payload)
    ensures JobId(ScrapeJob, body) == Get(body, "jobId")
  {
  }
}
