/** The poll loop shared by the scrape and agentic search operations: check
    the job's status at once, then after every sleep of the poll interval,
    until the job completes or fails or the maximum wait is used up. */
module Polling {
  import opened Results
  import opened JsValues
  import opened Protocol
  import opened Config
  import opened Classifier
  import opened Errors
  import opened Environment

  /** A submitted job, for the item at `itemIndex`. */
  datatype Job = Job(kind: JobKind, id: Value, itemIndex: nat)

  /** What the poll loop produces: the completed status response or the
      error it raises, the number of status checks it made, and the time it
      took since the loop started, in milliseconds. */
  datatype Polled = Polled(result: Result<Payload, NodeError>, checks: nat, elapsed: int)

  /** What the loop does after a status check: stop with a result, or go
      round again. */
  datatype Step = Stop(result: Result<Payload, NodeError>) | Continue

  /** The decision after a status check that ended `checked` milliseconds
      after the loop started: a completed job returns the response body, a
      failed job raises its failure detail, and a job still in progress
      raises a timeout once the maximum wait is used up. */
  function Decide(job: Job, cfg: PollConfig, answer: Answer, checked: int): Step {
    var op := JobOperation(job.kind);
    match answer
    case Broken(m) => Stop(Err(Transport(m)))
    case Body(body) =>
      match Classify(job.kind, body)
      case Completed => Stop(Ok(body))
      case Failed(detail) => Stop(Err(Raised(op, RemoteFailed(detail), job.itemIndex)))
      case InProgress =>
        if checked >= cfg.maxWaitMs then
          Stop(Err(Raised(op, NotCompleted(cfg.maxWaitMs / 1000, StatusOf(body)), job.itemIndex)))
        else Continue
  }

  /** The error raised at the head of the poll loop once the maximum wait
      is used up. */
  function Expired(job: Job, cfg: PollConfig): NodeError {
    Raised(JobOperation(job.kind), TimedOut(cfg.maxWaitMs / 1000), job.itemIndex)
  }

  /** The sleep before status check number `k` (counting from 0): none
      before the first. */
  function Pause(cfg: PollConfig, k: nat): int {
    if k == 0 then 0 else TimerDelay(cfg.intervalMs)
  }

  /** The events of status check number `k`: its sleep, if any, and its request. */
  function CheckEvents(job: Job, cfg: PollConfig, k: nat): (events: seq<Event>)
    ensures Requests(events) == 1
    ensures events[|events| - 1] == Issued(StatusRequest(job.kind, job.id))
  {
    var check := [Issued(StatusRequest(job.kind, job.id))];
    if k == 0 then check
    else
      var sleep := [Slept(TimerDelay(cfg.intervalMs))];
      RequestsAppend(sleep, check);
      sleep + check
  }

  /** The events of the first `n` status checks of a poll loop: the first
      check is issued at once and every later one after a sleep of the poll
      interval, so requests and sleeps alternate, starting and ending with a
      request. */
  function Checks(job: Job, cfg: PollConfig, n: nat): (events: seq<Event>)
    ensures Requests(events) == n
  {
    if n == 0 then []
    else
      var before := Checks(job, cfg, n - 1);
      RequestsAppend(before, CheckEvents(job, cfg, n - 1));
      before + CheckEvents(job, cfg, n - 1)
  }

  /** The poll loop from the head of its iteration after `k` status checks,
      `elapsed` milliseconds after the loop started. Status check number `k`
      gets the reply `respond(base + k)`; when the loop goes round, the
      reply's idle time passes before the next head. */
  function PollFrom(job: Job, cfg: PollConfig, respond: nat -> Reply, base: nat, k: nat, elapsed: int): Polled
    decreases if elapsed < cfg.maxWaitMs then cfg.maxWaitMs - elapsed else 0, if k == 0 then 1 else 0
  {
    if elapsed >= cfg.maxWaitMs then
      Polled(Err(Expired(job, cfg)), k, elapsed)
    else
      var checked := elapsed + Pause(cfg, k) + respond(base + k).latency;
      match Decide(job, cfg, respond(base + k).answer, checked)
      case Stop(result) => Polled(result, k + 1, checked)
      case Continue => PollFrom(job, cfg, respond, base, k + 1, checked + respond(base + k).idle)
  }

  /** The whole poll loop, whose status checks get the replies from `base` on. */
  function PollRun(job: Job, cfg: PollConfig, respond: nat -> Reply, base: nat): Polled {
    PollFrom(job, cfg, respond, base, 0, 0)
  }

  /** One iteration of the poll loop, as the method below takes it: the run
      of the loop resumed after `k` checks is decided by the next status
      check, or is the run resumed after `k + 1` checks once the reply's idle
      time has passed. */
  lemma PollResume(job: Job, cfg: PollConfig, respond: nat -> Reply, base: nat, k: nat, elapsed: int,
                   reply: Reply, checked: int, step: Step)
    requires elapsed < cfg.maxWaitMs
    requires reply == respond(base + k)
    requires checked == elapsed + Pause(cfg, k) + reply.latency
    requires step == Decide(job, cfg, reply.answer, checked)
    ensures step.Stop? ==> PollFrom(job, cfg, respond, base, k, elapsed) == Polled(step.result, k + 1, checked)
    ensures step.Continue? ==> checked < cfg.maxWaitMs
    ensures step.Continue? ==>
      PollFrom(job, cfg, respond, base, k, elapsed) == PollFrom(job, cfg, respond, base, k + 1, checked + reply.idle)
  {
  }

  /** The poll loop resumed once the maximum wait is used up times out
      without another check. */
  lemma PollExpired(job: Job, cfg: PollConfig, respond: nat -> Reply, base: nat, k: nat, elapsed: int)
    requires elapsed >= cfg.maxWaitMs
    ensures PollFrom(job, cfg, respond, base, k, elapsed) == Polled(Err(Expired(job, cfg)), k, elapsed)
  {
  }

  /** The host is at the head of the poll loop after `k` status checks:
      the checks so far, which got the replies from `base` on, are all it
      has done since the events `prior`, and `whole`, the run of the whole
      loop, is the run of the loop resumed here, `host.now - startTime`
      milliseconds after the loop started. */
  ghost predicate Resumes(host: Host, job: Job, cfg: PollConfig, startTime: int, base: nat, prior: seq<Event>,
                          k: nat, whole: Polled)
    reads host
  {
    && host.sent == base + k
    && host.trace == prior + Checks(job, cfg, k)
    && whole == PollFrom(job, cfg, host.respond, base, k, host.now - startTime)
  }

  /** One iteration of the poll loop after `k` earlier status checks,
      entered below the maximum wait: sleep for the poll interval unless
      this is the first check, check the status, and decide. A decision
      ends the whole loop; otherwise the idle time passes and the loop
      resumes after `k + 1` checks, at a later time unless this was the
      first check. */
  method CheckStatus(host: Host, job: Job, cfg: PollConfig, k: nat, startTime: int,
                     ghost base: nat, ghost prior: seq<Event>, ghost whole: Polled)
    returns (step: Step)
    modifies host
    requires host.now - startTime < cfg.maxWaitMs
    requires Resumes(host, job, cfg, startTime, base, prior, k, whole)
    ensures old(host.now) <= host.now && (k > 0 ==> old(host.now) < host.now)
    ensures step.Stop? ==> whole == Polled(step.result, k + 1, host.now - startTime)
    ensures step.Stop? ==> host.sent == base + k + 1 && host.trace == prior + Checks(job, cfg, k + 1)
    ensures step.Continue? ==> Resumes(host, job, cfg, startTime, base, prior, k + 1, whole)
  {
    ghost var elapsed := host.now - startTime;
    ghost var reply := host.respond(host.sent);
    if k > 0 {
      host.Sleep(cfg.intervalMs);
    }
    var answer := host.Request(StatusRequest(job.kind, job.id));
    step := Decide(job, cfg, answer, host.now - startTime);
    PollResume(job, cfg, host.respond, base, k, elapsed, reply, host.now - startTime, step);
    assert host.trace == prior + (Checks(job, cfg, k) + CheckEvents(job, cfg, k));
    if step.Continue? {
      host.Idle();
    }
  }

  /** The poll loop against the host: returns the body of the status
      response that completed the job, having made the status checks of
      `Checks` and nothing else. */
  method Poll(host: Host, job: Job, cfg: PollConfig) returns (r: Result<Payload, NodeError>)
    modifies host
    ensures var run := PollRun(job, cfg, host.respond, old(host.sent));
      && r == run.result
      && host.sent == old(host.sent) + run.checks
      && host.trace == old(host.trace) + Checks(job, cfg, run.checks)
      && host.now == old(host.now) + run.elapsed
  {
    var startTime := host.now;
    var attempts := 0;
    ghost var base := host.sent;
    ghost var prior := host.trace;
    ghost var whole := PollRun(job, cfg, host.respond, base);
    while host.now - startTime < cfg.maxWaitMs
      invariant Resumes(host, job, cfg, startTime, base, prior, attempts, whole)
      decreases cfg.maxWaitMs - (host.now - startTime) + (if attempts == 0 then 1 else 0)
    {
      var step := CheckStatus(host, job, cfg, attempts, startTime, base, prior, whole);
      if step.Stop? {
        return step.result;
      }
      attempts := attempts + 1;
    }
    PollExpired(job, cfg, host.respond, base, attempts, host.now - startTime);
    r := Err(Expired(job, cfg));
  }
}
