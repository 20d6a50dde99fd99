/** What the poll loop does for every sequence of replies: how many status
    checks it makes within its budget, and which reply decides its result. */
module PollProperties {
  import opened Results
  import opened JsValues
  import opened Protocol
  import opened Config
  import opened Classifier
  import opened Errors
  import opened Environment
  import opened Polling

  /** A reply that keeps the loop going: a status response whose status is
      neither a completion nor a failure. */
  predicate Pending(kind: JobKind, answer: Answer) {
    answer.Body? && Classify(kind, answer.payload) == InProgress
  }

  /** The first `n` status checks are `2n - 1` events in which requests
      and sleeps of the poll interval alternate, starting and ending with a
      status request. */
  lemma {:induction false} ChecksShape(job: Job, cfg: PollConfig, n: nat)
    ensures var events := Checks(job, cfg, n);
      && |events| == (if n == 0 then 0 else 2 * n - 1)
      && forall i :: 0 <= i < |events| ==>
           events[i] == if i % 2 == 0 then Issued(StatusRequest(job.kind, job.id)) else Slept(TimerDelay(cfg.intervalMs))
  {
    if n > 0 {
      ChecksShape(job, cfg, n - 1);
      var before := Checks(job, cfg, n - 1);
      var check := CheckEvents(job, cfg, n - 1);
      assert Checks(job, cfg, n) == before + check;
      forall i | 0 <= i < |before + check|
        ensures (before + check)[i]
          == if i % 2 == 0 then Issued(StatusRequest(job.kind, job.id)) else Slept(TimerDelay(cfg.intervalMs))
      {
        if i >= |before| && n > 1 {
          if i == |before| {
            assert i == 2 * (n - 2) + 1;
          } else {
            assert i == 2 * (n - 1);
          }
        }
      }
    }
  }

  /** `(k - 1) * d + d == k * d`, spelled out for the solver. */
  lemma NextMultiple(k: int, d: int)
    ensures (k - 1) * d + d == k * d
  {
  }

  /** The loop resumed after `k` checks at `elapsed`, where the `k` checks
      so far kept to the poll interval, ends with checks that kept to it. */
  lemma {:induction false} BoundFrom(job: Job, cfg: PollConfig, respond: nat -> Reply, base: nat, k: nat, elapsed: int)
    requires 0 <= elapsed
    requires k >= 1 ==> (k - 1) * TimerDelay(cfg.intervalMs) <= elapsed
    requires k >= 2 ==> (k - 2) * TimerDelay(cfg.intervalMs) < cfg.maxWaitMs
    ensures var run := PollFrom(job, cfg, respond, base, k, elapsed);
      && k <= run.checks
      && (run.checks >= 1 ==> (run.checks - 1) * TimerDelay(cfg.intervalMs) <= run.elapsed)
      && (run.checks >= 2 ==> (run.checks - 2) * TimerDelay(cfg.intervalMs) < cfg.maxWaitMs)
    decreases if elapsed < cfg.maxWaitMs then cfg.maxWaitMs - elapsed else 0, if k == 0 then 1 else 0
  {
    var d := TimerDelay(cfg.intervalMs);
    if elapsed < cfg.maxWaitMs {
      var checked := elapsed + Pause(cfg, k) + respond(base + k).latency;
      NextMultiple(k, d);
      assert k * d <= checked;
      assert k >= 1 ==> (k - 1) * d < cfg.maxWaitMs;
      if Decide(job, cfg, respond(base + k).answer, checked).Continue? {
        BoundFrom(job, cfg, respond, base, k + 1, checked + respond(base + k).idle);
      }
    }
  }

  /** Multiplying by a positive factor keeps a strict order. */
  lemma FactorOrder(a: int, b: int, d: int)
    requires 0 < d && a * d < b * d
    ensures a < b
  {
    assert (b - a) * d == b * d - a * d;
  }

  /** `n` checks whose last-but-one starts within `w` milliseconds number at
      most `(w - 1) / d + 2`. */
  lemma CountFromSpacing(n: nat, d: int, w: int)
    requires 0 < d && 0 < w
    requires n >= 2 ==> (n - 2) * d < w
    ensures n <= (w - 1) / d + 2
  {
    if n >= 2 {
      var q := (w - 1) / d;
      assert q * d + (w - 1) % d == w - 1;
      assert (q + 1) * d == q * d + d;
      FactorOrder(n - 2, q + 1, d);
    }
  }

  /** The loop resumed below its budget after `k` checks makes at least one
      more check, and the checks before its last were pending. Its last
      check decides the result, unless that check was pending too and the
      maximum wait ran out while the node was idle, before the head of the
      loop: then the loop times out there. */
  lemma {:induction false} OutcomeFrom(job: Job, cfg: PollConfig, respond: nat -> Reply, base: nat, k: nat, elapsed: int)
    requires elapsed < cfg.maxWaitMs
    ensures var run := PollFrom(job, cfg, respond, base, k, elapsed);
      && k < run.checks
      && (forall n :: base + k <= n < base + run.checks - 1 ==> Pending(job.kind, respond(n).answer))
      && (run.result != Err(Expired(job, cfg)) ==>
            Decide(job, cfg, respond(base + run.checks - 1).answer, run.elapsed) == Stop(run.result))
      && (run.result == Err(Expired(job, cfg)) ==>
            Pending(job.kind, respond(base + run.checks - 1).answer) && cfg.maxWaitMs <= run.elapsed)
    decreases cfg.maxWaitMs - elapsed, if k == 0 then 1 else 0
  {
    var checked := elapsed + Pause(cfg, k) + respond(base + k).latency;
    if Decide(job, cfg, respond(base + k).answer, checked).Continue? {
      var answer := respond(base + k).answer;
      assert answer.Body? && Classify(job.kind, answer.payload) == InProgress;
      var next := checked + respond(base + k).idle;
      if next < cfg.maxWaitMs {
        OutcomeFrom(job, cfg, respond, base, k + 1, next);
      }
    }
  }

  /** How many status checks the loop makes: none when the maximum wait is
      not positive, and otherwise at most one more than the number of poll
      intervals that start before the maximum wait ends (`ceil(W / d) + 1`
      for a maximum wait `W` and an effective interval `d`). Check number
      `n` (counting from 1) ends at least `n - 1` intervals after the loop
      started. */
  lemma CheckCount(job: Job, cfg: PollConfig, respond: nat -> Reply, base: nat)
    ensures var run := PollRun(job, cfg, respond, base);
      var d := TimerDelay(cfg.intervalMs);
      && (run.checks == 0 <==> cfg.maxWaitMs <= 0)
      && (run.checks >= 1 ==> (run.checks - 1) * d <= run.elapsed)
      && (cfg.maxWaitMs > 0 ==> run.checks <= (cfg.maxWaitMs - 1) / d + 2)
  {
    var run := PollRun(job, cfg, respond, base);
    BoundFrom(job, cfg, respond, base, 0, 0);
    if cfg.maxWaitMs > 0 {
      OutcomeFrom(job, cfg, respond, base, 0, 0);
      CountFromSpacing(run.checks, TimerDelay(cfg.intervalMs), cfg.maxWaitMs);
    }
  }

  /** The result of the poll loop with a positive maximum wait comes from
      the reply to its last status check: the completed body itself, the
      transport error or the job's failure detail. A status still in
      progress ends the loop with one of the two timeouts: "did not
      complete", with the last status, when the check itself ended past the
      maximum wait, or the timeout at the head of the loop when the maximum
      wait ran out after the check. Every earlier reply was a status
      response of a job in progress. */
  lemma LastCheck(job: Job, cfg: PollConfig, respond: nat -> Reply, base: nat)
    requires cfg.maxWaitMs > 0
    ensures PollRun(job, cfg, respond, base).checks >= 1
    ensures var run := PollRun(job, cfg, respond, base);
      var last := respond(base + run.checks - 1).answer;
      var op := JobOperation(job.kind);
      && (forall n :: base <= n < base + run.checks - 1 ==> Pending(job.kind, respond(n).answer))
      && (forall m :: run.result == Err(Transport(m)) <==> last == Broken(m))
      && (run.result.Ok? <==> last.Body? && IsCompletion(job.kind, StatusOf(last.payload)))
      && (run.result.Ok? ==> run.result.value == last.payload)
      && (forall detail :: run.result == Err(Raised(op, RemoteFailed(detail), job.itemIndex)) <==>
            last.Body? && !IsCompletion(job.kind, StatusOf(last.payload)) && IsFailure(StatusOf(last.payload))
            && detail == FailureDetail(job.kind, last.payload))
      && (Pending(job.kind, last) ==>
            || run.result == Err(Raised(op, NotCompleted(cfg.maxWaitMs / 1000, StatusOf(last.payload)), job.itemIndex))
            || run.result == Err(Expired(job, cfg)))
      && (forall s, status :: run.result == Err(Raised(op, NotCompleted(s, status), job.itemIndex)) ==>
            Pending(job.kind, last) && s == cfg.maxWaitMs / 1000 && status == StatusOf(last.payload)
            && run.elapsed >= cfg.maxWaitMs)
      && (run.result == Err(Expired(job, cfg)) ==> Pending(job.kind, last) && run.elapsed >= cfg.maxWaitMs)
  {
    OutcomeFrom(job, cfg, respond, base, 0, 0);
  }

  /** The errors the poll loop raises: a transport error, or an error of
      the job's operation for the job's item that is a failure, a status
      check past the maximum wait, or a timeout at the head of the loop.
      The head-of-loop timeout is all a loop with a maximum wait that is
      not positive does; otherwise it follows a status check that left the
      job in progress, once the maximum wait ran out after that check. */
  lemma PollErrors(job: Job, cfg: PollConfig, respond: nat -> Reply, base: nat)
    ensures var run := PollRun(job, cfg, respond, base);
      && (run.result.Err? && run.result.error.Raised? ==>
            && run.result.error.op == JobOperation(job.kind)
            && run.result.error.itemIndex == job.itemIndex
            && !run.result.error.reason.Blank?
            && !run.result.error.reason.NoJobId?)
      && (cfg.maxWaitMs <= 0 ==> run == Polled(Err(Expired(job, cfg)), 0, 0))
      && (run.result == Err(Expired(job, cfg)) ==>
            && cfg.maxWaitMs <= run.elapsed
            && (cfg.maxWaitMs > 0 ==> run.checks >= 1 && Pending(job.kind, respond(base + run.checks - 1).answer)))
  {
    if cfg.maxWaitMs > 0 {
      OutcomeFrom(job, cfg, respond, base, 0, 0);
    }
  }

  /** A job still `processing` at every check, with a maximum wait of 10 s,
      a poll interval of 3 s and instant replies, is checked five times, at
      0, 3, 6, 9 and 12 seconds, and fails after the fifth check reporting
      10 seconds and the last status. */
  lemma SlowJob(job: Job, respond: nat -> Reply, base: nat)
    requires forall n :: respond(n) == Reply(Body(map["status" := Str("processing")]), 0, 0)
    ensures var cfg := ScrapeSettingsOf(ScrapeOptions(Some(10), None, None, None)).poll;
      PollRun(job, cfg, respond, base)
      == Polled(Err(Raised(JobOperation(job.kind), NotCompleted(10, Str("processing")), job.itemIndex)), 5, 12_000)
  {
    var cfg := ScrapeSettingsOf(ScrapeOptions(Some(10), None, None, None)).poll;
    assert cfg == PollConfig(10_000, 3_000);
    var body := map["status" := Str("processing")];
    assert StatusOf(body) == Str("processing");
    assert Classify(job.kind, body) == InProgress;
    assert PollFrom(job, cfg, respond, base, 4, 9_000)
      == Polled(Err(Raised(JobOperation(job.kind), NotCompleted(10, Str("processing")), job.itemIndex)), 5, 12_000);
    assert PollFrom(job, cfg, respond, base, 3, 6_000) == PollFrom(job, cfg, respond, base, 4, 9_000);
    assert PollFrom(job, cfg, respond, base, 2, 3_000) == PollFrom(job, cfg, respond, base, 3, 6_000);
    assert PollFrom(job, cfg, respond, base, 1, 0) == PollFrom(job, cfg, respond, base, 2, 3_000);
    assert PollFrom(job, cfg, respond, base, 0, 0) == PollFrom(job, cfg, respond, base, 1, 0);
  }

  /** A job still `processing` whose first status check ends 1 ms before a
      3 s maximum wait runs out, with the node idle for 1 ms after the
      check, times out at the head of the loop after that one check,
      reporting 3 seconds. */
  lemma IdleTimeout(job: Job, respond: nat -> Reply, base: nat)
    requires forall n :: respond(n) == Reply(Body(map["status" := Str("processing")]), 2_999, 1)
    ensures var cfg := ScrapeSettingsOf(ScrapeOptions(Some(3), None, None, None)).poll;
      PollRun(job, cfg, respond, base)
      == Polled(Err(Raised(JobOperation(job.kind), TimedOut(3), job.itemIndex)), 1, 3_000)
  {
    var cfg := ScrapeSettingsOf(ScrapeOptions(Some(3), None, None, None)).poll;
    assert cfg == PollConfig(3_000, 3_000);
    var body := map["status" := Str("processing")];
    assert StatusOf(body) == Str("processing");
    assert Classify(job.kind, body) == InProgress;
    assert PollFrom(job, cfg, respond, base, 0, 0) == PollFrom(job, cfg, respond, base, 1, 3_000);
  }
}
