/** The node's `execute`: run every input item in order and collect the
    output items, either recording a failing item and going on, or stopping
    at the first failure. */
module Batch {
  import opened Results
  import opened JsValues
  import opened Protocol
  import opened Errors
  import opened Environment
  import opened Operations

  /** The output item recording the failure `e` of the item at `itemIndex`. */
  function FailureItem(e: NodeError, itemIndex: nat): OutputItem {
    OutputItem(map["success" := Bool(false), "error" := Str(Message(e))], itemIndex)
  }

  /** What running an item does, given the item's index and the index of
      the first reply its requests get. */
  type ItemRunner = (nat, nat) -> Run<Option<OutputItem>>

  /** The node's items: item `i` runs the operation its parameters name. */
  function NodeItems(items: seq<Params>, respond: nat -> Reply): ItemRunner {
    (i: nat, b: nat) => if i < |items| then ItemRun(items[i], i, respond, b) else Run(Ok(None), [], 0)
  }

  /** A batch part-way through: the output items so far or the error that
      stopped it, the events and the time of the items run so far, and the
      index of the reply the next request gets. */
  datatype Batch = Batch(result: Result<seq<OutputItem>, NodeError>, events: seq<Event>, elapsed: int, next: nat)

  /** The output items `returnData` after item `i` has produced `out`: its
      output, if any, is added, and its error is recorded as a failure item
      or raised. */
  function Extend(returnData: seq<OutputItem>, out: Result<Option<OutputItem>, NodeError>, i: nat, continueOnFail: bool)
    : Result<seq<OutputItem>, NodeError>
  {
    match out
    case Ok(None) => Ok(returnData)
    case Ok(Some(o)) => Ok(returnData + [o])
    case Err(e) => if continueOnFail then Ok(returnData + [FailureItem(e, i)]) else Err(e)
  }

  /** The batch `prev` after item `i` has run as `run`: a batch that has
      stopped stays as it is. */
  function Advance(prev: Batch, run: Run<Option<OutputItem>>, i: nat, continueOnFail: bool): Batch {
    if prev.result.Err? then prev
    else
      Batch(Extend(prev.result.value, run.result, i, continueOnFail), prev.events + run.events,
            prev.elapsed + run.elapsed, prev.next + Requests(run.events))
  }

  /** The batch after its first `n` items. The requests of each item get the
      replies after those of the items before it, the first item's from
      `base` on. */
  function BatchPrefix(item: ItemRunner, n: nat, continueOnFail: bool, base: nat): Batch {
    if n == 0 then Batch(Ok([]), [], 0, base)
    else
      var prev := BatchPrefix(item, n - 1, continueOnFail, base);
      Advance(prev, item(n - 1, prev.next), n - 1, continueOnFail)
  }

  /** The whole batch of the node's items. */
  function BatchRun(items: seq<Params>, continueOnFail: bool, respond: nat -> Reply, base: nat): Batch {
    BatchPrefix(NodeItems(items, respond), |items|, continueOnFail, base)
  }

  /** The next reply of a batch comes after one reply for every request it
      made. */
  lemma {:induction false} NextCountsRequests(item: ItemRunner, n: nat, continueOnFail: bool, base: nat)
    ensures BatchPrefix(item, n, continueOnFail, base).next == base + Requests(BatchPrefix(item, n, continueOnFail, base).events)
  {
    if n > 0 {
      NextCountsRequests(item, n - 1, continueOnFail, base);
      var prev := BatchPrefix(item, n - 1, continueOnFail, base);
      RequestsAppend(prev.events, item(n - 1, prev.next).events);
    }
  }

  /** A batch that has stopped stays stopped. */
  lemma {:induction false} StoppedStays(item: ItemRunner, n: nat, m: nat, continueOnFail: bool, base: nat)
    requires n <= m
    requires BatchPrefix(item, n, continueOnFail, base).result.Err?
    ensures BatchPrefix(item, m, continueOnFail, base) == BatchPrefix(item, n, continueOnFail, base)
    decreases m
  {
    if m > n {
      StoppedStays(item, n, m - 1, continueOnFail, base);
    }
  }

  /** After its first `i` items the batch has the result `r`, and the host
      has done what those items did, after the events `prior` and from the
      time `start`. */
  ghost predicate Progress(host: Host, item: ItemRunner, i: nat, continueOnFail: bool, base: nat, prior: seq<Event>,
                           start: int, r: Result<seq<OutputItem>, NodeError>)
    reads host
  {
    var batch := BatchPrefix(item, i, continueOnFail, base);
    && r == batch.result
    && host.sent == batch.next
    && host.trace == prior + batch.events
    && host.now == start + batch.elapsed
  }

  /** One pass of the batch loop: runs item `i` of a batch that has not
      stopped and adds what the item outputs to the output items. */
  method ExecuteStep(host: Host, items: seq<Params>, i: nat, continueOnFail: bool, returnData: seq<OutputItem>,
                     ghost item: ItemRunner, ghost base: nat, ghost prior: seq<Event>, ghost start: int)
    returns (r: Result<seq<OutputItem>, NodeError>)
    modifies host
    requires i < |items|
    requires forall i: nat, b: nat {:trigger ItemRun(items[i], i, host.respond, b)} ::
      i < |items| ==> item(i, b) == ItemRun(items[i], i, host.respond, b)
    requires Progress(host, item, i, continueOnFail, base, prior, start, Ok(returnData))
    ensures Progress(host, item, i + 1, continueOnFail, base, prior, start, r)
  {
    ghost var prev := BatchPrefix(item, i, continueOnFail, base);
    var out := ExecuteItem(host, items[i], i);
    ghost var run := item(i, prev.next);
    TraceAppend(prior, prev.events, run.events);
    r := Extend(returnData, out, i, continueOnFail);
  }

  /** The batch loop over items run by `item`. */
  method ExecuteItems(host: Host, items: seq<Params>, continueOnFail: bool, ghost item: ItemRunner)
    returns (r: Result<seq<OutputItem>, NodeError>)
    modifies host
    requires forall i: nat, b: nat {:trigger ItemRun(items[i], i, host.respond, b)} ::
      i < |items| ==> item(i, b) == ItemRun(items[i], i, host.respond, b)
    ensures Progress(host, item, |items|, continueOnFail, old(host.sent), old(host.trace), old(host.now), r)
  {
    ghost var base := host.sent;
    ghost var prior := host.trace;
    ghost var start := host.now;
    r := Ok([]);
    var i := 0;
    while i < |items| && r.Ok?
      invariant i <= |items|
      invariant Progress(host, item, i, continueOnFail, base, prior, start, r)
    {
      r := ExecuteStep(host, items, i, continueOnFail, r.value, item, base, prior, start);
      i := i + 1;
    }
    if r.Err? {
      StoppedStays(item, i, |items|, continueOnFail, base);
    }
  }

  /** `execute`: runs the items in order and returns the output items; with
      `continueOnFail` an item's error becomes a failure record and the
      batch goes on, otherwise the first error is raised. */
  method Execute(host: Host, items: seq<Params>, continueOnFail: bool) returns (r: Result<seq<OutputItem>, NodeError>)
    modifies host
    ensures var batch := BatchRun(items, continueOnFail, host.respond, old(host.sent));
      && r == batch.result
      && host.sent == old(host.sent) + Requests(batch.events)
      && host.trace == old(host.trace) + batch.events
      && host.now == old(host.now) + batch.elapsed
  {
    r := ExecuteItems(host, items, continueOnFail, NodeItems(items, host.respond));
    NextCountsRequests(NodeItems(items, host.respond), |items|, continueOnFail, old(host.sent));
  }
}
