/** What the batch does for every list of items and every sequence of
    replies: with `continueOnFail` it never raises and records one output
    per item of a known operation, in item order; without it, it stops at
    the first item that fails and raises that item's error. */
module BatchProperties {
  import opened Results
  import opened Protocol
  import opened Errors
  import opened Operations
  import opened OperationProperties
  import opened Batch

  /** Every output item a runner produces is paired with its own item. */
  ghost predicate PairsWithIndex(item: ItemRunner, n: nat) {
    forall i: nat, b: nat {:trigger item(i, b)} ::
      i < n && item(i, b).result.Ok? && item(i, b).result.value.Some? ==> item(i, b).result.value.value.pairedItem == i
  }

  /** The number of the first `n` items that name an operation. */
  function KnownCount(items: seq<Params>, n: nat): nat
    requires n <= |items|
  {
    if n == 0 then 0
    else KnownCount(items, n - 1) + (if ParseOperation(items[n - 1].operation).Some? then 1 else 0)
  }

  /** With `continueOnFail` the batch never raises. */
  lemma {:induction false} ContinueOnFailOk(item: ItemRunner, n: nat, base: nat)
    ensures BatchPrefix(item, n, true, base).result.Ok?
  {
    if n > 0 {
      ContinueOnFailOk(item, n - 1, base);
    }
  }

  /** A batch that raises nothing without `continueOnFail` is the same batch
      with it: the two modes differ only once an item fails. */
  lemma {:induction false} ModesAgree(item: ItemRunner, n: nat, base: nat)
    requires BatchPrefix(item, n, false, base).result.Ok?
    ensures BatchPrefix(item, n, true, base) == BatchPrefix(item, n, false, base)
  {
    if n > 0 {
      ModesAgree(item, n - 1, base);
    }
  }

  /** A batch that raises without `continueOnFail` stopped at item `k`: the
      items before it raised nothing, item `k` raised the batch's error, and
      nothing ran after it. */
  lemma {:induction false} FirstError(item: ItemRunner, n: nat, base: nat) returns (k: nat)
    requires BatchPrefix(item, n, false, base).result.Err?
    ensures k < n
    ensures var prev := BatchPrefix(item, k, false, base);
      var run := item(k, prev.next);
      && prev.result.Ok?
      && run.result.Err?
      && BatchPrefix(item, n, false, base) == Advance(prev, run, k, false)
  {
    var prev := BatchPrefix(item, n - 1, false, base);
    if prev.result.Err? {
      k := FirstError(item, n - 1, base);
    } else {
      k := n - 1;
    }
  }

  /** The output items of a runner that pairs every output with its item
      are paired with items of the batch, in strictly increasing item
      order: every item contributes at most one output. */
  lemma {:induction false} PairedInOrder(item: ItemRunner, n: nat, continueOnFail: bool, base: nat)
    requires PairsWithIndex(item, n)
    ensures var r := BatchPrefix(item, n, continueOnFail, base).result;
      r.Ok? ==>
        && (forall j :: 0 <= j < |r.value| ==> r.value[j].pairedItem < n)
        && (forall j, j' :: 0 <= j < j' < |r.value| ==> r.value[j].pairedItem < r.value[j'].pairedItem)
  {
    if n > 0 {
      PairedInOrder(item, n - 1, continueOnFail, base);
    }
  }

  /** With `continueOnFail` every item that names an operation contributes
      exactly one output item, its result or its failure record, and every
      other item none. */
  lemma {:induction false} OutputCount(item: ItemRunner, items: seq<Params>, n: nat, base: nat)
    requires n <= |items|
    requires forall i: nat, b: nat {:trigger item(i, b)} ::
      i < n ==> (item(i, b).result == Ok(None) <==> ParseOperation(items[i].operation).None?)
    ensures BatchPrefix(item, n, true, base).result.Ok?
    ensures |BatchPrefix(item, n, true, base).result.value| == KnownCount(items, n)
  {
    ContinueOnFailOk(item, n, base);
    if n > 0 {
      OutputCount(item, items, n - 1, base);
    }
  }

  /** With `continueOnFail` the output items and the events of the first
      `k` items begin those of the first `n`. */
  lemma {:induction false} OutputsGrow(item: ItemRunner, k: nat, n: nat, base: nat)
    requires k <= n
    ensures BatchPrefix(item, k, true, base).result.Ok? && BatchPrefix(item, n, true, base).result.Ok?
    ensures BatchPrefix(item, k, true, base).result.value <= BatchPrefix(item, n, true, base).result.value
    ensures BatchPrefix(item, k, true, base).events <= BatchPrefix(item, n, true, base).events
    decreases n
  {
    ContinueOnFailOk(item, k, base);
    ContinueOnFailOk(item, n, base);
    if k < n {
      OutputsGrow(item, k, n - 1, base);
    }
  }

  /** With `continueOnFail` an item that fails is recorded, right after the
      outputs of the items before it, by an output item paired with it whose
      json is `success: false` and the error's message. */
  lemma FailureRecorded(item: ItemRunner, k: nat, n: nat, base: nat)
    requires k < n
    requires var prev := BatchPrefix(item, k, true, base);
      item(k, prev.next).result.Err?
    ensures BatchPrefix(item, n, true, base).result.Ok?
    ensures var prev := BatchPrefix(item, k, true, base);
      var e := item(k, prev.next).result.error;
      var out := BatchPrefix(item, n, true, base).result.value;
      && prev.result.Ok?
      && |prev.result.value| < |out|
      && out[|prev.result.value|] == OutputItem(map["success" := JsValues.Bool(false), "error" := JsValues.Str(Message(e))], k)
  {
    ContinueOnFailOk(item, k, base);
    OutputsGrow(item, k + 1, n, base);
    var prev := BatchPrefix(item, k, true, base);
    var next := BatchPrefix(item, k + 1, true, base);
    assert next.result.value == prev.result.value + [FailureItem(item(k, prev.next).result.error, k)];
  }

  /** An item that outputs a record has it recorded right after the
      outputs of the items before it. */
  lemma SuccessRecorded(item: ItemRunner, k: nat, n: nat, base: nat)
    requires k < n
    requires var prev := BatchPrefix(item, k, true, base);
      item(k, prev.next).result.Ok? && item(k, prev.next).result.value.Some?
    ensures BatchPrefix(item, n, true, base).result.Ok?
    ensures var prev := BatchPrefix(item, k, true, base);
      var o := item(k, prev.next).result.value.value;
      var out := BatchPrefix(item, n, true, base).result.value;
      && prev.result.Ok?
      && |prev.result.value| < |out|
      && out[|prev.result.value|] == o
  {
    ContinueOnFailOk(item, k, base);
    OutputsGrow(item, k + 1, n, base);
    var prev := BatchPrefix(item, k, true, base);
    var next := BatchPrefix(item, k + 1, true, base);
    assert next.result.value == prev.result.value + [item(k, prev.next).result.value.value];
  }

  /** The node's items pair their outputs with themselves, and an item
      outputs nothing exactly when it names no operation. */
  lemma NodeItemsShape(items: seq<Params>, respond: nat -> Reply)
    ensures PairsWithIndex(NodeItems(items, respond), |items|)
    ensures forall i: nat, b: nat {:trigger NodeItems(items, respond)(i, b)} ::
      i < |items| ==> (NodeItems(items, respond)(i, b).result == Ok(None) <==> ParseOperation(items[i].operation).None?)
  {
    forall i: nat, b: nat | i < |items|
      ensures var run := NodeItems(items, respond)(i, b);
        && (run.result.Ok? && run.result.value.Some? ==> run.result.value.value.pairedItem == i)
        && (run.result == Ok(None) <==> ParseOperation(items[i].operation).None?)
    {
      ItemShape(items[i], i, respond, b);
    }
  }

  /** `execute` with `continueOnFail` never raises, and outputs exactly one
      item for every item that names an operation, paired with the items in
      their order. */
  lemma ContinueOnFailBatch(items: seq<Params>, respond: nat -> Reply, base: nat)
    ensures var r := BatchRun(items, true, respond, base).result;
      && r.Ok?
      && |r.value| == KnownCount(items, |items|)
      && (forall j :: 0 <= j < |r.value| ==> r.value[j].pairedItem < |items|)
      && (forall j, j' :: 0 <= j < j' < |r.value| ==> r.value[j].pairedItem < r.value[j'].pairedItem)
  {
    NodeItemsShape(items, respond);
    OutputCount(NodeItems(items, respond), items, |items|, base);
    PairedInOrder(NodeItems(items, respond), |items|, true, base);
  }

  /** `execute` without `continueOnFail` that raises nothing outputs what it
      outputs with it, paired with the items in their order. */
  lemma FailFastBatch(items: seq<Params>, respond: nat -> Reply, base: nat)
    requires BatchRun(items, false, respond, base).result.Ok?
    ensures BatchRun(items, true, respond, base) == BatchRun(items, false, respond, base)
    ensures var r := BatchRun(items, false, respond, base).result;
      forall j, j' :: 0 <= j < j' < |r.value| ==> r.value[j].pairedItem < r.value[j'].pairedItem
  {
    ModesAgree(NodeItems(items, respond), |items|, base);
    NodeItemsShape(items, respond);
    PairedInOrder(NodeItems(items, respond), |items|, false, base);
  }

  /** `execute` without `continueOnFail` that raises raises the error of
      the first item that failed, whose operation and index it names when
      the node raised it, after which no item runs. */
  lemma FailFastError(items: seq<Params>, respond: nat -> Reply, base: nat) returns (k: nat)
    requires BatchRun(items, false, respond, base).result.Err?
    ensures k < |items|
    ensures var prev := BatchPrefix(NodeItems(items, respond), k, false, base);
      var run := ItemRun(items[k], k, respond, prev.next);
      var batch := BatchRun(items, false, respond, base);
      && prev.result.Ok?
      && run.result.Err?
      && batch.result == Err(run.result.error)
      && batch.events == prev.events + run.events
      && (batch.result.error.Raised? ==>
            batch.result.error.itemIndex == k && Some(batch.result.error.op) == ParseOperation(items[k].operation))
  {
    k := FirstError(NodeItems(items, respond), |items|, base);
    var prev := BatchPrefix(NodeItems(items, respond), k, false, base);
    assert NodeItems(items, respond)(k, prev.next) == ItemRun(items[k], k, respond, prev.next);
    ItemShape(items[k], k, respond, prev.next);
  }
}
