/** The backend's `DatabaseClient`: batches persistence requests in a queue and
    sends them to the database server in one payload per flush. */
module DbClient {
  import opened Wrappers
  import opened Models
  import opened Queues

  /** The state of the task a caller of `PersistPaymentsBatchAsync` awaits. */
  datatype Completion = Pending | Resolved | Faulted

  /** One queued request: its payments and the handle of the caller's task. */
  datatype BatchItem = BatchItem(payments: seq<ProcessedPayment>, handle: nat)

  /** The wire record for one payment: the processor as its lower-case name. */
  function ToDatabase(p: ProcessedPayment): DatabaseProcessedPayment {
    DatabaseProcessedPayment(p.correlationId, p.amount, ProcessorName(p.processor), p.requestedAt)
  }

  /** Reading a wire record back; a processor name other than the two is refused. */
  function FromDatabase(d: DatabaseProcessedPayment): Option<ProcessedPayment> {
    if d.processor == "default" then Some(ProcessedPayment(d.correlationId, d.amount, Default, d.requestedAt))
    else if d.processor == "fallback" then Some(ProcessedPayment(d.correlationId, d.amount, Fallback, d.requestedAt))
    else None
  }

  /** The conversion loses nothing: every wire record reads back as its payment. */
  lemma DatabaseRoundTrip(p: ProcessedPayment)
    ensures FromDatabase(ToDatabase(p)) == Some(p)
  {
  }

  /** The payload of a flush: all payments of the drained items, item after item,
      each in its own order. */
  function Payload(batch: seq<BatchItem>): seq<DatabaseProcessedPayment> {
    if batch == [] then []
    else Convert(batch[0].payments) + Payload(batch[1..])
  }

  function Convert(ps: seq<ProcessedPayment>): (ds: seq<DatabaseProcessedPayment>)
    ensures |ds| == |ps|
    ensures forall i :: 0 <= i < |ps| ==> FromDatabase(ds[i]) == Some(ps[i])
  {
    seq(|ps|, i requires 0 <= i < |ps| => ToDatabase(ps[i]))
  }

  function PaymentCount(batch: seq<BatchItem>): nat {
    if batch == [] then 0 else |batch[0].payments| + PaymentCount(batch[1..])
  }

  /** Batching preserves order across items: the payload of two runs of items is
      the first run's payload followed by the second's. */
  lemma {:induction false} PayloadConcat(a: seq<BatchItem>, b: seq<BatchItem>)
    ensures Payload(a + b) == Payload(a) + Payload(b)
    decreases |a|
  {
    if a == [] {
      assert a + b == b;
    } else {
      assert (a + b)[1..] == a[1..] + b;
      PayloadConcat(a[1..], b);
    }
  }

  /** The payload holds exactly as many records as the drained items have payments. */
  lemma {:induction false} PayloadLength(batch: seq<BatchItem>)
    ensures |Payload(batch)| == PaymentCount(batch)
    decreases |batch|
  {
    if batch != [] {
      PayloadLength(batch[1..]);
    }
  }

  /** The payload is empty only when every drained item is. */
  lemma {:induction false} PayloadEmpty(batch: seq<BatchItem>)
    ensures Payload(batch) == [] <==> forall i :: 0 <= i < |batch| ==> batch[i].payments == []
    decreases |batch|
  {
    if batch != [] {
      PayloadEmpty(batch[1..]);
      if Payload(batch) == [] {
        forall i | 0 <= i < |batch| ensures batch[i].payments == [] {
          if i > 0 { assert batch[i] == batch[1..][i - 1]; }
        }
      }
    }
  }

  /** Queued requests are never empty, so neither is the payload of a non-empty queue. */
  lemma PayloadOfQueuedItems(batch: seq<BatchItem>)
    requires forall i :: 0 <= i < |batch| ==> batch[i].payments != []
    ensures batch != [] ==> Payload(batch) != []
  {
    PayloadEmpty(batch);
  }

  function Handles(batch: seq<BatchItem>): set<nat> {
    set i | 0 <= i < |batch| :: batch[i].handle
  }

  /** Every task whose handle is in `hs` completes as `c`; the others keep their state. */
  function Complete(cs: seq<Completion>, hs: set<nat>, c: Completion): (r: seq<Completion>)
    ensures |r| == |cs|
  {
    seq(|cs|, h requires 0 <= h < |cs| => if h in hs then c else cs[h])
  }

  /** How a flush settles its callers' tasks, corrected: on delivery every drained
      item is resolved; on failure every drained item, and every item still queued,
      is faulted. */
  function Settle(cs: seq<Completion>, drained: seq<BatchItem>, stillQueued: seq<BatchItem>, delivered: bool): seq<Completion> {
    if delivered then Complete(cs, Handles(drained), Resolved)
    else Complete(cs, Handles(drained) + Handles(stillQueued), Faulted)
  }

  /** How `FlushBatchAsync` settles the tasks as written: its catch block faults
      only items still in the queue, not the items it has already drained. */
  function SettleAsWritten(cs: seq<Completion>, drained: seq<BatchItem>, stillQueued: seq<BatchItem>, delivered: bool): seq<Completion> {
    if delivered then Complete(cs, Handles(drained), Resolved)
    else Complete(cs, Handles(stillQueued), Faulted)
  }

  /** As written, a failed send after the drain (the queue is then empty) leaves
      every drained caller's task pending, so those callers wait forever. */
  lemma FailedFlushLeavesCallersPending(cs: seq<Completion>, drained: seq<BatchItem>, i: nat)
    requires i < |drained| && drained[i].handle < |cs| && cs[drained[i].handle] == Pending
    ensures SettleAsWritten(cs, drained, [], false)[drained[i].handle] == Pending
  {
    assert Handles([]) == {};
  }

  /** Corrected, a flush leaves no drained caller pending: each is resolved when
      the payload is delivered and faulted otherwise; no other task changes. */
  lemma SettleSettlesEveryCaller(cs: seq<Completion>, drained: seq<BatchItem>, delivered: bool)
    ensures forall i :: 0 <= i < |drained| && drained[i].handle < |cs| ==>
              Settle(cs, drained, [], delivered)[drained[i].handle] == if delivered then Resolved else Faulted
    ensures forall h :: 0 <= h < |cs| && h !in Handles(drained) ==> Settle(cs, drained, [], delivered)[h] == cs[h]
  {
    assert Handles(drained) + Handles([]) == Handles(drained);
    forall i | 0 <= i < |drained| && drained[i].handle < |cs|
      ensures Settle(cs, drained, [], delivered)[drained[i].handle] == if delivered then Resolved else Faulted
    {
      assert drained[i].handle in Handles(drained);
    }
  }

  /** The query string of `GetDatabaseSummaryAsync`: `from` and `to` are added when
      present and non-empty, escaped by `escape` (`Uri.EscapeDataString`). */
  function SummaryQuery(from: Option<string>, to: Option<string>, escape: string -> string): (q: string)
    ensures q == "" <==> (from.None? || from.value == "") && (to.None? || to.value == "")
    ensures q != "" ==> q[0] == '?'
    ensures from.Some? && from.value != "" && to.Some? && to.value != "" ==>
              q == "?from=" + escape(from.value) + "&to=" + escape(to.value)
    ensures from.Some? && from.value != "" && (to.None? || to.value == "") ==> q == "?from=" + escape(from.value)
    ensures (from.None? || from.value == "") && to.Some? && to.value != "" ==> q == "?to=" + escape(to.value)
  {
    var params := (if from.Some? && from.value != "" then ["from=" + escape(from.value)] else [])
                + (if to.Some? && to.value != "" then ["to=" + escape(to.value)] else []);
    if |params| == 0 then ""
    else if |params| == 1 then "?" + params[0]
    else "?" + params[0] + "&" + params[1]
  }

  /** A summary response whose body is `null` reads as all zeros. */
  function SummaryOrZero(response: Option<PaymentSummary>): (s: PaymentSummary)
    ensures response.Some? ==> s == response.value
    ensures response.None? ==>
              (s.default.totalRequests == 0.0 && s.fallback.totalRequests == 0.0
               && s.default.totalAmount == 0.0 && s.fallback.totalAmount == 0.0)
  {
    response.GetOr(EmptySummary)
  }

  class DatabaseClient {
    const batchSize: int
    const batchTimeoutMs: int
    const batchQueue: QueueService<BatchItem>
    var isFlushing: bool
    /** When the batch timer fires next, if it is armed. */
    var deadline: Option<int>
    /** The state of every caller's task, by handle. */
    var completions: seq<Completion>
    /** Every payload handed to the database server, in order. */
    var sent: seq<seq<DatabaseProcessedPayment>>

    /** Queued items are non-empty requests whose callers are still waiting. */
    ghost predicate Valid()
      reads this, batchQueue
    {
      && batchQueue.Valid()
      && forall i :: 0 <= i < |batchQueue.queue| ==>
           && batchQueue.queue[i].payments != []
           && batchQueue.queue[i].handle < |completions|
           && completions[batchQueue.queue[i].handle] == Pending
    }

    constructor (size: int, timeoutMs: int)
      ensures Valid() && fresh(batchQueue)
      ensures batchSize == size && batchTimeoutMs == timeoutMs
      ensures batchQueue.queue == [] && !isFlushing && deadline == None && completions == [] && sent == []
    {
      batchSize := size;
      batchTimeoutMs := timeoutMs;
      batchQueue := new QueueService<BatchItem>();
      isFlushing := false;
      deadline := None;
      completions := [];
      sent := [];
    }

    /** Completes the task of every item of `batch` as `c`. */
    method CompleteAll(batch: seq<BatchItem>, c: Completion)
      modifies this
      ensures completions == Complete(old(completions), Handles(batch), c)
      ensures isFlushing == old(isFlushing) && deadline == old(deadline) && sent == old(sent)
    {
      ghost var start := completions;
      for i := 0 to |batch|
        invariant isFlushing == old(isFlushing) && deadline == old(deadline) && sent == old(sent)
        invariant completions == Complete(start, Handles(batch[..i]), c)
      {
        assert Handles(batch[..i + 1]) == Handles(batch[..i]) + {batch[i].handle} by {
          assert forall j :: 0 <= j < i ==> batch[..i + 1][j] == batch[..i][j];
        }
        if batch[i].handle < |completions| {
          completions := completions[batch[i].handle := c];
        }
      }
      assert batch[..|batch|] == batch;
    }

    /** `FlushBatchAsync`, with the outcome of the HTTP send as `sendOk`: a no-op
        while another flush runs or when the queue is empty; otherwise the whole
        queue is drained into one payload, sent when non-empty, and every drained
        caller is settled. */
    method FlushBatch(sendOk: bool)
      requires Valid()
      modifies this, batchQueue
      ensures Valid()
      ensures old(isFlushing) || old(batchQueue.queue) == [] ==>
                && batchQueue.queue == old(batchQueue.queue) && isFlushing == old(isFlushing)
                && completions == old(completions) && sent == old(sent)
      ensures !old(isFlushing) && old(batchQueue.queue) != [] ==>
                && batchQueue.queue == [] && !isFlushing
                && Payload(old(batchQueue.queue)) != []
                && sent == old(sent) + [Payload(old(batchQueue.queue))]
                && completions == Settle(old(completions), old(batchQueue.queue), [], sendOk)
      ensures deadline == old(deadline) && isFlushing == old(isFlushing)
    {
      if isFlushing || batchQueue.IsEmpty() {
        return;
      }
      isFlushing := true;
      PayloadOfQueuedItems(batchQueue.queue);
      var currentBatch := DrainQueue();
      if |currentBatch| > 0 {
        var allPayments := Payload(currentBatch);
        var delivered := true;
        if |allPayments| > 0 {
          sent := sent + [allPayments];
          delivered := sendOk;
        }
        assert Handles(currentBatch) + Handles([]) == Handles(currentBatch);
        if delivered {
          CompleteAll(currentBatch, Resolved);
        } else {
          CompleteAll(currentBatch, Faulted);
        }
      }
      isFlushing := false;
    }

    /** The drain loop of `FlushBatchAsync`: dequeues until the queue is empty. */
    method DrainQueue() returns (batch: seq<BatchItem>)
      requires batchQueue.Valid()
      modifies batchQueue
      ensures batchQueue.Valid() && batch == old(batchQueue.queue) && batchQueue.queue == []
    {
      batch := [];
      while !batchQueue.IsEmpty()
        invariant batchQueue.Valid()
        invariant old(batchQueue.queue) == batch + batchQueue.queue
        decreases |batchQueue.queue|
      {
        var item := batchQueue.TryDequeue();
        if item.Some? {
          batch := batch + [item.value];
        }
      }
    }

    /** `ScheduleBatchFlush`: (re)arms the timer `batchTimeoutMs` from `now`,
        replacing any earlier deadline. */
    method ScheduleBatchFlush(now: int)
      modifies this
      ensures deadline == Some(now + batchTimeoutMs)
      ensures isFlushing == old(isFlushing) && completions == old(completions) && sent == old(sent)
    {
      deadline := Some(now + batchTimeoutMs);
    }

    /** The batch timer firing: it disarms and flushes. */
    method OnDeadline(sendOk: bool)
      requires Valid()
      modifies this, batchQueue
      ensures Valid()
      ensures deadline == None && isFlushing == old(isFlushing)
      ensures !old(isFlushing) && old(batchQueue.queue) != [] ==>
                && batchQueue.queue == []
                && sent == old(sent) + [Payload(old(batchQueue.queue))]
                && completions == Settle(old(completions), old(batchQueue.queue), [], sendOk)
    {
      deadline := None;
      FlushBatch(sendOk);
    }

    /** `PersistPaymentsBatchAsync` at time `now`: an empty request completes at
        once; otherwise it is queued, and either fills the batch and flushes it or
        (re)arms the timer. A full batch met while another flush runs stays
        queued, and its caller waits. The result is the state of the caller's task when the
        call returns: `Pending` means the caller is still waiting for the timer. */
    method PersistPaymentsBatch(payments: seq<ProcessedPayment>, now: int, sendOk: bool) returns (status: Completion)
      requires Valid()
      modifies this, batchQueue
      ensures Valid() && isFlushing == old(isFlushing)
      ensures payments == [] ==>
                status == Resolved && batchQueue.queue == old(batchQueue.queue)
                && completions == old(completions) && sent == old(sent) && deadline == old(deadline)
      ensures payments != [] && |old(batchQueue.queue)| + 1 < batchSize ==>
                && status == Pending
                && batchQueue.queue == old(batchQueue.queue) + [BatchItem(payments, |old(completions)|)]
                && completions == old(completions) + [Pending]
                && sent == old(sent) && deadline == Some(now + batchTimeoutMs)
      ensures payments != [] && |old(batchQueue.queue)| + 1 >= batchSize && !old(isFlushing) ==>
                var queued := old(batchQueue.queue) + [BatchItem(payments, |old(completions)|)];
                && status == (if sendOk then Resolved else Faulted)
                && batchQueue.queue == []
                && sent == old(sent) + [Payload(queued)]
                && completions == Settle(old(completions) + [Pending], queued, [], sendOk)
                && deadline == old(deadline)
      ensures payments != [] && |old(batchQueue.queue)| + 1 >= batchSize && old(isFlushing) ==>
                && status == Pending
                && batchQueue.queue == old(batchQueue.queue) + [BatchItem(payments, |old(completions)|)]
                && completions == old(completions) + [Pending]
                && sent == old(sent) && deadline == old(deadline)
    {
      if |payments| == 0 {
        return Resolved;
      }
      var handle := |completions|;
      completions := completions + [Pending];
      var batchItem := BatchItem(payments, handle);
      batchQueue.Enqueue(batchItem);
      if batchQueue.Count() >= batchSize {
        ghost var queued := batchQueue.queue;
        FlushBatch(sendOk);
        if !old(isFlushing) {
          assert batchItem == queued[|queued| - 1];
          SettleSettlesEveryCaller(old(completions) + [Pending], queued, sendOk);
        }
      } else {
        ScheduleBatchFlush(now);
      }
      status := completions[handle];
    }
  }
}
