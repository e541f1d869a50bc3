/** The backend's `PaymentCommand`: takes payment requests off the queue in
    batches, routes each one, and persists every batch through the database client. */
module Command {
  import opened Wrappers
  import opened Models
  import opened Queues
  import opened Router
  import opened DbClient
  import opened Seqs

  /** The batches the worker cuts a queue into: `size` requests at a time, the
      last batch holding the rest; none when `size` is not positive. */
  function Cut<T>(q: seq<T>, size: int): (bs: seq<seq<T>>)
    decreases |q|
  {
    if size <= 0 || q == [] then []
    else
      var n := Min(size, |q|);
      [q[..n]] + Cut(q[n..], size)
  }

  /** Cutting loses, duplicates and reorders nothing: the batches put back
      together are the queue. */
  lemma {:induction false} CutFlatten<T>(q: seq<T>, size: int)
    requires size > 0
    ensures Flatten(Cut(q, size)) == q
    decreases |q|
  {
    if q != [] {
      var n := Min(size, |q|);
      CutFlatten(q[n..], size);
      assert q[..n] + q[n..] == q;
    }
  }

  /** Every batch holds between 1 and `size` requests, and every batch but the
      last holds exactly `size`. */
  lemma {:induction false} CutSizes<T>(q: seq<T>, size: int)
    ensures forall i :: 0 <= i < |Cut(q, size)| ==> 0 < |Cut(q, size)[i]| <= size
    ensures forall i :: 0 <= i < |Cut(q, size)| - 1 ==> |Cut(q, size)[i]| == size
    decreases |q|
  {
    if size > 0 && q != [] {
      var n := Min(size, |q|);
      CutSizes(q[n..], size);
      var bs := Cut(q, size);
      assert bs == [q[..n]] + Cut(q[n..], size);
      forall i | 0 < i < |bs| ensures bs[i] == Cut(q[n..], size)[i - 1] { }
      if |bs| > 1 {
        assert q[n..] != [];
      }
    }
  }

  /** The record kept for a request: its identity and amount, the processor
      that accepted it and the batch's timestamp. */
  function Record(payment: PaymentRequest, processor: ProcessorType, requestedAt: string): ProcessedPayment {
    ProcessedPayment(payment.correlationId, payment.amount, processor, requestedAt)
  }

  /** The records of a fully routed batch: every request in order, on the default
      processor (the only one the router calls when none is named), all stamped
      with the batch's single timestamp. */
  function Records(payments: seq<PaymentRequest>, requestedAt: string): (rs: seq<ProcessedPayment>)
    ensures |rs| == |payments|
    ensures forall i :: 0 <= i < |payments| ==>
              rs[i].correlationId == payments[i].correlationId && rs[i].amount == payments[i].amount
              && rs[i].processor == Default && rs[i].requestedAt == requestedAt
  {
    seq(|payments|, i requires 0 <= i < |payments| => Record(payments[i], Default, requestedAt))
  }

  /** The payloads the database server receives for a run of batches, batch `n`
      stamped `clock(n)`: one payload per batch, in order. */
  function Payloads(bs: seq<seq<PaymentRequest>>, clock: nat -> string): (ps: seq<seq<DatabaseProcessedPayment>>)
    ensures |ps| == |bs|
  {
    if bs == [] then []
    else Payloads(bs[..|bs| - 1], clock) + [Convert(Records(bs[|bs| - 1], clock(|bs| - 1)))]
  }

  /** One more batch adds its payload at the end. */
  lemma PayloadsAppend(bs: seq<seq<PaymentRequest>>, b: seq<PaymentRequest>, clock: nat -> string)
    ensures Payloads(bs + [b], clock) == Payloads(bs, clock) + [Convert(Records(b, clock(|bs|)))]
  {
    var all := bs + [b];
    assert all[..|all| - 1] == bs && all[|all| - 1] == b;
  }

  /** Payload `n` is batch `n`'s records, stamped `clock(n)`, converted. */
  lemma {:induction false} PayloadsAt(bs: seq<seq<PaymentRequest>>, clock: nat -> string, n: nat)
    requires n < |bs|
    ensures Payloads(bs, clock)[n] == Convert(Records(bs[n], clock(n)))
  {
    if n < |bs| - 1 {
      PayloadsAt(bs[..|bs| - 1], clock, n);
    }
  }

  /** A single request's payload is its payments, converted. */
  lemma PayloadOfOne(item: BatchItem)
    ensures Payload([item]) == Convert(item.payments)
  {
    assert [item][1..] == [];
  }

  /** The router eventually accepts the payment among the given outcomes. */
  predicate Routed(outcomes: seq<CallOutcome>) {
    FirstSuccess(outcomes) < |outcomes|
  }

  /** How one batch ends: its records persisted, a persistence fault, or a
      payment the processors never accept, which never completes. */
  datatype BatchOutcome = Completed(processed: seq<ProcessedPayment>) | PersistFaulted | Stuck

  /** How one `ProcessPaymentsAsync` run ends. */
  datatype RunOutcome = AlreadyRunning | Drained | Failed | Hung

  class PaymentCommand {
    const queue: QueueService<PaymentRequest>
    const router: PaymentProcessorRouter
    const db: DatabaseClient
    const batchSize: int
    /** `_processingMutex` held. */
    var busy: bool
    /** Every batch taken off the queue, in order. */
    var batches: seq<seq<PaymentRequest>>

    ghost predicate Valid()
      reads this, queue, db, db.batchQueue
    {
      queue.Valid() && db.Valid() && !db.isFlushing && db.batchQueue.queue == []
    }

    constructor (q: QueueService<PaymentRequest>, r: PaymentProcessorRouter, d: DatabaseClient, size: int)
      requires q.Valid() && d.Valid() && !d.isFlushing && d.batchQueue.queue == []
      ensures Valid() && !busy && batches == []
      ensures queue == q && router == r && db == d && batchSize == size
    {
      queue := q;
      router := r;
      db := d;
      batchSize := size;
      busy := false;
      batches := [];
    }

    /** `ProcessPaymentBatchAsync` with timestamp `requestedAt`: each payment is
        routed (to the default processor, as no processor is named) and recorded
        with its own identity and amount; the records are then persisted as one
        request, and when the batch does not fill the client's batch the timer
        firing at `now + batchTimeoutMs` flushes it. The calls made for payment
        `i` end as `outcomes(i)`; `sendOk` is the outcome of that flush. */
    method ProcessPaymentBatch(payments: seq<PaymentRequest>, requestedAt: string,
                               outcomes: nat -> seq<CallOutcome>, now: int, sendOk: bool)
      returns (r: BatchOutcome)
      requires Valid()
      modifies router, db, db.batchQueue
      ensures Valid()
      ensures r.Completed? ==> r.processed == Records(payments, requestedAt)
      ensures r != Stuck <==> forall i :: 0 <= i < |payments| ==> Routed(outcomes(i))
      ensures r != Stuck ==> (r.Completed? <==> sendOk || payments == [])
      ensures r != Stuck && payments != [] ==> db.sent == old(db.sent) + [Convert(Records(payments, requestedAt))]
      ensures r == Stuck || payments == [] ==> db.sent == old(db.sent)
    {
      var processed: seq<ProcessedPayment> := [];
      for i := 0 to |payments|
        invariant Valid() && db.sent == old(db.sent)
        invariant |processed| == i
        invariant forall j :: 0 <= j < i ==> processed[j] == Record(payments[j], Default, requestedAt)
        invariant forall j :: 0 <= j < i ==> Routed(outcomes(j))
      {
        var result := router.ProcessPaymentWithRetry(payments[i], requestedAt, None, outcomes(i));
        if result.None? {
          return Stuck;
        }
        processed := processed + [Record(payments[i], result.value.processor, requestedAt)];
      }
      assert processed == Records(payments, requestedAt);
      var handle := |db.completions|;
      PayloadOfOne(BatchItem(processed, handle));
      var status := db.PersistPaymentsBatch(processed, now, sendOk);
      if status == Pending {
        ghost var queued := db.batchQueue.queue;
        assert queued[|queued| - 1].handle == handle;
        db.OnDeadline(sendOk);
        SettleSettlesEveryCaller(old(db.completions) + [Pending], queued, sendOk);
        status := db.completions[handle];
      }
      r := if status == Resolved then Completed(processed) else PersistFaulted;
    }

    /** One turn of the drain loop: `min(batchSize, Count)` requests off the front. */
    method TakeBatch() returns (batch: seq<PaymentRequest>)
      requires queue.Valid() && queue.queue != []
      modifies queue
      ensures queue.Valid()
      ensures batch == [] ==> batchSize <= 0 && queue.queue == old(queue.queue)
      ensures batch != [] ==> old(queue.queue) == batch + queue.queue
      ensures batch != [] ==> Cut(old(queue.queue), batchSize) == [batch] + Cut(queue.queue, batchSize)
    {
      var size := Min(batchSize, queue.Count());
      batch := queue.DequeueMultiple(size);
      if batch != [] {
        assert old(queue.queue)[..|batch|] == batch && old(queue.queue)[|batch|..] == queue.queue;
      }
    }

    /** One turn of the drain loop: the next batch is taken off the queue and
        processed, stamped `requestedAt`, its payment `i` meeting `outcomes(i)`. */
    method ProcessNextBatch(outcomes: nat -> seq<CallOutcome>, requestedAt: string,
                            now: int, sendOk: bool) returns (batch: seq<PaymentRequest>, outcome: BatchOutcome)
      requires Valid() && queue.queue != []
      modifies this, queue, router, db, db.batchQueue
      ensures Valid() && busy == old(busy)
      ensures batch == [] ==>
                batchSize <= 0 && queue.queue == old(queue.queue) && batches == old(batches) && db.sent == old(db.sent)
      ensures batch != [] ==>
                && batches == old(batches) + [batch]
                && old(queue.queue) == batch + queue.queue
                && Cut(old(queue.queue), batchSize) == [batch] + Cut(queue.queue, batchSize)
      ensures batch != [] && outcome != Stuck ==> db.sent == old(db.sent) + [Convert(Records(batch, requestedAt))]
      ensures outcome == Stuck ==> db.sent == old(db.sent)
    {
      batch := TakeBatch();
      if batch == [] {
        return batch, Completed([]);
      }
      batches := batches + [batch];
      outcome := ProcessPaymentBatch(batch, requestedAt, outcomes, now, sendOk);
    }

    /** The drain loop of `ProcessPaymentsAsync`, run with the mutex held: batches
        of `batchSize` requests until the queue is empty, a persistence fault
        (`Failed`) or a payment that is never accepted (`Hung`). Batch `n` is
        stamped `clock(n)`, its payment `i` meets `outcomesFor(n)(i)`, and it is
        persisted at `nowAt(n)` and flushed with outcome `sendOk(n)`; the database server receives one payload per batch, in order,
        except for a batch that hangs. */
    method Drain(outcomesFor: nat -> nat -> seq<CallOutcome>, clock: nat -> string,
                 nowAt: nat -> int, sendOk: nat -> bool) returns (r: RunOutcome)
      requires Valid()
      modifies this, queue, router, db, db.batchQueue
      ensures Valid() && busy == old(busy) && r != AlreadyRunning
      ensures |old(batches)| <= |batches|
      ensures Cut(old(queue.queue), batchSize) == batches[|old(batches)|..] + Cut(queue.queue, batchSize)
      ensures r == Drained ==>
                (batchSize > 0 ==> queue.queue == []) && (batchSize <= 0 ==> queue.queue == old(queue.queue))
      ensures r != Hung ==> db.sent == old(db.sent) + Payloads(batches[|old(batches)|..], clock)
      ensures r == Hung ==>
                |old(batches)| < |batches| && db.sent == old(db.sent) + Payloads(batches[|old(batches)|..|batches| - 1], clock)
    {
      ghost var k, q0, s0 := |batches|, queue.queue, db.sent;
      var n: nat := 0;
      while queue.Count() > 0
        invariant Valid() && busy == old(busy)
        invariant k <= |batches| && n == |batches| - k
        invariant Cut(q0, batchSize) == batches[k..] + Cut(queue.queue, batchSize)
        invariant batchSize <= 0 ==> queue.queue == q0
        invariant db.sent == s0 + Payloads(batches[k..], clock)
        decreases |queue.queue|
      {
        ghost var taken := batches[k..];
        var batch, outcome := ProcessNextBatch(outcomesFor(n), clock(n), nowAt(n), sendOk(n));
        if batch == [] {
          break;
        }
        assert batches[k..] == taken + [batch];
        AppendAssoc(taken, [batch], Cut(queue.queue, batchSize));
        if outcome == Stuck {
          assert taken == batches[k..|batches| - 1];
          return Hung;
        }
        PayloadsAppend(taken, batch, clock);
        AppendAssoc(s0, Payloads(taken, clock), [Convert(Records(batch, clock(n)))]);
        if outcome == PersistFaulted {
          return Failed;
        }
        n := n + 1;
      }
      r := Drained;
    }

    /** `ProcessPaymentsAsync`: returns at once while another run holds the mutex;
        otherwise takes the mutex and drains the queue. A persistence fault ends the
        run and releases the mutex; a payment that is never accepted leaves the run,
        and the mutex, held for good. */
    method ProcessPayments(outcomesFor: nat -> nat -> seq<CallOutcome>, clock: nat -> string,
                           nowAt: nat -> int, sendOk: nat -> bool) returns (r: RunOutcome)
      requires Valid()
      modifies this, queue, router, db, db.batchQueue
      ensures Valid()
      ensures old(busy) ==>
                r == AlreadyRunning && queue.queue == old(queue.queue) && batches == old(batches) && db.sent == old(db.sent)
      ensures !old(busy) ==>
                && r != AlreadyRunning
                && |old(batches)| <= |batches|
                && Cut(old(queue.queue), batchSize) == batches[|old(batches)|..] + Cut(queue.queue, batchSize)
                && (r == Hung <==> busy)
      ensures !old(busy) && r == Drained ==>
                (batchSize > 0 ==> queue.queue == []) && (batchSize <= 0 ==> queue.queue == old(queue.queue))
      ensures !old(busy) && r != Hung ==> db.sent == old(db.sent) + Payloads(batches[|old(batches)|..], clock)
      ensures !old(busy) && r == Hung ==>
                |old(batches)| < |batches| && db.sent == old(db.sent) + Payloads(batches[|old(batches)|..|batches| - 1], clock)
    {
      if busy {
        return AlreadyRunning;
      }
      busy := true;
      r := Drain(outcomesFor, clock, nowAt, sendOk);
      if r != Hung {
        busy := false;
      }
    }

    /** `Enqueue`: the request joins the queue and a run starts. */
    method Enqueue(input: PaymentRequest, outcomesFor: nat -> nat -> seq<CallOutcome>, clock: nat -> string,
                   nowAt: nat -> int, sendOk: nat -> bool) returns (r: RunOutcome)
      requires Valid()
      modifies this, queue, router, db, db.batchQueue
      ensures Valid()
      ensures old(busy) ==> r == AlreadyRunning && queue.queue == old(queue.queue) + [input]
      ensures !old(busy) ==>
                && |old(batches)| <= |batches|
                && Cut(old(queue.queue) + [input], batchSize) == batches[|old(batches)|..] + Cut(queue.queue, batchSize)
    {
      queue.Enqueue(input);
      r := ProcessPayments(outcomesFor, clock, nowAt, sendOk);
    }
  }
}
