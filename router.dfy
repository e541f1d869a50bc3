/** The backend's `PaymentProcessorRouter`: posts a payment to a processor and
    retries on any failure, always on the default processor, with a growing delay. */
module Router {
  import opened Wrappers
  import opened Models
  import opened Seqs

  /** What one `POST /payments` yields: the processor's echo of the request, or
      one of the failures that make `MakePaymentRequestAsync` throw. */
  datatype CallOutcome =
    | Accepted(echo: PaymentProcessorRequest)
    | NonSuccessStatus
    | TimedOut
    | Undeserialisable

  /** `MakePaymentRequestAsync` after the call: on success the fields come from the
      processor's echo, tagged with the processor actually called. */
  function MakePaymentRequest(target: ProcessorType, outcome: CallOutcome): (r: Option<ProcessedPayment>)
    ensures r.Some? <==> outcome.Accepted?
    ensures r.Some? ==> r.value.processor == target
                        && r.value.correlationId == outcome.echo.correlationId
                        && r.value.amount == outcome.echo.amount
                        && r.value.requestedAt == outcome.echo.requestedAt
  {
    match outcome
    case Accepted(echo) => Some(ProcessedPayment(echo.correlationId, echo.amount, target, echo.requestedAt))
    case _ => None
  }

  /** The index of the first accepted call, or `|outcomes|` when none is. */
  function FirstSuccess(outcomes: seq<CallOutcome>): (k: nat)
    ensures k <= |outcomes|
    ensures forall i :: 0 <= i < k ==> !outcomes[i].Accepted?
    ensures k < |outcomes| ==> outcomes[k].Accepted?
  {
    if outcomes == [] then 0
    else if outcomes[0].Accepted? then 0
    else 1 + FirstSuccess(outcomes[1..])
  }

  /** The processors called by `n` attempts: the first one, then the default one. */
  function Targets(first: ProcessorType, n: nat): (ts: seq<ProcessorType>)
    ensures |ts| == n
    ensures n > 0 ==> ts[0] == first
    ensures forall i :: 0 < i < n ==> ts[i] == Default
  {
    seq(n, i requires 0 <= i < n => if i == 0 then first else Default)
  }

  /** The waits before `n` retries, starting from `delay` and growing by 75 ms. */
  function Delays(delay: int, n: nat): (ds: seq<int>)
    ensures |ds| == n
    ensures forall i :: 0 <= i < n ==> ds[i] == delay + 75 * i
  {
    seq(n, i requires 0 <= i < n => delay + 75 * i)
  }

  function Repeat<T>(x: T, n: nat): (xs: seq<T>)
    ensures |xs| == n
    ensures forall i :: 0 <= i < n ==> xs[i] == x
  {
    if n == 0 then [] else [x] + Repeat(x, n - 1)
  }

  /** One failed attempt followed by the rest of the retries. */
  lemma RetryStep(first: ProcessorType, delay: int, m: nat)
    ensures [first] + Targets(Default, m) == Targets(first, m + 1)
    ensures [delay] + Delays(delay + 75, m) == Delays(delay, m + 1)
  {
  }

  /** How many calls are made: up to and including the first accepted one. */
  function Attempts(outcomes: seq<CallOutcome>): nat {
    if FirstSuccess(outcomes) < |outcomes| then FirstSuccess(outcomes) + 1 else |outcomes|
  }

  /** The logs after a rejected first call and the retries behind it are the logs
      of the whole sequence of calls. */
  lemma RetryLogs(outcomes: seq<CallOutcome>, targets: seq<ProcessorType>, first: ProcessorType,
                  requests: seq<PaymentProcessorRequest>, request: PaymentProcessorRequest,
                  waits: seq<int>, delay: int)
    requires outcomes != [] && !outcomes[0].Accepted?
    ensures FirstSuccess(outcomes) == 1 + FirstSuccess(outcomes[1..])
    ensures Attempts(outcomes) == 1 + Attempts(outcomes[1..])
    ensures (targets + [first]) + Targets(Default, Attempts(outcomes[1..])) == targets + Targets(first, Attempts(outcomes))
    ensures (requests + [request]) + Repeat(request, Attempts(outcomes[1..])) == requests + Repeat(request, Attempts(outcomes))
    ensures (waits + [delay]) + Delays(delay + 75, FirstSuccess(outcomes[1..])) == waits + Delays(delay, FirstSuccess(outcomes))
  {
    var m := Attempts(outcomes[1..]);
    RetryStep(first, delay, m);
    RetryStep(first, delay, FirstSuccess(outcomes[1..]));
    AppendAssoc(targets, [first], Targets(Default, m));
    AppendAssoc(requests, [request], Repeat(request, m));
    AppendAssoc(waits, [delay], Delays(delay + 75, FirstSuccess(outcomes[1..])));
  }

  class PaymentProcessorRouter {
    /** `_delayMs`, shared by every payment the router handles. */
    var delayMs: int
    /** The processor of every call made, in order. */
    var targets: seq<ProcessorType>
    /** The body of every call made, in order. */
    var requests: seq<PaymentProcessorRequest>
    /** Every delay waited, in order. */
    var waits: seq<int>

    constructor ()
      ensures delayMs == 75 && targets == [] && requests == [] && waits == []
    {
      delayMs := 75;
      targets := [];
      requests := [];
      waits := [];
    }

    /** `ProcessPaymentWithRetryAsync`, with the calls' outcomes as `outcomes`: the
        first call goes to `processor` (default when absent), every retry to the
        default processor after waiting `delayMs`, which then grows by 75 ms. The
        result is that of the first accepted call; `None` stands for the retries
        going on beyond the outcomes given. */
    method ProcessPaymentWithRetry(payment: PaymentRequest, requestedAt: string, processor: Option<ProcessorType>,
                                   outcomes: seq<CallOutcome>) returns (r: Option<ProcessedPayment>)
      modifies this
      ensures FirstSuccess(outcomes) == |outcomes| ==> r == None
      ensures FirstSuccess(outcomes) < |outcomes| ==>
                r == MakePaymentRequest(if FirstSuccess(outcomes) == 0 then processor.GetOr(Default) else Default,
                                        outcomes[FirstSuccess(outcomes)])
      ensures targets == old(targets) + Targets(processor.GetOr(Default), Attempts(outcomes))
      ensures requests == old(requests) + Repeat(PaymentProcessorRequest(payment.correlationId, payment.amount, requestedAt), Attempts(outcomes))
      ensures waits == old(waits) + Delays(old(delayMs), FirstSuccess(outcomes))
      ensures delayMs == old(delayMs) + 75 * FirstSuccess(outcomes)
      decreases |outcomes|
    {
      var currentProcessor := processor.GetOr(Default);
      if outcomes == [] {
        return None;
      }
      var paymentData := PaymentProcessorRequest(payment.correlationId, payment.amount, requestedAt);
      targets := targets + [currentProcessor];
      requests := requests + [paymentData];
      r := MakePaymentRequest(currentProcessor, outcomes[0]);
      if r.Some? {
        return;
      }
      waits := waits + [delayMs];
      delayMs := delayMs + 75;
      r := ProcessPaymentWithRetry(payment, requestedAt, Some(Default), outcomes[1..]);
      RetryLogs(outcomes, old(targets), currentProcessor, old(requests), paymentData, old(waits), old(delayMs));
    }
  }
}
