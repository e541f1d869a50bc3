/** The job-based variant's `PaymentProcessingJob`: reads payment requests in
    windows, hands each one to the orchestrator and forwards only the successes
    to the persistence channel. */
module ProcessingJob {
  import opened Wrappers
  import opened Seqs
  import opened Windows
  import opened Models

  /** The `Payment` entity; `requestedAt` in Unix milliseconds. */
  datatype Payment = Payment(correlationId: string, amount: real, requestedAt: int, processedBy: string)

  /** What the orchestrator's `ProcessAsync` does with one payment. */
  datatype Orchestration = Succeeded(content: Payment) | Failed | Threw

  /** The payments built from a window: each request's identity and amount,
      stamped with the clock reading `stamp(i)` of its own position. */
  function Payments(window: seq<PaymentRequest>, stamp: nat -> int): (ps: seq<Payment>)
    ensures |ps| == |window|
  {
    seq(|window|, i requires 0 <= i < |window| => Payment(window[i].correlationId, window[i].amount, stamp(i), ""))
  }

  /** Payments stand position by position for requests: same count, and each
      one has its request's identity and amount. */
  ghost predicate Matches(ps: seq<Payment>, rs: seq<PaymentRequest>) {
    |ps| == |rs|
    && forall i :: 0 <= i < |ps| ==> ps[i].correlationId == rs[i].correlationId && ps[i].amount == rs[i].amount
  }

  /** Each payment keeps its request's identity and amount. */
  lemma PaymentsKeepRequests(window: seq<PaymentRequest>, stamp: nat -> int)
    ensures Matches(Payments(window, stamp), window)
  {
  }

  /** Matching runs put end to end still match. */
  lemma MatchesConcat(ps: seq<Payment>, rs: seq<PaymentRequest>, ps': seq<Payment>, rs': seq<PaymentRequest>)
    requires Matches(ps, rs) && Matches(ps', rs')
    ensures Matches(ps + ps', rs + rs')
  {
    forall i | 0 <= i < |ps + ps'|
      ensures (ps + ps')[i].correlationId == (rs + rs')[i].correlationId && (ps + ps')[i].amount == (rs + rs')[i].amount
    {
      if i >= |ps| {
        assert (ps + ps')[i] == ps'[i - |ps|] && (rs + rs')[i] == rs'[i - |rs|];
      }
    }
  }

  /** What reaches the persistence channel: the content of every success, in
      order; failures and exceptions are dropped. */
  function Forwarded(ps: seq<Payment>, orchestrate: Payment -> Orchestration): (out: seq<Payment>)
    ensures |out| <= |ps|
  {
    if ps == [] then []
    else
      var rest := Forwarded(ps[1..], orchestrate);
      match orchestrate(ps[0])
      case Succeeded(content) => [content] + rest
      case _ => rest
  }

  /** Every payment of a window is forwarded exactly when all succeed, and none
      is exactly when none succeeds. */
  lemma {:induction false} ForwardedAllOrNothing(ps: seq<Payment>, orchestrate: Payment -> Orchestration)
    ensures |Forwarded(ps, orchestrate)| == |ps| <==> forall i :: 0 <= i < |ps| ==> orchestrate(ps[i]).Succeeded?
    ensures Forwarded(ps, orchestrate) == [] <==> forall i :: 0 <= i < |ps| ==> !orchestrate(ps[i]).Succeeded?
    decreases |ps|
  {
    if ps != [] {
      ForwardedAllOrNothing(ps[1..], orchestrate);
      assert forall i :: 1 <= i < |ps| ==> ps[i] == ps[1..][i - 1];
    }
  }

  lemma {:induction false} ForwardedConcat(a: seq<Payment>, b: seq<Payment>, orchestrate: Payment -> Orchestration)
    ensures Forwarded(a + b, orchestrate) == Forwarded(a, orchestrate) + Forwarded(b, orchestrate)
    decreases |a|
  {
    if a == [] {
      assert a + b == b;
    } else {
      assert (a + b)[1..] == a[1..] + b;
      ForwardedConcat(a[1..], b, orchestrate);
    }
  }

  /** The logs of a run, as values: the windows read (each non-empty and within
      the cap), `read` their requests in order, the payments tried standing one
      for one for those requests, and `forwarded` what the orchestrator accepted
      of them. */
  ghost predicate Consistent(newWindows: seq<seq<PaymentRequest>>, newAttempts: seq<Payment>, read: seq<PaymentRequest>,
                             forwarded: seq<Payment>, cap: int, orchestrate: Payment -> Orchestration)
  {
    && (forall i :: 0 <= i < |newWindows| ==> 1 <= |newWindows[i]| <= cap)
    && read == Flatten(newWindows)
    && Matches(newAttempts, read)
    && forwarded == Forwarded(newAttempts, orchestrate)
  }

  /** A turn's window, kept when non-empty and fanned out, extends consistent
      logs consistently. */
  lemma Extend(newWindows: seq<seq<PaymentRequest>>, newAttempts: seq<Payment>, read: seq<PaymentRequest>,
               forwarded: seq<Payment>, window: seq<PaymentRequest>, stamp: nat -> int,
               orchestrate: Payment -> Orchestration, cap: int)
    requires Consistent(newWindows, newAttempts, read, forwarded, cap, orchestrate)
    requires window != [] ==> |window| <= cap
    ensures Consistent(if window != [] then newWindows + [window] else newWindows, newAttempts + Payments(window, stamp),
                       read + window, forwarded + Forwarded(Payments(window, stamp), orchestrate), cap, orchestrate)
  {
    var added := Payments(window, stamp);
    ForwardedConcat(newAttempts, added, orchestrate);
    if window != [] {
      FlattenConcat(newWindows, [window]);
      assert Flatten([window]) == window + Flatten([]);
      PaymentsKeepRequests(window, stamp);
      MatchesConcat(newAttempts, read, added, window);
    } else {
      assert read + window == read;
      assert newAttempts + added == newAttempts;
    }
  }

  /** The channel's account stays balanced across turn `k`: `read` was read
      before it, and its window `window` left `left` in the channel after `u`
      race turns. */
  lemma AccountStep(items0: seq<PaymentRequest>, iterations: seq<Iteration>, k: nat, used: seq<nat>, u: nat,
                    read: seq<PaymentRequest>, pending: seq<PaymentRequest>,
                    window: seq<PaymentRequest>, left: seq<PaymentRequest>)
    requires k < |iterations| && |used| == k && u <= |iterations[k].steps|
    requires forall j :: 0 <= j < k ==> used[j] <= |iterations[j].steps|
    requires read + pending == items0 + Written(iterations, used)
    requires window + left == pending + iterations[k].arrivals + Arrivals(iterations[k].steps[..u])
    ensures forall j :: 0 <= j < k + 1 ==> (used + [u])[j] <= |iterations[j].steps|
    ensures (read + window) + left == items0 + Written(iterations, used + [u])
  {
    var turn := iterations[k].arrivals + Arrivals(iterations[k].steps[..u]);
    WrittenStep(iterations, used, u);
    assert window + left == pending + turn;
    Balance(read, pending, items0, Written(iterations, used), window, left, turn);
  }

  /** One turn of the outer loop: requests written before the first read, the
      turns of the window loop, and the clock for the window's payments. */
  datatype Iteration = Iteration(arrivals: seq<PaymentRequest>, steps: seq<WaitStep<PaymentRequest>>, stamp: nat -> int)

  /** Every request written to the channel over a run of turns, in order: each
      turn's arrivals, then what was written during the `used[k]` race turns its
      window took. */
  function Written(iterations: seq<Iteration>, used: seq<nat>): seq<PaymentRequest>
    requires |used| <= |iterations|
    requires forall k :: 0 <= k < |used| ==> used[k] <= |iterations[k].steps|
    decreases |used|
  {
    if used == [] then []
    else
      var n := |used| - 1;
      Written(iterations, used[..n]) + iterations[n].arrivals + Arrivals(iterations[n].steps[..used[n]])
  }

  /** One more turn appends what it wrote. */
  lemma WrittenStep(iterations: seq<Iteration>, used: seq<nat>, u: nat)
    requires |used| < |iterations| && u <= |iterations[|used|].steps|
    requires forall j :: 0 <= j < |used| ==> used[j] <= |iterations[j].steps|
    ensures forall j :: 0 <= j < |used| + 1 ==> (used + [u])[j] <= |iterations[j].steps|
    ensures Written(iterations, used + [u])
            == Written(iterations, used) + iterations[|used|].arrivals + Arrivals(iterations[|used|].steps[..u])
  {
    assert (used + [u])[..|used|] == used;
  }

  class PaymentProcessingJob {
    const input: Channel<PaymentRequest>
    const output: Channel<Payment>
    const batchSize: nat
    const maxWaitMs: int
    /** Every window read, in order. */
    var windows: seq<seq<PaymentRequest>>
    /** Every payment handed to the orchestrator, in order. */
    var attempted: seq<Payment>

    constructor (processing: Channel<PaymentRequest>, persistence: Channel<Payment>, size: nat, waitMs: int)
      ensures input == processing && output == persistence && batchSize == size && maxWaitMs == waitMs
      ensures windows == [] && attempted == []
    {
      input := processing;
      output := persistence;
      batchSize := size;
      maxWaitMs := waitMs;
      windows := [];
      attempted := [];
    }

    /** The fan-out over one window: every payment goes to the orchestrator
        exactly once, and only successes are written to the persistence channel. */
    method ProcessWindow(window: seq<PaymentRequest>, stamp: nat -> int, orchestrate: Payment -> Orchestration)
      modifies this, output
      ensures attempted == old(attempted) + Payments(window, stamp)
      ensures output.items == old(output.items) + Forwarded(Payments(window, stamp), orchestrate)
      ensures output.consumed == old(output.consumed) && windows == old(windows)
    {
      var payments := Payments(window, stamp);
      for i := 0 to |payments|
        invariant attempted == old(attempted) + payments[..i]
        invariant output.items == old(output.items) + Forwarded(payments[..i], orchestrate)
        invariant output.consumed == old(output.consumed) && windows == old(windows)
      {
        var payment := payments[i];
        assert payments[..i + 1] == payments[..i] + [payment];
        ForwardedConcat(payments[..i], [payment], orchestrate);
        attempted := attempted + [payment];
        match orchestrate(payment)
        case Succeeded(content) =>
          output.Write([content]);
        case _ =>
      }
      assert payments[..|payments|] == payments;
    }

    /** The job's logs after some turns, relative to a starting point: the
        windows read since (`newWindows`) and the payments tried since
        (`newAttempts`) extend the logs, the requests consumed since are `read`,
        and the persistence channel gained `forwarded`; the four are consistent. */
    ghost predicate Since(windows0: seq<seq<PaymentRequest>>, attempted0: seq<Payment>, consumed0: seq<PaymentRequest>,
                          output0: seq<Payment>, newWindows: seq<seq<PaymentRequest>>, newAttempts: seq<Payment>,
                          read: seq<PaymentRequest>, forwarded: seq<Payment>, orchestrate: Payment -> Orchestration)
      reads this, input, output
    {
      && windows == windows0 + newWindows
      && attempted == attempted0 + newAttempts
      && input.consumed == consumed0 + read
      && output.items == output0 + forwarded
      && Consistent(newWindows, newAttempts, read, forwarded, Max(batchSize, 1), orchestrate)
    }

    /** One turn of the outer loop: the arrivals are written, a window is read
        and, when the first read found something, fanned out. */
    method RunIteration(iteration: Iteration, orchestrate: Payment -> Orchestration)
      returns (window: seq<PaymentRequest>, used: nat)
      requires input as object != output
      modifies this, input, output
      ensures window == [] ==> windows == old(windows)
      ensures window != [] ==> windows == old(windows) + [window] && |window| <= Max(batchSize, 1)
      ensures input.consumed == old(input.consumed) + window
      ensures used <= |iteration.steps|
      ensures window + input.items == old(input.items) + iteration.arrivals + Arrivals(iteration.steps[..used])
      ensures attempted == old(attempted) + Payments(window, iteration.stamp)
      ensures output.items == old(output.items) + Forwarded(Payments(window, iteration.stamp), orchestrate)
    {
      input.Write(iteration.arrivals);
      var reason;
      window, used, reason := ReadWindow(input, batchSize, maxWaitMs, iteration.steps);
      if reason != NothingToRead {
        windows := windows + [window];
        ProcessWindow(window, iteration.stamp, orchestrate);
      }
    }

    /** The input channel's account after the first `k` turns: turn `j` took
        `used[j]` race turns, and the requests read since (`read`) followed by what
        is left in the channel are what was there (`items0`) and written since. */
    ghost predicate Accounted(items0: seq<PaymentRequest>, iterations: seq<Iteration>, k: nat, used: seq<nat>,
                              read: seq<PaymentRequest>)
      reads input
    {
      && k <= |iterations| && |used| == k
      && (forall j :: 0 <= j < k ==> used[j] <= |iterations[j].steps|)
      && read + input.items == items0 + Written(iterations, used)
    }

    /** A turn extends the logs kept since a starting point; its window, taken
        after `used` race turns, and the channel left after it are what the
        channel held plus what was written meanwhile. */
    method Turn(iteration: Iteration, orchestrate: Payment -> Orchestration,
                ghost windows0: seq<seq<PaymentRequest>>, ghost attempted0: seq<Payment>, ghost consumed0: seq<PaymentRequest>,
                ghost output0: seq<Payment>, ghost newWindows: seq<seq<PaymentRequest>>, ghost newAttempts: seq<Payment>,
                ghost read: seq<PaymentRequest>, ghost forwarded: seq<Payment>)
      returns (window: seq<PaymentRequest>, used: nat,
               ghost newWindows': seq<seq<PaymentRequest>>, ghost newAttempts': seq<Payment>,
               ghost read': seq<PaymentRequest>, ghost forwarded': seq<Payment>)
      requires input as object != output
      requires Since(windows0, attempted0, consumed0, output0, newWindows, newAttempts, read, forwarded, orchestrate)
      modifies this, input, output
      ensures Since(windows0, attempted0, consumed0, output0, newWindows', newAttempts', read', forwarded', orchestrate)
      ensures used <= |iteration.steps|
      ensures window + input.items == old(input.items) + iteration.arrivals + Arrivals(iteration.steps[..used])
      ensures read' == read + window
    {
      window, used := RunIteration(iteration, orchestrate);
      ghost var added := Payments(window, iteration.stamp);
      Extend(newWindows, newAttempts, read, forwarded, window, iteration.stamp, orchestrate, Max(batchSize, 1));
      AppendAssoc(windows0, newWindows, [window]);
      AppendAssoc(attempted0, newAttempts, added);
      AppendAssoc(consumed0, read, window);
      AppendAssoc(output0, forwarded, Forwarded(added, orchestrate));
      newWindows' := if window != [] then newWindows + [window] else newWindows;
      newAttempts', read', forwarded' := newAttempts + added, read + window, forwarded + Forwarded(added, orchestrate);
    }

    /** `ExecuteAsync` over a finite run of outer-loop turns (cancellation ends
        the run): each turn reads one window, when there is something to read,
        and fans it out; the payments tried are the requests consumed, one for one,
        and only the orchestrator's successes are forwarded. Turn `k`'s window took
        `used[k]` race turns. What was read, followed by what is left in the input
        channel, is exactly what was there and written since: a payment whose
        orchestration failed is not put back, and requests beyond a full window
        wait in the channel for the next one. */
    method ExecuteAsync(iterations: seq<Iteration>, orchestrate: Payment -> Orchestration) returns (used: seq<nat>)
      requires input as object != output
      modifies this, input, output
      ensures |old(windows)| <= |windows|
      ensures forall i :: |old(windows)| <= i < |windows| ==> 1 <= |windows[i]| <= Max(batchSize, 1)
      ensures input.consumed == old(input.consumed) + Flatten(windows[|old(windows)|..])
      ensures |old(attempted)| <= |attempted|
      ensures Matches(attempted[|old(attempted)|..], Flatten(windows[|old(windows)|..]))
      ensures output.items == old(output.items) + Forwarded(attempted[|old(attempted)|..], orchestrate)
      ensures |used| == |iterations| && forall k :: 0 <= k < |used| ==> used[k] <= |iterations[k].steps|
      ensures Flatten(windows[|old(windows)|..]) + input.items == old(input.items) + Written(iterations, used)
    {
      ghost var newWindows: seq<seq<PaymentRequest>> := [];
      ghost var newAttempts, forwarded: seq<Payment> := [], [];
      ghost var read: seq<PaymentRequest> := [];
      used := [];
      for k := 0 to |iterations|
        invariant Since(old(windows), old(attempted), old(input.consumed), old(output.items),
                        newWindows, newAttempts, read, forwarded, orchestrate)
        invariant Accounted(old(input.items), iterations, k, used, read)
      {
        ghost var pending, before := input.items, read;
        var window, u;
        window, u, newWindows, newAttempts, read, forwarded :=
          Turn(iterations[k], orchestrate, old(windows), old(attempted), old(input.consumed), old(output.items),
               newWindows, newAttempts, read, forwarded);
        AccountStep(old(input.items), iterations, k, used, u, before, pending, window, input.items);
        used := used + [u];
      }
      assert iterations[..|iterations|] == iterations;
      assert windows[|old(windows)|..] == newWindows;
      assert attempted[|old(attempted)|..] == newAttempts;
    }
  }
}
