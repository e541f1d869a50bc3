/** The job-based variant's `PaymentPersistingJob`: reads processed payments in
    windows and inserts each window with one bulk call; a failed insert is
    dropped. */
module PersistingJob {
  import opened Windows
  import ProcessingJob

  /** The processed payments the processing job forwards. */
  type Payment = ProcessingJob.Payment

  /** One `InserBatchAsync` call: the rows handed over and whether it succeeded. */
  datatype InsertCall = InsertCall(rows: seq<Payment>, ok: bool)

  /** Every row handed to the repository, call after call. */
  function AllRows(calls: seq<InsertCall>): seq<Payment> {
    if calls == [] then [] else calls[0].rows + AllRows(calls[1..])
  }

  /** The rows one call left in the repository. */
  function Kept(call: InsertCall): seq<Payment> {
    if call.ok then call.rows else []
  }

  /** The rows the repository kept: those of the successful calls, in order. */
  function Stored(calls: seq<InsertCall>): seq<Payment> {
    if calls == [] then [] else Kept(calls[0]) + Stored(calls[1..])
  }

  lemma {:induction false} AllRowsConcat(a: seq<InsertCall>, b: seq<InsertCall>)
    ensures AllRows(a + b) == AllRows(a) + AllRows(b)
    decreases |a|
  {
    if a == [] {
      assert a + b == b;
    } else {
      assert (a + b)[1..] == a[1..] + b;
      AllRowsConcat(a[1..], b);
    }
  }

  lemma {:induction false} StoredConcat(a: seq<InsertCall>, b: seq<InsertCall>)
    ensures Stored(a + b) == Stored(a) + Stored(b)
    decreases |a|
  {
    if a == [] {
      assert a + b == b;
    } else {
      assert (a + b)[1..] == a[1..] + b;
      StoredConcat(a[1..], b);
    }
  }

  /** With non-empty windows, every row handed over is kept exactly when no call
      failed: a failed window is lost, never requeued. */
  lemma {:induction false} StoredAllIffNoFailure(calls: seq<InsertCall>)
    requires forall i :: 0 <= i < |calls| ==> calls[i].rows != []
    ensures |Stored(calls)| <= |AllRows(calls)|
    ensures Stored(calls) == AllRows(calls) <==> forall i :: 0 <= i < |calls| ==> calls[i].ok
    decreases |calls|
  {
    if calls != [] {
      assert forall i :: 1 <= i < |calls| ==> calls[1..][i - 1] == calls[i];
      StoredAllIffNoFailure(calls[1..]);
      if !calls[0].ok {
        assert |Stored(calls)| < |AllRows(calls)|;
      } else {
        var r := calls[0].rows;
        assert Stored(calls)[|r|..] == Stored(calls[1..]) && AllRows(calls)[|r|..] == AllRows(calls[1..]);
        assert (forall i :: 0 <= i < |calls| ==> calls[i].ok) <==> (forall i :: 0 <= i < |calls[1..]| ==> calls[1..][i].ok);
      }
    }
  }

  /** Every call's rows are non-empty and at most `cap` long. */
  predicate WithinCap(calls: seq<InsertCall>, cap: int) {
    calls == [] || (1 <= |calls[0].rows| <= cap && WithinCap(calls[1..], cap))
  }

  lemma {:induction false} WithinCapConcat(a: seq<InsertCall>, b: seq<InsertCall>, cap: int)
    requires WithinCap(a, cap) && WithinCap(b, cap)
    ensures WithinCap(a + b, cap)
    decreases |a|
  {
    if a == [] {
      assert a + b == b;
    } else {
      assert (a + b)[1..] == a[1..] + b;
      WithinCapConcat(a[1..], b, cap);
    }
  }

  lemma {:induction false} WithinCapEach(calls: seq<InsertCall>, cap: int)
    requires WithinCap(calls, cap)
    ensures forall i :: 0 <= i < |calls| ==> 1 <= |calls[i].rows| <= cap
    decreases |calls|
  {
    if calls != [] {
      WithinCapEach(calls[1..], cap);
      assert forall i :: 1 <= i < |calls| ==> calls[i] == calls[1..][i - 1];
    }
  }

  /** One turn of the outer loop: payments written before the first read, the
      turns of the window loop, and whether the insert succeeds. */
  datatype Iteration = Iteration(arrivals: seq<Payment>, steps: seq<WaitStep<Payment>>, insertOk: bool)

  /** Every payment written to the channel over a run of turns, in order: each
      turn's arrivals, then what was written during the `used[k]` race turns its
      window took. */
  function Written(iterations: seq<Iteration>, used: seq<nat>): seq<Payment>
    requires |used| <= |iterations|
    requires forall k :: 0 <= k < |used| ==> used[k] <= |iterations[k].steps|
    decreases |used|
  {
    if used == [] then []
    else
      var n := |used| - 1;
      Written(iterations, used[..n]) + iterations[n].arrivals + Arrivals(iterations[n].steps[..used[n]])
  }

  /** One more turn appends what it wrote. */
  lemma WrittenStep(iterations: seq<Iteration>, used: seq<nat>, u: nat)
    requires |used| < |iterations| && u <= |iterations[|used|].steps|
    requires forall j :: 0 <= j < |used| ==> used[j] <= |iterations[j].steps|
    ensures forall j :: 0 <= j < |used| + 1 ==> (used + [u])[j] <= |iterations[j].steps|
    ensures Written(iterations, used + [u])
            == Written(iterations, used) + iterations[|used|].arrivals + Arrivals(iterations[|used|].steps[..u])
  {
    assert (used + [u])[..|used|] == used;
  }

  /** A turn's window, inserted when non-empty, extends the calls made: they
      stay within the cap, and the rows handed over gain the window after the
      earlier ones. */
  lemma Extend(newCalls: seq<InsertCall>, window: seq<Payment>, ok: bool, cap: int, consumed0: seq<Payment>)
    requires WithinCap(newCalls, cap) && (window != [] ==> |window| <= cap)
    ensures var calls := if window == [] then newCalls else newCalls + [InsertCall(window, ok)];
            && WithinCap(calls, cap)
            && AllRows(calls) == AllRows(newCalls) + window
            && consumed0 + AllRows(calls) == (consumed0 + AllRows(newCalls)) + window
  {
    var call := InsertCall(window, ok);
    if window != [] {
      AllRowsConcat(newCalls, [call]);
      assert [call][1..] == [];
      WithinCapConcat(newCalls, [call], cap);
    } else {
      assert AllRows(newCalls) + window == AllRows(newCalls);
    }
  }

  /** The channel's account stays balanced across turn `k`: `read` was read
      before it, and its window `window` left `left` in the channel after `u`
      race turns. */
  lemma AccountStep(items0: seq<Payment>, iterations: seq<Iteration>, k: nat, used: seq<nat>, u: nat,
                    read: seq<Payment>, pending: seq<Payment>, window: seq<Payment>, left: seq<Payment>)
    requires k < |iterations| && |used| == k && u <= |iterations[k].steps|
    requires forall j :: 0 <= j < k ==> used[j] <= |iterations[j].steps|
    requires read + pending == items0 + Written(iterations, used)
    requires window + left == pending + iterations[k].arrivals + Arrivals(iterations[k].steps[..u])
    ensures forall j :: 0 <= j < k + 1 ==> (used + [u])[j] <= |iterations[j].steps|
    ensures (read + window) + left == items0 + Written(iterations, used + [u])
  {
    var turn := iterations[k].arrivals + Arrivals(iterations[k].steps[..u]);
    WrittenStep(iterations, used, u);
    assert window + left == pending + turn;
    Balance(read, pending, items0, Written(iterations, used), window, left, turn);
  }

  class PaymentPersistingJob {
    const input: Channel<Payment>
    const batchSize: nat
    const maxWaitMs: int
    /** Every insert call made, in order. */
    var inserts: seq<InsertCall>

    constructor (persistence: Channel<Payment>, size: nat, waitMs: int)
      ensures input == persistence && batchSize == size && maxWaitMs == waitMs && inserts == []
    {
      input := persistence;
      batchSize := size;
      maxWaitMs := waitMs;
      inserts := [];
    }

    /** One turn of the outer loop: the arrivals are written, a window is read
        and, when the first read found something, inserted with one call. */
    method RunIteration(iteration: Iteration) returns (window: seq<Payment>, used: nat)
      modifies this, input
      ensures window == [] ==> inserts == old(inserts)
      ensures window != [] ==> inserts == old(inserts) + [InsertCall(window, iteration.insertOk)]
                               && |window| <= Max(batchSize, 1)
      ensures input.consumed == old(input.consumed) + window
      ensures used <= |iteration.steps|
      ensures window + input.items == old(input.items) + iteration.arrivals + Arrivals(iteration.steps[..used])
    {
      input.Write(iteration.arrivals);
      var reason;
      window, used, reason := ReadWindow(input, batchSize, maxWaitMs, iteration.steps);
      if reason != NothingToRead {
        inserts := inserts + [InsertCall(window, iteration.insertOk)];
      }
    }

    /** The job's logs after the first `k` turns, relative to a starting point:
        the calls made since (`newCalls`, each non-empty and within the cap) hold
        exactly the payments consumed since, in order, turn `j` took `used[j]` race
        turns, and what was read followed by what is left in the channel is what
        was there at the start and written since. */
    ghost predicate Since(inserts0: seq<InsertCall>, consumed0: seq<Payment>, items0: seq<Payment>,
                          iterations: seq<Iteration>, k: nat, newCalls: seq<InsertCall>, used: seq<nat>)
      reads this, input
    {
      && k <= |iterations| && |used| == k
      && (forall j :: 0 <= j < k ==> used[j] <= |iterations[j].steps|)
      && inserts == inserts0 + newCalls
      && WithinCap(newCalls, Max(batchSize, 1))
      && input.consumed == consumed0 + AllRows(newCalls)
      && AllRows(newCalls) + input.items == items0 + Written(iterations, used)
    }

    /** Turn `k` extends the logs kept since a starting point. */
    method Turn(iterations: seq<Iteration>, k: nat, ghost inserts0: seq<InsertCall>, ghost consumed0: seq<Payment>,
                ghost items0: seq<Payment>, ghost newCalls: seq<InsertCall>, used: seq<nat>)
      returns (ghost newCalls': seq<InsertCall>, used': seq<nat>)
      requires k < |iterations| && Since(inserts0, consumed0, items0, iterations, k, newCalls, used)
      modifies this, input
      ensures Since(inserts0, consumed0, items0, iterations, k + 1, newCalls', used')
    {
      ghost var pending := input.items;
      var window, u := RunIteration(iterations[k]);
      Extend(newCalls, window, iterations[k].insertOk, Max(batchSize, 1), consumed0);
      AccountStep(items0, iterations, k, used, u, AllRows(newCalls), pending, window, input.items);
      used' := used + [u];
      newCalls' := if window == [] then newCalls else newCalls + [InsertCall(window, iterations[k].insertOk)];
    }

    /** `ExecuteAsync` over a finite run of outer-loop turns (cancellation ends
        the run): one insert per window, every window non-empty and within the
        cap, the windows together being exactly what was read, in order. Turn `k`'s
        window took `used[k]` race turns. What was read, followed by what is left in
        the channel, is exactly what was there and written since: a window whose
        insert failed is not put back, and items beyond a full window wait in the
        channel for the next one. */
    method ExecuteAsync(iterations: seq<Iteration>) returns (used: seq<nat>)
      modifies this, input
      ensures |old(inserts)| <= |inserts|
      ensures forall i :: |old(inserts)| <= i < |inserts| ==> 1 <= |inserts[i].rows| <= Max(batchSize, 1)
      ensures input.consumed == old(input.consumed) + AllRows(inserts[|old(inserts)|..])
      ensures |used| == |iterations| && forall k :: 0 <= k < |used| ==> used[k] <= |iterations[k].steps|
      ensures AllRows(inserts[|old(inserts)|..]) + input.items == old(input.items) + Written(iterations, used)
    {
      ghost var newCalls: seq<InsertCall> := [];
      used := [];
      for k := 0 to |iterations|
        invariant Since(old(inserts), old(input.consumed), old(input.items), iterations, k, newCalls, used)
      {
        newCalls, used := Turn(iterations, k, old(inserts), old(input.consumed), old(input.items), newCalls, used);
      }
      assert iterations[..|iterations|] == iterations;
      assert inserts[|old(inserts)|..] == newCalls;
      WithinCapEach(newCalls, Max(batchSize, 1));
    }
  }
}
