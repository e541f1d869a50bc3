/** The micro-batch window both background jobs build from a channel: one
    blocking read, then more reads until the window is full, its time is up, the
    delay wins the race against the next read, or the channel has no more data. */
module Windows {
  import opened Wrappers

  /** An unbounded single-reader channel (`System.Threading.Channels`), as the
      sequence of items written and not yet read. */
  class Channel<T> {
    /** Items written and not yet read, front first. */
    var items: seq<T>
    /** Every item read so far, in reading order. */
    var consumed: seq<T>

    constructor ()
      ensures items == [] && consumed == []
    {
      items := [];
      consumed := [];
    }

    /** Writers add items at the back. */
    method Write(xs: seq<T>)
      modifies this
      ensures items == old(items) + xs && consumed == old(consumed)
    {
      items := items + xs;
    }

    /** `TryRead`: the front item, if any. */
    method TryRead() returns (x: Option<T>)
      modifies this
      ensures old(items) == [] ==> x == None && items == [] && consumed == old(consumed)
      ensures old(items) != [] ==>
                x == Some(old(items)[0]) && items == old(items)[1..] && consumed == old(consumed) + [old(items)[0]]
    {
      if items == [] {
        return None;
      }
      x := Some(items[0]);
      consumed := consumed + [items[0]];
      items := items[1..];
    }
  }

  /** How the race between `WaitToReadAsync` and the remaining delay ends. */
  datatype RaceOutcome = DataReady | DelayElapsed | NoMoreData

  /** One turn of the window loop: the stopwatch reads `elapsedMs`, the items in
      `arrivals` have been written meanwhile, and the race ended as `outcome`. */
  datatype WaitStep<T> = WaitStep(elapsedMs: int, arrivals: seq<T>, outcome: RaceOutcome)

  /** Why a window closed. `TraceEnded` stands for the delay winning after the
      last turn given; `NothingToRead` for the first read still waiting. */
  datatype CloseReason = Full | TimeUp | DelayWon | ChannelDone | TraceEnded | NothingToRead

  function Max(a: int, b: int): int {
    if a >= b then a else b
  }

  /** Every item written during the given turns, in order. */
  function Arrivals<T>(steps: seq<WaitStep<T>>): seq<T>
    decreases |steps|
  {
    if steps == [] then [] else Arrivals(steps[..|steps| - 1]) + steps[|steps| - 1].arrivals
  }

  /** Channel accounting across one more window: if what was read so far
      (`read`) followed by the channel (`pending`) is what was there at the start
      (`start`) plus what was written so far (`written`), and the next window
      followed by the channel left after it is `pending` plus what was written
      meanwhile (`more`), then the account still balances with the window read. */
  lemma Balance<T>(read: seq<T>, pending: seq<T>, start: seq<T>, written: seq<T>,
                   window: seq<T>, left: seq<T>, more: seq<T>)
    requires read + pending == start + written
    requires window + left == pending + more
    ensures (read + window) + left == start + (written + more)
  {
    calc {
      (read + window) + left;
      read + (window + left);
      read + (pending + more);
      (read + pending) + more;
      (start + written) + more;
      start + (written + more);
    }
  }

  /** A turn that lets the window go on: time left and data ready. */
  predicate Continues<T>(step: WaitStep<T>, maxWaitMs: int) {
    step.elapsedMs < maxWaitMs && step.outcome == DataReady
  }

  /** The inner `TryRead` loop: moves items from the channel into the window
      while it has room and the channel has items. */
  method Fill<T>(channel: Channel<T>, window: seq<T>, batchSize: nat) returns (filled: seq<T>)
    requires |window| <= Max(batchSize, 1)
    modifies channel
    ensures filled + channel.items == window + old(channel.items)
    ensures |window| <= |filled| <= Max(batchSize, 1)
    ensures filled[..|window|] == window && channel.consumed == old(channel.consumed) + filled[|window|..]
    ensures |filled| < batchSize ==> channel.items == []
  {
    filled := window;
    while |filled| < batchSize && channel.items != []
      invariant filled + channel.items == window + old(channel.items)
      invariant filled[..|window|] == window && channel.consumed == old(channel.consumed) + filled[|window|..]
      invariant |window| <= |filled| <= Max(batchSize, 1)
      decreases |channel.items|
    {
      var item := channel.TryRead();
      filled := filled + [item.value];
    }
  }

  /** The window loop of `ExecuteAsync` in both jobs, over the turns `steps`:
      returns the window, how many turns it used and why it closed. */
  method ReadWindow<T>(channel: Channel<T>, batchSize: nat, maxWaitMs: int, steps: seq<WaitStep<T>>)
    returns (window: seq<T>, used: nat, reason: CloseReason)
    modifies channel
    ensures used <= |steps|
    ensures window + channel.items == old(channel.items) + Arrivals(steps[..used])
    ensures channel.consumed == old(channel.consumed) + window
    ensures old(channel.items) == [] <==> reason == NothingToRead
    ensures reason == NothingToRead ==> window == [] && used == 0
    ensures reason != NothingToRead ==> 1 <= |window| <= Max(batchSize, 1)
    ensures forall i :: 0 <= i < used - 1 ==> Continues(steps[i], maxWaitMs)
    ensures reason == Full <==> reason != NothingToRead && |window| >= batchSize
    ensures reason == TimeUp ==> used > 0 && steps[used - 1].elapsedMs >= maxWaitMs
    ensures reason == DelayWon ==> used > 0 && steps[used - 1].elapsedMs < maxWaitMs && steps[used - 1].outcome == DelayElapsed
    ensures reason == ChannelDone ==> used > 0 && steps[used - 1].elapsedMs < maxWaitMs && steps[used - 1].outcome == NoMoreData
    ensures reason == TraceEnded ==> used == |steps| && (used > 0 ==> Continues(steps[used - 1], maxWaitMs))
  {
    window := [];
    used := 0;
    var first := channel.TryRead();
    if first.None? {
      return window, used, NothingToRead;
    }
    window := [first.value];
    while |window| < batchSize
      invariant used <= |steps|
      invariant window + channel.items == old(channel.items) + Arrivals(steps[..used])
      invariant channel.consumed == old(channel.consumed) + window
      invariant 1 <= |window| <= Max(batchSize, 1)
      invariant forall i :: 0 <= i < used ==> Continues(steps[i], maxWaitMs)
      decreases |steps| - used
    {
      if used == |steps| {
        return window, used, TraceEnded;
      }
      var step := steps[used];
      assert steps[..used + 1][..used] == steps[..used];
      assert Arrivals(steps[..used + 1]) == Arrivals(steps[..used]) + step.arrivals;
      used := used + 1;
      ghost var pending := channel.items;
      channel.Write(step.arrivals);
      assert window + channel.items == (window + pending) + step.arrivals;
      if step.elapsedMs >= maxWaitMs {
        return window, used, TimeUp;
      }
      if step.outcome == DelayElapsed {
        return window, used, DelayWon;
      }
      if step.outcome == NoMoreData {
        return window, used, ChannelDone;
      }
      window := Fill(channel, window, batchSize);
    }
    reason := Full;
  }
}
