/** The backend's `QueueService<T>`: a FIFO queue with a separately maintained count. */
module Queues {
  import opened Wrappers

  function Min(a: int, b: int): int {
    if a <= b then a else b
  }

  class QueueService<T> {
    var queue: seq<T>
    var count: int

    /** The count mirrors the queue's length. */
    ghost predicate Valid()
      reads this
    {
      count == |queue|
    }

    constructor ()
      ensures Valid() && queue == []
    {
      queue := [];
      count := 0;
    }

    /** `Enqueue`: the item goes to the back. */
    method Enqueue(item: T)
      requires Valid()
      modifies this
      ensures Valid()
      ensures queue == old(queue) + [item]
    {
      queue := queue + [item];
      count := count + 1;
    }

    /** `TryDequeue`: the front item, or nothing when the queue is empty. */
    method TryDequeue() returns (item: Option<T>)
      requires Valid()
      modifies this
      ensures Valid()
      ensures old(queue) == [] ==> item == None && queue == []
      ensures old(queue) != [] ==> item == Some(old(queue)[0]) && queue == old(queue)[1..]
      ensures item.Some? ==> old(queue) == [item.value] + queue
    {
      if |queue| == 0 {
        return None;
      }
      item := Some(queue[0]);
      queue := queue[1..];
      count := count - 1;
    }

    /** `Peek`: the front item without removing it. */
    method Peek() returns (item: Option<T>)
      requires Valid()
      ensures item.None? <==> queue == []
      ensures item.Some? ==> queue[0] == item.value
    {
      if |queue| == 0 {
        return None;
      }
      item := Some(queue[0]);
    }

    function Count(): (n: int)
      requires Valid()
      reads this
      ensures n == |queue| && n >= 0
    {
      count
    }

    predicate IsEmpty()
      requires Valid()
      reads this
      ensures IsEmpty() <==> queue == []
    {
      count == 0
    }

    /** `Clear`: dequeue until the queue is empty. */
    method Clear()
      requires Valid()
      modifies this
      ensures Valid() && queue == []
    {
      var more := true;
      while more
        invariant Valid()
        invariant !more ==> queue == []
        decreases |queue| + (if more then 1 else 0)
      {
        var item := TryDequeue();
        more := item.Some?;
      }
    }

    /** `DequeueMultiple`: up to `maxCount` items from the front, in order; a
        non-positive `maxCount` takes nothing. */
    method DequeueMultiple(maxCount: int) returns (items: seq<T>)
      requires Valid()
      modifies this
      ensures Valid()
      ensures old(queue) == items + queue
      ensures |items| == if maxCount <= 0 then 0 else Min(maxCount, |old(queue)|)
    {
      items := [];
      var actualCount := Min(maxCount, count);
      var i := 0;
      while i < actualCount
        invariant Valid()
        invariant old(queue) == items + queue
        invariant 0 <= i && |items| == i
        invariant actualCount <= i + |queue|
        invariant i <= if actualCount < 0 then 0 else actualCount
      {
        var item := TryDequeue();
        if item.Some? {
          items := items + [item.value];
        } else {
          break;
        }
        i := i + 1;
      }
    }
  }
}
