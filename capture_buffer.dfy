/**
 * The bounded FIFO that carries captured samples from a capture device to one viewer
 * (CaptureBuffer.java), with its success and loss counters.
 *
 * Threads are not modelled. Whether the calling thread has been interrupted is a parameter;
 * a blocking call that would wait forever in a sequential world (a put on a full buffer, a
 * take on an empty one) is excluded by its precondition, and a timed call whose timeout runs
 * out is the case "no room" or "no item".
 */
module CaptureBuffers {
  import opened Wrappers

  const DefaultBufferQueueCapacity: nat := 100

  /** A face location found by the face detector; only its identity matters here. */
  datatype Face = Face(trackingId: int)

  /** How a put attempt ended. */
  datatype PutOutcome =
    | Stored          // the item is now the newest one in the buffer
    | Dropped         // the timed put found no room; counted as a lost packet
    | PutInterrupted  // InterruptedException left the call

  /** What take or poll hands back. */
  datatype Delivery<T> =
    | Item(value: T)  // the oldest item, now removed
    | NoItem          // poll timed out on an empty buffer: the Java call returns null
    | TakeInterrupted // InterruptedException left the call

  class CaptureBuffer<T> {
    /** Contents of the ArrayBlockingQueue, oldest first. */
    var items: seq<T>
    /** Capacity the ArrayBlockingQueue was created with. */
    var capacity: nat
    /** mPutSuccessCount */
    var successCount: nat
    /** mPutFailCount */
    var failCount: nat

    /** What ArrayBlockingQueue guarantees: a positive capacity that is never exceeded. */
    ghost predicate Valid()
      reads this
    {
      1 <= capacity && |items| <= capacity
    }

    /** CaptureBuffer(): the default capacity. */
    constructor ()
      ensures Valid()
      ensures items == [] && capacity == DefaultBufferQueueCapacity
      ensures successCount == 0 && failCount == 0
    {
      items := [];
      capacity := DefaultBufferQueueCapacity;
      successCount, failCount := 0, 0;
    }

    /** CaptureBuffer(capacity). */
    constructor WithCapacity(capacity: int)
      requires 1 <= capacity
      ensures Valid()
      ensures items == [] && this.capacity == capacity
      ensures successCount == 0 && failCount == 0
    {
      items := [];
      this.capacity := capacity;
      successCount, failCount := 0, 0;
    }

    /**
     * Replaces the queue by a fresh empty one of the given capacity. A capacity below 1 makes
     * the ArrayBlockingQueue constructor throw IllegalArgumentException before the field is
     * assigned, so the old queue stays; `ok` is false exactly then.
     */
    method SetQueueCapacity(newCapacity: int) returns (ok: bool)
      requires Valid()
      modifies this
      ensures Valid()
      ensures ok <==> 1 <= newCapacity
      ensures ok ==> items == [] && capacity == newCapacity
      ensures !ok ==> items == old(items) && capacity == old(capacity)
      ensures successCount == old(successCount) && failCount == old(failCount)
    {
      ok := 1 <= newCapacity;
      if ok {
        items := [];
        capacity := newCapacity;
      }
    }

    /**
     * The blocking put. An interrupted call counts one failure and rethrows; otherwise the
     * item is appended and one success is counted.
     */
    method Put(x: T, interrupted: bool) returns (r: PutOutcome)
      requires Valid()
      requires interrupted || |items| < capacity
      modifies this
      ensures Valid() && capacity == old(capacity)
      ensures interrupted ==>
                r == PutInterrupted && items == old(items)
                && successCount == old(successCount) && failCount == old(failCount) + 1
      ensures !interrupted ==>
                r == Stored && items == old(items) + [x]
                && successCount == old(successCount) + 1 && failCount == old(failCount)
    {
      if interrupted {
        failCount := failCount + 1;
        r := PutInterrupted;
      } else {
        items := items + [x];
        successCount := successCount + 1;
        r := Stored;
      }
    }

    /**
     * The timed put (offer with a timeout). With room the item is appended and a success is
     * counted; with no room the timeout runs out and a failure is counted. The interrupted
     * case propagates InterruptedException and, unlike the blocking put, counts nothing.
     */
    method PutWithTimeout(x: T, interrupted: bool) returns (r: PutOutcome)
      requires Valid()
      modifies this
      ensures Valid() && capacity == old(capacity)
      ensures interrupted ==>
                r == PutInterrupted && items == old(items)
                && successCount == old(successCount) && failCount == old(failCount)
      ensures !interrupted && |old(items)| < capacity ==>
                r == Stored && items == old(items) + [x]
                && successCount == old(successCount) + 1 && failCount == old(failCount)
      ensures !interrupted && |old(items)| == capacity ==>
                r == Dropped && items == old(items)
                && successCount == old(successCount) && failCount == old(failCount) + 1
    {
      if interrupted {
        r := PutInterrupted;
      } else if |items| < capacity {
        items := items + [x];
        successCount := successCount + 1;
        r := Stored;
      } else {
        failCount := failCount + 1;
        r := Dropped;
      }
    }

    /** The blocking take: removes and returns the oldest item. */
    method Take(interrupted: bool) returns (r: Delivery<T>)
      requires Valid()
      requires interrupted || items != []
      modifies this
      ensures Valid() && capacity == old(capacity)
      ensures successCount == old(successCount) && failCount == old(failCount)
      ensures interrupted ==> r == TakeInterrupted && items == old(items)
      ensures !interrupted ==> r == Item(old(items)[0]) && items == old(items)[1..]
    {
      if interrupted {
        r := TakeInterrupted;
      } else {
        r := Item(items[0]);
        items := items[1..];
      }
    }

    /** The timed take with the default timeout: null (NoItem) on an empty buffer. */
    method Poll(interrupted: bool) returns (r: Delivery<T>)
      requires Valid()
      modifies this
      ensures Valid() && capacity == old(capacity)
      ensures successCount == old(successCount) && failCount == old(failCount)
      ensures interrupted ==> r == TakeInterrupted && items == old(items)
      ensures !interrupted && old(items) == [] ==> r == NoItem && items == old(items)
      ensures !interrupted && old(items) != [] ==> r == Item(old(items)[0]) && items == old(items)[1..]
    {
      if interrupted {
        r := TakeInterrupted;
      } else if items == [] {
        r := NoItem;
      } else {
        r := Item(items[0]);
        items := items[1..];
      }
    }

    function IsEmpty(): (empty: bool)
      reads this
      ensures empty <==> |items| == 0
    {
      items == []
    }

    /** The number of put attempts that did not store their item. */
    function GetLostPackets(): (lost: nat)
      reads this
      ensures lost == failCount
    {
      failCount
    }
  }

  /**
   * FIFO: putting ps into a buffer with room for all of them and then taking as many items
   * returns ps in the same order, and the buffer counts one success per put.
   */
  method PutAllThenTakeAll<T>(ps: seq<T>, capacity: int) returns (taken: seq<T>, accepted: nat)
    requires 1 <= capacity && |ps| <= capacity
    ensures taken == ps
    ensures accepted == |ps|
  {
    var b := new CaptureBuffer<T>.WithCapacity(capacity);
    var i := 0;
    while i < |ps|
      invariant 0 <= i <= |ps|
      invariant b.Valid() && b.capacity == capacity
      invariant b.items == ps[..i] && b.successCount == i
    {
      var _ := b.Put(ps[i], false);
      i := i + 1;
    }
    accepted := b.successCount;
    taken := [];
    while |taken| < |ps|
      invariant b.Valid() && |taken| <= |ps|
      invariant taken + b.items == ps
    {
      var r := b.Take(false);
      taken := taken + [r.value];
    }
  }

  /**
   * Immediate timed puts with no consumer: every attempt is counted exactly once, the buffer
   * keeps the first `capacity` items and every later attempt is a lost packet.
   */
  method TimedPutsWithoutConsumer<T>(ps: seq<T>, capacity: int) returns (held: seq<T>, accepted: nat, lost: nat)
    requires 1 <= capacity
    ensures accepted + lost == |ps|
    ensures |held| == accepted <= capacity
    ensures lost == if |ps| <= capacity then 0 else |ps| - capacity
    ensures held == ps[..accepted]
  {
    var b := new CaptureBuffer<T>.WithCapacity(capacity);
    var i := 0;
    while i < |ps|
      invariant 0 <= i <= |ps|
      invariant b.Valid() && b.capacity == capacity
      invariant b.successCount + b.failCount == i
      invariant b.successCount == |b.items| == if i <= capacity then i else capacity
      invariant b.items == ps[..|b.items|]
    {
      var _ := b.PutWithTimeout(ps[i], false);
      i := i + 1;
    }
    held, accepted, lost := b.items, b.successCount, b.GetLostPackets();
  }
}
