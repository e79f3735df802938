/**
 * The post office's shared customer queue: an intrusive singly linked FIFO
 * list of customer records threaded through their own `next` links, entered
 * by a `head` and a `tail` reference (project2.c, lines 30-79).
 */
module CustomerQueue {

  /** One customer record; the queue owns its `next` link while it is enqueued. */
  class CustomerNode {
    var customerNumber: int
    var task: int
    /** The value of the record's own `finished` semaphore. */
    var finished: nat
    var next: CustomerNode?

    /**
     * A freshly created record is not linked to anything and its `finished`
     * semaphore starts at 0 (project2.c, lines 254-258).
     */
    constructor (customerNumber: int, task: int)
      ensures this.customerNumber == customerNumber && this.task == task
      ensures finished == 0 && next == null
    {
      this.customerNumber := customerNumber;
      this.task := task;
      finished := 0;
      next := null;
    }
  }

  /** The `head`/`tail` pair together with its abstract meaning. */
  class Queue {
    var head: CustomerNode?
    var tail: CustomerNode?

    /** The records in the queue, front first. */
    ghost var Contents: seq<CustomerNode>
    /** Every record ever enqueued, and every record ever dequeued, in order. */
    ghost var Enqueued: seq<CustomerNode>
    ghost var Dequeued: seq<CustomerNode>

    /** Both ends are unset exactly when the queue is empty. */
    ghost predicate EndsMatch()
      reads this
    {
      && (head == null <==> Contents == [])
      && (tail == null <==> Contents == [])
      && (Contents != [] ==> head == Contents[0] && tail == Contents[|Contents| - 1])
    }

    /** Consecutive records are joined by their `next` links. */
    ghost predicate Linked()
      reads this, Contents
    {
      forall i :: 0 <= i < |Contents| - 1 ==> Contents[i].next == Contents[i + 1]
    }

    /** No record appears twice. */
    ghost predicate Distinct()
      reads this
    {
      forall i, j :: 0 <= i < j < |Contents| ==> Contents[i] != Contents[j]
    }

    /** The representation invariant; the last conjunct is the FIFO discipline. */
    ghost predicate Valid()
      reads this, Contents
    {
      EndsMatch() && Linked() && Distinct() && Enqueued == Dequeued + Contents
    }

    /** The queue starts empty, both ends NULL (project2.c, lines 39-40). */
    constructor ()
      ensures Valid() && Contents == [] && Enqueued == [] && Dequeued == []
      ensures head == null && tail == null
    {
      head, tail := null, null;
      Contents, Enqueued, Dequeued := [], [], [];
    }

    /** `queue_is_empty`: reads both ends and changes nothing. */
    function IsEmpty(): (r: bool)
      requires Valid()
      reads this, Contents
      ensures r <==> Contents == []
      ensures r <==> head == null && tail == null
      ensures !r ==> head != null && tail != null
    {
      head == null && tail == null
    }

    /** `enqueue`: links `cust` in behind the last record. */
    method Enqueue(cust: CustomerNode)
      requires Valid()
      requires cust !in Contents
      modifies this, Contents`next
      ensures Valid()
      ensures Contents == old(Contents) + [cust]
      ensures Enqueued == old(Enqueued) + [cust] && Dequeued == old(Dequeued)
      ensures tail == cust
      ensures old(Contents) == [] ==> head == cust
      ensures old(Contents) != [] ==> head == old(head) && old(tail).next == cust
      ensures cust.next == old(cust.next)
      ensures forall n :: n in old(Contents) && n != old(tail) ==> n.next == old(n.next)
    {
      if IsEmpty() {
        head := cust;
        tail := cust;
      } else {
        tail.next := cust;
        tail := cust;
      }
      Contents := Contents + [cust];
      Enqueued := Enqueued + [cust];
    }

    /** `dequeue`: unlinks and returns the front record; nodes themselves are not written. */
    method Dequeue() returns (cust: CustomerNode)
      requires Valid()
      requires Contents != []
      modifies this
      ensures Valid()
      ensures cust == old(Contents)[0]
      ensures Contents == old(Contents)[1..]
      ensures Enqueued == old(Enqueued) && Dequeued == old(Dequeued) + [cust]
      ensures |old(Contents)| == 1 ==> head == null && tail == null
      ensures |old(Contents)| > 1 ==> head == old(head.next) && tail == old(tail)
    {
      if head == tail {
        assert Contents[0] == Contents[|Contents| - 1];
        cust := head;
        head := null;
        tail := null;
      } else {
        assert |Contents| > 1 && head.next == Contents[1];
        cust := head;
        head := head.next;
      }
      Contents := Contents[1..];
      Dequeued := Dequeued + [cust];
    }
  }

  /**
   * Records leave in the order they came: those dequeued so far are the
   * first ones enqueued, and the ones still queued are the rest, in order.
   */
  lemma DequeueOrderIsEnqueueOrder(q: Queue, i: nat)
    requires q.Valid()
    requires i < |q.Enqueued|
    ensures i < |q.Dequeued| ==> q.Dequeued[i] == q.Enqueued[i]
    ensures |q.Dequeued| <= i ==> q.Contents[i - |q.Dequeued|] == q.Enqueued[i]
  {
  }
}
