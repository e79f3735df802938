/**
 * A postal worker's bookkeeping after each service and the shutdown
 * handshake (project2.c, lines 11-13 and 187-223), as single-threaded steps
 * over the shared counter `count` and the value of the `customer_ready`
 * semaphore.
 */
module PostWorker {

  import CustomerQueue
  import PostService

  const NumCustomer := 50
  const NumPostWorker := 3

  /** The `customer_ready` posts a completion issues once the counter reads `count`. */
  function ShutdownPosts(count: int): nat
  {
    if count == NumCustomer then NumPostWorker - 1 else 0
  }

  /**
   * Lines 209-222: the counter goes up by one; the worker whose increment
   * brings it to the number of customers posts `customer_ready` once for
   * each other worker and leaves its loop.
   */
  method RecordCompletion(count: int, ready: nat) returns (newCount: int, newReady: nat, exits: bool)
    ensures newCount == count + 1
    ensures exits <==> newCount == NumCustomer
    ensures exits ==> newReady == ready + (NumPostWorker - 1)
    ensures !exits ==> newReady == ready
    ensures newReady == ready + ShutdownPosts(newCount)
  {
    newCount := count + 1;
    newReady := ready;
    exits := false;
    if newCount == NumCustomer {
      for i := 0 to NumPostWorker - 1
        invariant newReady == ready + i
      {
        newReady := newReady + 1;
      }
      exits := true;
    }
  }

  /** What `k` workers returning in turn from the wait at line 194 leave behind. */
  datatype WakeTally = WakeTally(ready: nat, exited: nat)

  /**
   * `k` workers each consume one `customer_ready` post and test the counter
   * (lines 194-197); one that finds every customer served leaves its loop
   * without touching the queue. The counter is held fixed across the `k`
   * wakes, which the program guarantees only once it has reached
   * `NumCustomer`: below that, a woken worker serves a customer and raises
   * the counter, which `WorkerIteration` models instead.
   */
  function Wakes(count: int, ready: nat, k: nat): (r: WakeTally)
    requires k <= ready
    ensures r.ready == ready - k
    ensures r.exited == if count == NumCustomer then k else 0
    decreases k
  {
    if k == 0 then WakeTally(ready, 0)
    else
      var rest := Wakes(count, ready - 1, k - 1);
      WakeTally(rest.ready, rest.exited + if count == NumCustomer then 1 else 0)
  }

  /**
   * The shutdown broadcast is exactly enough: after the last completion,
   * each of the other workers, blocked at line 194, wakes once and leaves,
   * and `customer_ready` is back at its value before the broadcast.
   */
  lemma BroadcastReleasesEverySibling(ready: nat)
    ensures Wakes(NumCustomer, ready + ShutdownPosts(NumCustomer), NumPostWorker - 1)
            == WakeTally(ready, NumPostWorker - 1)
  {
  }

  /** Shutdown posts issued by `k` successive completions, the counter starting at `count`. */
  function RunPosts(count: int, k: nat): nat
    decreases k
  {
    if k == 0 then 0 else ShutdownPosts(count + 1) + RunPosts(count + 1, k - 1)
  }

  /**
   * Over any run of completions, the broadcast happens once, and only if
   * the run carries the counter up to the number of customers.
   */
  lemma {:induction false} OneBroadcastPerRun(count: int, k: nat)
    ensures RunPosts(count, k) == if count < NumCustomer <= count + k then NumPostWorker - 1 else 0
    decreases k
  {
    if k > 0 {
      OneBroadcastPerRun(count + 1, k - 1);
    }
  }

  /** Serving every customer from a zero counter issues exactly `NumPostWorker - 1` shutdown posts. */
  lemma ShutdownPostsInFullRun()
    ensures RunPosts(0, NumCustomer) == NumPostWorker - 1
  {
    OneBroadcastPerRun(0, NumCustomer);
  }

  /**
   * One pass through the worker loop (lines 194-222), its printing and
   * sleeping aside: consume one `customer_ready` post; leave if every
   * customer has been served; otherwise dequeue the front record, serve it
   * (the scale semaphore goes through `ScaleTrace`), post its `finished` semaphore and
   * record the completion. The queue is non-empty whenever a post is
   * consumed before the end, because each enqueue posts once (lines
   * 163-167); the precondition states that protocol fact, and that the
   * scale's wait can return when a package is to be mailed.
   */
  method WorkerIteration(q: CustomerQueue.Queue, count: int, ready: nat, scale: nat)
    returns (cust: CustomerQueue.CustomerNode?, newCount: int, newReady: nat, newScale: nat, exits: bool)
    requires q.Valid()
    requires ready > 0
    requires count != NumCustomer ==> q.Contents != []
    requires count != NumCustomer && q.Contents[0].task == PostService.MailPackage ==> scale > 0
    modifies q, q.Contents`finished
    ensures q.Valid()
    ensures newScale == scale
    ensures count == NumCustomer ==>
      && exits && cust == null
      && newCount == count && newReady == ready - 1
      && q.Contents == old(q.Contents) && q.head == old(q.head) && q.tail == old(q.tail)
      && q.Enqueued == old(q.Enqueued) && q.Dequeued == old(q.Dequeued)
    ensures count != NumCustomer ==>
      && cust == old(q.Contents[0])
      && q.Contents == old(q.Contents[1..])
      && q.Enqueued == old(q.Enqueued) && q.Dequeued == old(q.Dequeued) + [cust]
      && cust.finished == old(cust.finished) + 1
      && newCount == count + 1
      && (exits <==> newCount == NumCustomer)
      && newReady == ready - 1 + ShutdownPosts(newCount)
    ensures forall n :: n in old(q.Contents) ==> n.next == old(n.next)
    ensures forall n :: n in old(q.Contents) && n != cust ==> n.finished == old(n.finished)
  {
    newReady := ready - 1;
    newScale := scale;
    if count == NumCustomer {
      cust, newCount, exits := null, count, true;
      return;
    }
    cust := q.Dequeue();
    var trace := PostService.ScaleTrace(scale, cust.task);
    newScale := trace[|trace| - 1];
    cust.finished := cust.finished + 1;
    newCount, newReady, exits := RecordCompletion(count, newReady);
  }
}
