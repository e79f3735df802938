# Post office simulation: the sequential core in Dafny

The program simulates a post office. Fifty customer threads each want one
task: buy stamps, mail a letter or mail a package. Three postal-worker
threads serve them. At most ten customers are inside at once. Only one
worker at a time may use the scale.

Customers wait in a shared FIFO queue. The queue is an intrusive singly
linked list of `customer_node` records with a global `head` and `tail`.
This project models the sequential logic around that queue:

- `customer_queue.dfy` (module `CustomerQueue`): the node record and the queue.
  - The queue is a class with the `head`/`tail` fields.
  - A ghost `Contents` sequence gives its abstract meaning.
  - Ghost `Enqueued` and `Dequeued` histories state the FIFO discipline as an invariant.
  - `Valid()` says five things:
    - both ends are null exactly when the queue is empty;
    - `head` is the first record and `tail` the last;
    - consecutive records are joined by `next`;
    - no record appears twice;
    - `Enqueued == Dequeued + Contents`.
- `service.dfy` (module `PostService`): task assignment and the dispatch in `service_customer`.
  - This covers the three durations and the effect on the scale semaphore's value.
- `worker.dfy` (module `PostWorker`): the worker's count increment and the shutdown broadcast.
  - Both are a single-threaded step over the counter and the value of the `customer_ready` semaphore.
  - It also has one whole pass through the worker loop, composed of the queue, dispatch and counter steps.

Semaphores appear only as natural-number values. A wait is a precondition
that the value is positive, followed by a decrement. A post is an increment.

## Model

| member | source | states |
|---|---|---|
| `CustomerQueue.CustomerNode.constructor` | project2.c:254-258 | A new record carries its number and task, has `next == null` and a `finished` semaphore at 0. |
| `CustomerQueue.Queue.constructor` | project2.c:39-40 | The queue starts with both ends NULL. Its contents and histories are empty, and it is valid. |
| `CustomerQueue.Queue.IsEmpty` | project2.c:44-49 | The result is true exactly when the abstract contents are empty. That holds exactly when both `head` and `tail` are null. A non-empty queue has both ends set. It reads the queue and changes nothing. |
| `CustomerQueue.Queue.Enqueue` | project2.c:51-60 | Contents become old contents + [cust] and the invariant is kept. `tail` becomes `cust`. On an empty queue `head` becomes `cust` too. Otherwise `head` is unchanged and only the old tail's `next` changes; no other field of any record is written. Every other queued record's link and `cust`'s own link are unchanged. |
| `CustomerQueue.Queue.Dequeue` | project2.c:62-79 | On a non-empty queue it returns the old front record, and the contents become the old contents minus their first element. A one-element queue gets both ends NULL. A longer one gets `head := head.next` with `tail` unchanged. The returned record is appended to the dequeue history. No node is written. |
| `CustomerQueue.DequeueOrderIsEnqueueOrder` | project2.c:51-79 | FIFO: the i-th record dequeued is the i-th record enqueued. Records not yet dequeued are still queued, in enqueue order. |
| `PostService.AssignTask` | project2.c:120-124 | For any non-negative value of `rand()`, the task lies in 0..2. Dispatch therefore never reaches the "Wrong task" branch for it. |
| `PostService.ServiceCustomer` | project2.c:127-151 | A task outside 0..2 falls into the "Wrong task" default. Tasks 0..2 are served. Only task 2 takes the scale. Every served duration lies between the stamp and the package duration. |
| `PostService.ScaleTrace` | project2.c:137-147 | Task 2 waits once and posts once on the scale, so the value is scale, then scale - 1, then scale. Any other task leaves the scale untouched. The value on exit equals the value on entry. |
| `PostService.DurationsOrdered` | project2.c:14-16 | The durations are ordered: 1000000 < 1500000 < 2000000 microseconds. |
| `PostService.ScaleTraceFromOne` | project2.c:139-146 | From the scale's initial value 1, a package takes the value to 0 and the release restores 1. |
| `PostWorker.RecordCompletion` | project2.c:209-222 | The counter goes up by exactly 1. The worker leaves exactly when the new count equals `NumCustomer`. In that case it posts `customer_ready` exactly `NumPostWorker - 1` times; otherwise it posts nothing. |
| `PostWorker.Wakes` | project2.c:194-197 | `k` workers each returning once from the wait on `customer_ready` consume `k` posts. All of them leave if the counter reads `NumCustomer`, and none of them leaves otherwise. The counter is held fixed across the wakes, which the program guarantees only once it has reached `NumCustomer`. |
| `PostWorker.BroadcastReleasesEverySibling` | project2.c:212-222 | After the last completion's broadcast, each of the other `NumPostWorker - 1` workers wakes once and leaves. `customer_ready` is then back at its value before the broadcast. |
| `PostWorker.OneBroadcastPerRun` | project2.c:209-222 | Take any run of `k` completions starting from counter `count`. It issues `NumPostWorker - 1` shutdown posts if it carries the counter across `NumCustomer`, and none otherwise. |
| `PostWorker.ShutdownPostsInFullRun` | project2.c:209-222 | Serving all `NumCustomer` customers from a zero counter issues exactly `NumPostWorker - 1` shutdown posts in total. |
| `PostWorker.WorkerIteration` | project2.c:194-222 | One pass of the worker loop. If every customer is served, it consumes one post and leaves with the queue untouched. Otherwise it dequeues the front record and posts that record's `finished` once. No other record's `finished` changes, and the record is appended to the dequeue history. It leaves the scale's value as found, raises the counter by 1 and adds the shutdown posts when that completion is the last. It keeps the queue invariant and writes no queued record's link. |

## Left out

- Thread creation and joining, `check_thread_status` and `main` (project2.c:83-89, 226-280) are left out. They are process plumbing that exits on failure.
- The semaphore wrappers `sem_init_check`, `sem_wait_check` and `sem_post_check` (project2.c:92-116) are left out; they are POSIX calls. A semaphore is modelled only as its value, and a blocking wait as a precondition that the value is positive.
- The interleaving of customer and worker threads is not modelled. That covers the capacity bound of ten, mutual exclusion on the queue and the counter, absence of deadlock, and termination of all threads. The model composes the steps sequentially.
- The worker reads `count` at project2.c:196 and 218 without holding `mutex2`. Under an interleaving, a worker that has just incremented can read a count that another worker has already raised to the total. Two workers could then both broadcast. The sequential model reads the value the step itself wrote.
- `printf`, `usleep`, `rand`/`srand`, `malloc` and `free` are left out; they are console output, timing, randomness and allocation. The value of `rand()` is a parameter of `AssignTask`. Durations are plain constants, and no time passes.
- `CustomerQueue.Queue.Dequeue`: the empty case is excluded by a precondition. At project2.c:64-66 and 78 it prints a message and returns an uninitialised pointer. Callers only dequeue after consuming a `customer_ready` post, and each enqueue posts once (project2.c:163-167, 194-200).
- `PostWorker.WorkerIteration`: it requires a non-empty queue when the counter is not yet at the total, for the same protocol reason. It also requires a positive scale value for a package.
- `CustomerQueue.Queue.Enqueue`: it requires that `cust` is not already queued. Enqueuing a queued record would corrupt the list; in the program each customer enqueues its own fresh record once (project2.c:164).
- `Dequeue` leaves the returned record's `next` as it was (project2.c:73-76).
- The per-customer `finished` semaphore is modelled only as the count the worker raises; the customer's wait on it is not modelled. The same goes for the `max_capacity` gate.
