/**
 * What a postal worker does for one customer: the task kinds, their
 * durations and the one task that needs the shared scale
 * (project2.c, lines 14-16 and 119-151).
 */
module PostService {

  /** Task codes as stored in a customer record. */
  const BuyStamps := 0
  const MailLetter := 1
  const MailPackage := 2

  /** Service durations in microseconds (project2.c, lines 14-16). */
  const BuyStampsUs := 1000000
  const MailLetterUs := 1500000
  const MailPackageUs := 2000000

  /** The effect of one call of `service_customer`, its printing and sleeping aside. */
  datatype ServiceOutcome =
    | Served(durationUs: nat, takesScale: bool)
    | WrongTask

  /**
   * `assign_task`: the random number generator is a parameter; `rand()`
   * never returns a negative value, so C's `%` agrees with Dafny's here.
   */
  function AssignTask(randValue: int): (task: int)
    requires 0 <= randValue
    ensures BuyStamps <= task <= MailPackage
    ensures ServiceCustomer(task).Served?
  {
    randValue % 3
  }

  /** `service_customer`: dispatch on the task code. */
  function ServiceCustomer(task: int): (r: ServiceOutcome)
    ensures r.WrongTask? <==> !(BuyStamps <= task <= MailPackage)
    ensures r.Served? ==> (r.takesScale <==> task == MailPackage)
    ensures r.Served? ==> BuyStampsUs <= r.durationUs <= MailPackageUs
  {
    if task == BuyStamps then Served(BuyStampsUs, false)
    else if task == MailLetter then Served(MailLetterUs, false)
    else if task == MailPackage then Served(MailPackageUs, true)
    else WrongTask
  }

  /**
   * The values the scale semaphore passes through during one call, starting
   * with its value on entry. The wait at line 140 returns only once the
   * count is positive, hence the precondition.
   */
  function ScaleTrace(scale: nat, task: int): (t: seq<nat>)
    requires task == MailPackage ==> scale > 0
    ensures |t| == 3 <==> task == MailPackage
    ensures |t| == 1 <==> task != MailPackage
    ensures t[0] == scale && t[|t| - 1] == scale
    ensures task == MailPackage ==> t[1] == scale - 1
  {
    match ServiceCustomer(task)
    case Served(_, true) => [scale, scale - 1, scale]
    case _ => [scale]
  }

  /** The three durations are strictly ordered: stamps, then letter, then package. */
  lemma DurationsOrdered()
    ensures ServiceCustomer(BuyStamps).durationUs < ServiceCustomer(MailLetter).durationUs
    ensures ServiceCustomer(MailLetter).durationUs < ServiceCustomer(MailPackage).durationUs
  {
  }

  /**
   * With the scale semaphore at its initial value 1 (line 239), mailing a
   * package takes the count to 0 and the release gives it back.
   */
  lemma ScaleTraceFromOne(task: int)
    requires task == MailPackage
    ensures ScaleTrace(1, task) == [1, 0, 1]
  {
  }
}
