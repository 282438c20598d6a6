/** One background research task, the order in which tasks are taken, and what an autonomy run means
    for the task that asked for it. A transition that raises is `None`. */
module Tasks {
  import opened Options
  import opened Autonomy

  datatype TaskStatus = Pending | Running | Paused | Completed | Failed | Cancelled | Interrupted {
    predicate Terminal() { Completed? || Failed? || Cancelled? }
  }

  datatype Outcome = RunCompleted | BudgetRanOut | RunBlocked | RunFailed | RunInterrupted | CancelledByRun {
    predicate Retryable() { BudgetRanOut? }
  }

  datatype Task = Task(
    id: string,
    executionId: string,
    budget: RunBudget,
    createdAt: int,
    updatedAt: int,
    status: TaskStatus,
    retries: nat,
    maxRetries: nat,
    outcome: Option<Outcome>)

  const MAX_RETRIES: nat := 5

  /** What the task constructor insists on. */
  predicate ValidTask(t: Task) { t.id != "" && t.executionId != "" && t.retries <= t.maxRetries <= MAX_RETRIES }

  function RetriesRemaining(t: Task): nat {
    if t.maxRetries >= t.retries then t.maxRetries - t.retries else 0
  }

  /** `outcome_for`: only a run that ran out of its budget may be tried again. */
  function OutcomeFor(stop: Stop): Outcome {
    match stop
    case ExecutionTerminal => RunCompleted
    case NothingPending => RunCompleted
    case DeliverableReady => RunCompleted
    case StepBlocked => RunBlocked
    case AdvanceChangedNothing => RunBlocked
    case StepInterrupted => RunInterrupted
    case StepFailed => RunFailed
    case RunCancelled => CancelledByRun
    case StepBudgetExhausted => BudgetRanOut
    case TimeBudgetExhausted => BudgetRanOut
    case NetworkBudgetExhausted => BudgetRanOut
    case LlmBudgetExhausted => BudgetRanOut
  }

  // -- transitions ---------------------------------------------------------------------

  function AsBegun(t: Task, at: int): Option<Task> {
    if t.status.Pending? then Some(t.(status := Running, updatedAt := at)) else None
  }

  function AsPaused(t: Task, at: int): Option<Task> {
    if t.status.Pending? then Some(t.(status := TaskStatus.Paused, updatedAt := at)) else None
  }

  function AsResumed(t: Task, at: int): Option<Task> {
    if t.status.Paused? then Some(t.(status := Pending, updatedAt := at)) else None
  }

  /** Close a task for good. */
  function AsCancelled(t: Task, at: int): Option<Task> {
    if t.status.Terminal() then None else Some(t.(status := TaskStatus.Cancelled, updatedAt := at))
  }

  /** What one finished run makes of the task it was claimed for; no result counts as a failure. */
  function AfterRun(t: Task, stop: Option<Stop>, at: int): Task
    requires t.status.Running?
  {
    if stop.None? then t.(status := Failed, outcome := Some(RunFailed), updatedAt := at)
    else
      var outcome := OutcomeFor(stop.value);
      if outcome.RunCompleted? then t.(status := Completed, outcome := Some(outcome), updatedAt := at)
      else if outcome.CancelledByRun? then t.(status := TaskStatus.Cancelled, updatedAt := at)
      else if outcome.Retryable() && RetriesRemaining(t) > 0
      then t.(status := Pending, retries := t.retries + 1, outcome := Some(outcome), updatedAt := at)
      else t.(status := Failed, outcome := Some(outcome), updatedAt := at)
  }

  predicate BudgetStop(stop: Stop) {
    stop.StepBudgetExhausted? || stop.TimeBudgetExhausted? || stop.NetworkBudgetExhausted? || stop.LlmBudgetExhausted?
  }

  /** A run puts its task back into the queue if and only if it ran out of its own budget and a retry is
      left, and that uses the retry; no other ending is ever tried again. */
  lemma RetriedIffBudgetRanOut(t: Task, stop: Option<Stop>, at: int)
    requires t.status.Running?
    ensures var after := AfterRun(t, stop, at);
            && (after.status.Pending? <==> stop.Some? && BudgetStop(stop.value) && t.retries < t.maxRetries)
            && (after.status.Pending? ==> after.retries == t.retries + 1)
            && (!after.status.Pending? ==> after.status.Terminal() && after.retries == t.retries)
            && after.id == t.id && after.createdAt == t.createdAt && after.budget == t.budget && after.maxRetries == t.maxRetries
  {
  }

  /** What a run makes of its task, stop by stop: completed where the execution was over, had nothing pending
      or had delivered; cancelled where the run was; back in the queue where its budget ran out and a retry
      is left; failed at every other stop, and without a result. A cancelled task keeps its last outcome. */
  lemma RunEndsTask(t: Task, stop: Option<Stop>, at: int)
    requires t.status.Running?
    ensures var after := AfterRun(t, stop, at);
            var done := stop == Some(ExecutionTerminal) || stop == Some(NothingPending) || stop == Some(DeliverableReady);
            var retried := stop.Some? && BudgetStop(stop.value) && t.retries < t.maxRetries;
            && (after.status.Completed? <==> done)
            && (after.status.Cancelled? <==> stop == Some(RunCancelled))
            && (after.status.Pending? <==> retried)
            && (after.status.Failed? <==> !done && stop != Some(RunCancelled) && !retried)
            && (stop == Some(RunCancelled) <==> after.outcome == t.outcome && after.status.Cancelled?)
            && (stop != Some(RunCancelled) ==>
                  && (after.outcome == Some(RunCompleted) <==> done)
                  && (after.outcome == Some(BudgetRanOut) <==> stop.Some? && BudgetStop(stop.value))
                  && (after.outcome == Some(RunBlocked) <==> stop == Some(StepBlocked) || stop == Some(AdvanceChangedNothing))
                  && (after.outcome == Some(RunInterrupted) <==> stop == Some(StepInterrupted))
                  && (after.outcome == Some(RunFailed) <==> stop.None? || stop == Some(StepFailed)))
            && after.updatedAt == at && after.(status := t.status, outcome := t.outcome, retries := t.retries, updatedAt := t.updatedAt) == t
            && after.retries == if retried then t.retries + 1 else t.retries
  {
  }

  /** `b` is `a` in another status since `at`, and otherwise the same. */
  predicate MovedTo(a: Task, b: Option<Task>, status: TaskStatus, at: int) {
    b.Some? && b.value.status == status && b.value.updatedAt == at && b.value.(status := a.status, updatedAt := a.updatedAt) == a
  }

  /** Only a pending task is begun or paused, only a paused one resumed, and any that is not closed cancelled. */
  lemma RulingsOnTasks(t: Task, at: int)
    ensures if t.status == Pending then MovedTo(t, AsBegun(t, at), TaskStatus.Running, at) else AsBegun(t, at).None?
    ensures if t.status == Pending then MovedTo(t, AsPaused(t, at), TaskStatus.Paused, at) else AsPaused(t, at).None?
    ensures if t.status == TaskStatus.Paused then MovedTo(t, AsResumed(t, at), Pending, at) else AsResumed(t, at).None?
    ensures if t.status == Completed || t.status == Failed || t.status == TaskStatus.Cancelled then AsCancelled(t, at).None?
            else MovedTo(t, AsCancelled(t, at), TaskStatus.Cancelled, at)
  {
  }

  /** A restart finds a task that was running when the process died. */
  function Reloaded(t: Task, at: int): Task {
    if t.status.Running? then t.(status := TaskStatus.Interrupted, updatedAt := at) else t
  }

  lemma ReloadingInterrupts(t: Task, at: int)
    ensures if t.status == TaskStatus.Running then MovedTo(t, Some(Reloaded(t, at)), TaskStatus.Interrupted, at) else Reloaded(t, at) == t
  {
  }

  // -- the order in which tasks are taken --------------------------------------------------

  predicate TextLess(a: string, b: string) {
    if b == "" then false
    else if a == "" then true
    else a[0] < b[0] || (a[0] == b[0] && TextLess(a[1..], b[1..]))
  }

  lemma {:induction false} TextLessIsTransitive(a: string, b: string, c: string)
    requires TextLess(a, b) && TextLess(b, c)
    ensures TextLess(a, c)
  {
    if a != "" && a[0] == b[0] && b[0] == c[0] {
      TextLessIsTransitive(a[1..], b[1..], c[1..]);
    }
  }

  lemma {:induction false} TextLessIsTotal(a: string, b: string)
    ensures TextLess(a, b) || a == b || TextLess(b, a)
    ensures !(TextLess(a, b) && TextLess(b, a)) && (a == b ==> !TextLess(a, b))
  {
    if a != "" && b != "" {
      TextLessIsTotal(a[1..], b[1..]);
      if a[0] == b[0] && a[1..] == b[1..] {
        assert a == [a[0]] + a[1..] && b == [b[0]] + b[1..];
      }
    }
  }

  /** `a` ends where `b` goes on, or has the smaller character where they first differ. */
  predicate SmallerAt(a: string, b: string, k: nat) {
    k <= |a| && k < |b| && a[..k] == b[..k] && (k == |a| || a[k] < b[k])
  }

  lemma {:induction false} TextLessAtTheFirstDifference(a: string, b: string)
    ensures TextLess(a, b) <==> exists k: nat :: SmallerAt(a, b, k)
  {
    if a == "" || b == "" {
      assert b != "" ==> SmallerAt(a, b, 0);
    } else {
      TextLessAtTheFirstDifference(a[1..], b[1..]);
      assert a[0] < b[0] ==> SmallerAt(a, b, 0);
      if a[0] == b[0] {
        if k: nat :| SmallerAt(a[1..], b[1..], k) {
          assert a[..k + 1] == [a[0]] + a[1..][..k] && b[..k + 1] == [b[0]] + b[1..][..k];
          assert SmallerAt(a, b, k + 1);
        }
        if k: nat :| SmallerAt(a, b, k) {
          SmallerBeyond(a, b, k);
        }
      }
    }
  }

  lemma SmallerBeyond(a: string, b: string, k: nat)
    requires a != "" && b != "" && a[0] == b[0] && SmallerAt(a, b, k)
    ensures k > 0 && SmallerAt(a[1..], b[1..], k - 1)
  {
    assert a[1..][..k - 1] == a[..k][1..] && b[1..][..k - 1] == b[..k][1..];
  }

  /** Older first; the identifier decides between tasks created at the same moment. */
  predicate Before(a: Task, b: Task) {
    a.createdAt < b.createdAt || (a.createdAt == b.createdAt && TextLess(a.id, b.id))
  }

  predicate NotAfter(a: Task, b: Task) { Before(a, b) || (a.createdAt == b.createdAt && a.id == b.id) }

  lemma BeforeIsAnOrder(a: Task, b: Task, c: Task)
    ensures NotAfter(a, b) && NotAfter(b, c) ==> NotAfter(a, c)
    ensures Before(a, b) || NotAfter(b, a)
    ensures !(Before(a, b) && NotAfter(b, a))
  {
    TextLessIsTotal(a.id, b.id);
    if a.createdAt == b.createdAt == c.createdAt && TextLess(a.id, b.id) && TextLess(b.id, c.id) {
      TextLessIsTransitive(a.id, b.id, c.id);
    }
  }

  /** The runnable task a worker takes next. */
  predicate Oldest(tasks: map<string, Task>, id: string) {
    && id in tasks && tasks[id].status.Pending?
    && forall other :: other in tasks && tasks[other].status.Pending? ==> NotAfter(tasks[id], tasks[other])
  }

  /** The task taken was created first of all that are pending; among those of one moment it has the smallest identifier. */
  lemma OldestCameFirst(tasks: map<string, Task>, id: string, other: string)
    requires Oldest(tasks, id) && other in tasks && tasks[other].status == Pending
    ensures tasks[id].status == Pending && tasks[id].createdAt <= tasks[other].createdAt
    ensures tasks[id].createdAt == tasks[other].createdAt && tasks[id].id != tasks[other].id ==>
              exists k: nat :: SmallerAt(tasks[id].id, tasks[other].id, k)
  {
    TextLessAtTheFirstDifference(tasks[id].id, tasks[other].id);
  }

  /** There is only one such task. */
  lemma OldestIsOne(tasks: map<string, Task>, a: string, b: string)
    requires Oldest(tasks, a) && Oldest(tasks, b) && tasks[a].id == a && tasks[b].id == b
    ensures a == b
  {
    TextLessIsTotal(a, b);
  }

  // -- how much is left to run ---------------------------------------------------------------

  /** The runs a task may still claim. */
  function RunsLeft(t: Task): nat {
    match t.status
    case Pending => RetriesRemaining(t) + 1
    case Running => RetriesRemaining(t)
    case _ => 0
  }

  /** A pending task has its next run and every retry left, a running one only its retries, any other none. */
  lemma RunsLeftLaw(t: Task)
    requires ValidTask(t)
    ensures RunsLeft(t) == if t.status == Pending then t.maxRetries - t.retries + 1
                           else if t.status == TaskStatus.Running then t.maxRetries - t.retries else 0
  {
  }

  /** The runs all these tasks may still claim together. */
  ghost function TotalLeft(ids: set<string>, tasks: map<string, Task>): nat
    requires ids <= tasks.Keys
    decreases |ids|
  {
    if ids == {} then 0
    else
      var id :| id in ids;
      RunsLeft(tasks[id]) + TotalLeft(ids - {id}, tasks)
  }

  lemma {:induction false} TotalWithout(ids: set<string>, tasks: map<string, Task>, id: string)
    requires ids <= tasks.Keys && id in ids
    ensures TotalLeft(ids, tasks) == RunsLeft(tasks[id]) + TotalLeft(ids - {id}, tasks)
    decreases |ids|
  {
    var picked :| picked in ids && TotalLeft(ids, tasks) == RunsLeft(tasks[picked]) + TotalLeft(ids - {picked}, tasks);
    if picked != id {
      TotalWithout(ids - {picked}, tasks, id);
      TotalWithout(ids - {id}, tasks, picked);
      assert ids - {picked} - {id} == ids - {id} - {picked};
    }
  }

  lemma {:induction false} TotalOfSame(ids: set<string>, a: map<string, Task>, b: map<string, Task>)
    requires ids <= a.Keys && ids <= b.Keys && forall id :: id in ids ==> a[id] == b[id]
    ensures TotalLeft(ids, a) == TotalLeft(ids, b)
    decreases |ids|
  {
    if ids != {} {
      var id :| id in ids;
      TotalWithout(ids, a, id);
      TotalWithout(ids, b, id);
      TotalOfSame(ids - {id}, a, b);
    }
  }

  ghost function Left(tasks: map<string, Task>): nat { TotalLeft(tasks.Keys, tasks) }

  /** Replacing one task moves the total by exactly what that task moves. */
  lemma LeftMovesWithOne(tasks: map<string, Task>, id: string, t: Task)
    requires id in tasks
    ensures Left(tasks[id := t]) + RunsLeft(tasks[id]) == Left(tasks) + RunsLeft(t)
  {
    var after := tasks[id := t];
    assert after.Keys == tasks.Keys;
    TotalWithout(tasks.Keys, tasks, id);
    TotalWithout(tasks.Keys, after, id);
    TotalOfSame(tasks.Keys - {id}, tasks, after);
  }

  lemma NothingLeft(tasks: map<string, Task>)
    requires Left(tasks) == 0
    ensures forall id :: id in tasks ==> !tasks[id].status.Pending?
  {
    forall id | id in tasks ensures !tasks[id].status.Pending? {
      TotalWithout(tasks.Keys, tasks, id);
    }
  }
}
