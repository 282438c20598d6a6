/** The background scheduler: its task dictionary, its store, and the worker cycle that drives the
    autonomy run. `queue` is a ghost account of the same tasks, moved by steps of the queue machine. */
module SchedulerService {
  import opened Options
  import opened Autonomy
  import opened AutonomyService
  import opened SequentialAdvance
  import opened Tasks
  import opened Scheduling
  import opened MissionRequests
  import opened WorkerAccounts
  import E = ExecutionMemory
  import P = PlanExecutionService
  import Protocol = AttemptProtocol

  class TaskStore {
    var saved: map<string, Task>

    constructor ()
      ensures saved == map[]
    {
      saved := map[];
    }

    /** An atomic replacement of the whole document: it lands whole or changes nothing. */
    method Save(document: map<string, Task>, lands: bool)
      modifies this
      ensures saved == if lands then document else old(saved)
    {
      if lands {
        saved := document;
      }
    }
  }

  /** What the runs of one cycle meet. */
  datatype RunInputs = RunInputs(rounds: nat -> Round, inputs: nat -> AdvanceInputs)

  /** One step of the queue machine, and a save of the whole queue after it. */
  function Stepped(q: Queue, a: Action, max: nat, lands: bool): Queue {
    if Next(q, a, max).None? then q else Persisted(Next(q, a, max).value, lands)
  }

  function Persisted(q: Queue, lands: bool): Queue { q.(stored := if lands then q.tasks else q.stored) }

  /** The run one task asks for, on its execution as it stands; there is none where the execution is not live. */
  ghost function RunOn(cells: map<string, Protocol.Cell>, t: Task, ri: RunInputs): Ended {
    if t.executionId in cells && cells[t.executionId].live.Some?
    then RunFrom(cells[t.executionId], t.budget, ri.rounds, ri.inputs, 0, NothingAsked) else Ended(NoSuchExecution, 0, NothingAsked)
  }

  ghost function CellsAfter(cells: map<string, Protocol.Cell>, t: Task, ri: RunInputs): map<string, Protocol.Cell> {
    if t.executionId in cells && cells[t.executionId].live.Some?
    then AdvancedAll(cells, t.executionId, ri.inputs, RunOn(cells, t, ri).advances) else cells
  }

  /** One more run of this task is counted, with what it asked for. */
  predicate AskedMore(before: Queue, after: Queue, id: string, ledger: Ledger) {
    after.asked == before.asked[id := Sum(AskedFor(before.asked, id), ledger)]
  }

  /** Saving the queue is a capture and a landing, one right after the other. */
  lemma PersistingIsASave(q: Queue, lands: bool, max: nat)
    requires q.tasks !in q.captures
    ensures Exec(q, [BeginSave, EndSave(q.tasks, lands)], max) == Some(Persisted(q, lands))
  {
    var begun := q.(captures := q.captures + {q.tasks});
    assert begun.captures - {q.tasks} == q.captures;
    assert [BeginSave, EndSave(q.tasks, lands)][1..] == [EndSave(q.tasks, lands)] && [EndSave(q.tasks, lands)][1..] == [];
    assert Exec(begun, [EndSave(q.tasks, lands)], max) == Some(Persisted(q, lands));
  }

  lemma PersistingKeepsInv(q: Queue, lands: bool, max: nat)
    requires Inv(q, max)
    ensures Inv(Persisted(q, lands), max)
  {
  }

  lemma SteppingKeepsInv(q: Queue, a: Action, max: nat, lands: bool)
    requires Inv(q, max)
    ensures Inv(Stepped(q, a, max, lands), max)
  {
    if Next(q, a, max).Some? {
      StepKeepsInv(q, a, max);
      PersistingKeepsInv(Next(q, a, max).value, lands, max);
    }
  }

  lemma HeldIsRunning(q: Queue, max: nat, worker: nat)
    requires Inv(q, max) && worker in q.held
    ensures q.held[worker].status.Running? && q.held[worker].id in q.tasks
  {
  }

  /** The queue once its one busy worker is done. */
  lemma FinishedQueue(q: Queue, running: Task, result: RunResult, at: int, max: nat, lands: bool)
    requires q.held == map[THIS_WORKER := running] && running.status.Running?
    requires running.id in q.tasks && q.tasks[running.id] == running && WithinRun(LedgerOf(result), running.budget)
    ensures var n := Next(q, Finish(THIS_WORKER, result, at), max);
            && n.Some? && n.value.tasks == q.tasks[running.id := AfterRun(running, StopOf(result), at)] && n.value.stored == q.stored
            && Stepped(q, Finish(THIS_WORKER, result, at), max, lands).held == map[]
            && AskedMore(q, Stepped(q, Finish(THIS_WORKER, result, at), max, lands), running.id, LedgerOf(result))
            && AfterRun(running, StopOf(result), at).id == running.id
  {
  }

  lemma AbandonedQueue(q: Queue, running: Task, ledger: Ledger, max: nat)
    requires q.held == map[THIS_WORKER := running] && WithinRun(ledger, running.budget)
    ensures var n := Next(q, Abandon(THIS_WORKER, ledger), max);
            && n.Some? && n.value.tasks == q.tasks && n.value.stored == q.stored && n.value.held == map[]
            && AskedMore(q, n.value, running.id, ledger)
  {
  }

  /** What a cycle has done so far: these tasks were run, oldest first, each using up a run left. */
  ghost predicate CycleSoFar(before: map<string, Task>, now: map<string, Task>, completed: seq<Task>) {
    && now.Keys == before.Keys
    && (forall id :: id in now ==> now[id].executionId == before[id].executionId && now[id].budget == before[id].budget)
    && Left(now) + |completed| <= Left(before)
    && (forall id :: id in now && before[id].status.Terminal() ==> now[id] == before[id])
    && (forall i, j :: 0 <= i < j < |completed| ==> NotAfter(completed[i], completed[j]))
    && (forall i, id :: 0 <= i < |completed| && id in now && now[id].status.Pending? ==> NotAfter(completed[i], now[id]))
  }

  lemma CycleStarts(tasks: map<string, Task>)
    ensures CycleSoFar(tasks, tasks, [])
  {
  }

  lemma CycleMeans(before: map<string, Task>, now: map<string, Task>, completed: seq<Task>)
    requires CycleSoFar(before, now, completed)
    ensures now.Keys == before.Keys && Left(now) + |completed| <= Left(before)
    ensures forall id :: id in now ==> now[id].executionId == before[id].executionId && now[id].budget == before[id].budget
    ensures forall id :: id in now && before[id].status.Terminal() ==> now[id] == before[id]
    ensures forall i, j :: 0 <= i < j < |completed| ==> NotAfter(completed[i], completed[j])
  {
  }

  lemma ClaimedIsRunning(now: map<string, Task>, running: Task, at: int)
    requires Oldest(now, running.id) && AsBegun(now[running.id], at) == Some(running)
    ensures running.status.Running? && now[running.id].id == running.id
    ensures running.executionId == now[running.id].executionId && running.budget == now[running.id].budget
  {
  }

  /** Claiming asks for nothing. */
  lemma ClaimingAsksNothing(q: Queue, worker: nat, id: string, at: int, max: nat, lands: bool)
    ensures Stepped(q, Claim(worker, id, false, at), max, lands).asked == q.asked
  {
  }

  /** Claiming the oldest task and never hearing of it again. */
  lemma CycleClaims(before: map<string, Task>, now: map<string, Task>, completed: seq<Task>, id: string, at: int)
    requires CycleSoFar(before, now, completed) && Oldest(now, id)
    ensures CycleSoFar(before, now[id := AsBegun(now[id], at).value], completed)
  {
    LeftMovesWithOne(now, id, AsBegun(now[id], at).value);
  }

  /** Running it: it comes after everything run before it, and before everything still runnable. */
  lemma CycleGrows(before: map<string, Task>, now: map<string, Task>, completed: seq<Task>, id: string, at: int, stop: Option<Stop>, over: int)
    requires CycleSoFar(before, now, completed) && Oldest(now, id) && now[id].id == id
    ensures var running := AsBegun(now[id], at).value;
            CycleSoFar(before, now[id := running][id := AfterRun(running, stop, over)], completed + [AfterRun(running, stop, over)])
  {
    var running := AsBegun(now[id], at).value;
    var after := AfterRun(running, stop, over);
    assert now[id := running][id := after] == now[id := after];
    LeftMovesWithOne(now, id, after);
    assert NotAfter(after, after) && after.createdAt == now[id].createdAt && after.id == now[id].id;
    forall i | 0 <= i < |completed| ensures NotAfter(completed[i], after) {
      assert NotAfter(completed[i], now[id]);
    }
  }

  /** One more run leaves every account right. */
  lemma OneRunAccounted(cells: map<string, Protocol.Cell>, mid: map<string, Protocol.Cell>, now: map<string, Protocol.Cell>,
                        before: map<string, Ledger>, asked: map<string, Ledger>, tasks: map<string, Task>, account: seq<RunRecord>, r: RunRecord)
    requires Accounted(cells, mid, account) && Spends(mid, now, r.executionId, r.ledger)
    requires RequestsKept(cells, mid) && RequestsKept(mid, now)
    requires Counted(before, asked, account) && RunsOf(account, tasks)
    requires r.taskId in tasks && tasks[r.taskId].executionId == r.executionId && WithinRun(r.ledger, tasks[r.taskId].budget)
    ensures Accounted(cells, now, account + [r]) && RequestsKept(cells, now) && RunsOf(account + [r], tasks)
    ensures Counted(before, asked[r.taskId := Sum(AskedFor(asked, r.taskId), r.ledger)], account + [r])
  {
    hide *;
    AccountGrows(cells, mid, now, account, r);
    CountGrows(before, asked, account, r);
    AccountsAdd(account, r, tasks);
    KeptIsTransitive(cells, mid, now);
  }

  /** Where a cycle stands: its tasks, what the executions spent, and what the queue counted. */
  ghost predicate InCycle(before: map<string, Task>, cells: map<string, Protocol.Cell>, asked: map<string, Ledger>,
                          tasks: map<string, Task>, cellsNow: map<string, Protocol.Cell>, askedNow: map<string, Ledger>,
                          completed: seq<Task>, account: seq<RunRecord>) {
    && CycleSoFar(before, tasks, completed) && RequestsKept(cells, cellsNow) && Accounted(cells, cellsNow, account)
    && Counted(asked, askedNow, account) && RunsOf(account, before)
  }

  /** The same tasks are running as before. */
  predicate SameRunning(before: map<string, Task>, now: map<string, Task>) {
    now.Keys == before.Keys && forall id :: id in now ==> (now[id].status.Running? <==> before[id].status.Running?)
  }

  /** Exactly these tasks are running: those that were, and this one. */
  predicate OneMoreRunning(before: map<string, Task>, now: map<string, Task>, id: string) {
    now.Keys == before.Keys && forall x :: x in now ==> (now[x].status.Running? <==> before[x].status.Running? || x == id)
  }

  lemma SameTasksSameRunning(tasks: map<string, Task>)
    ensures SameRunning(tasks, tasks)
  {
  }

  lemma RunningOnlyMeanwhile(before: map<string, Task>, now: map<string, Task>, running: Task, at: int, stop: Option<Stop>, over: int)
    requires SameRunning(before, now) && Oldest(now, running.id) && AsBegun(now[running.id], at) == Some(running)
    ensures running.status.Running? && OneMoreRunning(before, now[running.id := running], running.id)
    ensures SameRunning(before, now[running.id := running][running.id := AfterRun(running, stop, over)])
  {
  }

  lemma CycleBegins(before: map<string, Task>, cells: map<string, Protocol.Cell>, asked: map<string, Ledger>)
    ensures InCycle(before, cells, asked, before, cells, asked, [], [])
  {
    CycleStarts(before);
    NothingAccounted(cells, asked, before);
    NothingDoneKeeps(cells);
  }

  /** One claim and its run, which commits its task unless it raised. */
  lemma WorkedOnce(before: map<string, Task>, cells: map<string, Protocol.Cell>, asked0: map<string, Ledger>,
                   now: map<string, Task>, mid: map<string, Protocol.Cell>, asked: map<string, Ledger>, completed: seq<Task>, account: seq<RunRecord>,
                   running: Task, at: int, cellsNow: map<string, Protocol.Cell>, spent: Ledger, stop: Option<Stop>, over: int)
    requires InCycle(before, cells, asked0, now, mid, asked, completed, account)
    requires Oldest(now, running.id) && AsBegun(now[running.id], at) == Some(running) && now[running.id].id == running.id
    requires RequestsKept(mid, cellsNow) && Spends(mid, cellsNow, running.executionId, spent) && WithinRun(spent, running.budget)
    ensures running.status.Running?
    ensures var askedNow, r := asked[running.id := Sum(AskedFor(asked, running.id), spent)], RunRecord(running.id, running.executionId, spent);
            && InCycle(before, cells, asked0, now[running.id := running], cellsNow, askedNow, completed, account + [r])
            && InCycle(before, cells, asked0, now[running.id := running][running.id := AfterRun(running, stop, over)], cellsNow, askedNow,
                       completed + [AfterRun(running, stop, over)], account + [r])
  {
    hide CycleSoFar, RequestsKept, Accounted, Counted, RunsOf, Spends, WithinRun, AfterRun;
    CycleMeans(before, now, completed);
    OneRunAccounted(cells, mid, cellsNow, asked0, asked, before, account, RunRecord(running.id, running.executionId, spent));
    CycleClaims(before, now, completed, running.id, at);
    CycleGrows(before, now, completed, running.id, at, stop, over);
  }

  lemma CycleEnds(before: map<string, Task>, cells: map<string, Protocol.Cell>, asked: map<string, Ledger>,
                  now: map<string, Task>, cellsNow: map<string, Protocol.Cell>, askedNow: map<string, Ledger>,
                  completed: seq<Task>, account: seq<RunRecord>)
    requires InCycle(before, cells, asked, now, cellsNow, askedNow, completed, account)
    ensures now.Keys == before.Keys && Left(now) + |completed| <= Left(before)
    ensures forall id :: id in now && before[id].status.Terminal() ==> now[id] == before[id]
    ensures forall i, j :: 0 <= i < j < |completed| ==> NotAfter(completed[i], completed[j])
    ensures RequestsKept(cells, cellsNow) && Accounted(cells, cellsNow, account) && Counted(asked, askedNow, account) && RunsOf(account, before)
  {
    hide RequestsKept, Accounted, Counted, RunsOf, CycleSoFar;
    CycleMeans(before, now, completed);
  }

  /** A worker cycle: what it completed, whether it raised, and the tasks and executions it left. */
  datatype Cycle = Cycle(completed: seq<Task>, raised: bool, tasks: map<string, Task>, cells: map<string, Protocol.Cell>)

  /** One claimed task and its run: the task once its run is over, unless that raised. */
  ghost function Worked(w: Cycle, id: string, ri: RunInputs, at: nat -> int): Cycle
    requires id in w.tasks && w.tasks[id].status.Pending?
  {
    var k := |w.completed|;
    var running := AsBegun(w.tasks[id], at(2 * k)).value;
    var report := RunOn(w.cells, running, ri).report;
    var ended := AfterRun(running, if report.Ran? then Some(report.stop) else None, at(2 * k + 1));
    if report.RunRaised? then Cycle(w.completed, true, w.tasks[id := running], CellsAfter(w.cells, running, ri))
    else Cycle(w.completed + [ended], false, w.tasks[id := ended], CellsAfter(w.cells, running, ri))
  }

  /** The whole cycle from here on: the oldest pending task and its run, again and again, until the cycle is
      full or cancelled, a run raises, or nothing is pending. */
  ghost function CycleFrom(w: Cycle, max: nat, cancelled: nat -> bool, runs: nat -> RunInputs, at: nat -> int): Cycle
    decreases max - |w.completed|, !w.raised
  {
    if w.raised || |w.completed| >= max || cancelled(|w.completed|) || !exists id :: Oldest(w.tasks, id) then w
    else
      var id :| Oldest(w.tasks, id);
      CycleFrom(Worked(w, id, runs(|w.completed|), at), max, cancelled, runs, at)
  }

  lemma CycleGoesOn(w: Cycle, id: string, max: nat, cancelled: nat -> bool, runs: nat -> RunInputs, at: nat -> int)
    requires !w.raised && |w.completed| < max && !cancelled(|w.completed|) && Oldest(w.tasks, id)
    requires forall x :: x in w.tasks ==> w.tasks[x].id == x
    ensures CycleFrom(w, max, cancelled, runs, at) == CycleFrom(Worked(w, id, runs(|w.completed|), at), max, cancelled, runs, at)
  {
    hide Oldest, Worked;
    forall other | Oldest(w.tasks, other) ensures other == id {
      OldestIn(w.tasks, id);
      OldestIn(w.tasks, other);
      OldestIsOne(w.tasks, id, other);
    }
    OldestIn(w.tasks, id);
  }

  /** One claim and its run, as the loop makes them. */
  lemma WorkedThisOne(w: Cycle, running: Task, ri: RunInputs, at: nat -> int, updated: Option<Task>, stop: Option<Stop>)
    requires Oldest(w.tasks, running.id) && AsBegun(w.tasks[running.id], at(2 * |w.completed|)) == Some(running) && running.status.Running?
    requires var report := RunOn(w.cells, running, ri).report;
             && (updated.None? <==> report.RunRaised?)
             && (updated.Some? ==> stop == (if report.Ran? then Some(report.stop) else None)
                                   && updated.value == AfterRun(running, stop, at(2 * |w.completed| + 1)))
    ensures w.tasks[running.id].status.Pending?
    ensures Worked(w, running.id, ri, at) ==
            if updated.None? then Cycle(w.completed, true, w.tasks[running.id := running], CellsAfter(w.cells, running, ri))
            else Cycle(w.completed + [updated.value], false, w.tasks[running.id := running][running.id := updated.value],
                       CellsAfter(w.cells, running, ri))
  {
    hide RunOn, CellsAfter, AfterRun;
    if updated.Some? {
      assert w.tasks[running.id := running][running.id := updated.value] == w.tasks[running.id := updated.value];
    }
  }

  lemma OldestIn(tasks: map<string, Task>, id: string)
    requires Oldest(tasks, id)
    ensures id in tasks && tasks[id].status.Pending?
  {
  }

  lemma CycleStops(w: Cycle, max: nat, cancelled: nat -> bool, runs: nat -> RunInputs, at: nat -> int)
    requires w.raised || |w.completed| >= max || cancelled(|w.completed|) || forall id :: id in w.tasks ==> !w.tasks[id].status.Pending?
    ensures CycleFrom(w, max, cancelled, runs, at) == w
  {
  }

  /** Where a cycle stands, in every account of it. */
  ghost predicate Cycling(first: Cycle, counted: map<string, Ledger>, w: Cycle, asked: map<string, Ledger>, account: seq<RunRecord>,
                          max: nat, cancelled: nat -> bool, runs: nat -> RunInputs, at: nat -> int) {
    && InCycle(first.tasks, first.cells, counted, w.tasks, w.cells, asked, w.completed, account)
    && |account| == |w.completed| + (if w.raised then 1 else 0)
    && (if w.raised then OneMoreRunning(first.tasks, w.tasks, account[|account| - 1].taskId) else SameRunning(first.tasks, w.tasks))
    && CycleFrom(first, max, cancelled, runs, at) == CycleFrom(w, max, cancelled, runs, at)
  }

  lemma CyclingBegins(first: Cycle, counted: map<string, Ledger>, max: nat, cancelled: nat -> bool, runs: nat -> RunInputs, at: nat -> int)
    requires first.completed == [] && !first.raised
    ensures Cycling(first, counted, first, counted, [], max, cancelled, runs, at)
  {
    hide InCycle, SameRunning, CycleFrom;
    CycleBegins(first.tasks, first.cells, counted);
    SameTasksSameRunning(first.tasks);
  }

  /** One claim and its run, taken into every account. */
  lemma CyclingGoesOn(first: Cycle, counted: map<string, Ledger>, w: Cycle, asked: map<string, Ledger>, account: seq<RunRecord>,
                      max: nat, cancelled: nat -> bool, runs: nat -> RunInputs, at: nat -> int,
                      running: Task, updated: Option<Task>, stop: Option<Stop>, cells: map<string, Protocol.Cell>, spent: Ledger)
    requires Cycling(first, counted, w, asked, account, max, cancelled, runs, at)
    requires !w.raised && |w.completed| < max && !cancelled(|w.completed|) && forall x :: x in w.tasks ==> w.tasks[x].id == x
    requires Oldest(w.tasks, running.id) && AsBegun(w.tasks[running.id], at(2 * |w.completed|)) == Some(running)
    requires var report := RunOn(w.cells, running, runs(|w.completed|)).report;
             && (updated.None? <==> report.RunRaised?)
             && (updated.Some? ==> stop == (if report.Ran? then Some(report.stop) else None))
    requires running.status.Running? && (updated.Some? ==> updated.value == AfterRun(running, stop, at(2 * |w.completed| + 1)))
    requires cells == CellsAfter(w.cells, running, runs(|w.completed|))
    requires RequestsKept(w.cells, cells) && Spends(w.cells, cells, running.executionId, spent) && WithinRun(spent, running.budget)
    ensures var claimed := w.tasks[running.id := running];
            Cycling(first, counted,
                    if updated.None? then Cycle(w.completed, true, claimed, cells)
                    else Cycle(w.completed + [updated.value], false, claimed[running.id := updated.value], cells),
                    asked[running.id := Sum(AskedFor(asked, running.id), spent)],
                    account + [RunRecord(running.id, running.executionId, spent)], max, cancelled, runs, at)
  {
    hide InCycle, Oldest, AsBegun, AfterRun, RequestsKept, Spends, WithinRun, SameRunning, OneMoreRunning, CycleFrom, RunOn, CellsAfter, Worked;
    OldestIn(w.tasks, running.id);
    CycleGoesOn(w, running.id, max, cancelled, runs, at);
    WorkedThisOne(w, running, runs(|w.completed|), at, updated, stop);
    WorkedOnce(first.tasks, first.cells, counted, w.tasks, w.cells, asked, w.completed, account, running, at(2 * |w.completed|), cells, spent,
               stop, at(2 * |w.completed| + 1));
    RunningOnlyMeanwhile(first.tasks, w.tasks, running, at(2 * |w.completed|), stop, at(2 * |w.completed| + 1));
  }

  lemma CyclingEnds(first: Cycle, counted: map<string, Ledger>, w: Cycle, asked: map<string, Ledger>, account: seq<RunRecord>,
                    max: nat, cancelled: nat -> bool, runs: nat -> RunInputs, at: nat -> int)
    requires Cycling(first, counted, w, asked, account, max, cancelled, runs, at)
    requires w.raised || |w.completed| >= max || cancelled(|w.completed|) || forall id :: id in w.tasks ==> !w.tasks[id].status.Pending?
    ensures w == CycleFrom(first, max, cancelled, runs, at)
    ensures |account| == |w.completed| + if w.raised then 1 else 0
    ensures if w.raised then OneMoreRunning(first.tasks, w.tasks, account[|account| - 1].taskId) else SameRunning(first.tasks, w.tasks)
    ensures w.tasks.Keys == first.tasks.Keys && Left(w.tasks) + |w.completed| <= Left(first.tasks)
    ensures forall id :: id in w.tasks && first.tasks[id].status.Terminal() ==> w.tasks[id] == first.tasks[id]
    ensures forall i, j :: 0 <= i < j < |w.completed| ==> NotAfter(w.completed[i], w.completed[j])
    ensures RequestsKept(first.cells, w.cells) && Accounted(first.cells, w.cells, account) && Counted(counted, asked, account)
            && RunsOf(account, first.tasks)
  {
    hide InCycle, SameRunning, OneMoreRunning, CycleFrom;
    CycleStops(w, max, cancelled, runs, at);
    CycleEnds(first.tasks, first.cells, counted, w.tasks, w.cells, asked, w.completed, account);
  }

  lemma AskedIs(before: Queue, after: Queue, id: string, ledger: Ledger)
    requires AskedMore(before, after, id, ledger)
    ensures after.asked == before.asked[id := Sum(AskedFor(before.asked, id), ledger)]
  {
  }

  const THIS_WORKER: nat := 0

  class Scheduler {
    const runner: Runner
    const store: TaskStore
    const maxPerCycle: nat
    const maxActive: nat
    var tasks: map<string, Task>
    ghost var queue: Queue

    /** Between calls no run is open in this single worker, and the two accounts agree. */
    ghost predicate Ok()
      reads this, store
    {
      && queue.tasks == tasks && queue.stored == store.saved && queue.held == map[]
      && Inv(queue, maxActive)
    }

    lemma TasksAreKeyed()
      requires Ok()
      ensures forall id :: id in tasks ==> tasks[id].id == id
    {
    }

    /** A new process: what was running when the last one died is marked interrupted. */
    constructor (runner: Runner, store: TaskStore, maxPerCycle: nat, maxActive: nat, at: int, ghost last: Queue)
      requires Inv(last, maxActive) && last.stored == store.saved
      ensures Ok() && queue == DoRestart(last, at)
      ensures this.runner == runner && this.store == store && this.maxPerCycle == maxPerCycle && this.maxActive == maxActive
    {
      this.runner := runner;
      this.store := store;
      this.maxPerCycle := maxPerCycle;
      this.maxActive := maxActive;
      tasks := map id | id in store.saved :: Reloaded(store.saved[id], at);
      queue := DoRestart(last, at);
      RestartKeepsInv(last, at, maxActive);
    }

    /** Replace one task and save the whole queue; a failed save is ignored. */
    method Put(t: Task, lands: bool, ghost a: Action)
      requires queue.tasks == tasks && queue.stored == store.saved
      requires Next(queue, a, maxActive).Some? && Next(queue, a, maxActive).value.tasks == tasks[t.id := t]
      requires Next(queue, a, maxActive).value.stored == queue.stored
      modifies this`tasks, this`queue, store
      ensures tasks == old(tasks)[t.id := t] && queue.tasks == tasks && queue.stored == store.saved
      ensures queue == Stepped(old(queue), a, maxActive, lands)
    {
      tasks := tasks[t.id := t];
      store.Save(tasks, lands);
      queue := Stepped(queue, a, maxActive, lands);
    }

    /** Queue one approved execution, unless it cannot move or the queue is full. */
    method ProcessCreate(t: Task, lands: bool) returns (created: bool)
      requires Ok() && t.id !in tasks
      modifies this`tasks, this`queue, store
      ensures Ok()
      ensures created <==> && t.id != "" && t.executionId != "" && t.status == TaskStatus.Pending && t.outcome.None?
                           && t.retries == 0 && t.maxRetries <= 5 && t.executionId in runner.execution.executions
                           && ProgressBlock(runner.execution.executions[t.executionId]).None? && |Active(old(tasks))| < maxActive
      ensures tasks == if created then old(tasks)[t.id := t] else old(tasks)
      ensures queue == if created then Stepped(old(queue), CreateTask(t), maxActive, lands) else old(queue)
    {
      created := false;
      if !New(t) || t.executionId !in runner.execution.executions {
        return;
      }
      if ProgressBlock(runner.execution.executions[t.executionId]).Some? || |Active(tasks)| >= maxActive {
        return;
      }
      SteppingKeepsInv(queue, CreateTask(t), maxActive, lands);
      Put(t, lands, CreateTask(t));
      created := true;
    }

    /** Pause, resume or cancel one task, if the task itself allows it. */
    method Transition(id: string, kind: RulingKind, at: int, lands: bool) returns (done: bool)
      requires Ok()
      modifies this`tasks, this`queue, store
      ensures Ok()
      ensures done <==> id in old(tasks) && Ruled(old(tasks)[id], kind, at).Some?
      ensures tasks == if done then old(tasks)[id := Ruled(old(tasks)[id], kind, at).value] else old(tasks)
      ensures queue == Stepped(old(queue), Rule(id, kind, at), maxActive, lands)
    {
      done := id in tasks && Ruled(tasks[id], kind, at).Some?;
      if done {
        assert tasks[id].id == id;
        hide Inv;
        SteppingKeepsInv(queue, Rule(id, kind, at), maxActive, lands);
        Put(Ruled(tasks[id], kind, at).value, lands, Rule(id, kind, at));
      }
    }

    /** `_next_runnable`: the oldest pending task. */
    method NextRunnable() returns (found: Option<string>)
      ensures found.Some? ==> Oldest(tasks, found.value)
      ensures found.None? ==> forall id :: id in tasks ==> !tasks[id].status.Pending?
    {
      found := None;
      var unseen := tasks.Keys;
      while unseen != {}
        invariant unseen <= tasks.Keys
        invariant found.Some? ==> found.value in tasks && tasks[found.value].status.Pending?
        invariant forall id :: id in tasks && id !in unseen && tasks[id].status.Pending? ==>
                                 found.Some? && NotAfter(tasks[found.value], tasks[id])
        decreases |unseen|
      {
        var id :| id in unseen;
        unseen := unseen - {id};
        if tasks[id].status.Pending? && (found.None? || Before(tasks[id], tasks[found.value])) {
          forall other | other in tasks && other !in unseen && tasks[other].status.Pending?
            ensures NotAfter(tasks[id], tasks[other])
          {
            if found.Some? {
              BeforeIsAnOrder(tasks[id], tasks[found.value], tasks[other]);
            }
          }
          found := Some(id);
        } else if tasks[id].status.Pending? {
          BeforeIsAnOrder(tasks[id], tasks[found.value], tasks[id]);
        }
      }
    }

    /** Select the oldest runnable task and mark it running, in one act. */
    method ClaimNextRunnable(at: int, lands: bool) returns (claimed: Option<Task>)
      requires Ok()
      modifies this`tasks, this`queue, store
      ensures queue.tasks == tasks && queue.stored == store.saved && Inv(queue, maxActive)
      ensures claimed.None? ==> Ok() && queue == old(queue) && tasks == old(tasks) && forall id :: id in tasks ==> !tasks[id].status.Pending?
      ensures claimed.Some? ==>
                && Oldest(old(tasks), claimed.value.id) && claimed == AsBegun(old(tasks)[claimed.value.id], at)
                && tasks == old(tasks)[claimed.value.id := claimed.value]
                && queue == Stepped(old(queue), Claim(THIS_WORKER, claimed.value.id, false, at), maxActive, lands)
                && queue.held == map[THIS_WORKER := claimed.value]
    {
      var found := NextRunnable();
      if found.None? {
        return None;
      }
      var id := found.value;
      var running := AsBegun(tasks[id], at).value;
      ghost var a := Claim(THIS_WORKER, id, false, at);
      assert tasks[id].id == id;
      SteppingKeepsInv(queue, a, maxActive, lands);
      Put(running, lands, a);
      claimed := Some(running);
    }

    lemma KeepsBacking(before: map<string, Protocol.Cell>)
      requires RequestsKept(before, runner.execution.cells)
      ensures runner.execution.authorizer.Ok() && E.AllBacked(before, runner.execution.authorizer.store.saved) ==> runner.execution.Backed()
    {
      if runner.execution.authorizer.Ok() && E.AllBacked(before, runner.execution.authorizer.store.saved) {
        runner.execution.StaysBacked(before);
      }
    }

    /** The autonomy run of one claimed task. */
    method Drive(running: Task, ri: RunInputs) returns (report: RunReport, ghost spent: Ledger)
      requires runner.execution.Valid() && forall i: nat :: ri.inputs(i).missionResolver == runner.execution.missionResolver
      modifies runner.execution`executions, runner.execution`allowances, runner.execution`cells, runner.execution.store
      ensures runner.execution.Valid() && RequestsKept(old(runner.execution.cells), runner.execution.cells)
      ensures Spends(old(runner.execution.cells), runner.execution.cells, running.executionId, spent) && WithinRun(spent, running.budget)
      ensures old(runner.execution.Backed()) ==> runner.execution.Backed()
      ensures report.Ran? ==> report.ledger == spent
      ensures report.NoSuchExecution? ==> spent == NothingAsked
      ensures report == RunOn(old(runner.execution.cells), running, ri).report && spent == RunOn(old(runner.execution.cells), running, ri).ledger
      ensures runner.execution.cells == CellsAfter(old(runner.execution.cells), running, ri)
    {
      hide P.Service.Valid, Reconciles, RequestsKept, Spends, E.AllBacked, RunFrom, AdvancedAll, Escapes, WithinRun;
      ghost var cells := runner.execution.cells;
      LiveInCells(running.executionId);
      var n;
      report, n, spent := runner.ProcessRun(running.executionId, running.budget, ri.rounds, ri.inputs);
      KeepsBacking(cells);
    }

    lemma LiveInCells(id: string)
      requires runner.execution.Valid()
      ensures id in runner.execution.executions <==> id in runner.execution.cells && runner.execution.cells[id].live.Some?
    {
      if id in runner.execution.executions {
        runner.execution.Held(id);
      } else {
        E.NotLive(runner.execution.Remembered(), runner.execution.store.saved, runner.execution.cells, id);
      }
    }

    /** A run that raised leaves its task as it was claimed. */
    method LeaveRunning(running: Task, ghost spent: Ledger)
      requires queue.tasks == tasks && queue.stored == store.saved && Inv(queue, maxActive)
      requires queue.held == map[THIS_WORKER := running] && WithinRun(spent, running.budget)
      modifies this`queue
      ensures Ok() && Some(queue) == Next(old(queue), Abandon(THIS_WORKER, spent), maxActive)
      ensures AskedMore(old(queue), queue, running.id, spent)
    {
      hide Inv, TasksOk, Next, WithinRun, AskedMore;
      AbandonedQueue(queue, running, spent, maxActive);
      StepKeepsInv(queue, Abandon(THIS_WORKER, spent), maxActive);
      queue := Next(queue, Abandon(THIS_WORKER, spent), maxActive).value;
    }

    /** Commit what a run came to, only onto the claim it was made for. */
    method CommitRun(running: Task, result: RunResult, at: int, lands: bool) returns (updated: Task)
      requires queue.tasks == tasks && queue.stored == store.saved && Inv(queue, maxActive)
      requires queue.held == map[THIS_WORKER := running] && running.id in tasks && tasks[running.id] == running && running.status.Running?
      requires WithinRun(LedgerOf(result), running.budget)
      modifies this`tasks, this`queue, store
      ensures Ok() && tasks == old(tasks)[running.id := updated] && updated == AfterRun(running, StopOf(result), at)
      ensures queue == Stepped(old(queue), Finish(THIS_WORKER, result, at), maxActive, lands)
      ensures AskedMore(old(queue), queue, running.id, LedgerOf(result))
    {
      hide Inv, Stepped, TasksOk, Next, AfterRun, WithinRun, AskedMore;
      ghost var a := Finish(THIS_WORKER, result, at);
      FinishedQueue(queue, running, result, at, maxActive, lands);
      SteppingKeepsInv(queue, a, maxActive, lands);
      updated := AfterRun(running, StopOf(result), at);
      Put(updated, lands, a);
    }

    /** Drive one claimed task through autonomy, and commit what happened only onto that claim. A run
        that raises leaves its task running for the next restart to find. Either way the queue counts
        for the task exactly what the run asked for, and the execution spent no more than that. */
    method Run(running: Task, ri: RunInputs, at: int, lands: bool)
      returns (updated: Option<Task>, ghost spent: Ledger, ghost result: RunResult)
      requires queue.tasks == tasks && queue.stored == store.saved && Inv(queue, maxActive)
      requires queue.held == map[THIS_WORKER := running] && running.id in tasks && tasks[running.id] == running && running.status.Running?
      requires runner.execution.Valid() && forall i: nat :: ri.inputs(i).missionResolver == runner.execution.missionResolver
      modifies this`tasks, this`queue, store
      modifies runner.execution`executions, runner.execution`allowances, runner.execution`cells, runner.execution.store
      ensures Ok() && runner.execution.Valid()
      ensures RequestsKept(old(runner.execution.cells), runner.execution.cells)
      ensures Spends(old(runner.execution.cells), runner.execution.cells, running.executionId, spent) && WithinRun(spent, running.budget)
      ensures old(runner.execution.Backed()) ==> runner.execution.Backed()
      ensures AskedMore(old(queue), queue, running.id, spent)
      ensures runner.execution.cells == CellsAfter(old(runner.execution.cells), running, ri)
      ensures updated.None? <==> RunOn(old(runner.execution.cells), running, ri).report.RunRaised?
      ensures spent == RunOn(old(runner.execution.cells), running, ri).ledger
      ensures updated.Some? ==>
                var report := RunOn(old(runner.execution.cells), running, ri).report;
                StopOf(result) == (if report.Ran? then Some(report.stop) else None)
      ensures updated.None? ==> tasks == old(tasks) && Some(queue) == Next(old(queue), Abandon(THIS_WORKER, spent), maxActive)
      ensures updated.Some? ==>
                && tasks == old(tasks)[running.id := updated.value]
                && updated.value == AfterRun(running, StopOf(result), at) && LedgerOf(result) == spent
                && queue == Stepped(old(queue), Finish(THIS_WORKER, result, at), maxActive, lands)
    {
      hide P.Service.Valid, P.Service.Backed, Inv, RequestsKept, Stepped, Next, AfterRun, Spends, WithinRun, AskedMore, RunOn, CellsAfter;
      var report;
      report, spent := Drive(running, ri);
      result := NoResult;
      if report.RunRaised? {
        LeaveRunning(running, spent);
        return None, spent, result;
      }
      var ended := if report.Ran? then RunEnded(report.stop, report.ledger) else NoResult;
      result := ended;
      var after := CommitRun(running, ended, at, lands);
      updated := Some(after);
    }

    /** The save at the end of a cycle; a failed one is ignored. */
    method SaveQueue(lands: bool)
      requires Ok()
      modifies this`queue, store
      ensures Ok() && queue == Persisted(old(queue), lands) && queue.asked == old(queue.asked)
    {
      PersistingKeepsInv(queue, lands, maxActive);
      store.Save(tasks, lands);
      queue := Persisted(queue, lands);
    }

    /** Run at most the configured number of runnable tasks, oldest first, then stop. Every retry of
        an older task comes before any younger one, each claim uses up one of the runs left, and a
        cycle that is neither cancelled nor full has emptied the queue. No execution spent more than
        the cycle's runs asked for it, the queue counts for each task exactly what its runs asked, and
        what every execution has spent in all stays within the approval that was spent on it. A task the
        cycle claimed is still running afterwards if and only if its run raised. */
    method ProcessWorkerCycle(cancelled: nat -> bool, runs: nat -> RunInputs, at: nat -> int, lands: nat -> bool)
      returns (completed: seq<Task>, raised: bool, ghost account: seq<RunRecord>)
      requires Ok() && runner.execution.Valid()
      requires forall i: nat, j: nat :: runs(i).inputs(j).missionResolver == runner.execution.missionResolver
      modifies this`tasks, this`queue, store
      modifies runner.execution`executions, runner.execution`allowances, runner.execution`cells, runner.execution.store
      ensures Ok() && runner.execution.Valid()
      ensures RequestsKept(old(runner.execution.cells), runner.execution.cells)
      ensures Accounted(old(runner.execution.cells), runner.execution.cells, account)
      ensures Counted(old(queue.asked), queue.asked, account) && RunsOf(account, old(tasks))
      ensures |account| == |completed| + if raised then 1 else 0
      ensures if raised then OneMoreRunning(old(tasks), tasks, account[|account| - 1].taskId) else SameRunning(old(tasks), tasks)
      ensures old(runner.execution.Backed()) ==>
                && runner.execution.Backed()
                && forall id :: id in runner.execution.executions && id in runner.execution.allowances ==> runner.execution.ApprovedSpend(id)
      ensures forall id :: id in tasks ==> AtMost(AskedFor(queue.asked, id), Times(Count(queue.claims, id), tasks[id].budget))
      ensures |completed| <= maxPerCycle && (forall i, j :: 0 <= i < j < |completed| ==> NotAfter(completed[i], completed[j]))
      ensures Left(tasks) + |completed| <= Left(old(tasks))
      ensures tasks.Keys == old(tasks).Keys
      ensures forall id :: id in tasks && old(tasks)[id].status.Terminal() ==> tasks[id] == old(tasks)[id]
      ensures !raised && |completed| < maxPerCycle ==>
                || cancelled(|completed|)
                || forall id :: id in tasks ==> !tasks[id].status.Pending?
      ensures Cycle(completed, raised, tasks, runner.execution.cells)
              == CycleFrom(Cycle([], false, old(tasks), old(runner.execution.cells)), maxPerCycle, cancelled, runs, at)
    {
      hide *;
      completed, raised, account := [], false, [];
      ghost var first, counted := Cycle([], false, tasks, runner.execution.cells), queue.asked;
      CyclingBegins(first, counted, maxPerCycle, cancelled, runs, at);
      while |completed| < maxPerCycle
        invariant Ok() && runner.execution.Valid() && |completed| <= maxPerCycle
        invariant Cycling(first, counted, Cycle(completed, false, tasks, runner.execution.cells), queue.asked, account,
                          maxPerCycle, cancelled, runs, at)
        invariant old(runner.execution.Backed()) ==> runner.execution.Backed()
        decreases maxPerCycle - |completed|
      {
        var k := |completed|;
        if cancelled(k) {
          break;
        }
        ghost var w, claiming := Cycle(completed, false, tasks, runner.execution.cells), queue;
        TasksAreKeyed();
        var claimed := ClaimNextRunnable(at(2 * k), lands(2 * k));
        if claimed.None? {
          break;
        }
        var running := claimed.value;
        ClaimingAsksNothing(claiming, THIS_WORKER, running.id, at(2 * k), maxActive, lands(2 * k));
        ClaimedIsRunning(w.tasks, running, at(2 * k));
        var updated;
        ghost var spent, result;
        ghost var claimedQueue := queue;
        updated, spent, result := Run(running, runs(k), at(2 * k + 1), lands(2 * k + 1));
        AskedIs(claimedQueue, queue, running.id, spent);
        CyclingGoesOn(first, counted, w, claiming.asked, account, maxPerCycle, cancelled, runs, at, running, updated, StopOf(result),
                      runner.execution.cells, spent);
        account := account + [RunRecord(running.id, running.executionId, spent)];
        if updated.None? {
          raised := true;
          CyclingEnds(first, counted, Cycle(completed, true, tasks, runner.execution.cells), queue.asked, account,
                      maxPerCycle, cancelled, runs, at);
          CycleApproves();
          return;
        }
        completed := completed + [updated.value];
      }
      CyclingEnds(first, counted, Cycle(completed, false, tasks, runner.execution.cells), queue.asked, account, maxPerCycle, cancelled, runs, at);
      SaveQueue(lands(2 * |completed|));
      CycleApproves();
    }

    /** What the queue counts and what the approvals grant bound what the runs have done. */
    lemma CycleApproves()
      requires Ok() && runner.execution.Valid()
      ensures forall id :: id in tasks ==> AtMost(AskedFor(queue.asked, id), Times(Count(queue.claims, id), tasks[id].budget))
      ensures runner.execution.Backed() ==>
                forall id :: id in runner.execution.executions && id in runner.execution.allowances ==> runner.execution.ApprovedSpend(id)
    {
      hide Inv, P.Service.Valid, P.Service.Backed, P.Service.ApprovedSpend, AtMost, Times;
      forall id | id in tasks ensures AtMost(AskedFor(queue.asked, id), Times(Count(queue.claims, id), tasks[id].budget)) {
        AsksWithinItsClaims(queue, maxActive, id);
      }
      if runner.execution.Backed() {
        forall id | id in runner.execution.executions && id in runner.execution.allowances ensures runner.execution.ApprovedSpend(id) {
          runner.execution.AllowanceStaysApproved(id);
        }
      }
    }
  }
}
