/** The queue of background tasks under any interleaving of workers, rulings, saves and restarts.

    A claim, a commit and a ruling are each one step under the task lock; a run is not, so a
    worker may hold the task it claimed while anything else happens to it. */
module Scheduling {
  import opened Options
  import opened Autonomy
  import opened Tasks

  /** How one run came back: with a result, without one, or by an exception that left the worker. */
  datatype RunResult = NoResult | RunEnded(stop: Stop, ledger: Ledger)

  datatype Queue = Queue(
    tasks: map<string, Task>,
    stored: map<string, Task>,
    captures: set<map<string, Task>>,   // documents on their way to the store
    held: map<nat, Task>,               // what each busy worker claimed
    claims: map<string, nat>,           // kept for the proofs: claims made, runs over,
    finished: map<string, nat>,         // and what those runs asked for, in this process
    asked: map<string, Ledger>)

  datatype RulingKind = Pause | Resume | Cancel

  datatype Action =
    | CreateTask(task: Task)
    | Claim(worker: nat, id: string, exact: bool, at: int)
    | Finish(worker: nat, result: RunResult, at: int)
    | Abandon(worker: nat, ledger: Ledger)
    | Rule(id: string, kind: RulingKind, at: int)
    | BeginSave
    | EndSave(document: map<string, Task>, lands: bool)
    | Restart(at: int)

  function Count(m: map<string, nat>, id: string): nat { if id in m then m[id] else 0 }

  function AskedFor(m: map<string, Ledger>, id: string): Ledger { if id in m then m[id] else NothingAsked }

  function Active(tasks: map<string, Task>): set<string> {
    set id | id in tasks && !tasks[id].status.Terminal()
  }

  function New(t: Task): bool { ValidTask(t) && t.status.Pending? && t.retries == 0 && t.outcome.None? }

  function Ruled(t: Task, kind: RulingKind, at: int): Option<Task> {
    match kind
    case Pause => AsPaused(t, at)
    case Resume => AsResumed(t, at)
    case Cancel => AsCancelled(t, at)
  }

  // -- the steps -------------------------------------------------------------------------

  function DoCreate(q: Queue, t: Task, max: nat): Option<Queue> {
    if !New(t) || t.id in q.tasks || |Active(q.tasks)| >= max then None
    else Some(q.(tasks := q.tasks[t.id := t]))
  }

  /** The oldest runnable task, or the exact one a grant names. */
  predicate MayClaim(q: Queue, worker: nat, id: string, exact: bool) {
    worker !in q.held && id in q.tasks && q.tasks[id].status.Pending? && (exact || Oldest(q.tasks, id))
  }

  function DoClaim(q: Queue, worker: nat, id: string, exact: bool, at: int): Option<Queue> {
    if !MayClaim(q, worker, id, exact) then None
    else
      var running := AsBegun(q.tasks[id], at).value;
      Some(q.(tasks := q.tasks[id := running], held := q.held[worker := running],
              claims := q.claims[id := Count(q.claims, id) + 1]))
  }

  function LedgerOf(r: RunResult): Ledger { match r case NoResult => NothingAsked case RunEnded(_, ledger) => ledger }

  function StopOf(r: RunResult): Option<Stop> { match r case NoResult => None case RunEnded(stop, _) => Some(stop) }

  /** The worker lets go; its run is over and what it asked for is counted. */
  function LetGo(q: Queue, worker: nat, ledger: Ledger): Queue
    requires worker in q.held
  {
    var id := q.held[worker].id;
    q.(held := q.held - {worker}, finished := q.finished[id := Count(q.finished, id) + 1],
       asked := q.asked[id := Sum(AskedFor(q.asked, id), ledger)])
  }

  /** Commit a run's result over exactly the claim it was made for; a newer decision stands. */
  function DoFinish(q: Queue, worker: nat, result: RunResult, at: int): Option<Queue> {
    if worker !in q.held || !q.held[worker].status.Running? || !WithinRun(LedgerOf(result), q.held[worker].budget) then None
    else
      var running := q.held[worker];
      var over := LetGo(q, worker, LedgerOf(result));
      Some(if running.id in q.tasks && q.tasks[running.id] == running
           then over.(tasks := q.tasks[running.id := AfterRun(running, StopOf(result), at)]) else over)
  }

  function DoAbandon(q: Queue, worker: nat, ledger: Ledger): Option<Queue> {
    if worker !in q.held || !WithinRun(ledger, q.held[worker].budget) then None else Some(LetGo(q, worker, ledger))
  }

  function DoRule(q: Queue, id: string, kind: RulingKind, at: int): Option<Queue> {
    if id !in q.tasks || Ruled(q.tasks[id], kind, at).None? then None
    else Some(q.(tasks := q.tasks[id := Ruled(q.tasks[id], kind, at).value]))
  }

  function DoEndSave(q: Queue, document: map<string, Task>, lands: bool): Option<Queue> {
    if document !in q.captures then None
    else Some(q.(captures := q.captures - {document}, stored := if lands then document else q.stored))
  }

  function DoRestart(q: Queue, at: int): Queue {
    Queue(map id | id in q.stored :: Reloaded(q.stored[id], at), q.stored, {}, map[], map[], map[], map[])
  }

  function Next(q: Queue, a: Action, max: nat): Option<Queue> {
    match a
    case CreateTask(t) => DoCreate(q, t, max)
    case Claim(worker, id, exact, at) => DoClaim(q, worker, id, exact, at)
    case Finish(worker, result, at) => DoFinish(q, worker, result, at)
    case Abandon(worker, ledger) => DoAbandon(q, worker, ledger)
    case Rule(id, kind, at) => DoRule(q, id, kind, at)
    case BeginSave => Some(q.(captures := q.captures + {q.tasks}))
    case EndSave(document, lands) => DoEndSave(q, document, lands)
    case Restart(at) => Some(DoRestart(q, at))
  }

  function Exec(q: Queue, run: seq<Action>, max: nat): Option<Queue>
    decreases |run|
  {
    if run == [] then Some(q)
    else
      var n := Next(q, run[0], max);
      if n.None? then None else Exec(n.value, run[1..], max)
  }

  const EmptyQueue := Queue(map[], map[], {}, map[], map[], map[], map[])

  // -- what each step is ---------------------------------------------------------------------

  /** A task counts against the capacity until it is completed, failed or cancelled. */
  lemma ActiveAreOpen(tasks: map<string, Task>, id: string)
    ensures id in Active(tasks) <==>
              id in tasks && tasks[id].status != Completed && tasks[id].status != Failed && tasks[id].status != TaskStatus.Cancelled
  {
  }

  /** A free worker claims a pending task if and only if none is due before it, or it is the exact one asked for;
      the task then runs, in the queue and in the worker's hands, and the claim is counted. */
  lemma ClaimLaw(q: Queue, worker: nat, id: string, exact: bool, at: int)
    ensures var n := DoClaim(q, worker, id, exact, at);
            && (n.Some? <==>
                  && worker !in q.held && id in q.tasks && q.tasks[id].status == Pending
                  && (exact || forall other :: other in q.tasks && q.tasks[other].status == Pending ==> !Before(q.tasks[other], q.tasks[id])))
            && (n.Some? ==>
                  && id in n.value.tasks && MovedTo(q.tasks[id], Some(n.value.tasks[id]), TaskStatus.Running, at)
                  && n.value.tasks == q.tasks[id := n.value.tasks[id]] && n.value.held == q.held[worker := n.value.tasks[id]]
                  && Count(n.value.claims, id) == Count(q.claims, id) + 1
                  && n.value.(tasks := q.tasks, held := q.held, claims := q.claims) == q)
  {
    if id in q.tasks {
      forall other | other in q.tasks ensures NotAfter(q.tasks[id], q.tasks[other]) <==> !Before(q.tasks[other], q.tasks[id]) {
        BeforeIsAnOrder(q.tasks[id], q.tasks[other], q.tasks[id]);
        BeforeIsAnOrder(q.tasks[other], q.tasks[id], q.tasks[id]);
      }
    }
  }

  /** A worker's result is committed only while its task is still exactly as claimed; either way it lets go, and
      its run and what that asked for are counted. */
  lemma FinishLaw(q: Queue, worker: nat, result: RunResult, at: int)
    ensures var n := DoFinish(q, worker, result, at);
            && (n.Some? <==> worker in q.held && q.held[worker].status == TaskStatus.Running && WithinRun(LedgerOf(result), q.held[worker].budget))
            && (n.Some? ==>
                  var running := q.held[worker];
                  && n.value.tasks == (if running.id in q.tasks && q.tasks[running.id] == running
                                       then q.tasks[running.id := AfterRun(running, StopOf(result), at)] else q.tasks)
                  && n.value.held == q.held - {worker} && Count(n.value.finished, running.id) == Count(q.finished, running.id) + 1
                  && n.value.stored == q.stored && n.value.captures == q.captures && n.value.claims == q.claims)
  {
  }

  /** A document on its way to the store replaces it when it lands; either way it is under way no more. */
  lemma EndSaveLaw(q: Queue, document: map<string, Task>, lands: bool)
    ensures var n := DoEndSave(q, document, lands);
            && (n.Some? <==> document in q.captures)
            && (n.Some? ==>
                  && n.value.stored == (if lands then document else q.stored) && document !in n.value.captures
                  && (forall other :: other != document ==> (other in n.value.captures <==> other in q.captures))
                  && n.value.(stored := q.stored, captures := q.captures) == q)
  {
  }

  // -- what every step keeps ----------------------------------------------------------------

  predicate TasksOk(tasks: map<string, Task>, max: nat) {
    && (forall id :: id in tasks ==> tasks[id].id == id && ValidTask(tasks[id]))
    && |Active(tasks)| <= max
  }

  /** A held claim is still in the queue exactly as claimed, or has been cancelled since; and no
      task is held twice. */
  predicate HeldOk(held: map<nat, Task>, tasks: map<string, Task>) {
    && (forall w :: w in held ==>
          && held[w].status.Running? && held[w].id in tasks && held[w].budget == tasks[held[w].id].budget
          && (tasks[held[w].id] == held[w] || tasks[held[w].id].status.Cancelled?))
    && (forall w, v :: w in held && v in held && held[w].id == held[v].id ==> w == v)
  }

  predicate IsHeld(held: map<nat, Task>, id: string) { exists w :: w in held && held[w].id == id }

  function Times(n: nat, b: RunBudget): Ledger { Ledger(n * b.steps, 0, n * b.network, n * b.llm) }

  predicate AtMost(a: Ledger, b: Ledger) { a.attempted <= b.attempted && a.network <= b.network && a.llm <= b.llm }

  /** Every claim of a task used a retry or is the last one; every run over was claimed and kept to
      the task's budget. */
  predicate CountsAt(t: Task, claims: nat, finished: nat, asked: Ledger, isHeld: bool) {
    && claims <= t.retries + 1
    && (t.status.Pending? || t.status.Paused? ==> claims <= t.retries)
    && finished + (if isHeld then 1 else 0) <= claims
    && AtMost(asked, Times(finished, t.budget))
  }

  predicate CountsOk(q: Queue) {
    && q.claims.Keys + q.finished.Keys + q.asked.Keys <= q.tasks.Keys
    && forall id :: id in q.tasks ==>
         CountsAt(q.tasks[id], Count(q.claims, id), Count(q.finished, id), AskedFor(q.asked, id), IsHeld(q.held, id))
  }

  predicate Inv(q: Queue, max: nat) {
    && TasksOk(q.tasks, max) && TasksOk(q.stored, max)
    && (forall document :: document in q.captures ==> TasksOk(document, max))
    && HeldOk(q.held, q.tasks)
    && CountsOk(q)
  }

  lemma FewerAreActive(a: map<string, Task>, b: map<string, Task>)
    requires Active(a) <= Active(b)
    ensures |Active(a)| <= |Active(b)|
  {
    Subsets(Active(a), Active(b));
  }

  lemma {:induction false} Subsets(a: set<string>, b: set<string>)
    requires a <= b
    ensures |a| <= |b|
    decreases |a|
  {
    if a != {} {
      var x :| x in a;
      Subsets(a - {x}, b - {x});
    }
  }

  /** Replacing a task by another of the same identity that opens nothing keeps the queue in order. */
  lemma ReplacingKeepsTasksOk(tasks: map<string, Task>, t: Task, max: nat)
    requires TasksOk(tasks, max) && t.id in tasks && ValidTask(t)
    requires tasks[t.id].status.Terminal() ==> t.status.Terminal()
    ensures TasksOk(tasks[t.id := t], max)
  {
    FewerAreActive(tasks[t.id := t], tasks);
  }

  lemma CreateKeepsInv(q: Queue, t: Task, max: nat)
    requires Inv(q, max) && DoCreate(q, t, max).Some?
    ensures Inv(DoCreate(q, t, max).value, max)
  {
    CreateKeepsTasksOk(q.tasks, t, max);
    CreateKeepsCounts(q, t, max);
    hide CountsAt, Active, ValidTask, New;
    assert HeldOk(q.held, q.tasks[t.id := t]);
  }

  lemma CreateKeepsTasksOk(tasks: map<string, Task>, t: Task, max: nat)
    requires TasksOk(tasks, max) && New(t) && t.id !in tasks && |Active(tasks)| < max
    ensures TasksOk(tasks[t.id := t], max)
  {
    assert Active(tasks[t.id := t]) == Active(tasks) + {t.id};
  }

  lemma CreateKeepsCounts(q: Queue, t: Task, max: nat)
    requires Inv(q, max) && DoCreate(q, t, max).Some?
    ensures CountsOk(DoCreate(q, t, max).value)
  {
    assert !IsHeld(q.held, t.id);
  }

  lemma ClaimKeepsInv(q: Queue, worker: nat, id: string, exact: bool, at: int, max: nat)
    requires Inv(q, max) && DoClaim(q, worker, id, exact, at).Some?
    ensures Inv(DoClaim(q, worker, id, exact, at).value, max)
  {
    ReplacingKeepsTasksOk(q.tasks, AsBegun(q.tasks[id], at).value, max);
    ClaimKeepsCounts(q, worker, id, exact, at, max);
    ClaimKeepsHeldOk(q, worker, id, exact, at, max);
    hide TasksOk, HeldOk, CountsOk, Oldest;
  }

  lemma ClaimKeepsHeldOk(q: Queue, worker: nat, id: string, exact: bool, at: int, max: nat)
    requires Inv(q, max) && DoClaim(q, worker, id, exact, at).Some?
    ensures HeldOk(DoClaim(q, worker, id, exact, at).value.held, DoClaim(q, worker, id, exact, at).value.tasks)
  {
    NobodyHoldsPending(q, id, max);
    hide CountsOk, Oldest;
    assert q.tasks[id].id == id;
  }

  lemma NobodyHoldsPending(q: Queue, id: string, max: nat)
    requires Inv(q, max) && id in q.tasks && q.tasks[id].status.Pending?
    ensures !IsHeld(q.held, id) && q.tasks[id].id == id
  {
  }

  lemma ClaimKeepsCounts(q: Queue, worker: nat, id: string, exact: bool, at: int, max: nat)
    requires Inv(q, max) && DoClaim(q, worker, id, exact, at).Some?
    ensures CountsOk(DoClaim(q, worker, id, exact, at).value)
  {
    hide Times, AtMost, Oldest, TasksOk, HeldOk;
    var n := DoClaim(q, worker, id, exact, at).value;
    NobodyHoldsPending(q, id, max);
    forall other | other in n.tasks
      ensures CountsAt(n.tasks[other], Count(n.claims, other), Count(n.finished, other), AskedFor(n.asked, other), IsHeld(n.held, other))
    {
      assert CountsAt(q.tasks[other], Count(q.claims, other), Count(q.finished, other), AskedFor(q.asked, other), IsHeld(q.held, other));
      if other != id && IsHeld(n.held, other) {
        var w :| w in n.held && n.held[w].id == other;
        assert w in q.held && q.held[w].id == other;
      }
    }
  }

  lemma OneMoreRun(asked: Ledger, ledger: Ledger, n: nat, b: RunBudget)
    ensures AtMost(asked, Times(n, b)) && WithinRun(ledger, b) ==> AtMost(Sum(asked, ledger), Times(n + 1, b))
  {
    assert (n + 1) * b.steps == n * b.steps + b.steps;
    assert (n + 1) * b.network == n * b.network + b.network;
    assert (n + 1) * b.llm == n * b.llm + b.llm;
  }

  lemma ReleasedClaims(held: map<nat, Task>, tasks: map<string, Task>, worker: nat, id: string)
    requires HeldOk(held, tasks) && worker in held
    ensures HeldOk(held - {worker}, tasks)
    ensures IsHeld(held - {worker}, id) <==> IsHeld(held, id) && held[worker].id != id
  {
    if IsHeld(held, id) && held[worker].id != id {
      var w :| w in held && held[w].id == id;
      assert w in held - {worker};
    }
  }

  lemma LettingGoKeepsCounts(q: Queue, worker: nat, ledger: Ledger, max: nat, other: string)
    requires Inv(q, max) && worker in q.held && WithinRun(ledger, q.held[worker].budget) && other in q.tasks
    ensures var n := LetGo(q, worker, ledger);
            CountsAt(n.tasks[other], Count(n.claims, other), Count(n.finished, other), AskedFor(n.asked, other), IsHeld(n.held, other))
  {
    hide Times, AtMost, Sum, TasksOk, WithinRun;
    assert other == q.held[worker].id ==> IsHeld(q.held, other);
    OneMoreRun(AskedFor(q.asked, other), ledger, Count(q.finished, other), q.held[worker].budget);
    ReleasedClaims(q.held, q.tasks, worker, other);
    assert CountsAt(q.tasks[other], Count(q.claims, other), Count(q.finished, other), AskedFor(q.asked, other), IsHeld(q.held, other));
  }

  lemma LettingGoKeepsInv(q: Queue, worker: nat, ledger: Ledger, max: nat)
    requires Inv(q, max) && worker in q.held && WithinRun(ledger, q.held[worker].budget)
    ensures Inv(LetGo(q, worker, ledger), max)
    ensures !IsHeld(LetGo(q, worker, ledger).held, q.held[worker].id)
  {
    var id := q.held[worker].id;
    ReleasedClaims(q.held, q.tasks, worker, id);
    assert id in q.tasks;
    var n := LetGo(q, worker, ledger);
    forall other | other in n.tasks
      ensures CountsAt(n.tasks[other], Count(n.claims, other), Count(n.finished, other), AskedFor(n.asked, other), IsHeld(n.held, other))
    {
      LettingGoKeepsCounts(q, worker, ledger, max, other);
    }
    hide CountsAt, HeldOk, TasksOk, IsHeld;
  }

  /** What the busy workers hold stays as it should be. */
  lemma ReplacingKeepsHeldOk(held: map<nat, Task>, tasks: map<string, Task>, t: Task)
    requires HeldOk(held, tasks) && t.id in tasks && t.budget == tasks[t.id].budget
    requires t.status.Cancelled? || !IsHeld(held, t.id)
    ensures HeldOk(held, tasks[t.id := t])
  {
  }

  /** A task nobody holds, or one that is closed for good, may be replaced without disturbing a worker. */
  lemma ReplacingKeepsInv(q: Queue, t: Task, max: nat)
    requires Inv(q, max) && t.id in q.tasks && ValidTask(t) && t.budget == q.tasks[t.id].budget
    requires q.tasks[t.id].status.Terminal() ==> t.status.Terminal()
    requires t.status.Cancelled? || !IsHeld(q.held, t.id)
    requires q.tasks[t.id].retries <= t.retries
    requires t.status.Pending? || t.status.Paused? ==> Count(q.claims, t.id) <= t.retries
    ensures Inv(q.(tasks := q.tasks[t.id := t]), max)
  {
    ReplacingKeepsTasksOk(q.tasks, t, max);
    ReplacingKeepsHeldOk(q.held, q.tasks, t);
    hide Times, AtMost, TasksOk, HeldOk, IsHeld;
    assert CountsAt(q.tasks[t.id], Count(q.claims, t.id), Count(q.finished, t.id), AskedFor(q.asked, t.id), IsHeld(q.held, t.id));
  }

  lemma CommitIsAllowed(q: Queue, worker: nat, stop: Option<Stop>, at: int, max: nat)
    requires Inv(q, max) && worker in q.held
    ensures q.held[worker].status.Running? && q.held[worker].id in q.tasks
    ensures q.tasks[q.held[worker].id] == q.held[worker] ==>
              var running, t := q.held[worker], AfterRun(q.held[worker], stop, at);
              && t.id == running.id && ValidTask(t) && t.budget == running.budget && !running.status.Terminal()
              && running.retries <= t.retries && !t.status.Paused? && (t.status.Pending? ==> Count(q.claims, t.id) <= t.retries)
  {
    assert CountsAt(q.tasks[q.held[worker].id], Count(q.claims, q.held[worker].id), Count(q.finished, q.held[worker].id),
                    AskedFor(q.asked, q.held[worker].id), IsHeld(q.held, q.held[worker].id));
  }

  lemma FinishKeepsInv(q: Queue, worker: nat, result: RunResult, at: int, max: nat)
    requires Inv(q, max) && DoFinish(q, worker, result, at).Some?
    ensures Inv(DoFinish(q, worker, result, at).value, max)
  {
    var running := q.held[worker];
    var over := LetGo(q, worker, LedgerOf(result));
    LettingGoKeepsInv(q, worker, LedgerOf(result), max);
    CommitIsAllowed(q, worker, StopOf(result), at, max);
    hide Inv, AfterRun, WithinRun, IsHeld;
    if q.tasks[running.id] == running {
      ReplacingKeepsInv(over, AfterRun(running, StopOf(result), at), max);
    }
  }

  lemma RuleKeepsInv(q: Queue, id: string, kind: RulingKind, at: int, max: nat)
    requires Inv(q, max) && DoRule(q, id, kind, at).Some?
    ensures Inv(DoRule(q, id, kind, at).value, max)
  {
    ReplacingKeepsInv(q, Ruled(q.tasks[id], kind, at).value, max);
  }

  lemma RestartKeepsInv(q: Queue, at: int, max: nat)
    requires Inv(q, max)
    ensures Inv(DoRestart(q, at), max)
  {
    FewerAreActive(DoRestart(q, at).tasks, q.stored);
  }

  lemma StepKeepsInv(q: Queue, a: Action, max: nat)
    requires Inv(q, max) && Next(q, a, max).Some?
    ensures Inv(Next(q, a, max).value, max)
  {
    match a
    case CreateTask(t) => CreateKeepsInv(q, t, max);
    case Claim(worker, id, exact, at) => ClaimKeepsInv(q, worker, id, exact, at, max);
    case Finish(worker, result, at) => FinishKeepsInv(q, worker, result, at, max);
    case Abandon(worker, ledger) => LettingGoKeepsInv(q, worker, ledger, max);
    case Rule(id, kind, at) => RuleKeepsInv(q, id, kind, at, max);
    case Restart(at) => RestartKeepsInv(q, at, max);
    case _ =>
  }

  // -- what follows over whole runs -------------------------------------------------------------

  /** Some run of steps leads here from an empty queue. */
  ghost predicate Reachable(q: Queue, max: nat) {
    exists run: seq<Action> :: Exec(EmptyQueue, run, max) == Some(q)
  }

  lemma {:induction false} RunKeepsInv(q: Queue, run: seq<Action>, max: nat)
    requires Inv(q, max) && Exec(q, run, max).Some?
    ensures Inv(Exec(q, run, max).value, max)
    decreases |run|
  {
    if run != [] {
      StepKeepsInv(q, run[0], max);
      RunKeepsInv(Next(q, run[0], max).value, run[1..], max);
    }
  }

  lemma ReachableIsSafe(q: Queue, max: nat)
    requires Reachable(q, max)
    ensures Inv(q, max)
  {
    var run: seq<Action> :| Exec(EmptyQueue, run, max) == Some(q);
    assert Active(EmptyQueue.tasks) == {};
    RunKeepsInv(EmptyQueue, run, max);
  }

  /** Claim exclusivity: no two workers ever hold the same task, and what a worker holds is still in
      the queue, exactly as it claimed it unless it was cancelled meanwhile. */
  lemma ClaimsAreExclusive(q: Queue, max: nat, w: nat, v: nat)
    requires Reachable(q, max) && w in q.held && v in q.held
    ensures q.held[w].id == q.held[v].id ==> w == v
    ensures q.held[w].id in q.tasks && (q.tasks[q.held[w].id] == q.held[w] || q.tasks[q.held[w].id].status.Cancelled?)
  {
    ReachableIsSafe(q, max);
  }

  /** Capacity: open tasks never exceed the bound, in memory or in the store. */
  lemma CapacityHolds(q: Queue, max: nat)
    requires Reachable(q, max)
    ensures |Active(q.tasks)| <= max && |Active(q.stored)| <= max
  {
    ReachableIsSafe(q, max);
  }

  /** However its runs end, a task has asked for at most one of its budgets per claim. */
  lemma AsksWithinItsClaims(q: Queue, max: nat, id: string)
    requires Inv(q, max) && id in q.tasks
    ensures AtMost(AskedFor(q.asked, id), Times(Count(q.claims, id), q.tasks[id].budget))
    ensures Count(q.claims, id) <= q.tasks[id].maxRetries + 1
  {
    var t := q.tasks[id];
    assert CountsAt(t, Count(q.claims, id), Count(q.finished, id), AskedFor(q.asked, id), IsHeld(q.held, id));
    MoreRunsMore(Count(q.finished, id), Count(q.claims, id), t.budget);
  }

  /** Whole-stack bound: whatever workers, rulings and retries do, one task is claimed at most once more
      than its retries allow, and all its runs together ask for at most one of its budgets per claim. */
  lemma TaskAsksWithinItsBudgets(q: Queue, max: nat, id: string)
    requires Reachable(q, max) && id in q.tasks
    ensures Count(q.finished, id) <= Count(q.claims, id) <= q.tasks[id].maxRetries + 1 <= MAX_RETRIES + 1
    ensures AtMost(AskedFor(q.asked, id), Times(Count(q.claims, id), q.tasks[id].budget))
    ensures AtMost(AskedFor(q.asked, id), Times(q.tasks[id].maxRetries + 1, q.tasks[id].budget))
  {
    ReachableIsSafe(q, max);
    var t := q.tasks[id];
    assert CountsAt(t, Count(q.claims, id), Count(q.finished, id), AskedFor(q.asked, id), IsHeld(q.held, id));
    MoreRunsMore(Count(q.finished, id), t.maxRetries + 1, t.budget);
    AsksWithinItsClaims(q, max, id);
  }

  lemma MoreRunsMore(n: nat, m: nat, b: RunBudget)
    requires n <= m
    ensures AtMost(Times(n, b), Times(m, b))
  {
    assert m * b.steps == n * b.steps + (m - n) * b.steps;
    assert m * b.network == n * b.network + (m - n) * b.network;
    assert m * b.llm == n * b.llm + (m - n) * b.llm;
  }

  lemma StepLosesNothing(q: Queue, a: Action, max: nat, id: string)
    requires Inv(q, max) && Next(q, a, max).Some? && !a.Restart? && id in q.tasks
    ensures id in Next(q, a, max).value.tasks
    ensures q.tasks[id].status.Terminal() ==> Next(q, a, max).value.tasks[id] == q.tasks[id]
  {
  }

  /** Within one process no task is ever removed, and a closed one never changes again, whatever a
      late worker brings back. */
  lemma {:induction false} NoTaskIsLostOrReopened(q: Queue, run: seq<Action>, max: nat, id: string)
    requires Inv(q, max) && Exec(q, run, max).Some? && id in q.tasks
    requires forall i :: 0 <= i < |run| ==> !run[i].Restart?
    ensures id in Exec(q, run, max).value.tasks
    ensures q.tasks[id].status.Terminal() ==> Exec(q, run, max).value.tasks[id] == q.tasks[id]
    decreases |run|
  {
    if run != [] {
      StepKeepsInv(q, run[0], max);
      StepLosesNothing(q, run[0], max, id);
      NoTaskIsLostOrReopened(Next(q, run[0], max).value, run[1..], max, id);
    }
  }

  // -- draining -----------------------------------------------------------------------------------

  /** Nothing is put into the queue by this step. */
  predicate Feeds(a: Action) { a.CreateTask? || a.Restart? || (a.Rule? && a.kind.Resume?) }

  function ClaimsIn(run: seq<Action>): nat {
    if run == [] then 0 else (if run[0].Claim? then 1 else 0) + ClaimsIn(run[1..])
  }

  lemma FinishDrains(q: Queue, worker: nat, result: RunResult, at: int, max: nat)
    requires Inv(q, max) && DoFinish(q, worker, result, at).Some?
    ensures Left(DoFinish(q, worker, result, at).value.tasks) <= Left(q.tasks)
  {
    var running := q.held[worker];
    if q.tasks[running.id] == running {
      LeftMovesWithOne(q.tasks, running.id, AfterRun(running, StopOf(result), at));
    }
  }

  /** The total of runs left never rises by itself, and falls by one with every claim. */
  lemma StepDrains(q: Queue, a: Action, max: nat)
    requires Inv(q, max) && Next(q, a, max).Some? && !Feeds(a)
    ensures Left(Next(q, a, max).value.tasks) + (if a.Claim? then 1 else 0) <= Left(q.tasks)
  {
    hide Inv, DoFinish;
    match a
    case Claim(worker, id, exact, at) => LeftMovesWithOne(q.tasks, id, AsBegun(q.tasks[id], at).value);
    case Finish(worker, result, at) => FinishDrains(q, worker, result, at, max);
    case Rule(id, kind, at) => LeftMovesWithOne(q.tasks, id, Ruled(q.tasks[id], kind, at).value);
    case _ =>
  }

  /** Drain: with nothing created or resumed, at most as many claims follow as runs are left, whatever
      the workers' interleaving, and once none is left nothing is runnable. */
  lemma {:induction false} QueueDrains(q: Queue, run: seq<Action>, max: nat)
    requires Inv(q, max) && Exec(q, run, max).Some?
    requires forall i :: 0 <= i < |run| ==> !Feeds(run[i])
    ensures Left(Exec(q, run, max).value.tasks) + ClaimsIn(run) <= Left(q.tasks)
    ensures ClaimsIn(run) == Left(q.tasks) ==>
              forall id :: id in Exec(q, run, max).value.tasks ==> !Exec(q, run, max).value.tasks[id].status.Pending?
    decreases |run|
  {
    if run == [] {
      if Left(q.tasks) == 0 {
        NothingLeft(q.tasks);
      }
    } else {
      StepKeepsInv(q, run[0], max);
      StepDrains(q, run[0], max);
      QueueDrains(Next(q, run[0], max).value, run[1..], max);
    }
  }
}
