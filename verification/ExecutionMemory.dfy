/** The dictionaries of the execution service as one value, and how they stay linked to the cells
    of the attempt protocol as one request after another changes them. */
module ExecutionMemory {
  import opened Options
  import opened Allowances
  import opened Plans
  import opened ExecutionStates
  import opened Snapshots
  import opened AttemptProtocol
  import opened Histories
  import opened ProtocolSafety
  import opened SequentialAdvance
  import opened SequentialDecisions
  import A = Approvals

  /** `ResearchPlanExecutionContext`, as far as it is kept per execution. */
  datatype Context = Context(runId: Option<string>, disclosure: Disclosure)

  function ReportOf(c: Cell, inp: AdvanceInputs): Report {
    match CourseOf(c, inp)
    case NoExecution => Missing
    case Turned => Rejected
    case Hold => if BlockStep(c.live.value.state, NextPending(c.live.value.state).value, inp.note).Some? then Reported else Escaping(true)
    case Refuse =>
      var st := c.live.value.state;
      if NoStepUnderway(st) && RefuseAdvance(st, NextPending(st).value, inp.note).None? then Escaping(true) else BudgetRefused
    case SeekAuthority =>
      var l := c.live.value;
      if NoStepUnderway(l.state) && l.runId.Some?
         && RequireAuthority(l.state, NextPending(l.state).value, l.plan.content, l.runId.value, inp.note).None?
      then Escaping(true) else Rejected
    case Attempt(k, running) =>
      if !inp.checkpointLands then Rejected
      else if k < |running.steps| && Outcome(running, k, inp.result).Some? then Reported else Escaping(!inp.result.Escaped?)
  }

  /** Every cell after one save. */
  ghost function SavedAll(cells: map<string, Cell>, lands: bool): map<string, Cell> {
    map id | id in cells :: Saved(cells[id], lands)
  }

  // -- approvals behind executions ---------------------------------------------------

  predicate Names(a: A.Authorization, executionId: string) {
    a.consumption.Some? && a.consumption.value.executionId == executionId
  }

  /** Exactly one durably spent approval names the execution, and it granted this budget. */
  ghost predicate BackedBy(saved: map<string, A.Authorization>, id: string, budget: Budget) {
    exists a :: a in saved && Names(saved[a], id) && saved[a].budget == budget
                && forall b :: b in saved && Names(saved[b], id) ==> b == a
  }

  ghost predicate AllBacked(cells: map<string, Cell>, saved: map<string, A.Authorization>) {
    forall id :: id in cells && cells[id].approved.Some? ==> BackedBy(saved, id, cells[id].approved.value)
  }

  /** Spending an approval on another execution takes nothing from the executions already backed. */
  lemma BackingLasts(saved: map<string, A.Authorization>, later: map<string, A.Authorization>, id: string, budget: Budget)
    requires BackedBy(saved, id, budget) && A.SpentForGood(saved, later)
    requires forall b :: b in later && Names(later[b], id) ==> b in saved && Names(saved[b], id)
    ensures BackedBy(later, id, budget)
  {
    var a :| a in saved && Names(saved[a], id) && saved[a].budget == budget
             && forall b :: b in saved && Names(saved[b], id) ==> b == a;
    assert a in later && later[a] == saved[a];
  }

  /** The dictionaries of the service, as one value. */
  datatype Memory = Memory(
    executions: map<string, ExecutionState>,
    plans: map<string, Plan>,
    contexts: map<string, Context>,
    allowances: map<string, Allowance>,
    missionDigests: map<string, PlanContent>,
    missionRequestIds: map<string, string>,
    restored: map<string, Snapshot>)
  {
    function LiveOf(id: string): Option<Live> {
      if id in executions && id in plans && id in contexts
      then Some(Live(executions[id], plans[id], contexts[id].runId, contexts[id].disclosure,
                     Lookup(missionDigests, id), Lookup(missionRequestIds, id)))
      else None
    }

    predicate Keyed() {
      && executions.Keys == plans.Keys == contexts.Keys
      && missionDigests.Keys <= executions.Keys && missionRequestIds.Keys <= executions.Keys
    }

    /** `_snapshots`: every live execution, and restored history beside it. */
    function Document(): map<string, Snapshot>
      requires Keyed()
    {
      map id | id in executions.Keys + restored.Keys ::
        if id in executions then Capture(LiveOf(id).value, Lookup(allowances, id)) else restored[id]
    }
  }

  /** A cell says what the dictionaries and the store say about its execution. */
  predicate Agrees(c: Cell, m: Memory, saved: map<string, Snapshot>, id: string) {
    c.live == m.LiveOf(id) && c.allowance == Lookup(m.allowances, id)
    && c.restored == Lookup(m.restored, id) && c.stored == Lookup(saved, id)
  }

  ghost predicate Linked(m: Memory, saved: map<string, Snapshot>, cells: map<string, Cell>) {
    && m.Keyed()
    && m.executions.Keys + m.allowances.Keys + m.restored.Keys + saved.Keys <= cells.Keys
    && forall id :: id in cells ==> Agrees(cells[id], m, saved, id)
  }

  /** A change to the entries of one execution keeps the link when its own cell follows it. */
  lemma RelinkOne(m: Memory, n: Memory, saved: map<string, Snapshot>, cells: map<string, Cell>, id: string, c: Cell)
    requires Linked(m, saved, cells) && n.Keyed()
    requires n.executions.Keys + n.allowances.Keys + n.restored.Keys <= cells.Keys + {id}
    requires forall other :: other in cells && other != id && Agrees(cells[other], m, saved, other) ==> Agrees(cells[other], n, saved, other)
    requires Agrees(c, n, saved, id)
    ensures Linked(n, saved, cells[id := c])
  {
    var after := cells[id := c];
    forall other | other in after ensures Agrees(after[other], n, saved, other) {
      if other != id {
        assert Agrees(cells[other], m, saved, other);
      }
    }
  }

  lemma CommitKeepsLink(m: Memory, saved: map<string, Snapshot>, cells: map<string, Cell>, id: string, st: ExecutionState)
    requires Linked(m, saved, cells) && id in m.executions
    ensures cells[id].live.Some? && cells[id].live.value.state == m.executions[id]
    ensures Linked(m.(executions := m.executions[id := st]), saved, cells[id := WithState(cells[id], st)])
  {
    assert Agrees(cells[id], m, saved, id);
    var n := m.(executions := m.executions[id := st]);
    assert n.executions.Keys == m.executions.Keys;
    RelinkOne(m, n, saved, cells, id, WithState(cells[id], st));
  }

  lemma MoneyKeepsLink(m: Memory, saved: map<string, Snapshot>, cells: map<string, Cell>, id: string, a: Allowance)
    requires Linked(m, saved, cells) && id in cells
    ensures Linked(m.(allowances := m.allowances[id := a]), saved, cells[id := cells[id].(allowance := Some(a))])
  {
    assert Agrees(cells[id], m, saved, id);
    RelinkOne(m, m.(allowances := m.allowances[id := a]), saved, cells, id, cells[id].(allowance := Some(a)));
  }

  lemma NoteKeepsLink(m: Memory, saved: map<string, Snapshot>, cells: map<string, Cell>, id: string, c: Cell)
    requires Linked(m, saved, cells) && id in cells
    requires Agrees(cells[id], m, saved, id) ==> Agrees(c, m, saved, id)
    ensures Linked(m, saved, cells[id := c])
  {
    RelinkOne(m, m, saved, cells, id, c);
  }

  lemma SaveKeepsLink(m: Memory, saved: map<string, Snapshot>, cells: map<string, Cell>)
    requires Linked(m, saved, cells)
    ensures Linked(m, m.Document(), SavedAll(cells, true))
  {
    var doc, after := m.Document(), SavedAll(cells, true);
    forall id | id in after ensures Agrees(after[id], m, doc, id) {
      SavedAgrees(m, saved, cells[id], id);
    }
  }

  lemma SavedAgrees(m: Memory, saved: map<string, Snapshot>, c: Cell, id: string)
    requires m.Keyed() && Agrees(c, m, saved, id)
    ensures Agrees(Saved(c, true), m, m.Document(), id)
  {
  }

  lemma FailedSaveChangesNothing(cells: map<string, Cell>)
    ensures SavedAll(cells, false) == cells
  {
  }

  /** After a restart only the store and its marked copy are left. */
  lemma RestartIsLinked(saved: map<string, Snapshot>, history: map<string, Cell>)
    requires forall id :: id in saved ==> id in history
    requires forall id :: id in history ==> history[id].stored == Lookup(saved, id)
    ensures Linked(Memory(map[], map[], map[], map[], map[], map[], map id | id in saved :: Restored(saved[id])), saved,
                   map id | id in history :: DoCrash(history[id]))
  {
  }

  /** Every cell after an attempt on one of them. */
  ghost function AttemptedCells(cells: map<string, Cell>, id: string, k: nat, running: ExecutionState, inp: AdvanceInputs): map<string, Cell>
    requires id in cells && cells[id].live.Some? && k < |running.steps|
  {
    map other | other in cells ::
      if other == id then AttemptedCell(cells[id], k, running, inp) else BesideAttempt(cells[other], running, k, inp)
  }

  /** The same, in the order in which the service changes things. */
  lemma AttemptedCellsAre(cells: map<string, Cell>, id: string, k: nat, running: ExecutionState, inp: AdvanceInputs)
    requires id in cells && cells[id].live.Some? && k < |running.steps|
    ensures var checkpointed := SavedAll(cells[id := ChargedCell(cells[id], k, running)], true);
            var returned := checkpointed[id := ReturnedCell(checkpointed[id], k, inp)];
            var outcome := Outcome(running, k, inp.result);
            AttemptedCells(cells, id, k, running, inp) ==
              if !inp.checkpointLands then cells
              else if outcome.None? then returned
              else SavedAll(returned[id := WithState(returned[id], outcome.value)], inp.finalSaveLands)
  {
  }

  lemma PutTwice(cells: map<string, Cell>, id: string, a: Cell, b: Cell)
    ensures cells[id := a][id := b] == cells[id := b]
  {
  }

  lemma PutBack(cells: map<string, Cell>, id: string, c: Cell)
    requires id in cells
    ensures cells[id := c][id := cells[id]] == cells
  {
  }

  /** What the link says about one live execution. */
  lemma LinkedAt(m: Memory, saved: map<string, Snapshot>, cells: map<string, Cell>, id: string)
    requires Linked(m, saved, cells) && id in m.executions
    ensures id in cells && Agrees(cells[id], m, saved, id)
    ensures cells[id].live.Some? && cells[id].live.value.state == m.executions[id]
  {
    assert Agrees(cells[id], m, saved, id);
  }

  /** An execution that is not in memory has no live state; it may still be history. */
  lemma NotLive(m: Memory, saved: map<string, Snapshot>, cells: map<string, Cell>, id: string)
    requires Linked(m, saved, cells) && (id !in m.executions || id !in m.plans)
    ensures id in cells ==> cells[id].live.None?
  {
    if id in cells {
      assert Agrees(cells[id], m, saved, id);
    }
  }

  /** Every cell after one whole advance of one of them. */
  ghost function AfterAdvance(cells: map<string, Cell>, id: string, inp: AdvanceInputs): map<string, Cell>
    requires id in cells
  {
    map other | other in cells :: if other == id then AdvanceCell(cells[id], inp) else BesideAdvance(cells[other], cells[id], inp)
  }

  lemma AdvancedCellOf(cells: map<string, Cell>, id: string, inp: AdvanceInputs)
    requires id in cells
    ensures id in AfterAdvance(cells, id, inp) && AfterAdvance(cells, id, inp)[id] == AdvanceCell(cells[id], inp)
  {
  }

  function LiveIn(cells: map<string, Cell>, id: string): Live
    requires id in cells && cells[id].live.Some?
  {
    cells[id].live.value
  }

  ghost predicate AllSound(cells: map<string, Cell>) {
    forall id :: id in cells ==> Sound(cells[id])
  }

  lemma AfterAdvanceIsSound(cells: map<string, Cell>, id: string, inp: AdvanceInputs)
    requires AllSound(cells) && id in cells
    ensures AllSound(AfterAdvance(cells, id, inp))
  {
    forall other | other in cells ensures Sound(AfterAdvance(cells, id, inp)[other]) {
      AdvanceIsSound(cells[id], inp);
      BesideAdvanceIsSound(cells[other], cells[id], inp);
    }
  }

  lemma NothingAdvanced(cells: map<string, Cell>, id: string, inp: AdvanceInputs)
    requires id in cells && (CourseOf(cells[id], inp).NoExecution? || CourseOf(cells[id], inp).Turned?)
    ensures AfterAdvance(cells, id, inp) == cells
  {
  }

  /** A step held, refused or paused: one replacement and one save, or nothing when it raises. */
  lemma SetAsideThenSaved(cells: map<string, Cell>, id: string, inp: AdvanceInputs, successor: Option<ExecutionState>)
    requires id in cells && cells[id].live.Some? && NextPending(cells[id].live.value.state).Some?
    requires var st, k := cells[id].live.value.state, NextPending(cells[id].live.value.state).value;
             match CourseOf(cells[id], inp)
             case Hold => successor == BlockStep(st, k, inp.note)
             case Refuse => NoStepUnderway(st) && successor == RefuseAdvance(st, k, inp.note)
             case SeekAuthority => NoStepUnderway(st) && cells[id].live.value.runId.Some?
                                   && successor == RequireAuthority(st, k, cells[id].live.value.plan.content, cells[id].live.value.runId.value, inp.note)
             case _ => false
    ensures AfterAdvance(cells, id, inp)
            == if successor.None? then cells
               else SavedAll(cells[id := WithState(cells[id], successor.value)], inp.finalSaveLands)
  {
  }

  lemma AttemptedThroughout(cells: map<string, Cell>, id: string, inp: AdvanceInputs, k: nat, running: ExecutionState)
    requires id in cells && cells[id].live.Some? && k < |running.steps| && CourseOf(cells[id], inp) == Course.Attempt(k, running)
    ensures AfterAdvance(cells, id, inp) == AttemptedCells(cells, id, k, running, inp)
  {
  }

  /** The plan held in memory declares for each step the capability it was authored with. */
  lemma DeclaredAsAuthored(c: Cell, k: nat)
    requires Sound(c) && c.live.Some? && k < |c.live.value.state.steps|
    ensures k < |c.origin.steps|
    ensures CapabilityOr(c.live.value.plan.content, c.live.value.state.steps[k].id) == c.origin.steps[k].capability
    ensures CostFor(c.origin.steps[k].capability) == StepCost(c.origin, k)
  {
  }

  /** The entries of one live execution are what its cell holds. */
  lemma EntriesOf(m: Memory, saved: map<string, Snapshot>, cells: map<string, Cell>, id: string)
    requires Linked(m, saved, cells) && id in m.executions
    ensures id in cells && id in m.plans && cells[id].live.Some?
    ensures cells[id].live.value.plan == m.plans[id] && cells[id].live.value.state == m.executions[id]
    ensures cells[id].allowance == if id in m.allowances then Some(m.allowances[id]) else None
  {
    assert Agrees(cells[id], m, saved, id);
  }

  lemma IsDeclared(c: Cell, k: nat)
    requires Sound(c) && c.live.Some? && k < |c.live.value.state.steps|
    ensures CapabilityIn(c.live.value.plan.content.steps, c.live.value.state.steps[k].id).Some?
  {
  }

  /** Every cell after a ruling or a recovery was committed, saved, and taken back unless it landed. */
  ghost function AfterDecision(cells: map<string, Cell>, id: string, decided: Option<Cell>, lands: bool): map<string, Cell>
    requires id in cells
  {
    map other | other in cells ::
      if other == id then DecidedCell(cells[id], decided, lands)
      else if decided.Some? then Saved(cells[other], lands) else cells[other]
  }

  lemma DecisionIsEverything(cells: map<string, Cell>, id: string, decided: Option<Cell>, lands: bool)
    requires id in cells && cells[id].live.Some? && (decided.Some? ==> decided.value.live.Some?)
    ensures AfterDecision(cells, id, decided, lands) ==
              if decided.None? then cells
              else if lands then SavedAll(cells[id := decided.value], true)
              else cells[id := WithState(decided.value, cells[id].live.value.state)]
  {
  }

  lemma NothingDecided(cells: map<string, Cell>, id: string, lands: bool)
    requires id in cells
    ensures AfterDecision(cells, id, None, lands) == cells
  {
  }

  lemma AfterDecisionIsSound(cells: map<string, Cell>, id: string, decided: Option<Cell>, lands: bool)
    requires AllSound(cells) && id in cells && Sound(DecidedCell(cells[id], decided, lands))
    ensures AllSound(AfterDecision(cells, id, decided, lands))
  {
    forall other | other in cells ensures Sound(AfterDecision(cells, id, decided, lands)[other]) {
      SavedIsSound(cells[other], lands);
    }
  }

  lemma AfterCancelIsSound(cells: map<string, Cell>, id: string, lands: bool)
    requires AllSound(cells) && id in cells && DoCancel(cells[id], CANCELLED_BY_USER).Some?
    ensures AllSound(SavedAll(cells[id := DoCancel(cells[id], CANCELLED_BY_USER).value], lands))
  {
    var after := SavedAll(cells[id := DoCancel(cells[id], CANCELLED_BY_USER).value], lands);
    forall other | other in after ensures Sound(after[other]) {
      CancellingIsSound(cells[id], lands);
      SavedIsSound(cells[other], lands);
    }
  }

  // -- starting -------------------------------------------------------------------------

  /** What a start meets outside the service. */
  datatype StartInputs = StartInputs(
    acceptable: bool,     // the request and run identities are usable and the target scope is live
    now: int,
    comparisonOk: bool,
    approvalLands: bool,  // the save that marks the approval spent
    firstLands: bool,     // a mission's first checkpoint
    lands: bool)

  function RequestFor(plan: Plan, runId: string, authorizationId: string, inp: StartInputs): A.Request {
    A.Request(authorizationId, plan.content, runId, plan.planId, inp.now, inp.comparisonOk, None, None)
  }

  /** The dictionaries with one newly started execution. */
  function WithStarted(m: Memory, plan: Plan, ctx: Context, allowance: Option<Allowance>, requestId: Option<string>): Memory {
    var id, mission := plan.planId, plan.content.mission.Some?;
    m.(executions := m.executions[id := Started(id, StepIds(plan.content))],
       plans := m.plans[id := plan],
       contexts := m.contexts[id := ctx],
       allowances := if allowance.Some? then m.allowances[id := allowance.value] else m.allowances,
       missionDigests := if mission then m.missionDigests[id := plan.content] else m.missionDigests,
       missionRequestIds := if mission && requestId.Some? then m.missionRequestIds[id := requestId.value] else m.missionRequestIds)
  }

  /** The approved budget becomes the allowance; nothing else may set it. */
  function FirstAllowance(budget: Option<Budget>): Option<Allowance> {
    if budget.Some? then Some(Allowance(budget.value, NothingSpent)) else None
  }

  lemma StartKeepsLink(m: Memory, saved: map<string, Snapshot>, cells: map<string, Cell>, plan: Plan, ctx: Context,
                       budget: Option<Budget>, requestId: Option<string>)
    requires Linked(m, saved, cells) && plan.planId !in cells
    ensures var n := WithStarted(m, plan, ctx, FirstAllowance(budget), requestId);
            Linked(n, saved, cells[plan.planId := BegunCell(plan, budget, ctx.runId, ctx.disclosure, requestId)])
  {
    var n := WithStarted(m, plan, ctx, FirstAllowance(budget), requestId);
    StartedAgrees(m, saved, plan, ctx, budget, requestId);
    forall other | other in cells && other != plan.planId && Agrees(cells[other], m, saved, other)
      ensures Agrees(cells[other], n, saved, other)
    {
      StartedElsewhere(m, saved, plan, ctx, budget, requestId, cells[other], other);
    }
    hide WithStarted, Agrees, BegunCell;
    RelinkOne(m, n, saved, cells, plan.planId, BegunCell(plan, budget, ctx.runId, ctx.disclosure, requestId));
  }

  lemma StartedElsewhere(m: Memory, saved: map<string, Snapshot>, plan: Plan, ctx: Context, budget: Option<Budget>, requestId: Option<string>,
                         c: Cell, other: string)
    requires other != plan.planId && Agrees(c, m, saved, other)
    ensures Agrees(c, WithStarted(m, plan, ctx, FirstAllowance(budget), requestId), saved, other)
  {
  }

  lemma StartedAgrees(m: Memory, saved: map<string, Snapshot>, plan: Plan, ctx: Context, budget: Option<Budget>, requestId: Option<string>)
    requires m.Keyed() && plan.planId !in m.executions && plan.planId !in m.allowances && plan.planId !in m.restored && plan.planId !in saved
    ensures var n := WithStarted(m, plan, ctx, FirstAllowance(budget), requestId);
            && n.Keyed() && n.executions.Keys == m.executions.Keys + {plan.planId} && n.allowances.Keys <= m.allowances.Keys + {plan.planId}
            && n.restored == m.restored
            && Agrees(BegunCell(plan, budget, ctx.runId, ctx.disclosure, requestId), n, saved, plan.planId)
  {
  }

  lemma PutThenRemoved<V>(m: map<string, V>, id: string, v: V)
    requires id !in m
    ensures m[id := v] - {id} == m && m - {id} == m
  {
  }

  lemma WithdrawnMemory(m: Memory, saved: map<string, Snapshot>, cells: map<string, Cell>, plan: Plan, ctx: Context, budget: Option<Budget>,
                        requestId: Option<string>)
    requires Linked(m, saved, cells) && plan.planId !in cells
    ensures var n, id := WithStarted(m, plan, ctx, FirstAllowance(budget), requestId), plan.planId;
            && m.executions == n.executions - {id} && m.plans == n.plans - {id} && m.contexts == n.contexts - {id}
            && m.allowances == n.allowances - {id} && m.missionDigests == n.missionDigests - {id}
            && m.missionRequestIds == n.missionRequestIds - {id} && m.restored == n.restored
  {
    NotKept(m, saved, cells, plan.planId);
    hide Linked;
    var id := plan.planId;
    PutThenRemoved(m.executions, id, Started(id, StepIds(plan.content)));
    PutThenRemoved(m.plans, id, plan);
    PutThenRemoved(m.contexts, id, ctx);
    PutThenRemoved(m.allowances, id, if budget.Some? then Allowance(budget.value, NothingSpent) else Allowance(Budget(0, 0, 0, 0.0), NothingSpent));
    PutThenRemoved(m.missionDigests, id, plan.content);
    PutThenRemoved(m.missionRequestIds, id, if requestId.Some? then requestId.value else "");
  }

  lemma NotKept(m: Memory, saved: map<string, Snapshot>, cells: map<string, Cell>, id: string)
    requires Linked(m, saved, cells) && id !in cells
    ensures id !in m.executions && id !in m.plans && id !in m.contexts && id !in m.allowances
    ensures id !in m.missionDigests && id !in m.missionRequestIds && id !in m.restored && id !in saved
  {
  }

  lemma LinkIsKeyed(m: Memory, saved: map<string, Snapshot>, cells: map<string, Cell>)
    requires Linked(m, saved, cells)
    ensures m.Keyed()
  {
  }

  lemma StartedIsThere(m: Memory, plan: Plan, ctx: Context, budget: Option<Budget>, requestId: Option<string>)
    ensures var n := WithStarted(m, plan, ctx, FirstAllowance(budget), requestId);
            && n.executions == m.executions[plan.planId := Started(plan.planId, StepIds(plan.content))]
            && n.plans == m.plans[plan.planId := plan] && n.contexts == m.contexts[plan.planId := ctx]
            && n.allowances == (if budget.Some? then m.allowances[plan.planId := Allowance(budget.value, NothingSpent)] else m.allowances)
            && (n.Keyed() ==> plan.planId in n.Document())
            && (n.Keyed() && plan.content.mission.Some? && plan.planId !in m.missionRequestIds ==>
                  n.Document()[plan.planId].requestId == requestId)
  {
  }

  /** Taking a start back leaves no entry behind. */
  lemma WithdrawKeepsLink(m: Memory, saved: map<string, Snapshot>, cells: map<string, Cell>, id: string, c: Cell)
    requires Linked(m, saved, cells) && id !in cells
    requires c.live.None? && c.allowance.None? && c.restored.None? && c.stored.None?
    ensures Linked(m, saved, cells[id := c])
  {
    RelinkOne(m, m, saved, cells, id, c);
  }

  /** Every cell after one start; the saves of the start reach the others. */
  ghost function AfterStart(cells: map<string, Cell>, begun: Cell, id: string, inp: StartInputs): map<string, Cell>
    requires begun.live.Some?
  {
    if begun.origin.mission.None? then SavedAll(cells[id := begun], inp.lands)
    else if inp.firstLands then SavedAll(SavedAll(cells[id := begun], true), inp.lands)
    else cells[id := begun.(live := None, allowance := None)]
  }

  lemma AfterStartIsSound(cells: map<string, Cell>, plan: Plan, budget: Option<Budget>, ctx: Context, requestId: Option<string>, inp: StartInputs)
    requires AllSound(cells) && ValidContent(plan.content)
    ensures AllSound(AfterStart(cells, BegunCell(plan, budget, ctx.runId, ctx.disclosure, requestId), plan.planId, inp))
  {
    var begun := BegunCell(plan, budget, ctx.runId, ctx.disclosure, requestId);
    var after := AfterStart(cells, begun, plan.planId, inp);
    StartingIsSound(plan, budget, ctx.runId, ctx.disclosure, requestId, inp.firstLands, inp.lands);
    forall id | id in after ensures Sound(after[id]) {
      if id == plan.planId {
        assert after[id] == StartedCell(begun, inp.firstLands, inp.lands);
      } else {
        SavedIsSound(cells[id], inp.lands);
        SavedIsSound(cells[id], true);
        SavedIsSound(Saved(cells[id], true), inp.lands);
      }
    }
  }

  predicate Unnamed(saved: map<string, A.Authorization>, executionId: string) {
    forall a :: a in saved ==> !Names(saved[a], executionId)
  }

  /** Spending one approval on a new execution backs it, and leaves every other one backed. */
  lemma StartIsBacked(cells: map<string, Cell>, b: A.Book, q: A.Request, lands: bool)
    requires A.Mirrored(b) && AllBacked(cells, b.saved) && Unnamed(b.saved, q.executionId)
    requires A.Consume(b, q, lands).1 == A.Valid
    ensures q.authorizationId in b.recorded
    ensures var saved := A.Consume(b, q, lands).0.saved;
            BackedBy(saved, q.executionId, b.recorded[q.authorizationId].budget)
            && forall id :: id in cells && id != q.executionId && cells[id].approved.Some? ==> BackedBy(saved, id, cells[id].approved.value)
  {
    A.ConsumingNamesOnlyTheAsker(b, q, lands);
    var saved := A.Consume(b, q, lands).0.saved;
    assert Names(saved[q.authorizationId], q.executionId);
    forall id | id in cells && id != q.executionId && cells[id].approved.Some?
      ensures BackedBy(saved, id, cells[id].approved.value)
    {
      forall x | x in b.saved && b.saved[x].consumption.Some? ensures x in saved && saved[x] == b.saved[x] {
        assert b.recorded[x] == b.saved[x];
      }
      BackingLasts(b.saved, saved, id, cells[id].approved.value);
    }
  }

  /** A new approval is not spent, so it names no execution. */
  lemma RecordingStaysBacked(cells: map<string, Cell>, b: A.Book, a: A.Authorization, lands: bool)
    requires A.Mirrored(b) && AllBacked(cells, b.saved) && a.consumption.None? && a.id !in b.recorded
    ensures AllBacked(cells, A.Record(b, a, lands).saved) && A.SpentForGood(b.saved, A.Record(b, a, lands).saved)
    ensures forall id :: Unnamed(b.saved, id) ==> Unnamed(A.Record(b, a, lands).saved, id)
  {
    var saved := A.Record(b, a, lands).saved;
    forall x | x in saved && saved[x].consumption.Some? ensures x in b.saved && b.saved[x] == saved[x] {
      if lands {
        assert x != a.id && saved[x] == b.recorded[x];
      }
    }
    assert A.SpentForGood(b.saved, saved);
    forall id | id in cells && cells[id].approved.Some? ensures BackedBy(saved, id, cells[id].approved.value) {
      BackingLasts(b.saved, saved, id, cells[id].approved.value);
    }
  }

  lemma RefusalSpendsNothing(b: A.Book, q: A.Request, lands: bool)
    requires A.Consume(b, q, lands).1 != A.Valid
    ensures A.Consume(b, q, lands).0 == b
  {
  }

  /** The budget recorded as approved is the one the spent approval granted. */
  lemma AfterStartIsBacked(cells: map<string, Cell>, saved: map<string, A.Authorization>, plan: Plan, budget: Budget, ctx: Context,
                           requestId: Option<string>, inp: StartInputs)
    requires BackedBy(saved, plan.planId, budget)
    requires forall id :: id in cells && id != plan.planId && cells[id].approved.Some? ==> BackedBy(saved, id, cells[id].approved.value)
    ensures AllBacked(AfterStart(cells, BegunCell(plan, Some(budget), ctx.runId, ctx.disclosure, requestId), plan.planId, inp), saved)
  {
  }

  /** A start without an approval approves no budget. */
  lemma UnapprovedStaysBacked(cells: map<string, Cell>, saved: map<string, A.Authorization>, plan: Plan, ctx: Context,
                              requestId: Option<string>, inp: StartInputs)
    requires AllBacked(cells, saved) && plan.planId !in cells
    ensures AllBacked(AfterStart(cells, BegunCell(plan, None, ctx.runId, ctx.disclosure, requestId), plan.planId, inp), saved)
  {
  }

  lemma BegunIsBare(plan: Plan, budget: Option<Budget>, runId: Option<string>, disclosure: Disclosure, requestId: Option<string>)
    ensures var begun := BegunCell(plan, budget, runId, disclosure, requestId);
            begun.live.Some? && begun.restored.None? && begun.stored.None? && begun.origin == plan.content
  {
  }

  // -- rebinding ----------------------------------------------------------------------

  /** The dictionaries once a restored execution is live again. */
  function WithRebound(m: Memory, id: string, l: Live, allowance: Allowance): Memory {
    m.(executions := m.executions[id := l.state],
       plans := m.plans[id := l.plan],
       contexts := m.contexts[id := Context(l.runId, l.disclosure)],
       allowances := m.allowances[id := allowance],
       missionDigests := if l.missionDigest.Some? then m.missionDigests[id := l.missionDigest.value] else m.missionDigests,
       missionRequestIds := if l.requestId.Some? then m.missionRequestIds[id := l.requestId.value] else m.missionRequestIds,
       restored := m.restored - {id})
  }

  lemma ReboundAgrees(m: Memory, saved: map<string, Snapshot>, c: Cell, id: string, l: Live, allowance: Allowance)
    requires m.Keyed() && id !in m.executions && c.stored == Lookup(saved, id)
    requires c.live == Some(l) && c.allowance == Some(allowance) && c.restored.None?
    ensures WithRebound(m, id, l, allowance).Keyed() && Agrees(c, WithRebound(m, id, l, allowance), saved, id)
  {
  }

  lemma ReboundElsewhere(m: Memory, saved: map<string, Snapshot>, c: Cell, other: string, id: string, l: Live, allowance: Allowance)
    requires other != id && Agrees(c, m, saved, other)
    ensures Agrees(c, WithRebound(m, id, l, allowance), saved, other)
  {
  }

  lemma RebindKeepsLink(m: Memory, saved: map<string, Snapshot>, cells: map<string, Cell>, c: Cell, id: string, l: Live, allowance: Allowance)
    requires Linked(m, saved, cells) && id in cells && id !in m.executions
    requires c.stored == cells[id].stored && c.live == Some(l) && c.allowance == Some(allowance) && c.restored.None?
    ensures Linked(WithRebound(m, id, l, allowance), saved, cells[id := c])
  {
    var n := WithRebound(m, id, l, allowance);
    assert Agrees(cells[id], m, saved, id);
    ReboundAgrees(m, saved, c, id, l, allowance);
    forall other | other in cells && other != id && Agrees(cells[other], m, saved, other)
      ensures Agrees(cells[other], n, saved, other)
    {
      ReboundElsewhere(m, saved, cells[other], other, id, l, allowance);
    }
    ReboundKeys(m, id, l, allowance);
    hide WithRebound, Agrees;
    RelinkOne(m, n, saved, cells, id, c);
  }

  lemma ReboundIsThere(m: Memory, id: string, l: Live, allowance: Allowance)
    ensures var n := WithRebound(m, id, l, allowance);
            && n.executions == m.executions[id := l.state] && n.restored == m.restored - {id}
            && n.allowances == m.allowances[id := allowance]
  {
  }

  lemma ReboundKeys(m: Memory, id: string, l: Live, allowance: Allowance)
    ensures var n := WithRebound(m, id, l, allowance);
            && n.executions.Keys <= m.executions.Keys + {id} && n.allowances.Keys <= m.allowances.Keys + {id}
            && n.restored.Keys <= m.restored.Keys
  {
  }

  /** A restored execution is not live, and what its rebind would make of it. */
  lemma RestoredAt(m: Memory, saved: map<string, Snapshot>, cells: map<string, Cell>, id: string)
    requires Linked(m, saved, cells)
    ensures id in m.restored ==> id in cells && cells[id].restored == Some(m.restored[id])
                                 && (id in m.executions <==> cells[id].live.Some?)
    ensures id !in m.restored && id in cells ==> cells[id].restored.None?
  {
    assert id in cells ==> Agrees(cells[id], m, saved, id);
  }

  /** Every cell after a rebind; it saves only when it completed a step from its own record. */
  ghost function AfterRebind(cells: map<string, Cell>, id: string, plan: Plan, runId: string, ctx: RebindContext, lands: bool): map<string, Cell>
    requires id in cells
  {
    var saves := RebindSaves(cells[id], plan, runId, ctx);
    map other | other in cells ::
      if other == id then ReboundCell(cells[id], plan, runId, ctx, lands) else if saves then Saved(cells[other], lands) else cells[other]
  }

  lemma RebindIsEverything(cells: map<string, Cell>, id: string, plan: Plan, runId: string, ctx: RebindContext, lands: bool)
    requires id in cells
    ensures var n := DoRebind(cells[id], plan, runId, ctx);
            AfterRebind(cells, id, plan, runId, ctx, lands)
            == if n.None? then cells
               else if RebindSaves(cells[id], plan, runId, ctx) then SavedAll(cells[id := n.value], lands) else cells[id := n.value]
  {
  }

  lemma AfterRebindIsSound(cells: map<string, Cell>, id: string, plan: Plan, runId: string, ctx: RebindContext, lands: bool)
    requires AllSound(cells) && id in cells
    ensures AllSound(AfterRebind(cells, id, plan, runId, ctx, lands))
  {
    forall other | other in cells ensures Sound(AfterRebind(cells, id, plan, runId, ctx, lands)[other]) {
      RebindingIsSound(cells[id], plan, runId, ctx, lands);
      SavedIsSound(cells[other], lands);
    }
  }

  lemma RebindMeans(c: Cell, plan: Plan, runId: string, ctx: RebindContext)
    requires c.restored.Some?
    ensures var sn, n := c.restored.value, DoRebind(c, plan, runId, ctx);
            && (n.Some? <==> c.live.None? && Rebound(sn, plan, runId, ctx).Some?)
            && (n.Some? ==>
                  && n.value.live == Rebound(sn, plan, runId, ctx) && sn.allowance.Some? && n.value.allowance == sn.allowance
                  && n.value.restored.None? && n.value.stored == c.stored
                  && (RebindSaves(c, plan, runId, ctx) <==> n.value.live.value.state != ReboundState(sn)))
  {
  }
}
