/** Starting a goal once, and taking up restored missions once, after a restart. */
module GoalService {
  import opened Options
  import opened Allowances
  import opened Plans
  import opened ExecutionStates
  import opened Snapshots
  import opened AttemptProtocol
  import opened SequentialAdvance
  import opened SequentialDecisions
  import opened Continuations
  import opened ExecutionMemory
  import opened MissionRequests
  import opened GoalIntake
  import opened RebindLaws
  import opened Autonomy
  import opened AutonomyService
  import A = Approvals
  import Auth = AuthorizationService
  import P = PlanExecutionService

  function AsRunBudget(b: Budget): RunBudget { RunBudget(b.steps, b.network, b.llm, b.seconds) }

  function Room(limit: nat, spent: nat): nat { if limit >= spent then limit - spent else 0 }

  /** What is left of a recorded allowance. */
  function Remaining(a: Allowance): RunBudget {
    RunBudget(Room(a.budget.steps, a.spend.steps), Room(a.budget.network, a.spend.network), Room(a.budget.llm, a.spend.llm),
              a.budget.seconds - a.spend.seconds)
  }

  /** What a recorded allowance has left is what its budget still affords, and no run of that budget overspends it. */
  lemma RemainingLaw(a: Allowance, l: Ledger)
    ensures Within(a) && WithinRun(l, Remaining(a)) <==>
              && Within(a) && a.spend.steps + l.attempted <= a.budget.steps && a.spend.network + l.network <= a.budget.network
              && a.spend.llm + l.llm <= a.budget.llm
    ensures !Within(a) && WithinRun(l, Remaining(a)) ==>
              && (a.spend.steps > a.budget.steps ==> l.attempted == 0) && (a.spend.network > a.budget.network ==> l.network == 0)
              && (a.spend.llm > a.budget.llm ==> l.llm == 0)
    ensures a.spend.seconds + Remaining(a).seconds == a.budget.seconds
  {
  }

  /** A goal's run is bounded by exactly the budget that was approved for it. */
  lemma WholeBudgetRuns(b: Budget, l: Ledger)
    ensures WithinRun(l, AsRunBudget(b)) <==> l.attempted <= b.steps && l.network <= b.network && l.llm <= b.llm
    ensures AsRunBudget(b).seconds == b.seconds
  {
  }

  datatype GoalReport = GoalRefused | GoalRan(report: RunReport)

  /** What a goal start meets outside the services. */
  datatype GoalInputs = GoalInputs(
    composed: bool,             // scope, provider, destination and persistence are available; not cancelled
    runId: string,
    approvalId: string,
    now: int,
    approvalRecorded: bool,     // the save of the new approval
    start: StartInputs,
    rounds: nat -> Round,
    inputs: nat -> AdvanceInputs)

  /** What the recovery of one restored mission meets. */
  datatype RecoveryInputs = RecoveryInputs(
    cancelled: bool,
    destinationMatches: bool,
    rebuilt: Option<Plan>,
    ctx: RebindContext,
    lands: bool,
    rounds: nat -> Round,
    inputs: nat -> AdvanceInputs)

  /** `_recovery_precondition_refusal`. */
  predicate Recoverable(sn: Snapshot, ri: RecoveryInputs) {
    && sn.missionScope.Some? && sn.missionScope.value.policy.Some?
    && ri.destinationMatches && sn.runId.Some? && sn.allowance.Some?
  }

  /** Everything the recovery of one mission asks for: it is recoverable, was rebuilt with its recorded
      digest, and the rebind accepts it. */
  predicate MayResume(sn: Snapshot, ri: RecoveryInputs) {
    && !ri.cancelled && Recoverable(sn, ri) && ri.rebuilt.Some? && sn.missionDigest == Some(ri.rebuilt.value.content)
    && Rebound(sn, ri.rebuilt.value, sn.runId.value, ri.ctx).Some?
  }

  /** Said of what was live before the restart: a mission may be resumed if and only if nobody cancelled, its
      destination is the recorded one, it could go on and had a run and an allowance, the plan rebuilt is the
      very same, its policy is its disclosure and a resolver takes it, and all its pending steps can run. */
  lemma MissionResumesIff(l: Live, allowance: Option<Allowance>, ri: RecoveryInputs)
    requires WellFormed(l.state) && ValidContent(l.plan.content) && StepsArePlanned(l.state, l.plan.content) && Filed(l)
    ensures MayResume(Restored(Capture(l, allowance)), ri) <==>
              && !ri.cancelled && ri.destinationMatches && allowance.Some? && l.runId.Some? && Continues(l.state)
              && ri.rebuilt.Some? && ri.rebuilt.value.content == l.plan.content && ri.ctx.planAcceptable
              && MissionAgrees(l, l.plan.content, l.runId.value, ri.ctx) && PendingCanRun(l, ri.ctx) && RecordsFit(l, ri.ctx)
  {
    var sn := Restored(Capture(l, allowance));
    if l.runId.Some? && ri.rebuilt.Some? && ri.rebuilt.value.content == l.plan.content {
      RebindLaw(l, allowance, ri.rebuilt.value, l.runId.value, ri.ctx);
      EveryStepIsThere(l.plan.content);
    }
    hide WellFormed, Continues, PendingCanRun, RecordsFit, StepsAreIn, StepsArePlanned, Rebound;
  }

  lemma EveryStepIsThere(c: PlanContent)
    ensures StepsAreIn(c, c)
  {
    forall i | 0 <= i < |c.steps| ensures HasStep(c, c.steps[i].id, c.steps[i].capability) {
      StepIsThere(c, i);
    }
  }

  /** The execution a recovery makes live, and the run it then makes within what its allowance has left. */
  function ResumedCell(c: Cell, sn: Snapshot, ri: RecoveryInputs): Cell {
    if ri.rebuilt.None? || sn.runId.None? then c else ReboundCell(c, ri.rebuilt.value, sn.runId.value, ri.ctx, ri.lands)
  }

  function ResumeReport(c: Cell, sn: Snapshot, ri: RecoveryInputs): RunReport {
    var resumed := ResumedCell(c, sn, ri);
    if resumed.live.None? || sn.allowance.None? then NoSuchExecution
    else RunFrom(resumed, Remaining(sn.allowance.value), ri.rounds, ri.inputs, 0, NothingAsked).report
  }

  /** It does not depend on what the store holds of the execution by then. */
  lemma ResumeIgnoresTheStore(a: Cell, b: Cell, sn: Snapshot, ri: RecoveryInputs)
    requires OnlySaved(a, b)
    ensures ResumeReport(b, sn, ri) == ResumeReport(a, sn, ri)
  {
    if ri.rebuilt.Some? && sn.runId.Some? {
      ReboundIgnoresTheStore(a, b, ri.rebuilt.value, sn.runId.value, ri.ctx, ri.lands);
    }
    var (x, y) := (ResumedCell(a, sn, ri), ResumedCell(b, sn, ri));
    hide ReboundCell, RunFrom;
    assert y == x.(stored := y.stored);
    if x.live.Some? && sn.allowance.Some? {
      RunIgnoresTheStore(x, y.stored, Remaining(sn.allowance.value), ri.rounds, ri.inputs, 0, NothingAsked);
    }
  }

  lemma ReboundIgnoresTheStore(a: Cell, b: Cell, plan: Plan, runId: string, ctx: RebindContext, lands: bool)
    requires OnlySaved(a, b)
    ensures OnlySaved(ReboundCell(a, plan, runId, ctx, lands), ReboundCell(b, plan, runId, ctx, lands))
  {
    hide Rebound, ReboundState, InterruptedStep, Current;
  }

  /** A newly recorded approval names no execution and takes nothing from those that are backed. */
  lemma AfterRecording(cells: map<string, Cell>, book: A.Book, after: A.Book, a: A.Authorization, lands: bool, planId: string)
    requires A.Mirrored(book) && AllBacked(cells, book.saved) && Unnamed(book.saved, planId) && a.consumption.None?
    requires after == book || (a.id !in book.recorded && after == A.Record(book, a, lands))
    ensures AllBacked(cells, after.saved) && Unnamed(after.saved, planId)
  {
    if after != book {
      RecordingStaysBacked(cells, book, a, lands);
    }
  }

  /** What a start leaves carried, when one was made at all. */
  lemma StartStaysSettled(before: map<string, Cell>, after: map<string, Cell>, plan: Plan, spent: Option<A.Authorization>,
                          runId: string, requestId: string, inp: StartInputs)
    requires plan.planId !in before && AllSteady(before)
    requires after == if spent.None? then before
                      else AfterStart(before, BegunCell(plan, Some(spent.value.budget), Some(runId), spent.value.disclosure, Some(Trimmed(requestId))),
                                      plan.planId, inp)
    ensures var more := if spent.None? then {} else StartCarries(plan, requestId, inp);
            && AllSteady(after) && Identities(after) == Identities(before) + more
            && (Unique(after) <==> Unique(before) && more !! Identities(before))
  {
    if spent.Some? {
      StartingAdds(before, plan, spent.value.budget, Context(Some(runId), spent.value.disclosure), requestId, inp);
    }
  }

  /** Every cell once a goal has started, before it runs. */
  ghost function GoalCells(cells: map<string, Cell>, requestId: string, plan: Plan, disclosure: Disclosure, budget: Budget,
                           g: GoalInputs): map<string, Cell> {
    AfterStart(cells, BegunCell(plan, Some(budget), Some(g.runId), disclosure, Some(Trimmed(requestId))), plan.planId, g.start)
  }

  /** The approval recorded for a goal permits its start for an hour. */
  lemma ApprovedForPlan(plan: Plan, disclosure: Disclosure, budget: Budget, g: GoalInputs)
    ensures A.Permits(A.ForPlan(g.approvalId, plan.content, g.runId, budget, disclosure, g.now),
                      A.Request(g.approvalId, plan.content, g.runId, plan.planId, g.start.now, g.start.comparisonOk, None, None))
            <==> g.start.comparisonOk && g.start.now < g.now + 3600
  {
  }

  class GoalStarter {
    const runner: Runner
    var goalRequestIds: set<string>
    var recoveryAttempted: bool

    ghost predicate Ready()
      reads runner, runner.execution, runner.execution.store, runner.execution.authorizer, runner.execution.authorizer.store
    {
      runner.execution.Valid() && runner.execution.Backed()
    }

    /** What executions carry is durable and trimmed, and some form of it is known here. */
    ghost predicate Settled()
      reads this, runner, runner.execution
    {
      AllSteady(runner.execution.cells) && Identities(runner.execution.cells) <= TrimmedForms(goalRequestIds)
    }

    /** And no two executions, live, restored or stored, carry one request identity. */
    ghost predicate Distinguished()
      reads this, runner, runner.execution
    {
      Settled() && Unique(runner.execution.cells)
    }

    /** A new process, its executions just read back from the store, knows the identity of every
        mission it restored. */
    constructor (runner: Runner)
      requires runner.execution.Valid() && runner.execution.executions == map[]
      requires forall id :: id in runner.execution.store.saved ==>
                 id in runner.execution.restored && runner.execution.restored[id] == Restored(runner.execution.store.saved[id])
      ensures this.runner == runner && !recoveryAttempted
      ensures goalRequestIds == set id | id in runner.execution.restored && runner.execution.restored[id].requestId.Some? ::
                                  runner.execution.restored[id].requestId.value
      ensures AllSteady(runner.execution.cells) ==> Settled()
    {
      hide Linked, AllSteady, Identities, TrimmedForms, Restored, AllSound;
      this.runner := runner;
      recoveryAttempted := false;
      goalRequestIds := set id | id in runner.execution.restored && runner.execution.restored[id].requestId.Some? ::
                          runner.execution.restored[id].requestId.value;
      new;
      var execution := runner.execution;
      if AllSteady(execution.cells) {
        RestoredAreKnown(execution.Remembered(), execution.store.saved, execution.cells, goalRequestIds);
      }
    }

    /** The services are composed in; the identity is usable and not known; the budget affords one clean pass;
        the approval's identity is new; the start finds room, a resolver for a mission, and its approval unexpired. */
    predicate MayStart(requestId: string, plan: Plan, budget: Budget, g: GoalInputs)
      reads this, runner, runner.execution, runner.execution.authorizer
    {
      && g.composed && !AllBlank(requestId) && |requestId| <= 200 && requestId !in goalRequestIds && |goalRequestIds| < 50
      && A.Sufficient(plan.content, budget) && g.approvalId !in runner.execution.authorizer.authorizations
      && plan.planId !in runner.execution.executions && |runner.execution.executions| < runner.execution.maxActive
      && (plan.content.mission.Some? ==> runner.execution.missionResolver)
      && g.start.acceptable && g.start.comparisonOk && g.start.now < g.now + 3600
    }

    /** Start one goal: derive nothing twice, spend one approval, make a mission durable, and only then
        call its identity used. Identities stay apart unless it is a mission whose identity, once trimmed,
        is carried already; the code refuses only one it was sent in the same form before. */
    method StartGoal(requestId: string, plan: Plan, disclosure: Disclosure, budget: Budget, g: GoalInputs) returns (r: GoalReport)
      requires Ready() && ValidContent(plan.content)
      requires plan.planId !in runner.execution.cells && Unnamed(runner.execution.authorizer.store.saved, plan.planId)
      requires forall i: nat :: g.inputs(i).missionResolver == runner.execution.missionResolver
      modifies this`goalRequestIds, runner.execution, runner.execution.store
      modifies runner.execution.authorizer, runner.execution.authorizer.store
      ensures Ready()
      ensures old(Settled()) ==> Settled()
      ensures old(Settled()) ==>
                (Unique(runner.execution.cells) <==>
                   && old(Unique(runner.execution.cells))
                   && !(r.GoalRan? && plan.content.mission.Some? && Trimmed(requestId) in old(Identities(runner.execution.cells))))
      ensures old(Distinguished()) && Trimmed(requestId) !in TrimmedForms(old(goalRequestIds)) ==> Distinguished()
      ensures !Acceptable(requestId, old(goalRequestIds)) ==>
                r.GoalRefused? && goalRequestIds == old(goalRequestIds) && runner.execution.cells == old(runner.execution.cells)
                && runner.execution.authorizer.View() == old(runner.execution.authorizer.View())
      ensures r.GoalRefused? ==> runner.execution.executions == old(runner.execution.executions)
      ensures r.GoalRan? ==>
                && requestId in goalRequestIds && plan.planId in runner.execution.cells
                && (r.report.Ran? ==> WithinRun(r.report.ledger, AsRunBudget(budget)))
      ensures goalRequestIds <= old(goalRequestIds) + {requestId}
      ensures r.GoalRan? <==>
                && old(MayStart(requestId, plan, budget, g)) && g.approvalRecorded && g.start.approvalLands
                && (plan.content.mission.Some? ==> g.start.firstLands)
      ensures r.GoalRan? ==>
                var started := GoalCells(old(runner.execution.cells), requestId, plan, disclosure, budget, g);
                && plan.planId in started && started[plan.planId].live.Some?
                && var ended := RunFrom(started[plan.planId], AsRunBudget(budget), g.rounds, g.inputs, 0, NothingAsked);
                   && r.report == ended.report
                   && runner.execution.cells == AdvancedAll(started, plan.planId, g.inputs, ended.advances)
    {
      hide P.Service.Valid, Unique, AllSteady, Identities, AllBacked, Unnamed, Trimmed, RunFrom, AdvancedAll, AfterStart, BegunCell, Acceptable,
           A.Sufficient, AsRunBudget, WithinRun, Auth.Service.Ok;
      AcceptableLaw(requestId, goalRequestIds);
      ApprovedForPlan(plan, disclosure, budget, g);
      if !g.composed || !Acceptable(requestId, goalRequestIds) || !A.Sufficient(plan.content, budget) {
        return GoalRefused;
      }
      var approval := Approve(plan, disclosure, budget, g);
      if approval.None? {
        return GoalRefused;
      }
      var started := Launch(requestId, plan, approval.value.id, g);
      if !started {
        return GoalRefused;
      }
      var report := RunWithin(plan.planId, AsRunBudget(budget), g.rounds, g.inputs);
      r := GoalRan(report);
    }

    /** Start the execution; the identity becomes used only once it has crossed its durable boundary. */
    method Launch(requestId: string, plan: Plan, authorizationId: string, g: GoalInputs) returns (started: bool)
      requires Ready() && ValidContent(plan.content)
      requires plan.planId !in runner.execution.cells && Unnamed(runner.execution.authorizer.store.saved, plan.planId)
      modifies this`goalRequestIds, runner.execution, runner.execution.store
      modifies runner.execution.authorizer, runner.execution.authorizer.store
      ensures Ready()
      ensures old(Settled()) ==> Settled()
      ensures old(Settled()) ==>
                (Unique(runner.execution.cells) <==>
                   && old(Unique(runner.execution.cells))
                   && !(started && plan.content.mission.Some? && Trimmed(requestId) in old(Identities(runner.execution.cells))))
      ensures !started ==> runner.execution.executions == old(runner.execution.executions)
      ensures started ==> plan.planId in runner.execution.executions
      ensures started && plan.content.mission.Some? ==>
                plan.planId in runner.execution.store.saved
                && runner.execution.store.saved[plan.planId].requestId == Some(Trimmed(requestId))
      ensures goalRequestIds == if started then old(goalRequestIds) + {requestId} else old(goalRequestIds)
      ensures started <==> old(runner.execution.ApprovedStart(plan, g.runId, authorizationId, g.start)) && g.start.approvalLands
                           && (plan.content.mission.Some? ==> g.start.firstLands)
      ensures started ==>
                && authorizationId in old(runner.execution.authorizer.authorizations)
                && var a := old(runner.execution.authorizer.authorizations)[authorizationId];
                   runner.execution.cells == AfterStart(old(runner.execution.cells),
                                                        BegunCell(plan, Some(a.budget), Some(g.runId), a.disclosure, Some(Trimmed(requestId))),
                                                        plan.planId, g.start)
    {
      hide P.Service.Valid, P.Service.ApprovedStart, Unique, AllSteady, Identities, AfterStart, AllBacked, Unnamed, Trimmed, BegunCell, WithStarted,
           A.SpentForGood, Names, Started, Auth.Service.Ok;
      var execution := runner.execution;
      ghost var before, known := execution.cells, goalRequestIds;
      var state, spent := execution.StartForPlan(plan, g.runId, authorizationId, Some(Trimmed(requestId)), g.start);
      if AllSteady(before) {
        StartStaysSettled(before, execution.cells, plan, spent, g.runId, requestId, g.start);
        FormsGrow(known, requestId);
      }
      started := state.Some?;
      if started {
        goalRequestIds := goalRequestIds + {requestId};
      }
    }

    /** Record the one approval a goal start spends. */
    method Approve(plan: Plan, disclosure: Disclosure, budget: Budget, g: GoalInputs) returns (approval: Option<A.Authorization>)
      requires Ready() && Unnamed(runner.execution.authorizer.store.saved, plan.planId)
      modifies runner.execution.authorizer, runner.execution.authorizer.store
      ensures Ready() && Unnamed(runner.execution.authorizer.store.saved, plan.planId)
      ensures approval.Some? <==> && A.Sufficient(plan.content, budget) && g.approvalRecorded
                                  && g.approvalId !in old(runner.execution.authorizer.authorizations)
      ensures approval.Some? ==>
                && approval.value == A.ForPlan(g.approvalId, plan.content, g.runId, budget, disclosure, g.now)
                && g.approvalId in runner.execution.authorizer.authorizations
                && runner.execution.authorizer.authorizations[g.approvalId] == approval.value
    {
      hide P.Service.Valid, AllBacked, Unnamed;
      var authorizer := runner.execution.authorizer;
      ghost var book := authorizer.View();
      approval := authorizer.RecordForPlan(plan.content, g.runId, true, budget, disclosure, g.approvalId, g.now, g.approvalRecorded);
      AfterRecording(runner.execution.cells, book, authorizer.View(),
                     A.ForPlan(g.approvalId, plan.content, g.runId, budget, disclosure, g.now), g.approvalRecorded, plan.planId);
    }

    /** One autonomy run; it adds no request identity and takes no approval. */
    method RunWithin(id: string, budget: RunBudget, rounds: nat -> Round, inputs: nat -> AdvanceInputs) returns (report: RunReport)
      requires Ready() && forall i: nat :: inputs(i).missionResolver == runner.execution.missionResolver
      modifies runner.execution`executions, runner.execution`allowances, runner.execution`cells, runner.execution.store
      ensures Ready() && runner.execution.cells.Keys == old(runner.execution.cells).Keys
      ensures old(Settled()) ==> Settled() && (Unique(runner.execution.cells) <==> old(Unique(runner.execution.cells)))
      ensures report.NoSuchExecution? <==> id !in old(runner.execution.executions)
      ensures id in old(runner.execution.executions) ==> id in runner.execution.cells
      ensures report.Ran? ==> WithinRun(report.ledger, budget)
      ensures id in old(runner.execution.executions) ==>
                && id in old(runner.execution.cells) && old(runner.execution.cells[id]).live.Some?
                && var ended := RunFrom(old(runner.execution.cells[id]), budget, rounds, inputs, 0, NothingAsked);
                   report == ended.report && runner.execution.cells == AdvancedAll(old(runner.execution.cells), id, inputs, ended.advances)
      ensures runner.execution.restored == old(runner.execution.restored)
    {
      hide P.Service.Valid, AllBacked, Unique, AllSteady, Identities, Reconciles, RunFrom, AdvancedAll, RequestsKept, Spends, Escapes,
           Advanced, WithinRun, StopReasonFor, ReportOf;
      var execution := runner.execution;
      ghost var before := execution.cells;
      var n;
      ghost var spent;
      report, n, spent := runner.ProcessRun(id, budget, rounds, inputs);
      KeptStaysBacked(before, execution.cells, execution.authorizer.store.saved);
      if AllSteady(before) {
        KeptStaysSteady(before, execution.cells);
      }
    }

    // -- taking up restored missions ---------------------------------------------------------

    /** Resume every restored mission that can be shown to be the one recorded, once per process, each
        within what its recorded allowance has left. One that is refused, or raises a `ResearchError`, does
        not keep the others from being taken up; only an unforeseen exception ends the pass. */
    method ResumeRestored(ri: string -> RecoveryInputs) returns (resumed: seq<(string, RunReport)>, raised: bool)
      requires Ready()
      requires forall id: string, i: nat :: ri(id).inputs(i).missionResolver == runner.execution.missionResolver
      modifies this`recoveryAttempted, runner.execution, runner.execution.store
      ensures Ready() && recoveryAttempted
      ensures old(Settled()) ==> Settled() && (Unique(runner.execution.cells) <==> old(Unique(runner.execution.cells)))
      ensures old(recoveryAttempted) ==>
                && resumed == [] && !raised && runner.execution.cells == old(runner.execution.cells)
                && runner.execution.restored == old(runner.execution.restored)
      ensures forall i :: 0 <= i < |resumed| ==> ResumedWithin(resumed[i], old(runner.execution.restored), ri)
      ensures forall i :: 0 <= i < |resumed| ==> !resumed[i].1.RunRaised?
      ensures forall i, j :: 0 <= i < j < |resumed| ==> resumed[i].0 != resumed[j].0
      ensures !raised && !old(recoveryAttempted) ==>
                forall id :: id in old(runner.execution.restored) ==>
                               (id !in runner.execution.restored <==> MayResume(old(runner.execution.restored)[id], ri(id)))
      ensures runner.execution.restored.Keys <= old(runner.execution.restored).Keys
      ensures !old(recoveryAttempted) ==> ReportedInFull(old(runner.execution.restored), old(runner.execution.cells), resumed, raised, ri)
    {
      hide P.Service.Valid, AllBacked, Unique, AllSteady, Identities, ResumedWithin, MayResume, Recoverable, Rebound,
           ReportsSoFar, ReportedInFull, ResumeReport;
      resumed, raised := [], false;
      if recoveryAttempted {
        return;
      }
      recoveryAttempted := true;
      ghost var first := runner.execution.restored;
      var waiting := runner.execution.restored.Keys;
      ghost var base := runner.execution.cells;
      PassStarts(first, ri);
      RestoredHaveCells();
      ReportsStart(first, base, ri);
      while waiting != {}
        invariant recoveryAttempted && Ready()
        invariant old(Settled()) ==> Settled() && (Unique(runner.execution.cells) <==> old(Unique(runner.execution.cells)))
        invariant PassSoFar(first, runner.execution.restored, waiting, resumed, ri)
        invariant ReportsSoFar(first, base, runner.execution.cells, waiting, resumed, ri)
        decreases |waiting|
      {
        var id :| id in waiting;
        ghost var restored := runner.execution.restored;
        WaitingIsRestored(first, restored, waiting, resumed, ri, id);
        ghost var before := runner.execution.cells;
        var outcome := ResumeOne(id, ri(id));
        if outcome.Some? && !outcome.value.RunRaised? {
          ResumedMeans(id, outcome.value, first, ri);
        }
        ReportsGoOn(first, base, before, runner.execution.cells, waiting, resumed, ri, id, outcome);
        PassGoesOn(first, restored, waiting, resumed, ri, id, outcome);
        waiting := waiting - {id};
        if outcome.Some? {
          if outcome.value.RunRaised? {
            if !outcome.value.foreseen {
              raised := true;
              return;
            }
          } else {
            resumed := resumed + [(id, outcome.value)];
          }
        }
      }
      ReportsEnd(first, base, runner.execution.cells, resumed, ri);
    }

    lemma RestoredHaveCells()
      requires Ready()
      ensures runner.execution.restored.Keys <= runner.execution.cells.Keys
    {
      forall id | id in runner.execution.restored ensures id in runner.execution.cells {
        RestoredHasACell(id);
      }
    }

    lemma RestoredHasACell(id: string)
      requires Ready() && id in runner.execution.restored
      ensures id in runner.execution.cells
    {
      RestoredAt(runner.execution.Remembered(), runner.execution.store.saved, runner.execution.cells, id);
    }

    lemma RestoredIsNotLive(id: string)
      requires Ready() && id in runner.execution.restored
      ensures id !in runner.execution.executions
    {
      runner.execution.HistoryIsKept(id);
    }

    /** Rebind one restored mission to its exact recorded plan and run what its allowance has left. */
    method ResumeOne(id: string, ri: RecoveryInputs) returns (outcome: Option<RunReport>)
      requires Ready() && id in runner.execution.restored
      requires forall i: nat :: ri.inputs(i).missionResolver == runner.execution.missionResolver
      modifies runner.execution, runner.execution.store
      ensures Ready()
      ensures old(Settled()) ==> Settled() && (Unique(runner.execution.cells) <==> old(Unique(runner.execution.cells)))
      ensures outcome.Some? <==> MayResume(old(runner.execution.restored)[id], ri)
      ensures runner.execution.restored == if outcome.Some? then old(runner.execution.restored) - {id} else old(runner.execution.restored)
      ensures outcome.Some? ==>
                var sn := old(runner.execution.restored)[id];
                && Recoverable(sn, ri) && !ri.cancelled && ri.rebuilt.Some? && sn.missionDigest == Some(ri.rebuilt.value.content)
                && (outcome.value.Ran? ==> WithinRun(outcome.value.ledger, Remaining(sn.allowance.value)))
      ensures id in old(runner.execution.cells)
      ensures outcome.None? ==> runner.execution.cells == old(runner.execution.cells)
      ensures outcome.Some? ==>
                && ResumedCell(old(runner.execution.cells[id]), old(runner.execution.restored)[id], ri).live.Some?
                && outcome == Some(ResumeReport(old(runner.execution.cells[id]), old(runner.execution.restored)[id], ri))
                && OthersOnlySaved(old(runner.execution.cells), runner.execution.cells, id)
    {
      hide P.Service.Valid, AllBacked, Unique, AllSteady, Identities, AfterRebind, RequestsKept, Rebound, RunFrom, AdvancedAll, ReboundCell,
           OthersOnlySaved;
      var execution := runner.execution;
      var sn := execution.restored[id];
      RestoredIsNotLive(id);
      RestoredHasACell(id);
      if ri.cancelled || !Recoverable(sn, ri) || ri.rebuilt.None? || sn.missionDigest != Some(ri.rebuilt.value.content) {
        return None;
      }
      ghost var before := execution.cells;
      var state := execution.RebindRestored(ri.rebuilt.value, sn.runId.value, id, ri.ctx, ri.lands);
      if state.None? {
        return None;
      }
      RebindingKeeps(before, id, ri.rebuilt.value, sn.runId.value, ri.ctx, ri.lands);
      KeptStaysBacked(before, execution.cells, execution.authorizer.store.saved);
      if AllSteady(before) {
        KeptStaysSteady(before, execution.cells);
      }
      ghost var rebound := execution.cells;
      ReboundOnlySavesOthers(before, id, ri.rebuilt.value, sn.runId.value, ri.ctx, ri.lands);
      var report := RunWithin(id, Remaining(sn.allowance.value), ri.rounds, ri.inputs);
      AdvancesOnlySaveOthers(rebound, id, ri.inputs,
                             RunFrom(rebound[id], Remaining(sn.allowance.value), ri.rounds, ri.inputs, 0, NothingAsked).advances);
      OthersStayUntouched(before, rebound, execution.cells, id);
      outcome := Some(report);
    }
  }

  lemma ReboundOnlySavesOthers(cells: map<string, Cell>, id: string, plan: Plan, runId: string, ctx: RebindContext, lands: bool)
    requires id in cells
    ensures var after := AfterRebind(cells, id, plan, runId, ctx, lands);
            OthersOnlySaved(cells, after, id) && after[id] == ReboundCell(cells[id], plan, runId, ctx, lands)
  {
    hide ReboundCell, RebindSaves, Current;
  }

  /** A resumed mission was restored, recoverable and rebuilt exactly, and ran within what was left. */
  predicate ResumedWithin(r: (string, RunReport), restored: map<string, Snapshot>, ri: string -> RecoveryInputs) {
    && r.0 in restored && Recoverable(restored[r.0], ri(r.0)) && ri(r.0).rebuilt.Some?
    && restored[r.0].missionDigest == Some(ri(r.0).rebuilt.value.content)
    && (r.1.Ran? ==> WithinRun(r.1.ledger, Remaining(restored[r.0].allowance.value)))
  }

  /** How far a recovery pass has come: what is done was resumed or refused, what waits is untouched. */
  ghost predicate PassSoFar(first: map<string, Snapshot>, now: map<string, Snapshot>, waiting: set<string>, resumed: seq<(string, RunReport)>,
                            ri: string -> RecoveryInputs) {
    && waiting <= now.Keys <= first.Keys
    && (forall id :: id in now ==> now[id] == first[id])
    && (forall id :: id in first && id !in waiting ==> (id !in now <==> MayResume(first[id], ri(id))))
    && (forall i :: 0 <= i < |resumed| ==> resumed[i].0 !in waiting && ResumedWithin(resumed[i], first, ri) && !resumed[i].1.RunRaised?)
    && forall i, j :: 0 <= i < j < |resumed| ==> resumed[i].0 != resumed[j].0
  }

  /** The run of one mission, as taking it up from here makes it. */
  predicate RunsAs(base: map<string, Cell>, first: map<string, Snapshot>, ri: string -> RecoveryInputs, r: (string, RunReport)) {
    r.0 in first && r.0 in base && r.1 == ResumeReport(base[r.0], first[r.0], ri(r.0))
  }

  /** What the pass reports so far is what each mission, taken up on its own, comes to: one whose run
      raised is not reported, and every other one that was taken up is. Those waiting are as they were,
      but for what saves wrote of them. */
  ghost predicate ReportsSoFar(first: map<string, Snapshot>, base: map<string, Cell>, cells: map<string, Cell>, waiting: set<string>,
                               resumed: seq<(string, RunReport)>, ri: string -> RecoveryInputs) {
    && waiting <= first.Keys <= base.Keys && cells.Keys == base.Keys
    && (forall id :: id in waiting ==> OnlySaved(base[id], cells[id]))
    && (forall i :: 0 <= i < |resumed| ==> RunsAs(base, first, ri, resumed[i]))
    && forall id :: id in first && id !in waiting && MayResume(first[id], ri(id)) ==> ReportedOrRaised(base, first, resumed, ri, id)
  }

  ghost predicate ReportedOrRaised(base: map<string, Cell>, first: map<string, Snapshot>, resumed: seq<(string, RunReport)>,
                                   ri: string -> RecoveryInputs, id: string)
    requires id in first && id in base
  {
    var report := ResumeReport(base[id], first[id], ri(id));
    if report.RunRaised? then report.foreseen else (id, report) in resumed
  }

  /** The whole pass: each report is that mission's own run; the pass raised if and only if the run of one
      that may be resumed raises what nobody foresaw; otherwise every mission that may be resumed and whose
      run does not raise is reported. */
  ghost predicate ReportedInFull(first: map<string, Snapshot>, base: map<string, Cell>, resumed: seq<(string, RunReport)>, raised: bool,
                                 ri: string -> RecoveryInputs) {
    && first.Keys <= base.Keys
    && (forall i :: 0 <= i < |resumed| ==> RunsAs(base, first, ri, resumed[i]))
    && (raised <==> exists id :: id in first && MayResume(first[id], ri(id)) && ResumeReport(base[id], first[id], ri(id)) == RunRaised(false))
    && (!raised ==> forall id :: id in first && MayResume(first[id], ri(id)) ==> ReportedOrRaised(base, first, resumed, ri, id))
  }

  lemma ReportsStart(first: map<string, Snapshot>, base: map<string, Cell>, ri: string -> RecoveryInputs)
    requires first.Keys <= base.Keys
    ensures ReportsSoFar(first, base, base, first.Keys, [], ri)
  {
  }

  lemma ReportsGoOn(first: map<string, Snapshot>, base: map<string, Cell>, cells: map<string, Cell>, after: map<string, Cell>, waiting: set<string>,
                    resumed: seq<(string, RunReport)>, ri: string -> RecoveryInputs, id: string, outcome: Option<RunReport>)
    requires ReportsSoFar(first, base, cells, waiting, resumed, ri) && id in waiting
    requires outcome.Some? <==> MayResume(first[id], ri(id))
    requires outcome.None? ==> after == cells
    requires outcome.Some? ==> OthersOnlySaved(cells, after, id) && outcome == Some(ResumeReport(cells[id], first[id], ri(id)))
    ensures outcome.Some? ==> outcome == Some(ResumeReport(base[id], first[id], ri(id)))
    ensures var more := if outcome.Some? && !outcome.value.RunRaised? then resumed + [(id, outcome.value)] else resumed;
            if outcome == Some(RunRaised(false)) then ReportedInFull(first, base, resumed, true, ri)
            else ReportsSoFar(first, base, after, waiting - {id}, more, ri)
  {
    hide MayResume, ResumeReport;
    ResumeIgnoresTheStore(base[id], cells[id], first[id], ri(id));
    var more := if outcome.Some? && !outcome.value.RunRaised? then resumed + [(id, outcome.value)] else resumed;
    forall other | other in first && other !in waiting && MayResume(first[other], ri(other))
      ensures ReportedOrRaised(base, first, more, ri, other)
    {
      assert ReportedOrRaised(base, first, resumed, ri, other);
    }
    if outcome.Some? && !outcome.value.RunRaised? {
      assert more[|resumed|] == (id, outcome.value);
    }
    if outcome == Some(RunRaised(false)) {
      ReportsEndAt(first, base, resumed, ri, id);
    }
  }

  lemma ReportsEndAt(first: map<string, Snapshot>, base: map<string, Cell>, resumed: seq<(string, RunReport)>,
                     ri: string -> RecoveryInputs, id: string)
    requires first.Keys <= base.Keys && forall i :: 0 <= i < |resumed| ==> RunsAs(base, first, ri, resumed[i])
    requires id in first && MayResume(first[id], ri(id)) && ResumeReport(base[id], first[id], ri(id)) == RunRaised(false)
    ensures ReportedInFull(first, base, resumed, true, ri)
  {
    hide MayResume, ResumeReport, RunsAs;
  }

  lemma ReportsEnd(first: map<string, Snapshot>, base: map<string, Cell>, cells: map<string, Cell>, resumed: seq<(string, RunReport)>,
                   ri: string -> RecoveryInputs)
    requires ReportsSoFar(first, base, cells, {}, resumed, ri)
    ensures ReportedInFull(first, base, resumed, false, ri)
  {
    hide MayResume, ResumeReport, RunsAs;
    forall id | id in first && MayResume(first[id], ri(id)) ensures ResumeReport(base[id], first[id], ri(id)) != RunRaised(false) {
      assert ReportedOrRaised(base, first, resumed, ri, id);
    }
  }

  lemma PassStarts(first: map<string, Snapshot>, ri: string -> RecoveryInputs)
    ensures PassSoFar(first, first, first.Keys, [], ri)
  {
  }

  lemma WaitingIsRestored(first: map<string, Snapshot>, now: map<string, Snapshot>, waiting: set<string>, resumed: seq<(string, RunReport)>,
                          ri: string -> RecoveryInputs, id: string)
    requires PassSoFar(first, now, waiting, resumed, ri) && id in waiting
    ensures id in now && id in first && now[id] == first[id]
  {
  }

  lemma PassGoesOn(first: map<string, Snapshot>, now: map<string, Snapshot>, waiting: set<string>, resumed: seq<(string, RunReport)>,
                   ri: string -> RecoveryInputs, id: string, outcome: Option<RunReport>)
    requires PassSoFar(first, now, waiting, resumed, ri) && id in waiting && id in first
    requires outcome.Some? <==> MayResume(first[id], ri(id))
    requires outcome.Some? && !outcome.value.RunRaised? ==> ResumedWithin((id, outcome.value), first, ri)
    ensures PassSoFar(first, if outcome.Some? then now - {id} else now, waiting - {id},
                      if outcome.Some? && !outcome.value.RunRaised? then resumed + [(id, outcome.value)] else resumed, ri)
  {
    hide MayResume, ResumedWithin;
  }

  lemma ResumedMeans(id: string, report: RunReport, restored: map<string, Snapshot>, ri: string -> RecoveryInputs)
    requires id in restored && Recoverable(restored[id], ri(id)) && ri(id).rebuilt.Some?
    requires restored[id].missionDigest == Some(ri(id).rebuilt.value.content)
    requires report.Ran? ==> WithinRun(report.ledger, Remaining(restored[id].allowance.value))
    ensures ResumedWithin((id, report), restored, ri)
  {
  }

  /** With nothing live, an execution carries only what its restored record carries. */
  lemma RestoredCarriesWhatIsStored(m: Memory, saved: map<string, Snapshot>, cells: map<string, Cell>, id: string)
    requires Linked(m, saved, cells) && m.executions == map[] && id in cells
    requires forall x :: x in saved ==> x in m.restored && m.restored[x] == Restored(saved[x])
    ensures forall x :: x in Carried(cells[id]) ==> id in m.restored && m.restored[id].requestId == Some(x)
  {
    assert Agrees(cells[id], m, saved, id);
  }

  lemma RestoredAreKnown(m: Memory, saved: map<string, Snapshot>, cells: map<string, Cell>, known: set<string>)
    requires Linked(m, saved, cells) && m.executions == map[] && AllSteady(cells)
    requires forall x :: x in saved ==> x in m.restored && m.restored[x] == Restored(saved[x])
    requires forall id :: id in m.restored && m.restored[id].requestId.Some? ==> m.restored[id].requestId.value in known
    ensures Identities(cells) <= TrimmedForms(known)
  {
    hide Linked, Carried, Restored, AllSteady;
    forall x | x in Identities(cells) ensures x in TrimmedForms(known) {
      var id :| id in cells && x in Carried(cells[id]);
      RestoredCarriesWhatIsStored(m, saved, cells, id);
      ReadBackIsTrimmed(cells, x);
    }
  }
}
