/** The other requests the execution service serves, each on one execution's cell when nothing
    interleaves: starting, cancelling, ruling, recovering and rebinding. */
module SequentialDecisions {
  import opened Options
  import opened Allowances
  import opened Plans
  import opened ExecutionStates
  import opened Snapshots
  import opened AttemptProtocol
  import opened Histories
  import opened ProtocolSafety
  import opened DurableHistory
  import opened ProtocolTheorems
  import opened SequentialAdvance

  const CANCELLED_BY_USER := "Cancelled by explicit user request."

  function CancelledCell(c: Cell, lands: bool): Cell {
    var n := DoCancel(c, CANCELLED_BY_USER);
    if n.None? then c else Saved(n.value, lands)
  }

  /** A ruling or recovery: committed, saved, and taken back unless the save landed. */
  function DecidedCell(c: Cell, decided: Option<Cell>, lands: bool): Cell {
    if decided.None? || decided.value.live.None? || c.live.None? then c
    else
      var saved := Saved(decided.value, lands);
      if lands then saved else Commit(saved, decided.value.live.value.state, c.live.value.state)
  }

  function ResolvedCell(c: Cell, k: nat, ruling: Resolution, moment: int, lands: bool): Cell {
    DecidedCell(c, DoResolve(c, k, ruling, moment), lands)
  }

  function RecoveredCell(c: Cell, k: nat, recovery: Recovery, lands: bool): Cell {
    DecidedCell(c, DoRecover(c, k, recovery), lands)
  }

  /** A rebind saves only when it completed a step from its own record. */
  function RebindSaves(c: Cell, plan: Plan, runId: string, ctx: RebindContext): bool {
    c.restored.Some? && DoRebind(c, plan, runId, ctx).Some?
    && DoRebind(c, plan, runId, ctx).value.live.value.state != ReboundState(c.restored.value)
  }

  function ReboundCell(c: Cell, plan: Plan, runId: string, ctx: RebindContext, lands: bool): Cell {
    var n := DoRebind(c, plan, runId, ctx);
    if n.None? then c else if RebindSaves(c, plan, runId, ctx) then Saved(n.value, lands) else n.value
  }

  /** What `Start` records, with the budget and disclosure of the spent approval, if one was asked for. */
  function BegunCell(plan: Plan, budget: Option<Budget>, runId: Option<string>, disclosure: Disclosure, requestId: Option<string>): Cell {
    var c := Fresh(plan.content);
    c.(started := true, approved := budget,
       live := Some(StartedLive(c, Start(plan.planId, budget, runId, disclosure, requestId))),
       allowance := if budget.Some? then Some(Allowance(budget.value, NothingSpent)) else None)
  }

  /** A mission must be recoverable before it begins: its first save lands, or its entry is taken back. */
  function StartedCell(begun: Cell, firstLands: bool, lands: bool): Cell
    requires begun.live.Some?
  {
    if begun.origin.mission.None? then Saved(begun, lands)
    else if firstLands then Saved(Saved(begun, true), lands)
    else begun.(live := None, allowance := None)
  }

  // -- each keeps every promise of the protocol --------------------------------------

  lemma DecisionIsSound(c: Cell, n: Cell)
    requires Sound(c) && Inv(n) && Resting(n) && n.started == c.started
    requires n.saves == c.saves && n.stored == c.stored && n.withdrawn == c.withdrawn
    requires Follows(Current(c), Current(n)) && Keyed(Current(n))
    ensures Sound(n)
  {
    DecisionKeepsChain(c, n);
  }

  lemma CancellingIsSound(c: Cell, lands: bool)
    requires Sound(c)
    ensures Sound(CancelledCell(c, lands))
  {
    if DoCancel(c, CANCELLED_BY_USER).Some? {
      CancelKeepsInv(c, CANCELLED_BY_USER);
      CancelledFollows(c, CANCELLED_BY_USER);
      DecisionIsSound(c, DoCancel(c, CANCELLED_BY_USER).value);
      SavedIsSound(DoCancel(c, CANCELLED_BY_USER).value, lands);
    }
  }

  /** Taking a decision back after a failed save is the protocol's own withdrawal of it. */
  lemma TakenBackIsSound(c: Cell, decided: Cell)
    requires Sound(c) && Sound(decided) && c.live.Some? && decided.live.Some?
    requires (c.live.value.state, decided.live.value.state) in decided.rulings
    ensures Sound(Commit(decided, decided.live.value.state, c.live.value.state))
  {
    var before, after := c.live.value.state, decided.live.value.state;
    WithdrawRulingKeepsInv(decided, before, after);
    WithdrawRulingFollows(decided, before, after);
    DecisionIsSound(decided, Commit(decided, after, before));
  }

  lemma DecidingIsSound(c: Cell, decided: Cell, lands: bool)
    requires Sound(c) && Sound(decided) && c.live.Some? && decided.live.Some?
    requires (c.live.value.state, decided.live.value.state) in decided.rulings
    ensures Sound(DecidedCell(c, Some(decided), lands))
  {
    if lands {
      SavedIsSound(decided, true);
    } else {
      assert Saved(decided, false) == decided;
      TakenBackIsSound(c, decided);
    }
  }

  lemma ResolvingIsSound(c: Cell, k: nat, ruling: Resolution, moment: int, lands: bool)
    requires Sound(c)
    ensures Sound(ResolvedCell(c, k, ruling, moment, lands))
  {
    var n := DoResolve(c, k, ruling, moment);
    if n.Some? {
      ResolveKeepsInv(c, k, ruling, moment);
      ResolveFollows(c, k, ruling, moment);
      DecisionIsSound(c, n.value);
      DecidingIsSound(c, n.value, lands);
    }
  }

  lemma RecoveringIsSound(c: Cell, k: nat, recovery: Recovery, lands: bool)
    requires Sound(c)
    ensures Sound(RecoveredCell(c, k, recovery, lands))
  {
    var n := DoRecover(c, k, recovery);
    if n.Some? {
      RecoverKeepsInv(c, k, recovery);
      RecoverFollows(c, k, recovery);
      DecisionIsSound(c, n.value);
      DecidingIsSound(c, n.value, lands);
    }
  }

  lemma RebindRests(c: Cell, plan: Plan, runId: string, ctx: RebindContext)
    requires Resting(c) && DoRebind(c, plan, runId, ctx).Some?
    ensures var n := DoRebind(c, plan, runId, ctx).value;
            Resting(n) && n.started == c.started && n.saves == c.saves && n.stored == c.stored && n.withdrawn == c.withdrawn
            && n.live.Some? && Next(c, Rebind(plan, runId, ctx)) == Some(n) && n.approved == c.approved
  {
    hide Rebound, ReboundState, InterruptedStep;
  }

  lemma RebindingIsSound(c: Cell, plan: Plan, runId: string, ctx: RebindContext, lands: bool)
    requires Sound(c)
    ensures Sound(ReboundCell(c, plan, runId, ctx, lands))
  {
    if DoRebind(c, plan, runId, ctx).Some? {
      var n := DoRebind(c, plan, runId, ctx).value;
      RebindRests(c, plan, runId, ctx);
      StepIsSound(c, Rebind(plan, runId, ctx));
      SavedIsSound(n, lands);
    }
  }

  lemma BeginningIsAStep(plan: Plan, budget: Option<Budget>, runId: Option<string>, disclosure: Disclosure, requestId: Option<string>)
    ensures Next(Fresh(plan.content), Start(plan.planId, budget, runId, disclosure, requestId))
         == Some(BegunCell(plan, budget, runId, disclosure, requestId))
  {
  }

  lemma BeginningIsSound(plan: Plan, budget: Option<Budget>, runId: Option<string>, disclosure: Disclosure, requestId: Option<string>)
    requires ValidContent(plan.content)
    ensures Sound(BegunCell(plan, budget, runId, disclosure, requestId))
  {
    FreshSatisfiesInv(plan.content);
    BeginningIsAStep(plan, budget, runId, disclosure, requestId);
    StepIsSound(Fresh(plan.content), Start(plan.planId, budget, runId, disclosure, requestId));
  }

  lemma WithdrawnIsAStep(begun: Cell)
    requires begun.origin.mission.Some? && !Held(begun) && !begun.withdrawn
    requires begun.live.Some? && begun.live.value.state == Started(begun.live.value.state.planId, StepIds(begun.origin))
    ensures Next(begun, WithdrawStart) == Some(begun.(live := None, allowance := None))
  {
  }

  lemma StartingIsSound(plan: Plan, budget: Option<Budget>, runId: Option<string>, disclosure: Disclosure, requestId: Option<string>,
                        firstLands: bool, lands: bool)
    requires ValidContent(plan.content)
    ensures Sound(StartedCell(BegunCell(plan, budget, runId, disclosure, requestId), firstLands, lands))
  {
    var begun := BegunCell(plan, budget, runId, disclosure, requestId);
    BeginningIsSound(plan, budget, runId, disclosure, requestId);
    SavedIsSound(begun, lands);
    SavedIsSound(begun, true);
    SavedIsSound(Saved(begun, true), lands);
    if plan.content.mission.Some? {
      WithdrawnIsAStep(begun);
      StepIsSound(begun, WithdrawStart);
    }
  }

  /** What a process may leave behind when it dies: anything in the middle of anything. */
  predicate CrashedSoundly(c: Cell) { Inv(c) && Chain(c) && c.started && !c.withdrawn }

  /** A restart takes up soundly whatever the last process was in the middle of. */
  lemma RestartingIsSound(c: Cell)
    requires CrashedSoundly(c)
    ensures Sound(DoCrash(c))
  {
    CrashKeepsInv(c);
    CrashKeepsChain(c);
  }

  // -- acknowledged means durable -----------------------------------------------------

  /** An accepted ruling is in the store, on the step it names; a refused one leaves the live state,
      the allowance and the store exactly as they were. */
  lemma AcknowledgedRulingIsDurable(c: Cell, k: nat, ruling: Resolution, moment: int, lands: bool)
    ensures var n := ResolvedCell(c, k, ruling, moment, lands);
            if DoResolve(c, k, ruling, moment).Some? && lands then
              && n.stored.Some? && k < |n.stored.value.record.steps|
              && n.stored.value.record.steps[k].resolution == ruling
              && n.stored.value.allowance == c.allowance == n.allowance
              && n.live.Some? && n.stored.value.record == RecordOf(n.live.value.state)
            else n.live == c.live && n.allowance == c.allowance && n.stored == c.stored
  {
  }

  lemma AcknowledgedRecoveryIsDurable(c: Cell, k: nat, recovery: Recovery, lands: bool)
    ensures var n := RecoveredCell(c, k, recovery, lands);
            if DoRecover(c, k, recovery).Some? && lands then
              && n.stored.Some? && k < |n.stored.value.record.steps|
              && n.stored.value.record.steps[k].recovery == Some(recovery)
              && n.stored.value.allowance == c.allowance == n.allowance
              && n.live.Some? && n.stored.value.record == RecordOf(n.live.value.state)
            else n == c || (n.live == c.live && n.allowance == c.allowance && n.stored == c.stored && n.log == c.log)
  {
  }
}
