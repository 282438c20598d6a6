/** Budget and at most once whatever lands: a document that lands late does harm only if a restart takes it
    up. Over every run whose restarts find records that count everything dispatched and call no dispatched
    step pending, both hold, whatever landed in between. */
module Restarts {
  import opened Options
  import opened Allowances
  import opened Plans
  import opened ExecutionStates
  import opened Snapshots
  import opened AttemptProtocol
  import opened Histories
  import opened ProtocolSafety
  import opened AnyRuns
  import opened ProtocolTheorems
  import opened Overlaps

  // -- what does not depend on the history ---------------------------------------------------

  /** An allowance exists exactly where a budget was approved, for that budget and within it. */
  predicate Fitting(a: Option<Allowance>, approved: Option<Budget>) {
    && (a.Some? <==> approved.Some?)
    && (a.Some? ==> a.value.budget == approved.value && Within(a.value))
  }

  predicate FittingRecord(sn: Option<Snapshot>, o: PlanContent, approved: Option<Budget>) {
    sn.Some? ==>
      && |sn.value.capabilities| == |o.steps|
      && (forall j :: 0 <= j < |o.steps| ==> sn.value.capabilities[j] == o.steps[j].capability)
      && Fitting(sn.value.allowance, approved)
  }

  predicate FittingLive(live: Option<Live>, allowance: Option<Allowance>, o: PlanContent, approved: Option<Budget>) {
    live.Some? ==> CapabilitiesAgree(live.value.plan.content, o) && Fitting(allowance, approved)
  }

  /** What an attempt read fits, and still does once the attempt is charged. */
  predicate FittingAttempt(attempt: Attempt, o: PlanContent, approved: Option<Budget>) {
    attempt.InFlight? ==>
      && Fitting(attempt.allowance, approved)
      && (attempt.allowance.Some? ==> Within(Charge(attempt.allowance.value, StepCost(o, attempt.step))))
  }

  predicate FittingSaves(docs: map<nat, Option<Snapshot>>, o: PlanContent, approved: Option<Budget>) {
    forall key :: key in docs ==> FittingRecord(docs[key], o, approved)
  }

  predicate Fits(c: Cell) {
    && FittingLive(c.live, c.allowance, c.origin, c.approved)
    && FittingRecord(c.restored, c.origin, c.approved) && FittingRecord(c.stored, c.origin, c.approved)
    && FittingSaves(c.saves.docs, c.origin, c.approved)
    && FittingAttempt(c.attempt, c.origin, c.approved)
    && (c.attempt.InFlight? ==> c.started)
  }

  lemma StartFits(c: Cell, a: Action)
    requires Fits(c) && OnlyStarted(c) && ValidContent(c.origin) && a.Start? && DoStart(c, a).Some?
    ensures Fits(DoStart(c, a).value)
  {
    DeclaredCapabilities(c.origin);
    hide CapabilitiesAgree;
    var n := DoStart(c, a).value;
    forall key | key in n.saves.docs ensures FittingRecord(n.saves.docs[key], n.origin, n.approved) {
      assert c.saves.docs[key].None?;
    }
  }

  lemma CaptureFits(c: Cell, owner: SaveOwner, key: nat)
    requires Fits(c) && Truthful(c) && DoBeginSave(c, owner, key).Some?
    ensures Fits(DoBeginSave(c, owner, key).value)
  {
    if c.live.Some? {
      CapturedFits(c.live.value, c.allowance, c.origin, c.approved);
    }
    assert FittingRecord(Current(c), c.origin, c.approved);
    hide FittingRecord, FittingLive, Fitting, Current;
  }

  lemma CapturedFits(l: Live, allowance: Option<Allowance>, o: PlanContent, approved: Option<Budget>)
    requires CapabilitiesAgree(l.plan.content, o) && Fitting(allowance, approved) && Shaped(l.state, o)
    ensures FittingRecord(Some(Capture(l, allowance)), o, approved)
  {
    hide Fitting;
  }

  lemma EndFits(c: Cell, key: nat, lands: bool)
    requires Fits(c) && DoEndSave(c, key, lands).Some?
    ensures Fits(DoEndSave(c, key, lands).value)
  {
    hide FittingRecord, FittingLive, Fitting;
  }

  lemma CrashFits(c: Cell)
    requires Fits(c)
    ensures Fits(DoCrash(c))
  {
    hide Fitting;
  }

  lemma RebindFits(c: Cell, plan: Plan, runId: string, ctx: RebindContext)
    requires Fits(c) && Truthful(c) && DoRebind(c, plan, runId, ctx).Some?
    ensures Fits(DoRebind(c, plan, runId, ctx).value)
  {
    MatchingPlanAgrees(c.restored.value, plan.content, c.origin);
    hide CapabilitiesAgree, Fitting, FittingSaves, Reconciled, ReboundState, Truthful, StepsMatch;
  }

  lemma BeginFits(c: Cell, operation: string)
    requires Fits(c) && OnlyStarted(c) && DoBeginAttempt(c, operation).Some?
    ensures Fits(DoBeginAttempt(c, operation).value)
  {
    hide FittingRecord, FittingSaves, CapabilitiesAgree, StartStep, Held;
  }

  /** The steps that charge, give back or count the time. */
  lemma MoneyFits(c: Cell, a: Action)
    requires Fits(c) && Next(c, a).Some? && (a.ChargeAttempt? || a.RefundAttempt? || a.Return?)
    ensures Fits(Next(c, a).value)
  {
    hide FittingRecord, FittingSaves, CapabilitiesAgree, Outcome, StepCost;
  }

  lemma OthersFit(c: Cell, a: Action)
    requires Fits(c) && Next(c, a).Some?
    requires a.CancelExecution? || a.Resolve? || a.Recover? || a.WithdrawRuling? || a.HoldStep? || a.RefuseStep? || a.PauseStep?
             || a.CommitAttempt? || a.UndoAttempt? || a.Dispatch? || a.WithdrawStart?
    ensures Fits(Next(c, a).value)
  {
    hide FittingRecord, FittingSaves, CapabilitiesAgree, Fitting, Held, Cancel, ResolveInterrupted, RecoverBlocked, BlockStep,
         RefuseAdvance, RequireAuthority, StepCost;
  }

  lemma StepFits(c: Cell, a: Action)
    requires Fits(c) && Truthful(c) && OnlyStarted(c) && ValidContent(c.origin) && Next(c, a).Some?
    ensures Fits(Next(c, a).value) && Next(c, a).value.origin == c.origin
  {
    hide Fits, Truthful, OnlyStarted, ValidContent, DoRebind, DoBeginAttempt, DoBeginSave, DoEndSave;
    OriginStays(c, a);
    match a
    case Start(_, _, _, _, _) => StartFits(c, a);
    case BeginAttempt(operation) => BeginFits(c, operation);
    case ChargeAttempt => MoneyFits(c, a);
    case RefundAttempt => MoneyFits(c, a);
    case Return(_, _) => MoneyFits(c, a);
    case BeginSave(owner, key) => CaptureFits(c, owner, key);
    case EndSave(key, lands) => EndFits(c, key, lands);
    case Crash => CrashFits(c);
    case Rebind(plan, runId, ctx) => RebindFits(c, plan, runId, ctx);
    case _ => OthersFit(c, a);
  }

  lemma OriginStays(c: Cell, a: Action)
    requires Next(c, a).Some?
    ensures Next(c, a).value.origin == c.origin
  {
    hide Outcome, StartStep, BlockStep, RefuseAdvance, RequireAuthority, Rebound, ReboundState, Cancel, ResolveInterrupted, RecoverBlocked,
         Advanceable, StartedLive, Held, Permitted, Current, Landed, Ended;
  }

  // -- a restart on a sane record ---------------------------------------------------------------

  /** The store, if it has a record, counts everything dispatched and calls pending only what has no
      dispatch to answer for. */
  predicate Sane(c: Cell) {
    && NothingToRepeat(c.stored, c.log)
    && (c.approved.Some? ==> CountsAll(c.stored, c.approved.value, Used(c.log, c.origin)))
  }

  predicate SaneRestarts(c: Cell, run: seq<Action>)
    decreases |run|
  {
    run == []
    || ((run[0].Crash? ==> Sane(c)) && (Next(c, run[0]).Some? ==> SaneRestarts(Next(c, run[0]).value, run[1..])))
  }

  lemma SaneIsOk(c: Cell)
    requires Truthful(c) && Fits(c) && Sane(c)
    ensures RecordOk(c.stored, c.origin, c.approved, c.log)
  {
    hide WellFormed, Shaped, Proven, Outstanding, Used, TrueAttempt, TrueSaves, FittingAttempt, FittingSaves, Begun, RulingsOk,
         CapabilitiesAgree;
  }

  /** A restart on a sane record begins a process as good as any. */
  lemma SaneRestart(c: Cell)
    requires Inv(AsIfSaved(c)) && RecordOk(c.stored, c.origin, c.approved, c.log) && (c.stored.Some? ==> c.started)
    ensures Inv(AsIfSaved(DoCrash(c)))
  {
    var n := DoCrash(c);
    if c.stored.Some? {
      RestoringKeepsWellFormed(c.stored.value);
      RestoredIsOk(c.stored.value, c.origin, c.approved, c.log);
    }
    assert RecordOk(n.restored, n.origin, n.approved, n.log);
    hide RecordOk, WellFormed, Restored;
    assert AsIfSaved(n).saves.docs == map[];
  }

  lemma RestoredIsOk(sn: Snapshot, o: PlanContent, approved: Option<Budget>, log: seq<Event>)
    requires RecordOk(Some(sn), o, approved, log)
    ensures RecordOk(Some(Restored(sn)), o, approved, log)
  {
    RestoringKeepsWellFormed(sn);
    hide WellFormed, Proven, Outstanding, Paid;
  }

  /** The process has kept its promises so far, and every document is one it may have made. */
  predicate InGoodOrder(c: Cell) { Inv(AsIfSaved(c)) && Truthful(c) && Fits(c) && OnlyStarted(c) && ValidContent(c.origin) }

  lemma StepInGoodOrder(c: Cell, a: Action)
    requires InGoodOrder(c) && Next(c, a).Some? && (a.Crash? ==> Sane(c))
    ensures InGoodOrder(Next(c, a).value)
  {
    hide Inv, Truthful, Fits, ValidContent, Sane, AsIfSaved, DoCrash, Held;
    StepStaysTrue(c, a);
    StepStaysStarted(c, a);
    StepFits(c, a);
    if a.Crash? {
      SaneIsOk(c);
      StoredWasStarted(c);
      SaneRestart(c);
    } else {
      StepKeepsMemory(c, a);
    }
  }

  lemma StoredWasStarted(c: Cell)
    requires OnlyStarted(c)
    ensures c.stored.Some? ==> c.started
  {
  }

  lemma {:induction false} RunInGoodOrder(c: Cell, run: seq<Action>)
    requires InGoodOrder(c) && Exec(c, run).Some? && SaneRestarts(c, run)
    ensures InGoodOrder(Exec(c, run).value)
    decreases |run|
  {
    hide InGoodOrder, Next, Sane;
    if run != [] {
      StepInGoodOrder(c, run[0]);
      RunInGoodOrder(Next(c, run[0]).value, run[1..]);
    }
  }

  lemma FreshInGoodOrder(o: PlanContent)
    requires ValidContent(o)
    ensures InGoodOrder(Fresh(o))
  {
    FreshSatisfiesInv(o);
    AsIfSavedKeepsInv(Fresh(o));
    FreshIsTruthful(o);
  }

  /** Whatever documents land, in whatever order, stale ones included: over every run whose restarts each
      find a sane record, everything ever dispatched stays within the approved budget, memory has counted
      it, and between two dispatches of one step an operator ruled that it was not performed. */
  lemma SafeWhateverLands(o: PlanContent, run: seq<Action>)
    requires ValidContent(o) && Exec(Fresh(o), run).Some? && SaneRestarts(Fresh(o), run)
    ensures var c := Exec(Fresh(o), run).value;
            && AtMostOnce(c.log) && NothingToRepeat(Current(c), c.log)
            && (c.approved.Some? ==>
                  var b, used := c.approved.value, Used(c.log, c.origin);
                  used.steps <= b.steps && used.network <= b.network && used.llm <= b.llm && CountsAll(Current(c), b, used))
  {
    hide InGoodOrder, Exec, SaneRestarts;
    FreshInGoodOrder(o);
    RunInGoodOrder(Fresh(o), run);
    GoodOrderIsSafe(Exec(Fresh(o), run).value);
  }

  lemma GoodOrderIsSafe(c: Cell)
    requires InGoodOrder(c)
    ensures AtMostOnce(c.log) && NothingToRepeat(Current(c), c.log)
    ensures c.approved.Some? ==>
              var b, used := c.approved.value, Used(c.log, c.origin);
              used.steps <= b.steps && used.network <= b.network && used.llm <= b.llm && CountsAll(Current(c), b, used)
  {
    CurrentIsOk(AsIfSaved(c));
    hide Truthful, Fits, OnlyStarted, AttemptOk, SavesOk, LiveOk, RulingsOk, WellFormed, AtMostOnce, Outstanding, Used, Proven;
  }

  /** And it asks for no more than that no stale document lands: then every restart finds a sane record. */
  lemma {:induction false} TimelyRestartsAreSane(c: Cell, run: seq<Action>)
    requires Inv(c) && Exec(c, run).Some? && TimelyRun(c, run)
    ensures SaneRestarts(c, run)
    decreases |run|
  {
    hide Inv, Next, Sane;
    if run != [] {
      InvIsSane(c);
      StepKeepsInv(c, run[0]);
      TimelyRestartsAreSane(Next(c, run[0]).value, run[1..]);
    }
  }

  lemma InvIsSane(c: Cell)
    requires Inv(c)
    ensures Sane(c)
  {
    hide AttemptOk, SavesOk, LiveOk, RulingsOk, WellFormed, AtMostOnce, Outstanding, Used, Proven;
  }

  /** Nor could it ask for less of the step that comes next: a restart whose record is rebound and advanced
      repeats a dispatch no ruling has answered if and only if the next step of that record is such a step. */
  lemma RestartRepeatsIffUnanswered(c: Cell, plan: Plan, runId: string, ctx: RebindContext, back: Cell, operation: string, again: Cell)
    requires AtMostOnce(c.log) && DoRebind(DoCrash(c), plan, runId, ctx) == Some(back)
    requires Exec(back, ToDispatch(operation, 0)) == Some(again)
    ensures back.live.Some? && NextPending(back.live.value.state).Some?
    ensures AtMostOnce(again.log) <==> !Outstanding(c.log, NextPending(back.live.value.state).value)
  {
    DispatchesTheNext(back, operation, 0);
    var k := NextPending(back.live.value.state).value;
    hide Exec, DoRebind, DoCrash, AtMostOnce, Outstanding;
    RestartKeepsAnswers(c, plan, runId, ctx, k);
    if Outstanding(c.log, k) {
      Unanswered(back.log, k);
    } else {
      DispatchKeepsAtMostOnce(back.log, k);
    }
  }
}
