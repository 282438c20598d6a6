/** What every atomic step of the attempt protocol keeps, and what follows over whole runs. */
module ProtocolSafety {
  import opened Options
  import opened Allowances
  import opened Plans
  import opened ExecutionStates
  import opened Snapshots
  import opened AttemptProtocol
  import opened Histories

  // -- the invariant -------------------------------------------------------------

  predicate Shaped(st: ExecutionState, o: PlanContent) {
    && |st.steps| == |o.steps|
    && forall j :: 0 <= j < |o.steps| ==> st.steps[j].id == o.steps[j].id
  }

  /** A pending step has no dispatch to answer for; a completed one was seen to succeed. */
  predicate Honest(st: ExecutionState, log: seq<Event>) {
    forall j :: 0 <= j < |st.steps| ==>
      && (st.steps[j].status.Pending? ==> !Outstanding(log, j))
      && (st.steps[j].status.Completed? ==> Proven(log, j))
  }

  predicate StateOk(st: ExecutionState, o: PlanContent, log: seq<Event>) {
    Shaped(st, o) && WellFormed(st) && Honest(st, log)
  }

  /** An allowance exists exactly where a budget was approved, is for that budget, and already
      counts `used`. */
  predicate Paid(a: Option<Allowance>, approved: Option<Budget>, used: Spend) {
    && (a.Some? <==> approved.Some?)
    && (a.Some? ==> a.value.budget == approved.value && Within(a.value) && Covers(a.value.spend, used))
  }

  predicate CapabilitiesAgree(c: PlanContent, o: PlanContent) {
    forall j :: 0 <= j < |o.steps| ==> CapabilityIn(c.steps, o.steps[j].id) == Some(o.steps[j].capability)
  }

  predicate RecordOk(sn: Option<Snapshot>, o: PlanContent, approved: Option<Budget>, log: seq<Event>) {
    sn.Some? ==>
      && StateOk(sn.value.record, o, log)
      && |sn.value.capabilities| == |o.steps|
      && (forall j :: 0 <= j < |o.steps| ==> sn.value.capabilities[j] == o.steps[j].capability)
      && Paid(sn.value.allowance, approved, Used(log, o))
  }

  /** The record says step `k` was attempted and its attempt is paid for. */
  predicate RecordsAttempt(sn: Option<Snapshot>, k: nat, o: PlanContent, approved: Option<Budget>, log: seq<Event>) {
    && sn.Some? && k < |sn.value.record.steps|
    && !sn.value.record.steps[k].status.Pending?
    && Paid(sn.value.allowance, approved, PlusAttempt(Used(log, o), StepCost(o, k)))
  }

  predicate BeforeDispatch(ph: Phase) { !ph.Performing? }

  predicate HasCharged(ph: Phase) { !ph.Prepared? && !ph.Performing? }

  predicate HasCommitted(ph: Phase) { ph.Committed? || ph.Saving? || ph.Recorded? || ph.Performing? || ph.Undoing? }

  /** `running` is `before` with its pending step `k` begun. */
  predicate Begun(before: ExecutionState, running: ExecutionState, k: nat, o: PlanContent) {
    && k < |o.steps|
    && Shaped(before, o) && WellFormed(before) && before.status.Running?
    && Shaped(running, o) && WellFormed(running) && running.status.Running?
    && OnlyStep(before, running, k)
    && before.steps[k].status.Pending? && running.steps[k].status.Running?
    && running.steps[k].resolution == before.steps[k].resolution && running.steps[k].recovery == before.steps[k].recovery
  }

  predicate AttemptHonest(phase: Phase, k: nat, before: ExecutionState, running: ExecutionState, log: seq<Event>) {
    && Honest(running, log)
    && (BeforeDispatch(phase) ==> Honest(before, log) && !Outstanding(log, k))
    && (phase.Performing? ==> Outstanding(log, k))
  }

  /** After the commit the live state is the attempt's own or a cancellation. */
  predicate AttemptStands(phase: Phase, running: ExecutionState, live: Option<Live>) {
    HasCommitted(phase) ==> live.Some? && (live.value.state == running || live.value.state.status.Cancelled?)
  }

  /** Until the dispatch, the allowance is the one the attempt read, charged once from the charge on. */
  predicate AttemptMoney(phase: Phase, k: nat, read: Option<Allowance>, isLive: bool, allowance: Option<Allowance>,
                         o: PlanContent, approved: Option<Budget>, log: seq<Event>) {
    BeforeDispatch(phase) ==>
      && Paid(read, approved, Used(log, o))
      && (read.Some? ==> Within(Charge(read.value, StepCost(o, k))))
      && (isLive ==> allowance == if HasCharged(phase) then ChargedIfAny(read, StepCost(o, k)) else read)
  }

  /** Every document captured since the commit, and then every one that may still land, says the
      attempt was made and paid; a dispatch is only ever one step away from such a record. */
  predicate AttemptRecord(phase: Phase, k: nat, saves: Saves, stored: Option<Snapshot>,
                          o: PlanContent, approved: Option<Budget>, log: seq<Event>) {
    && (HasCommitted(phase) && BeforeDispatch(phase) ==>
          forall key :: key in saves.docs && key !in saves.older ==> RecordsAttempt(saves.docs[key], k, o, approved, log))
    && (phase.Saving? ==>
          phase.key in saves.docs && phase.key !in saves.older && phase.key !in saves.stale && forall j :: j in saves.older ==> j < phase.key)
    && (phase.Recorded? ==>
          && RecordsAttempt(stored, k, o, approved, log)
          && forall key :: key in saves.docs && key !in saves.stale ==> RecordsAttempt(saves.docs[key], k, o, approved, log))
  }

  /** The marks are on saves that are under way; what is stale has been overtaken. */
  predicate Marked(saves: Saves) {
    saves.older <= saves.docs.Keys && saves.stale <= saves.overtaken <= saves.docs.Keys
  }

  /** Every document that is not stale may land. */
  predicate SavesOk(saves: Saves, o: PlanContent, approved: Option<Budget>, log: seq<Event>) {
    forall key :: key in saves.docs && key !in saves.stale ==> RecordOk(saves.docs[key], o, approved, log)
  }

  predicate AttemptOk(c: Cell) {
    c.attempt.InFlight? ==>
      var InFlight(phase, k, before, running, read) := c.attempt;
      && c.restored.None?
      && Begun(before, running, k, c.origin)
      && AttemptHonest(phase, k, before, running, c.log)
      && AttemptStands(phase, running, c.live)
      && AttemptMoney(phase, k, read, c.live.Some?, c.allowance, c.origin, c.approved, c.log)
      && AttemptRecord(phase, k, c.saves, c.stored, c.origin, c.approved, c.log)
  }

  /** A ruling that may be taken back changed one step, which was interrupted or blocked. */
  predicate Revocable(before: ExecutionState, after: ExecutionState, o: PlanContent) {
    && Shaped(before, o) && WellFormed(before) && Shaped(after, o)
    && !before.status.Terminal() && !after.status.Terminal()
    && RunningStep(after).None?
    && exists k :: 0 <= k < |o.steps| && OnlyStep(before, after, k)
                   && (before.steps[k].status.Interrupted? || before.steps[k].status.Blocked?)
                   && !after.steps[k].status.Completed?
  }

  predicate RulingsOk(rulings: set<(ExecutionState, ExecutionState)>, o: PlanContent) {
    forall r :: r in rulings ==> Revocable(r.0, r.1, o)
  }

  predicate LiveOk(live: Option<Live>, allowance: Option<Allowance>, restored: Option<Snapshot>,
                   o: PlanContent, approved: Option<Budget>, log: seq<Event>) {
    live.Some? ==>
      && StateOk(live.value.state, o, log)
      && CapabilitiesAgree(live.value.plan.content, o)
      && restored.None?
      && Paid(allowance, approved, Used(log, o))
  }

  predicate Untouched(c: Cell) {
    !c.started ==>
      && c.live.None? && c.allowance.None? && c.restored.None? && c.stored.None? && c.attempt.Idle?
      && !Held(c) && c.rulings == {} && c.log == [] && c.approved.None?
  }

  predicate WithinApproval(approved: Option<Budget>, used: Spend) {
    approved.Some? ==>
      used.steps <= approved.value.steps && used.network <= approved.value.network && used.llm <= approved.value.llm
  }

  predicate Inv(c: Cell) {
    && ValidContent(c.origin)
    && Untouched(c)
    && LiveOk(c.live, c.allowance, c.restored, c.origin, c.approved, c.log)
    && RecordOk(c.restored, c.origin, c.approved, c.log)
    && RecordOk(c.stored, c.origin, c.approved, c.log)
    && Marked(c.saves) && SavesOk(c.saves, c.origin, c.approved, c.log)
    && AttemptOk(c)
    && RulingsOk(c.rulings, c.origin)
    && WithinApproval(c.approved, Used(c.log, c.origin))
    && AtMostOnce(c.log)
  }

  lemma FreshSatisfiesInv(o: PlanContent)
    requires ValidContent(o)
    ensures Inv(Fresh(o))
  {
  }

  // -- capturing ---------------------------------------------------------------

  lemma CurrentIsOk(c: Cell)
    requires Inv(c)
    ensures RecordOk(Current(c), c.origin, c.approved, c.log)
  {
    if c.live.Some? {
      CapturingKeepsWellFormed(c.live.value.state);
    }
  }

  lemma ChargedIsPaid(read: Option<Allowance>, cost: Cost, approved: Option<Budget>, used: Spend)
    requires Paid(read, approved, used) && (read.Some? ==> Within(Charge(read.value, cost)))
    ensures Paid(ChargedIfAny(read, cost), approved, PlusAttempt(used, cost))
  {
  }

  /** After the commit the attempted step is pending no more: it runs, or was cancelled with all others. */
  lemma CommittedStepIsTaken(phase: Phase, before: ExecutionState, running: ExecutionState, k: nat, live: Option<Live>, o: PlanContent)
    requires HasCommitted(phase) && AttemptStands(phase, running, live) && Begun(before, running, k, o)
    requires live.Some? ==> Shaped(live.value.state, o) && WellFormed(live.value.state)
    ensures live.Some? && k < |live.value.state.steps| && !live.value.state.steps[k].status.Pending?
  {
  }

  lemma CapturedAttempt(l: Live, allowance: Option<Allowance>, k: nat, o: PlanContent, approved: Option<Budget>, log: seq<Event>)
    requires k < |l.state.steps| && !l.state.steps[k].status.Pending?
    requires Paid(allowance, approved, PlusAttempt(Used(log, o), StepCost(o, k)))
    ensures RecordsAttempt(Some(Capture(l, allowance)), k, o, approved, log)
  {
    hide Paid, Used, StepCost, CapabilityOr;
    assert Capture(l, allowance).record.steps[k] == RecordedStep(l.state.steps[k]);
  }

  /** While an attempt is committed and not yet dispatched, a save records it as made and paid. */
  lemma CurrentRecordsAttempt(c: Cell)
    requires Inv(c) && c.attempt.InFlight? && HasCommitted(c.attempt.phase) && BeforeDispatch(c.attempt.phase)
    ensures RecordsAttempt(Current(c), c.attempt.step, c.origin, c.approved, c.log)
  {
    var InFlight(phase, k, before, running, read) := c.attempt;
    assert AttemptOk(c) && LiveOk(c.live, c.allowance, c.restored, c.origin, c.approved, c.log);
    hide Inv, RecordsAttempt, WellFormed, Shaped, Honest, Paid, Begun, Capture, Used, StepCost, AttemptRecord, AttemptHonest, CapabilitiesAgree, Outstanding;
    CommittedStepIsTaken(phase, before, running, k, c.live, c.origin);
    ChargedIsPaid(read, StepCost(c.origin, k), c.approved, Used(c.log, c.origin));
    CapturedAttempt(c.live.value, c.allowance, k, c.origin, c.approved, c.log);
  }

  // -- one step at a time ------------------------------------------------------

  // Changing one component at a time.

  lemma InvWithState(c: Cell, st: ExecutionState)
    requires Inv(c) && c.live.Some? && StateOk(st, c.origin, c.log)
    requires c.attempt.InFlight? ==> AttemptStands(c.attempt.phase, c.attempt.running, Some(c.live.value.(state := st)))
    ensures Inv(WithState(c, st))
  {
    var n := WithState(c, st);
    assert LiveOk(n.live, n.allowance, n.restored, n.origin, n.approved, n.log);
  }

  lemma InvWithRuling(c: Cell, before: ExecutionState, after: ExecutionState)
    requires Inv(c) && c.started && Revocable(before, after, c.origin)
    ensures Inv(c.(rulings := c.rulings + {(before, after)}))
  {
  }

  lemma InvWhenSettled(c: Cell, allowance: Option<Allowance>)
    requires Inv(c) && c.attempt.InFlight? && !c.attempt.phase.Saving?
    requires c.live.Some? ==> Paid(allowance, c.approved, Used(c.log, c.origin))
    ensures Inv(c.(attempt := Idle, allowance := allowance))
  {
  }

  lemma StartedIsOk(o: PlanContent, planId: string)
    requires ValidContent(o)
    ensures StateOk(Started(planId, StepIds(o)), o, [])
  {
  }

  lemma StartKeepsInv(c: Cell, a: Action)
    requires Inv(c) && a.Start? && DoStart(c, a).Some?
    ensures Inv(DoStart(c, a).value)
  {
    var n := DoStart(c, a).value;
    StartedIsOk(c.origin, a.planId);
    DeclaredCapabilities(c.origin);
    assert LiveOk(n.live, n.allowance, n.restored, n.origin, n.approved, n.log);
    assert n.restored.None? && n.stored.None?;
  }

  lemma DeclaredCapabilities(o: PlanContent)
    requires ValidContent(o)
    ensures CapabilitiesAgree(o, o)
  {
    forall j | 0 <= j < |o.steps| ensures CapabilityIn(o.steps, o.steps[j].id) == Some(o.steps[j].capability) {
      var r := CapabilityIn(o.steps, o.steps[j].id);
      var i :| 0 <= i < |o.steps| && o.steps[i].id == o.steps[j].id && o.steps[i].capability == r.value;
      assert i == j;
    }
  }

  lemma WithdrawStartKeepsInv(c: Cell)
    requires Inv(c) && DoWithdrawStart(c).Some?
    ensures Inv(DoWithdrawStart(c).value)
  {
  }

  lemma CancelKeepsInv(c: Cell, detail: string)
    requires Inv(c) && DoCancel(c, detail).Some?
    ensures Inv(DoCancel(c, detail).value)
  {
    CancelKeepsWellFormed(c.live.value.state, detail);
  }

  /** A committed attempt leaves nothing to rule on: only a cancellation can displace it. */
  lemma NoRulingOverAnAttempt(c: Cell)
    requires Inv(c) && c.live.Some? && (c.live.value.state.status.Interrupted? || c.live.value.state.status.Blocked?)
    ensures c.attempt.InFlight? ==> !HasCommitted(c.attempt.phase)
  {
  }

  /** An event that is no dispatch leaves every held record as good as it was. */
  lemma RecordOutlivesEvent(sn: Option<Snapshot>, o: PlanContent, approved: Option<Budget>, log: seq<Event>, e: Event)
    requires RecordOk(sn, o, approved, log) && !e.Dispatched?
    ensures RecordOk(sn, o, approved, log + [e])
  {
    Appending(log, e, o);
  }

  lemma SavesOutliveEvent(saves: Saves, o: PlanContent, approved: Option<Budget>, log: seq<Event>, e: Event)
    requires SavesOk(saves, o, approved, log) && !e.Dispatched?
    ensures SavesOk(saves, o, approved, log + [e])
  {
    forall key | key in saves.docs && key !in saves.stale ensures RecordOk(saves.docs[key], o, approved, log + [e]) {
      RecordOutlivesEvent(saves.docs[key], o, approved, log, e);
    }
  }

  lemma AttemptOutlivesEvent(c: Cell, e: Event)
    requires Inv(c) && c.attempt.InFlight? && !e.Dispatched? && (c.attempt.phase.Performing? ==> !e.Ruled?)
    ensures AttemptOk(c.(log := c.log + [e]))
  {
    hide StateOk, RecordOk, WellFormed, LiveOk, RulingsOk, AtMostOnce, SavesOk, Marked, Untouched;
    Appending(c.log, e, c.origin);
  }

  lemma HistoryGrows(c: Cell, e: Event)
    requires Inv(c) && !e.Dispatched? && c.started
    requires c.attempt.InFlight? && c.attempt.phase.Performing? ==> !e.Ruled?
    ensures Inv(c.(log := c.log + [e]))
  {
    RecordOutlivesEvent(c.restored, c.origin, c.approved, c.log, e);
    RecordOutlivesEvent(c.stored, c.origin, c.approved, c.log, e);
    SavesOutliveEvent(c.saves, c.origin, c.approved, c.log, e);
    if c.attempt.InFlight? {
      AttemptOutlivesEvent(c, e);
    }
    OtherEventKeepsAtMostOnce(c.log, e);
    Appending(c.log, e, c.origin);
    hide RecordOk, AttemptOk, AtMostOnce, SavesOk, Marked, RulingsOk, WellFormed;
  }

  lemma ResolveKeepsInv(c: Cell, k: nat, ruling: Resolution, moment: int)
    requires Inv(c) && DoResolve(c, k, ruling, moment).Some?
    ensures Inv(DoResolve(c, k, ruling, moment).value)
  {
    var before := c.live.value.state;
    var after := ResolveInterrupted(before, k, ruling, moment).value;
    RulingsKeepWellFormed(before, k, ruling, moment);
    NoRulingOverAnAttempt(c);
    RulingIsOk(before, after, k, ruling, c.origin, c.log);
    var grown := c.(log := c.log + [Ruled(k, ruling)]);
    HistoryGrows(c, Ruled(k, ruling));
    InvWithState(grown, after);
    InvWithRuling(WithState(grown, after), before, after);
    assert DoResolve(c, k, ruling, moment).value == WithState(grown, after).(rulings := c.rulings + {(before, after)});
  }

  lemma RulingIsOk(before: ExecutionState, after: ExecutionState, k: nat, ruling: Resolution, o: PlanContent, log: seq<Event>)
    requires StateOk(before, o, log) && WellFormed(after) && OnlyStep(before, after, k) && RunningStep(after).None?
    requires before.status.Interrupted? && before.steps[k].status.Interrupted? && !after.status.Terminal()
    requires !after.steps[k].status.Completed? && (after.steps[k].status.Pending? ==> ruling.NotPerformed?)
    ensures StateOk(after, o, log + [Ruled(k, ruling)]) && Revocable(before, after, o)
  {
    Appending(log, Ruled(k, ruling), o);
  }

  lemma RecoverKeepsInv(c: Cell, k: nat, recovery: Recovery)
    requires Inv(c) && DoRecover(c, k, recovery).Some?
    ensures Inv(DoRecover(c, k, recovery).value)
  {
    var before := c.live.value.state;
    var after := RecoverBlocked(before, k, recovery).value;
    RecoveriesKeepWellFormed(before, k, recovery);
    NoRulingOverAnAttempt(c);
    RecoveryIsOk(before, after, k, c.origin, c.log);
    InvWithState(c, after);
    InvWithRuling(WithState(c, after), before, after);
    assert DoRecover(c, k, recovery).value == WithState(c, after).(rulings := c.rulings + {(before, after)});
  }

  lemma RecoveryIsOk(before: ExecutionState, after: ExecutionState, k: nat, o: PlanContent, log: seq<Event>)
    requires StateOk(before, o, log) && WellFormed(after) && OnlyStep(before, after, k) && RunningStep(after).None?
    requires before.status.Blocked? && before.steps[k].status.Blocked? && !after.status.Terminal()
    requires after.steps[k].status.Cancelled? || after.steps[k].status.Blocked?
    ensures StateOk(after, o, log) && Revocable(before, after, o)
  {
  }

  /** Taking a ruling back restores a state that is as honest as the one it replaces. */
  lemma RevokedIsOk(before: ExecutionState, after: ExecutionState, o: PlanContent, log: seq<Event>)
    requires Revocable(before, after, o) && StateOk(after, o, log)
    ensures StateOk(before, o, log)
  {
  }

  lemma WithdrawRulingKeepsInv(c: Cell, before: ExecutionState, after: ExecutionState)
    requires Inv(c) && (before, after) in c.rulings
    ensures Inv(DoWithdrawRuling(c, before, after).value)
  {
    assert Revocable((before, after).0, (before, after).1, c.origin);
    if c.live.Some? && c.live.value.state == after {
      RevokedIsOk(before, after, c.origin, c.log);
      OnlyAttemptsRun(c);
      InvWithState(c, before);
    }
  }

  /** With no step running and the execution open, no attempt has committed. */
  lemma OnlyAttemptsRun(c: Cell)
    requires Inv(c) && c.live.Some? && RunningStep(c.live.value.state).None? && !c.live.value.state.status.Terminal()
    ensures c.attempt.InFlight? ==> !HasCommitted(c.attempt.phase)
  {
  }

  lemma ReplacingKeepsInv(c: Cell, a: Action)
    requires Inv(c) && (a.HoldStep? || a.RefuseStep? || a.PauseStep?) && DoSetAside(c, a).Some?
    ensures Inv(DoSetAside(c, a).value)
  {
    var k := Advanceable(c).value;
    var st := c.live.value.state;
    if a.HoldStep? {
      BlockingKeepsWellFormed(st, k, a.detail);
      HeldIsOk(st, BlockStep(st, k, a.detail).value, k, c.origin, c.log);
      InvWithState(c, BlockStep(st, k, a.detail).value);
    } else if a.RefuseStep? {
      InvWithState(c, RefuseAdvance(st, k, a.detail).value);
    } else {
      InvWithState(c, RequireAuthority(st, k, a.digest, a.authorityRun, a.detail).value);
    }
  }

  lemma HeldIsOk(before: ExecutionState, after: ExecutionState, k: nat, o: PlanContent, log: seq<Event>)
    requires StateOk(before, o, log) && WellFormed(after) && OnlyStep(before, after, k) && after.steps[k].status.Blocked?
    ensures StateOk(after, o, log)
  {
  }

  lemma BeginAttemptKeepsInv(c: Cell, operation: string)
    requires Inv(c) && DoBeginAttempt(c, operation).Some?
    ensures Inv(DoBeginAttempt(c, operation).value)
  {
    var k := Advanceable(c).value;
    StartingKeepsWellFormed(c.live.value.state, k, operation);
    var n := DoBeginAttempt(c, operation).value;
    assert Shaped(n.attempt.running, c.origin);
  }

  lemma ChargeAttemptKeepsInv(c: Cell)
    requires Inv(c) && DoChargeAttempt(c).Some?
    ensures Inv(DoChargeAttempt(c).value)
  {
  }

  lemma CommitAttemptKeepsInv(c: Cell)
    requires Inv(c) && DoCommitAttempt(c).Some?
    ensures Inv(DoCommitAttempt(c).value)
  {
    hide WellFormed, Honest, Revocable, RecordOk, CapabilitiesAgree, Outstanding, Used;
  }

  lemma UndoAttemptKeepsInv(c: Cell)
    requires Inv(c) && DoUndoAttempt(c).Some?
    ensures Inv(DoUndoAttempt(c).value)
  {
    hide WellFormed, Honest, Revocable, RecordOk, CapabilitiesAgree, Outstanding, Used;
  }

  lemma RefundAttemptKeepsInv(c: Cell)
    requires Inv(c) && DoRefundAttempt(c).Some?
    ensures Inv(DoRefundAttempt(c).value)
  {
  }

  lemma BeginSaveKeepsInv(c: Cell, owner: SaveOwner, key: nat)
    requires Inv(c) && DoBeginSave(c, owner, key).Some?
    ensures Inv(DoBeginSave(c, owner, key).value)
  {
    hide StateOk, Shaped, RecordOk, RecordsAttempt, LiveOk, RulingsOk, Begun, AtMostOnce, WithinApproval, ValidContent, Used, Honest,
         Paid, Outstanding;
    CurrentIsOk(c);
    if c.attempt.InFlight? && HasCommitted(c.attempt.phase) && BeforeDispatch(c.attempt.phase) {
      CurrentRecordsAttempt(c);
    }
  }

  lemma EndSaveKeepsInv(c: Cell, key: nat, lands: bool)
    requires Inv(c) && DoEndSave(c, key, lands).Some? && (lands ==> key !in c.saves.stale)
    ensures Inv(DoEndSave(c, key, lands).value)
  {
    hide StateOk, Shaped, RecordOk, RecordsAttempt, LiveOk, RulingsOk, Begun, AtMostOnce, WithinApproval, ValidContent, Used, Honest,
         Paid, Outstanding;
  }

  /** A state that is not pending at `k` stays honest when `k` is dispatched. */
  lemma DispatchedStateStaysOk(st: ExecutionState, k: nat, o: PlanContent, log: seq<Event>)
    requires StateOk(st, o, log) && k < |st.steps| && !st.steps[k].status.Pending?
    ensures StateOk(st, o, log + [Dispatched(k)])
  {
    Appending(log, Dispatched(k), o);
  }

  lemma DispatchedRecordStaysOk(sn: Option<Snapshot>, k: nat, o: PlanContent, approved: Option<Budget>, log: seq<Event>)
    requires RecordOk(sn, o, approved, log) && RecordsAttempt(sn, k, o, approved, log)
    ensures RecordOk(sn, o, approved, log + [Dispatched(k)])
  {
    DispatchedStateStaysOk(sn.value.record, k, o, log);
    Appending(log, Dispatched(k), o);
  }

  lemma DispatchedLiveStaysOk(c: Cell)
    requires Inv(c) && c.attempt.InFlight? && c.attempt.phase.Recorded?
    ensures LiveOk(c.live, c.allowance, c.restored, c.origin, c.approved, c.log + [Dispatched(c.attempt.step)])
    ensures WithinApproval(c.approved, Used(c.log + [Dispatched(c.attempt.step)], c.origin))
  {
    hide RecordsAttempt, RecordOk, SavesOk, RulingsOk, AtMostOnce, CapabilitiesAgree, Marked, Untouched, Honest;
    DispatchedStateStaysOk(c.live.value.state, c.attempt.step, c.origin, c.log);
    Appending(c.log, Dispatched(c.attempt.step), c.origin);
  }

  lemma DispatchKeepsInv(c: Cell)
    requires Inv(c) && DoDispatch(c).Some?
    ensures Inv(DoDispatch(c).value)
  {
    var k := c.attempt.step;
    var log := c.log + [Dispatched(k)];
    DispatchKeepsAtMostOnce(c.log, k);
    DispatchedRecordStaysOk(c.stored, k, c.origin, c.approved, c.log);
    forall key | key in c.saves.docs && key !in c.saves.stale
      ensures RecordOk(c.saves.docs[key], c.origin, c.approved, log)
    {
      DispatchedRecordStaysOk(c.saves.docs[key], k, c.origin, c.approved, c.log);
    }
    DispatchedLiveStaysOk(c);
    DispatchedStateStaysOk(c.attempt.running, k, c.origin, c.log);
    Appending(c.log, Dispatched(k), c.origin);
    assert AttemptHonest(Performing, k, c.attempt.before, c.attempt.running, log);
    assert c.restored.None?;
  }

  lemma OutcomeIsOk(running: ExecutionState, k: nat, result: OperationResult, o: PlanContent, log: seq<Event>)
    requires Shaped(running, o) && WellFormed(running) && Honest(running, log) && k < |running.steps|
    requires Outcome(running, k, result).Some?
    ensures StateOk(Outcome(running, k, result).value, o, log + [Returned(k, result)])
  {
    Appending(log, Returned(k, result), o);
    var op := running.steps[k].operation;
    if result.PerformedNothing? {
      BlockingKeepsWellFormed(running, k, result.detail);
    } else if result.PerformedSucceeded? {
      CompletingKeepsWellFormed(running, k, result.detail, op);
    } else if result.PerformedFailed? {
      FailingKeepsWellFormed(running, k, result.detail, true, op);
    } else {
      FailingKeepsWellFormed(running, k, result.detail, false, "");
    }
  }

  lemma CommitKeepsInv(c: Cell, expected: ExecutionState, st: ExecutionState)
    requires Inv(c) && c.attempt.Idle? && StateOk(st, c.origin, c.log)
    ensures Inv(Commit(c, expected, st))
  {
    if c.live.Some? && c.live.value.state == expected {
      InvWithState(c, st);
    }
  }

  /** The cell once the advance is over, its outcome not yet committed. */
  function WhenOver(c: Cell, result: OperationResult, elapsed: real): Cell
    requires c.attempt.InFlight?
  {
    c.(attempt := Idle, log := c.log + [Returned(c.attempt.step, result)],
       allowance := if result.Escaped? then c.allowance else ElapsedIfAny(c.allowance, elapsed))
  }

  lemma WhenOverKeepsInv(c: Cell, result: OperationResult, elapsed: real)
    requires Inv(c) && c.attempt.InFlight? && c.attempt.phase.Performing?
    ensures Inv(WhenOver(c, result, elapsed))
  {
    var e := Returned(c.attempt.step, result);
    HistoryGrows(c, e);
    Appending(c.log, e, c.origin);
    InvWhenSettled(c.(log := c.log + [e]), WhenOver(c, result, elapsed).allowance);
  }

  lemma ReturnKeepsInv(c: Cell, result: OperationResult, elapsed: real)
    requires Inv(c) && DoReturn(c, result, elapsed).Some?
    ensures Inv(DoReturn(c, result, elapsed).value)
  {
    var idle := WhenOver(c, result, elapsed);
    var outcome := Outcome(c.attempt.running, c.attempt.step, result);
    WhenOverKeepsInv(c, result, elapsed);
    ReturnIsCommitWhenIdle(c, result, elapsed, idle);
    if outcome.Some? {
      OutcomeIsOk(c.attempt.running, c.attempt.step, result, c.origin, c.log);
      CommitKeepsInv(idle, c.attempt.running, outcome.value);
    }
  }

  lemma ReturnIsCommitWhenIdle(c: Cell, result: OperationResult, elapsed: real, idle: Cell)
    requires DoReturn(c, result, elapsed).Some?
    requires idle == WhenOver(c, result, elapsed)
    ensures var outcome := Outcome(c.attempt.running, c.attempt.step, result);
            DoReturn(c, result, elapsed).value == if outcome.Some? then Commit(idle, c.attempt.running, outcome.value) else idle
  {
  }

  lemma CrashKeepsInv(c: Cell)
    requires Inv(c)
    ensures Inv(DoCrash(c))
  {
    if c.stored.Some? {
      RestoringKeepsWellFormed(c.stored.value);
    }
  }

  /** The state a rebind brings back is as honest as the record it came from. */
  lemma ReboundIsOk(sn: Snapshot, o: PlanContent, log: seq<Event>, ctx: RebindContext)
    requires StateOk(sn.record, o, log) && sn.record.status.Resumable()
    requires Reconciled(ReboundState(sn), sn, ctx).Some?
    ensures var back := Reconciled(ReboundState(sn), sn, ctx).value;
            if back == ReboundState(sn) then StateOk(back, o, log)
            else InterruptedStep(sn.record).Some? && StateOk(back, o, log + [FoundOnRecord(InterruptedStep(sn.record).value)])
  {
    var start := ReboundState(sn);
    RebindingKeepsWellFormed(sn);
    ReconcilingCompletesAtMostOneStep(start, sn, ctx, 0);
    var back := Reconciled(start, sn, ctx).value;
    assert StateOk(start, o, log);
    if back != start {
      var k :| 0 <= k < |start.steps| && Provable(sn, k, ctx) && Some(back) == CompleteFromRecord(
                 start, k, ctx.recordedResults[sn.record.steps[k].id], ctx.revalidationOperation);
      RecordedCompletionKeepsWellFormed(start, k, ctx.recordedResults[sn.record.steps[k].id], ctx.revalidationOperation);
      OnlyInterrupted(sn.record, k);
      FoundCompletionIsOk(start, back, k, o, log);
    }
  }

  lemma OnlyInterrupted(st: ExecutionState, k: nat)
    requires WellFormed(st) && k < |st.steps| && st.steps[k].status.Interrupted?
    ensures InterruptedStep(st) == Some(k)
  {
  }

  lemma FoundCompletionIsOk(before: ExecutionState, after: ExecutionState, k: nat, o: PlanContent, log: seq<Event>)
    requires StateOk(before, o, log) && WellFormed(after) && OnlyStep(before, after, k) && after.steps[k].status.Completed?
    ensures StateOk(after, o, log + [FoundOnRecord(k)])
  {
    Appending(log, FoundOnRecord(k), o);
  }

  lemma MatchingPlanAgrees(sn: Snapshot, c: PlanContent, o: PlanContent)
    requires StepsMatch(c, sn) && Shaped(sn.record, o)
    requires |sn.capabilities| == |o.steps| && forall j :: 0 <= j < |o.steps| ==> sn.capabilities[j] == o.steps[j].capability
    ensures CapabilitiesAgree(c, o)
  {
  }

  lemma RebindKeepsInv(c: Cell, plan: Plan, runId: string, ctx: RebindContext)
    requires Inv(c) && DoRebind(c, plan, runId, ctx).Some?
    ensures Inv(DoRebind(c, plan, runId, ctx).value)
  {
    var sn := c.restored.value;
    ReboundIsOk(sn, c.origin, c.log, ctx);
    MatchingPlanAgrees(sn, plan.content, c.origin);
    var n := DoRebind(c, plan, runId, ctx).value;
    if n.live.value.state != ReboundState(sn) {
      HistoryGrows(c, FoundOnRecord(InterruptedStep(sn.record).value));
    }
    assert c.attempt.Idle?;
    assert LiveOk(n.live, n.allowance, n.restored, n.origin, n.approved, n.log);
  }

  /** Landing only what nothing captured later has overtaken is more than enough. */
  lemma InTurnIsTimely(c: Cell, a: Action)
    requires Inv(c) && InTurn(c, a)
    ensures Timely(c, a)
  {
  }

  /** Every step keeps the invariant, provided no stale document lands. */
  lemma StepKeepsInv(c: Cell, a: Action)
    requires Inv(c) && Next(c, a).Some? && Timely(c, a)
    ensures Inv(Next(c, a).value)
  {
    hide Inv, DoStart, DoRebind, DoWithdrawStart, DoCancel, DoResolve, DoRecover, DoSetAside, DoBeginAttempt, DoChargeAttempt, DoCommitAttempt,
         DoUndoAttempt, DoRefundAttempt, DoDispatch, DoReturn, DoBeginSave, DoEndSave, DoCrash;
    match a
    case Start(_, _, _, _, _) => StartKeepsInv(c, a);
    case WithdrawStart => WithdrawStartKeepsInv(c);
    case CancelExecution(detail) => CancelKeepsInv(c, detail);
    case Resolve(k, ruling, moment) => ResolveKeepsInv(c, k, ruling, moment);
    case Recover(k, recovery) => RecoverKeepsInv(c, k, recovery);
    case WithdrawRuling(before, after) => WithdrawRulingKeepsInv(c, before, after);
    case HoldStep(_) => ReplacingKeepsInv(c, a);
    case RefuseStep(_) => ReplacingKeepsInv(c, a);
    case PauseStep(_, _, _) => ReplacingKeepsInv(c, a);
    case BeginAttempt(operation) => BeginAttemptKeepsInv(c, operation);
    case ChargeAttempt => ChargeAttemptKeepsInv(c);
    case CommitAttempt => CommitAttemptKeepsInv(c);
    case UndoAttempt => UndoAttemptKeepsInv(c);
    case RefundAttempt => RefundAttemptKeepsInv(c);
    case Dispatch => DispatchKeepsInv(c);
    case Return(result, elapsed) => ReturnKeepsInv(c, result, elapsed);
    case BeginSave(owner, key) => BeginSaveKeepsInv(c, owner, key);
    case EndSave(key, lands) => EndSaveKeepsInv(c, key, lands);
    case Crash => CrashKeepsInv(c);
    case Rebind(plan, runId, ctx) => RebindKeepsInv(c, plan, runId, ctx);
  }
}
