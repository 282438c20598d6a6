/** Nothing durable is lost: each later save still holds every execution, every completed
    step and every closing decision an earlier one held. */
module DurableHistory {
  import opened Options
  import opened Allowances
  import opened Plans
  import opened ExecutionStates
  import opened Snapshots
  import opened AttemptProtocol
  import opened Histories
  import opened ProtocolSafety

  /** The same step record, but for the ruling a rebind does not carry over. */
  predicate SameWork(a: StepState, b: StepState) { ReboundStep(a) == ReboundStep(b) }

  /** `b` still holds every completed step of `a`, and all of `a` once `a` is closed. */
  predicate StateFollows(a: ExecutionState, b: ExecutionState) {
    && |a.steps| == |b.steps|
    && (forall j :: 0 <= j < |a.steps| && a.steps[j].status.Completed? ==> SameWork(a.steps[j], b.steps[j]))
    && (a.status.Terminal() ==>
          a.status == b.status && forall j :: 0 <= j < |a.steps| ==> SameWork(a.steps[j], b.steps[j]))
  }

  predicate Follows(a: Option<Snapshot>, b: Option<Snapshot>) {
    a.Some? ==>
      && b.Some? && StateFollows(a.value.record, b.value.record)
      && a.value.missionDigest == b.value.missionDigest && a.value.requestId == b.value.requestId
  }

  /** Only a mission record carries a request identity. */
  predicate Keyed(sn: Option<Snapshot>) {
    sn.Some? && sn.value.requestId.Some? ==> sn.value.missionDigest.Some?
  }

  predicate AllKeyed(c: Cell) {
    Keyed(c.stored) && Keyed(Current(c)) && forall key :: key in c.saves.docs ==> Keyed(c.saves.docs[key])
  }

  /** Each document under way is followed by every later one and by what memory holds; it follows
      the store until it is overtaken, and the store follows it from then on. */
  predicate Chained(stored: Option<Snapshot>, saves: Saves, now: Option<Snapshot>) {
    && Follows(stored, now)
    && (forall i :: i in saves.docs ==> Follows(saves.docs[i], now))
    && (forall i, j :: i in saves.docs && j in saves.docs && i < j ==> Follows(saves.docs[i], saves.docs[j]))
    && (forall i :: i in saves.docs ==>
          if i in saves.overtaken then Follows(saves.docs[i], stored) else Follows(stored, saves.docs[i]))
    && (forall i, j :: i in saves.docs && j in saves.overtaken && i < j ==> i in saves.overtaken)
  }

  predicate Chain(c: Cell) {
    AllKeyed(c) && (!c.withdrawn ==> Chained(c.stored, c.saves, Current(c)))
  }

  lemma FollowsIsTransitive(a: Option<Snapshot>, b: Option<Snapshot>, d: Option<Snapshot>)
    requires Follows(a, b) && Follows(b, d)
    ensures Follows(a, d)
  {
  }

  lemma LiveFollows(c: Cell, st: ExecutionState, allowance: Option<Allowance>)
    requires c.live.Some? && StateFollows(c.live.value.state, st)
    ensures Follows(Current(c), Current(WithState(c, st).(allowance := allowance)))
    ensures Keyed(Current(c)) ==> Keyed(Current(WithState(c, st).(allowance := allowance)))
  {
  }

  lemma CancelFollows(st: ExecutionState, detail: string)
    requires WellFormed(st) && Cancel(st, detail).Some?
    ensures StateFollows(st, Cancel(st, detail).value)
  {
    CancelKeepsWellFormed(st, detail);
  }

  lemma OpenStepFollows(a: ExecutionState, b: ExecutionState, k: nat)
    requires !a.status.Terminal() && OnlyStep(a, b, k) && !a.steps[k].status.Completed?
    ensures StateFollows(a, b)
  {
  }

  lemma OutcomeFollows(running: ExecutionState, k: nat, result: OperationResult)
    requires WellFormed(running) && running.status.Running? && k < |running.steps| && running.steps[k].status.Running?
    requires Outcome(running, k, result).Some?
    ensures StateFollows(running, Outcome(running, k, result).value)
  {
    OpenStepFollows(running, Outcome(running, k, result).value, k);
  }

  lemma ReboundStateFollows(sn: Snapshot, ctx: RebindContext)
    requires WellFormed(sn.record) && sn.record.status.Resumable() && Reconciled(ReboundState(sn), sn, ctx).Some?
    ensures StateFollows(sn.record, Reconciled(ReboundState(sn), sn, ctx).value)
  {
    hide WellFormed, CompleteFromRecord;
    var start := ReboundState(sn);
    RebindingKeepsWellFormed(sn);
    ReconcilingCompletesAtMostOneStep(start, sn, ctx, 0);
    var back := Reconciled(start, sn, ctx).value;
    if back != start {
      var k :| 0 <= k < |start.steps| && Provable(sn, k, ctx) && Some(back) == CompleteFromRecord(
                 start, k, ctx.recordedResults[sn.record.steps[k].id], ctx.revalidationOperation);
      RecordedCompletionKeepsWellFormed(start, k, ctx.recordedResults[sn.record.steps[k].id], ctx.revalidationOperation);
      CompletionFollows(sn.record, start, back, k);
    }
  }

  lemma CompletionFollows(a: ExecutionState, start: ExecutionState, b: ExecutionState, k: nat)
    requires StateFollows(a, start) && !a.status.Terminal() && OnlyStep(start, b, k) && !a.steps[k].status.Completed?
    ensures StateFollows(a, b)
  {
  }

  lemma RecordFollows(a: ExecutionState, b: ExecutionState)
    requires StateFollows(a, b)
    ensures StateFollows(a, RecordOf(b))
  {
  }

  lemma ReboundFollows(sn: Snapshot, plan: Plan, runId: string, ctx: RebindContext)
    requires WellFormed(sn.record) && Rebound(sn, plan, runId, ctx).Some? && Keyed(Some(sn))
    ensures var back := Some(Capture(Rebound(sn, plan, runId, ctx).value, sn.allowance));
            Follows(Some(sn), back) && Keyed(back)
  {
    ReboundStateFollows(sn, ctx);
    RecordFollows(sn.record, Reconciled(ReboundState(sn), sn, ctx).value);
  }

  /** What memory holds is well formed: all that is needed to say that the next step keeps it. */
  predicate Formed(c: Cell) {
    && (c.live.Some? ==> WellFormed(c.live.value.state)) && (c.restored.Some? ==> WellFormed(c.restored.value.record))
    && (c.attempt.InFlight? ==> Begun(c.attempt.before, c.attempt.running, c.attempt.step, c.origin))
    && RulingsOk(c.rulings, c.origin) && !(c.live.Some? && c.restored.Some?)
  }

  lemma InvIsFormed(c: Cell)
    requires Inv(c)
    ensures Formed(c)
  {
    hide WellFormed, Begun, RulingsOk, SavesOk, Untouched, AtMostOnce;
  }

  /** What a ruling, recovery, cancellation or set-aside leaves in memory follows what was there. */
  lemma DecisionFollows(c: Cell, st: ExecutionState, k: nat, n: Cell)
    requires c.live.Some? && OnlyStep(c.live.value.state, st, k)
    requires !c.live.value.state.status.Terminal() && !c.live.value.state.steps[k].status.Completed?
    requires n.live == WithState(c, st).live && n.allowance == c.allowance && Keyed(Current(c))
    ensures Follows(Current(c), Current(n)) && Keyed(Current(n))
  {
    OpenStepFollows(c.live.value.state, st, k);
    LiveFollows(c, st, c.allowance);
    assert Current(n) == Current(WithState(c, st).(allowance := c.allowance));
  }

  lemma ResolveFollows(c: Cell, k: nat, ruling: Resolution, moment: int)
    requires Formed(c) && DoResolve(c, k, ruling, moment).Some? && Keyed(Current(c))
    ensures var n := DoResolve(c, k, ruling, moment).value; Follows(Current(c), Current(n)) && Keyed(Current(n))
  {
    RulingsKeepWellFormed(c.live.value.state, k, ruling, moment);
    DecisionFollows(c, ResolveInterrupted(c.live.value.state, k, ruling, moment).value, k, DoResolve(c, k, ruling, moment).value);
  }

  lemma RecoverFollows(c: Cell, k: nat, recovery: Recovery)
    requires Formed(c) && DoRecover(c, k, recovery).Some? && Keyed(Current(c))
    ensures var n := DoRecover(c, k, recovery).value; Follows(Current(c), Current(n)) && Keyed(Current(n))
  {
    RecoveriesKeepWellFormed(c.live.value.state, k, recovery);
    DecisionFollows(c, RecoverBlocked(c.live.value.state, k, recovery).value, k, DoRecover(c, k, recovery).value);
  }

  lemma WithdrawRulingFollows(c: Cell, before: ExecutionState, after: ExecutionState)
    requires Formed(c) && DoWithdrawRuling(c, before, after).Some? && Keyed(Current(c))
    ensures var n := DoWithdrawRuling(c, before, after).value; Follows(Current(c), Current(n)) && Keyed(Current(n))
  {
    assert Revocable((before, after).0, (before, after).1, c.origin);
    if c.live.Some? && c.live.value.state == after {
      RevokedFollows(before, after, c.origin);
      LiveFollows(c, before, c.allowance);
    } else {
      UnchangedFollows(c);
    }
  }

  lemma SetAsideFollows(c: Cell, a: Action)
    requires a.HoldStep? || a.RefuseStep? || a.PauseStep?
    requires Formed(c) && DoSetAside(c, a).Some? && Keyed(Current(c))
    ensures var n := DoSetAside(c, a).value; Follows(Current(c), Current(n)) && Keyed(Current(n))
  {
    var n := DoSetAside(c, a).value;
    var k := Advanceable(c).value;
    if a.HoldStep? {
      BlockingKeepsWellFormed(c.live.value.state, k, a.detail);
    }
    DecisionFollows(c, n.live.value.state, k, n);
  }

  lemma CancelledFollows(c: Cell, detail: string)
    requires Formed(c) && DoCancel(c, detail).Some? && Keyed(Current(c))
    ensures var n := DoCancel(c, detail).value; Follows(Current(c), Current(n)) && Keyed(Current(n))
  {
    CancelFollows(c.live.value.state, detail);
    LiveFollows(c, Cancel(c.live.value.state, detail).value, c.allowance);
  }

  lemma UnchangedFollows(c: Cell)
    ensures Follows(Current(c), Current(c))
  {
  }

  /** A step that changes no state and takes no record away. */
  lemma SameStateFollows(c: Cell, n: Cell)
    requires n.live == c.live && n.restored == c.restored
    ensures Follows(Current(c), Current(n)) && (Keyed(Current(c)) ==> Keyed(Current(n)))
  {
    if c.live.Some? {
      LiveFollows(c, c.live.value.state, n.allowance);
    }
  }

  lemma BookkeepingFollows(c: Cell, a: Action)
    requires a.BeginAttempt? || a.ChargeAttempt? || a.RefundAttempt? || a.Dispatch? || a.BeginSave? || a.EndSave?
    requires Next(c, a).Some? && Keyed(Current(c))
    ensures Follows(Current(c), Current(Next(c, a).value)) && Keyed(Current(Next(c, a).value))
  {
    SameStateFollows(c, Next(c, a).value);
  }

  lemma CommitAttemptFollows(c: Cell)
    requires Formed(c) && DoCommitAttempt(c).Some? && Keyed(Current(c))
    ensures var n := DoCommitAttempt(c).value; Follows(Current(c), Current(n)) && Keyed(Current(n))
  {
    CommitFollows(c, c.attempt.before, c.attempt.running, c.attempt.step);
  }

  lemma UndoAttemptFollows(c: Cell)
    requires Formed(c) && DoUndoAttempt(c).Some? && Keyed(Current(c))
    ensures var n := DoUndoAttempt(c).value; Follows(Current(c), Current(n)) && Keyed(Current(n))
  {
    CommitFollows(c, c.attempt.running, c.attempt.before, c.attempt.step);
  }

  lemma MemoryFollows(c: Cell, a: Action)
    requires Formed(c) && Next(c, a).Some? && !a.Crash? && !a.WithdrawStart? && !a.Start? && Keyed(Current(c))
    ensures Follows(Current(c), Current(Next(c, a).value)) && Keyed(Current(Next(c, a).value))
  {
    hide Follows, Keyed, WellFormed, RulingsOk, Begun, DoWithdrawStart, DoCancel, DoResolve, DoRecover, DoSetAside, DoBeginAttempt,
         DoChargeAttempt, DoCommitAttempt,
         DoUndoAttempt, DoRefundAttempt, DoDispatch, DoReturn, DoBeginSave, DoEndSave;
    match a
    case CancelExecution(detail) => CancelledFollows(c, detail);
    case Resolve(k, ruling, moment) => ResolveFollows(c, k, ruling, moment);
    case Recover(k, recovery) => RecoverFollows(c, k, recovery);
    case WithdrawRuling(before, after) => WithdrawRulingFollows(c, before, after);
    case HoldStep(_) => SetAsideFollows(c, a);
    case RefuseStep(_) => SetAsideFollows(c, a);
    case PauseStep(_, _, _) => SetAsideFollows(c, a);
    case CommitAttempt => CommitAttemptFollows(c);
    case UndoAttempt => UndoAttemptFollows(c);
    case Return(result, elapsed) => ReturnFollows(c, result, elapsed);
    case Rebind(plan, runId, ctx) => ReboundFollows(c.restored.value, plan, runId, ctx);
    case _ => BookkeepingFollows(c, a);
  }

  lemma RevokedFollows(before: ExecutionState, after: ExecutionState, o: PlanContent)
    requires Revocable(before, after, o)
    ensures StateFollows(after, before)
  {
  }

  lemma CommitFollows(c: Cell, expected: ExecutionState, st: ExecutionState, k: nat)
    requires !expected.status.Terminal() && OnlyStep(expected, st, k) && !expected.steps[k].status.Completed?
    ensures Follows(Current(c), Current(Commit(c, expected, st)))
    ensures Keyed(Current(c)) ==> Keyed(Current(Commit(c, expected, st)))
  {
    if c.live.Some? {
      if c.live.value.state == expected {
        OpenStepFollows(expected, st, k);
        LiveFollows(c, st, c.allowance);
      } else {
        LiveFollows(c, c.live.value.state, c.allowance);
      }
    }
  }

  lemma ReturnFollows(c: Cell, result: OperationResult, elapsed: real)
    requires Formed(c) && DoReturn(c, result, elapsed).Some? && Keyed(Current(c))
    ensures var n := DoReturn(c, result, elapsed).value; Follows(Current(c), Current(n)) && Keyed(Current(n))
  {
    var n := DoReturn(c, result, elapsed).value;
    var k, running := c.attempt.step, c.attempt.running;
    var outcome := Outcome(running, k, result);
    if outcome.Some? && c.live.Some? && c.live.value.state == running {
      OutcomeFollows(running, k, result);
      LiveFollows(c, outcome.value, n.allowance);
    } else {
      SameStateFollows(c, n);
    }
  }

  lemma CrashKeepsChain(c: Cell)
    requires Inv(c) && Chain(c)
    ensures Chain(DoCrash(c))
  {
    if c.stored.Some? {
      RestoringKeepsWellFormed(c.stored.value);
    }
  }

  lemma OthersLeaveTheStore(c: Cell, a: Action)
    requires Next(c, a).Some? && !a.Crash? && !a.BeginSave? && !a.EndSave?
    ensures var n := Next(c, a).value;
            n.saves.docs == c.saves.docs && n.saves.overtaken == c.saves.overtaken && n.stored == c.stored && (c.withdrawn ==> n.withdrawn)
  {
    hide Outcome, StartStep, BlockStep, RefuseAdvance, RequireAuthority, Rebound, ReboundState, Cancel, ResolveInterrupted, RecoverBlocked,
         Advanceable, StartedLive, Held, Permitted;
  }

  lemma CaptureLeavesTheStore(c: Cell, owner: SaveOwner, key: nat)
    requires DoBeginSave(c, owner, key).Some?
    ensures var n := DoBeginSave(c, owner, key).value;
            && n.stored == c.stored && Current(n) == Current(c) && n.live == c.live && n.withdrawn == c.withdrawn
            && (forall j :: j in c.saves.docs ==> j < key)
            && n.saves.overtaken == c.saves.overtaken && n.saves.docs == c.saves.docs[key := Current(c)]
  {
  }

  lemma EndTouchesTheStore(c: Cell, key: nat, lands: bool)
    requires DoEndSave(c, key, lands).Some?
    ensures var n := DoEndSave(c, key, lands).value;
            && key in c.saves.docs && n.stored == (if lands then c.saves.docs[key] else c.stored)
            && Current(n) == Current(c) && n.live == c.live && n.withdrawn == c.withdrawn
            && n.saves.docs == c.saves.docs - {key}
            && n.saves.overtaken == (c.saves.overtaken - {key}) + if lands then set j | j in c.saves.docs - {key} && j < key else {}
  {
  }

  lemma StepTouches(c: Cell, a: Action)
    requires Next(c, a).Some? && !a.Crash?
    ensures (c.withdrawn ==> Next(c, a).value.withdrawn)
    ensures forall j :: j in Next(c, a).value.saves.docs && j !in c.saves.docs ==> Next(c, a).value.saves.docs[j] == Current(c)
    ensures forall j :: j in Next(c, a).value.saves.docs && j in c.saves.docs ==>
                          Next(c, a).value.saves.docs[j] == c.saves.docs[j] || Next(c, a).value.saves.docs[j] == Current(c)
    ensures Next(c, a).value.stored != c.stored ==> a.EndSave? && a.key in c.saves.docs && Next(c, a).value.stored == c.saves.docs[a.key]
  {
    hide Current;
    match a
    case BeginSave(owner, key) => CaptureLeavesTheStore(c, owner, key);
    case EndSave(key, lands) => EndTouchesTheStore(c, key, lands);
    case _ => OthersLeaveTheStore(c, a);
  }

  lemma StepKeepsKeyed(c: Cell, a: Action)
    requires Formed(c) && AllKeyed(c) && Next(c, a).Some?
    ensures AllKeyed(Next(c, a).value)
  {
    hide Formed, Follows;
    if a.Crash? {
    } else if a.Start? || a.WithdrawStart? {
      OthersLeaveTheStore(c, a);
      EntryIsKeyed(c, a);
    } else {
      MemoryFollows(c, a);
      StepTouches(c, a);
    }
  }

  lemma EntryIsKeyed(c: Cell, a: Action)
    requires Formed(c) && AllKeyed(c) && (a.Start? || a.WithdrawStart?) && Next(c, a).Some?
    ensures Keyed(Current(Next(c, a).value))
  {
  }

  lemma WhenMemoryFollows(stored: Option<Snapshot>, saves: Saves, after: Saves, now: Option<Snapshot>, next: Option<Snapshot>)
    requires Chained(stored, saves, now) && Follows(now, next)
    requires after.docs == saves.docs && after.overtaken == saves.overtaken
    ensures Chained(stored, after, next)
  {
    FollowsIsTransitive(stored, now, next);
    forall i | i in saves.docs ensures Follows(saves.docs[i], next) {
      FollowsIsTransitive(saves.docs[i], now, next);
    }
  }

  lemma WhenCaptured(stored: Option<Snapshot>, saves: Saves, after: Saves, now: Option<Snapshot>, key: nat)
    requires Chained(stored, saves, now) && Follows(now, now) && forall j :: j in saves.docs ==> j < key
    requires after.docs == saves.docs[key := now] && after.overtaken == saves.overtaken && saves.overtaken <= saves.docs.Keys
    ensures Chained(stored, after, now)
  {
    hide Follows;
  }

  lemma WhenEnded(stored: Option<Snapshot>, saves: Saves, after: Saves, now: Option<Snapshot>, key: nat, lands: bool)
    requires Chained(stored, saves, now) && key in saves.docs && (lands ==> key !in saves.overtaken) && saves.overtaken <= saves.docs.Keys
    requires after.docs == saves.docs - {key}
    requires after.overtaken == (saves.overtaken - {key}) + if lands then set j | j in saves.docs - {key} && j < key else {}
    ensures Chained(if lands then saves.docs[key] else stored, after, now)
    ensures lands ==> Follows(stored, saves.docs[key])
  {
    hide Follows;
  }

  lemma StartChains(c: Cell, a: Action)
    requires Inv(c) && Chain(c) && (a.Start? || a.WithdrawStart?) && Next(c, a).Some? && !Next(c, a).value.withdrawn
    ensures Chained(c.stored, Next(c, a).value.saves, Current(Next(c, a).value)) && Next(c, a).value.stored == c.stored && !c.withdrawn
  {
    if a.WithdrawStart? {
      assert !Held(c);
    }
  }

  /** Every step keeps the chain, provided no overtaken document lands; then the store only grows. */
  lemma StepKeepsChain(c: Cell, a: Action)
    requires Inv(c) && Chain(c) && Next(c, a).Some? && InTurn(c, a)
    ensures Chain(Next(c, a).value)
    ensures !Next(c, a).value.withdrawn ==> !c.withdrawn && Follows(c.stored, Next(c, a).value.stored)
  {
    var n := Next(c, a).value;
    InvIsFormed(c);
    StepKeepsKeyed(c, a);
    assert Marked(c.saves);
    hide Inv, Chained, Marked, AllKeyed;
    UnchangedFollows(c);
    if a.Crash? {
      CrashKeepsChain(c);
    } else if a.Start? || a.WithdrawStart? {
      if !n.withdrawn {
        StartChains(c, a);
        StoreFollowsItself(c.stored);
      }
    } else {
      StepTouches(c, a);
      if !c.withdrawn {
        StepChains(c, a);
      }
    }
  }

  lemma StepChains(c: Cell, a: Action)
    requires Inv(c) && Chain(c) && Next(c, a).Some? && InTurn(c, a) && !a.Crash? && !a.Start? && !a.WithdrawStart? && !c.withdrawn
    ensures var n := Next(c, a).value; Chained(n.stored, n.saves, Current(n)) && Follows(c.stored, n.stored)
  {
    var n := Next(c, a).value;
    InvIsFormed(c);
    MemoryFollows(c, a);
    UnchangedFollows(c);
    StoreFollowsItself(c.stored);
    assert Marked(c.saves);
    hide Inv, Chained, Follows, AllKeyed, Current, DoBeginSave, DoEndSave;
    if a.BeginSave? {
      CaptureLeavesTheStore(c, a.owner, a.key);
      WhenCaptured(c.stored, c.saves, n.saves, Current(c), a.key);
    } else if a.EndSave? {
      EndTouchesTheStore(c, a.key, a.lands);
      WhenEnded(c.stored, c.saves, n.saves, Current(c), a.key, a.lands);
    } else {
      OthersLeaveTheStore(c, a);
      WhenMemoryFollows(c.stored, c.saves, n.saves, Current(c), Current(n));
    }
  }

  lemma StoreFollowsItself(stored: Option<Snapshot>)
    ensures Follows(stored, stored)
  {
  }

  /** Across saves that fail or overlap, crashes, cancels, rulings and rebinds, what one save made
      durable stays in every later one: the identity, its completed steps, its mission request, and
      the whole record once it is closed. */
  lemma {:induction false} DurableRecordsPersist(c: Cell, run: seq<Action>)
    requires Inv(c) && Chain(c) && Exec(c, run).Some? && InTurnRun(c, run) && !Exec(c, run).value.withdrawn
    ensures Inv(Exec(c, run).value) && Chain(Exec(c, run).value) && !c.withdrawn
    ensures Follows(c.stored, Exec(c, run).value.stored)
    decreases |run|
  {
    hide Inv, Chain, Follows, Next;
    if run == [] {
      StoreFollowsItself(c.stored);
      assert Exec(c, run) == Some(c);
    } else {
      var n := Next(c, run[0]).value;
      InTurnIsTimely(c, run[0]);
      StepKeepsInv(c, run[0]);
      StepKeepsChain(c, run[0]);
      DurableRecordsPersist(n, run[1..]);
      FollowsIsTransitive(c.stored, n.stored, Exec(c, run).value.stored);
    }
  }

  lemma {:induction false} RunKeepsChain(c: Cell, run: seq<Action>)
    requires Inv(c) && Chain(c) && Exec(c, run).Some? && InTurnRun(c, run)
    ensures Inv(Exec(c, run).value) && Chain(Exec(c, run).value)
    decreases |run|
  {
    hide Inv, Chain, Next;
    if run != [] {
      InTurnIsTimely(c, run[0]);
      StepKeepsInv(c, run[0]);
      StepKeepsChain(c, run[0]);
      RunKeepsChain(Next(c, run[0]).value, run[1..]);
    }
  }

  // -- a document that lands out of turn -------------------------------------------------

  /** `a` holds every completed step of `b`, and is closed if `b` is. */
  predicate LacksNothing(a: Option<Snapshot>, b: Option<Snapshot>) {
    b.Some? ==>
      && a.Some? && |a.value.record.steps| == |b.value.record.steps|
      && (forall j :: 0 <= j < |b.value.record.steps| && b.value.record.steps[j].status.Completed? ==>
            a.value.record.steps[j].status.Completed?)
      && (b.value.record.status.Terminal() ==> a.value.record.status.Terminal())
  }

  lemma FollowsBackIff(a: Option<Snapshot>, b: Option<Snapshot>)
    requires Follows(a, b)
    ensures Follows(b, a) <==> LacksNothing(a, b)
  {
    if LacksNothing(a, b) && b.Some? {
      assert StateFollows(b.value.record, a.value.record);
    }
  }
}
