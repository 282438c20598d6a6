/** The plan execution service: the dictionaries it updates in place, its store, and each
    request it serves. `cells` is a ghost account of every execution identifier; each method
    moves it by whole runs of the attempt protocol, so after any sequence of calls every
    execution keeps what the protocol promises. */
module PlanExecutionService {
  import opened Options
  import opened Allowances
  import opened Plans
  import opened ExecutionStates
  import opened TransitionLaws
  import opened Snapshots
  import opened AttemptProtocol
  import opened Histories
  import opened ProtocolSafety
  import opened DurableHistory
  import opened SequentialAdvance
  import opened SequentialDecisions
  import opened Continuations
  import opened ExecutionMemory
  import opened MissionRequests
  import A = Approvals
  import AuthorizationService

  class ExecutionStore {
    var saved: map<string, Snapshot>

    constructor ()
      ensures saved == map[]
    {
      saved := map[];
    }

    /** An atomic replacement of the whole document: it lands whole or changes nothing. */
    method Save(document: map<string, Snapshot>, lands: bool) returns (ok: bool)
      modifies this
      ensures ok == lands && saved == if lands then document else old(saved)
    {
      if lands {
        saved := document;
      }
      ok := lands;
    }
  }

  lemma AllowanceNeedsApproval(c: Cell)
    requires Sound(c)
    ensures c.live.Some? && c.allowance.Some? ==> c.approved == Some(c.allowance.value.budget)
    ensures c.stored.Some? && c.stored.value.allowance.Some? ==> c.approved == Some(c.stored.value.allowance.value.budget)
  {
  }

  lemma PaidThenCommitted(c: Cell, k: nat, running: ExecutionState, allowance: Option<Allowance>)
    requires c.live.Some? && c.allowance == allowance
    ensures ChargedCell(c, k, running)
            == WithState(if allowance.None? then c else c.(allowance := Some(Charge(allowance.value, StepCost(c.origin, k)))), running)
  {
  }

  class Service {
    const store: ExecutionStore
    const authorizer: AuthorizationService.Service
    const missionResolver: bool
    const maxActive: nat
    var executions: map<string, ExecutionState>
    var plans: map<string, Plan>
    var contexts: map<string, Context>
    var allowances: map<string, Allowance>
    var missionDigests: map<string, PlanContent>
    var missionRequestIds: map<string, string>
    var restored: map<string, Snapshot>
    ghost var cells: map<string, Cell>

    function Remembered(): Memory
      reads `executions, `plans, `contexts, `allowances, `missionDigests, `missionRequestIds, `restored
    {
      Memory(executions, plans, contexts, allowances, missionDigests, missionRequestIds, restored)
    }

    ghost predicate Tracked()
      reads this, store
    {
      Linked(Remembered(), store.saved, cells)
    }

    ghost predicate Valid()
      reads this, store
    {
      Tracked() && AllSound(cells)
    }

    /** `_restore`: read every durable record, marking what was cut off. */
    static method RestoreAll(saved: map<string, Snapshot>) returns (restored: map<string, Snapshot>)
      ensures restored == map id | id in saved :: Restored(saved[id])
    {
      restored := map[];
      var unread := saved.Keys;
      while unread != {}
        invariant unread <= saved.Keys
        invariant restored == map id | id in saved.Keys - unread :: Restored(saved[id])
        decreases |unread|
      {
        var id :| id in unread;
        restored := restored[id := Restored(saved[id])];
        unread := unread - {id};
      }
    }

    /** A new process over the same store: nothing is live, and what was saved is history to read. */
    constructor (store: ExecutionStore, authorizer: AuthorizationService.Service, missionResolver: bool, maxActive: nat,
                 ghost history: map<string, Cell>)
      requires forall id :: id in store.saved ==> id in history
      requires forall id :: id in history ==> CrashedSoundly(history[id]) && history[id].stored == Lookup(store.saved, id)
      ensures Valid()
      ensures authorizer.Ok() && AllBacked(history, authorizer.store.saved) ==> Backed()
      ensures this.store == store && this.authorizer == authorizer
      ensures this.missionResolver == missionResolver && this.maxActive == maxActive
      ensures cells == map id | id in history :: DoCrash(history[id])
      ensures executions == map[] && restored == map id | id in store.saved :: Restored(store.saved[id])
    {
      this.store := store;
      this.authorizer := authorizer;
      this.missionResolver := missionResolver;
      this.maxActive := maxActive;
      executions := map[];
      plans := map[];
      contexts := map[];
      allowances := map[];
      missionDigests := map[];
      missionRequestIds := map[];
      cells := map id | id in history :: DoCrash(history[id]);
      restored := map[];
      new;
      restored := RestoreAll(store.saved);
      RestartIsLinked(store.saved, history);
      forall id | id in cells ensures Sound(cells[id]) {
        RestartingIsSound(history[id]);
      }
    }

    // -- commits and saves --------------------------------------------------------------

    /** `_commit_outcome`. */
    method CommitOutcome(id: string, expected: ExecutionState, successor: ExecutionState) returns (won: bool)
      requires Tracked()
      modifies this`executions, this`cells
      ensures Tracked()
      ensures won <==> id in old(executions) && old(executions)[id] == expected
      ensures executions == if won then old(executions)[id := successor] else old(executions)
      ensures cells == if won then old(cells)[id := WithState(old(cells)[id], successor)] else old(cells)
    {
      won := id in executions && executions[id] == expected;
      if won {
        ghost var m := Remembered();
        CommitKeepsLink(m, store.saved, cells, id, successor);
        cells := cells[id := WithState(cells[id], successor)];
        executions := executions[id := successor];
        assert Remembered() == m.(executions := executions);
      }
    }

    /** `_persist_checkpoint`: the whole document, or nothing. */
    method Persist(lands: bool) returns (ok: bool)
      requires Tracked()
      modifies store, this`cells
      ensures Tracked() && ok == lands
      ensures cells == SavedAll(old(cells), lands)
      ensures store.saved == if lands then Remembered().Document() else old(store.saved)
    {
      ok := store.Save(Remembered().Document(), lands);
      SaveKeepsLink(Remembered(), old(store.saved), cells);
      FailedSaveChangesNothing(cells);
      cells := SavedAll(cells, lands);
    }

    /** Commit a replacement of the state just read and save it; one that raises changes nothing. */
    method Replace(id: string, successor: Option<ExecutionState>, lands: bool) returns (done: bool)
      requires Tracked() && id in executions
      modifies this`executions, this`cells, store
      ensures Tracked() && done == successor.Some?
      ensures cells == if successor.None? then old(cells)
                       else SavedAll(old(cells)[id := WithState(old(cells)[id], successor.value)], lands)
    {
      done := successor.Some?;
      if done {
        var won := CommitOutcome(id, executions[id], successor.value);
        var saved := Persist(lands);
      }
    }

    // -- advancing ----------------------------------------------------------------------

    /** The attempt boundary: charge, then commit the step as running. */
    method BeginAttempt(id: string, k: nat, running: ExecutionState, cost: Cost)
      requires Tracked() && id in executions
      requires cost == StepCost(cells[id].origin, k)
      modifies this`executions, this`allowances, this`cells
      ensures Tracked() && executions == old(executions)[id := running]
      ensures allowances == if id in old(allowances) then old(allowances)[id := Charge(old(allowances)[id], cost)] else old(allowances)
      ensures cells == old(cells)[id := ChargedCell(old(cells)[id], k, running)]
    {
      hide Linked, Charge, StepCost, ChargedCell, WithState;
      LinkedAt(Remembered(), store.saved, cells, id);
      ghost var before := cells;
      PaidThenCommitted(before[id], k, running, Lookup(allowances, id));
      if id in allowances {
        SetAllowance(id, Charge(allowances[id], cost));
        PutTwice(before, id, cells[id], WithState(cells[id], running));
      }
      var won := CommitOutcome(id, executions[id], running);
    }

    /** Nothing external has happened: put back the state and the allowance from before the attempt. */
    method UndoAttempt(id: string, state: ExecutionState, allowance: Option<Allowance>, ghost before: Cell, ghost k: nat)
      requires Tracked() && id in executions && (allowance.Some? <==> id in allowances)
      requires before.live.Some? && before.live.value.state == state && before.allowance == allowance
      requires cells[id] == ChargedCell(before, k, executions[id])
      modifies this`executions, this`allowances, this`cells
      ensures Tracked() && cells == old(cells)[id := before]
    {
      hide Linked;
      var won := CommitOutcome(id, executions[id], state);
      if allowance.Some? {
        SetAllowance(id, allowance.value);
      }
    }

    /** The operation has returned: count its time, unless an unforeseen exception left the advance. */
    method CountTime(id: string, k: nat, inp: AdvanceInputs)
      requires Tracked() && id in executions
      modifies this`allowances, this`cells
      ensures Tracked() && cells == old(cells)[id := ReturnedCell(old(cells)[id], k, inp)]
    {
      hide Linked;
      LinkedAt(Remembered(), store.saved, cells, id);
      NoteOperation(id, k, inp.result);
      if !inp.result.Escaped? && id in allowances {
        SetAllowance(id, WithElapsed(allowances[id], inp.elapsed));
      }
    }

    /** Commit what the operation came to, and save it. */
    method Settle(id: string, k: nat, running: ExecutionState, inp: AdvanceInputs) returns (r: Report)
      requires Tracked() && id in executions && executions[id] == running && k < |running.steps|
      modifies this`executions, this`allowances, this`cells, store
      ensures Tracked()
      ensures cells == if Outcome(running, k, inp.result).None? then old(cells)[id := ReturnedCell(old(cells)[id], k, inp)]
                       else SavedAll(old(cells)[id := WithState(ReturnedCell(old(cells)[id], k, inp), Outcome(running, k, inp.result).value)],
                                     inp.finalSaveLands)
      ensures r == if Outcome(running, k, inp.result).Some? then Reported else Escaping(!inp.result.Escaped?)
    {
      hide Linked, Outcome, ReturnedCell, WithState;
      CountTime(id, k, inp);
      var done := Replace(id, Outcome(running, k, inp.result), inp.finalSaveLands);
      r := if done then Reported else Escaping(!inp.result.Escaped?);
    }

    /** The attempt: charge, commit, checkpoint, operation, outcome, save. */
    method Attempt(id: string, k: nat, running: ExecutionState, cost: Cost, inp: AdvanceInputs) returns (r: Report)
      requires Tracked() && id in executions && k < |running.steps|
      requires cost == StepCost(cells[id].origin, k)
      modifies this`executions, this`allowances, this`cells, store
      ensures Tracked()
      ensures cells == AttemptedCells(old(cells), id, k, running, inp)
      ensures r == if !inp.checkpointLands then Rejected
                   else if Outcome(running, k, inp.result).Some? then Reported else Escaping(!inp.result.Escaped?)
    {
      hide Linked, Outcome, Saved, ReturnedCell, AttemptedCells, ChargedCell;
      var state := executions[id];
      var allowance := Lookup(allowances, id);
      LinkedAt(Remembered(), store.saved, cells, id);
      AttemptedCellsAre(cells, id, k, running, inp);
      BeginAttempt(id, k, running, cost);
      var durable := Persist(inp.checkpointLands);
      if durable {
        r := Settle(id, k, running, inp);
      } else {
        FailedSaveChangesNothing(old(cells)[id := ChargedCell(old(cells)[id], k, running)]);
        PutBack(old(cells), id, ChargedCell(old(cells)[id], k, running));
        UndoAttempt(id, state, allowance, old(cells)[id], k);
        r := Rejected;
      }
    }

    method SetAllowance(id: string, allowance: Allowance)
      requires Tracked() && id in cells
      modifies this`allowances, this`cells
      ensures Tracked() && allowances == old(allowances)[id := allowance]
      ensures cells == old(cells)[id := old(cells)[id].(allowance := Some(allowance))]
    {
      hide Linked;
      ghost var m := Remembered();
      MoneyKeepsLink(m, store.saved, cells, id, allowance);
      allowances := allowances[id := allowance];
      cells := cells[id := cells[id].(allowance := Some(allowance))];
      assert Remembered() == m.(allowances := allowances);
    }

    /** The operation was dispatched and returned; only the history knows. */
    ghost method NoteOperation(id: string, k: nat, result: OperationResult)
      requires Tracked() && id in cells
      modifies this`cells
      ensures Tracked()
      ensures cells == old(cells)[id := old(cells)[id].(log := old(cells)[id].log + [Dispatched(k)] + [Returned(k, result)])]
    {
      hide Linked;
      var c := cells[id].(log := cells[id].log + [Dispatched(k)] + [Returned(k, result)]);
      NoteKeepsLink(Remembered(), store.saved, cells, id, c);
      cells := cells[id := c];
    }

    /** Hold, refuse or pause the next pending step: the replacement and its save. */
    method SetAside(id: string, ghost inp: AdvanceInputs, successor: Option<ExecutionState>, lands: bool) returns (done: bool)
      requires Tracked() && id in executions && lands == inp.finalSaveLands
      requires AfterAdvance(cells, id, inp) == if successor.None? then cells
                                               else SavedAll(cells[id := WithState(cells[id], successor.value)], lands)
      modifies this`executions, this`cells, store
      ensures Tracked() && cells == AfterAdvance(old(cells), id, inp) && done == successor.Some?
    {
      hide Linked, AfterAdvance;
      done := Replace(id, successor, lands);
    }

    /** `_advance_refused`: record the refusal durably, unless the execution cannot carry it. */
    method AdvanceRefused(id: string, k: nat, inp: AdvanceInputs) returns (r: Report)
      requires Tracked() && id in executions && CourseOf(cells[id], inp).Refuse? && NextPending(executions[id]) == Some(k)
      modifies this`executions, this`cells, store
      ensures Tracked() && cells == AfterAdvance(old(cells), id, inp) && r == ReportOf(old(cells)[id], inp)
    {
      hide Linked, CourseOf;
      LinkedAt(Remembered(), store.saved, cells, id);
      var state := executions[id];
      if !NoStepUnderway(state) {
        assert AfterAdvance(cells, id, inp) == cells;
        return BudgetRefused;
      }
      SetAsideThenSaved(cells, id, inp, RefuseAdvance(state, k, inp.note));
      var done := SetAside(id, inp, RefuseAdvance(state, k, inp.note), inp.finalSaveLands);
      r := if done then BudgetRefused else Escaping(true);
    }

    /** `_paused_for_authority`. */
    method PausedForAuthority(id: string, k: nat, inp: AdvanceInputs) returns (r: Report)
      requires Tracked() && id in executions && CourseOf(cells[id], inp).SeekAuthority? && NextPending(executions[id]) == Some(k)
      modifies this`executions, this`cells, store
      ensures Tracked() && cells == AfterAdvance(old(cells), id, inp) && r == ReportOf(old(cells)[id], inp)
    {
      hide Linked, CourseOf;
      LinkedAt(Remembered(), store.saved, cells, id);
      var state, runId := executions[id], contexts[id].runId;
      if !NoStepUnderway(state) || runId.None? {
        assert AfterAdvance(cells, id, inp) == cells;
        return Rejected;
      }
      var paused := RequireAuthority(state, k, plans[id].content, runId.value, inp.note);
      SetAsideThenSaved(cells, id, inp, paused);
      var done := SetAside(id, inp, paused, inp.finalSaveLands);
      r := if done then Rejected else Escaping(true);
    }

    /** `_blocked`, before any attempt. */
    method Blocked(id: string, k: nat, inp: AdvanceInputs) returns (r: Report)
      requires Tracked() && id in executions && CourseOf(cells[id], inp).Hold? && NextPending(executions[id]) == Some(k)
      modifies this`executions, this`cells, store
      ensures Tracked() && cells == AfterAdvance(old(cells), id, inp) && r == ReportOf(old(cells)[id], inp)
    {
      hide Linked, CourseOf;
      LinkedAt(Remembered(), store.saved, cells, id);
      var blocked := BlockStep(executions[id], k, inp.note);
      SetAsideThenSaved(cells, id, inp, blocked);
      var done := SetAside(id, inp, blocked, inp.finalSaveLands);
      r := if done then Reported else Escaping(true);
    }

    /** Whether and how the next pending step may be attempted, once nothing stands in the way of advancing. */
    method AdvanceStep(id: string, k: nat, capability: Capability, inp: AdvanceInputs) returns (r: Report)
      requires Tracked() && id in executions && id in plans && k < |cells[id].origin.steps|
      requires !TurnedAway(LiveIn(cells, id), cells[id].allowance, inp) && NextPending(executions[id]) == Some(k)
      requires capability == cells[id].origin.steps[k].capability
      modifies this`executions, this`allowances, this`cells, store
      ensures Tracked() && cells == AfterAdvance(old(cells), id, inp) && r == ReportOf(old(cells)[id], inp)
    {
      hide Linked, AfterAdvance;
      LinkedAt(Remembered(), store.saved, cells, id);
      var state, plan, allowance := executions[id], plans[id], Lookup(allowances, id);
      if !Executable(capability) || capability !in inp.registered {
        r := Blocked(id, k, inp);
        return;
      }
      var cost := CostFor(capability);
      var unaffordable := allowance.Some? && !Affords(allowance.value, cost);
      if plan.content.mission.Some? && !inp.followup.Proceed? {
        if inp.followup.BudgetLimited? && unaffordable {
          r := AdvanceRefused(id, k, inp);
        } else {
          NothingAdvanced(cells, id, inp);
          r := Rejected;
        }
        return;
      }
      if allowance.None? && (capability.SourceRevalidation? || cost.llm > 0) {
        r := PausedForAuthority(id, k, inp);
        return;
      }
      if unaffordable {
        r := AdvanceRefused(id, k, inp);
        return;
      }
      var running := StartStep(state, k, inp.operation);
      if running.None? {
        NothingAdvanced(cells, id, inp);
        return Rejected;
      }
      AttemptedThroughout(cells, id, inp, k, running.value);
      r := Attempt(id, k, running.value, cost, inp);
    }

    /** Run one operation for the next pending step, or say why not. */
    method ProcessAdvance(id: string, inp: AdvanceInputs) returns (r: Report)
      requires Valid() && inp.missionResolver == missionResolver
      modifies this`executions, this`allowances, this`cells, store
      ensures Valid() && RequestsKept(old(cells), cells)
      ensures cells == if id in old(cells) then AfterAdvance(old(cells), id, inp) else old(cells)
      ensures r == if id in old(cells) then ReportOf(old(cells)[id], inp) else Missing
    {
      hide RequestsKept, AllSound, Linked, AfterAdvance;
      NothingDoneKeeps(cells);
      if id in cells {
        AfterAdvanceIsSound(cells, id, inp);
        AdvancingKeeps(cells, id, inp);
      }
      r := Advance(id, inp);
    }

    method Advance(id: string, inp: AdvanceInputs) returns (r: Report)
      requires Valid() && inp.missionResolver == missionResolver
      modifies this`executions, this`allowances, this`cells, store
      ensures Tracked()
      ensures cells == if id in old(cells) then AfterAdvance(old(cells), id, inp) else old(cells)
      ensures r == if id in old(cells) then ReportOf(old(cells)[id], inp) else Missing
    {
      hide Linked, AfterAdvance, Sound;
      if id !in executions || id !in plans {
        NotLive(Remembered(), store.saved, cells, id);
        if id in cells {
          NothingAdvanced(cells, id, inp);
        }
        return Missing;
      }
      LinkedAt(Remembered(), store.saved, cells, id);
      var state, plan, allowance := executions[id], plans[id], Lookup(allowances, id);
      var digest := Lookup(missionDigests, id);
      var mission := plan.content.mission.Some?;
      if (mission || digest.Some?) && (!mission || digest != Some(plan.content) || !missionResolver || allowance.None?) {
        NothingAdvanced(cells, id, inp);
        return Rejected;
      }
      if inp.gateRefuses || InterruptedStep(state).Some? {
        NothingAdvanced(cells, id, inp);
        return Rejected;
      }
      var next := NextPending(state);
      if next.None? {
        NothingAdvanced(cells, id, inp);
        return Rejected;
      }
      DeclaredAsAuthored(cells[id], next.value);
      r := AdvanceStep(id, next.value, CapabilityOr(plan.content, state.steps[next.value].id), inp);
    }

    // -- cancelling and ruling ----------------------------------------------------------

    /** Close every unfinished step. The cancellation stands even when its save does not land. */
    method ProcessCancel(id: string, lands: bool) returns (r: Report)
      requires Valid()
      modifies this`executions, this`cells, store
      ensures Valid() && RequestsKept(old(cells), cells)
      ensures r.Missing? <==> id !in old(executions)
      ensures r.Reported? <==> id in old(executions) && !Closed(old(executions)[id].status)
      ensures r.Reported? ==> id in executions && CancelledAs(old(executions)[id], executions[id], CANCELLED_BY_USER)
      ensures executions == if r.Reported? then old(executions)[id := Cancel(old(executions)[id], CANCELLED_BY_USER).value]
                            else old(executions)
      ensures cells == if r.Reported? then SavedAll(old(cells)[id := DoCancel(old(cells)[id], CANCELLED_BY_USER).value], lands)
                       else old(cells)
    {
      hide Linked, Sound, RequestsKept, CancelledAs;
      NothingDoneKeeps(cells);
      if id !in executions {
        return Missing;
      }
      LinkedAt(Remembered(), store.saved, cells, id);
      CancelLaw(executions[id], CANCELLED_BY_USER);
      var cancelled := Cancel(executions[id], CANCELLED_BY_USER);
      if cancelled.None? {
        return Rejected;
      }
      AfterCancelIsSound(cells, id, lands);
      CancellingKeeps(cells, id, lands);
      var won := CommitOutcome(id, executions[id], cancelled.value);
      var saved := Persist(lands);
      r := Reported;
    }

    /** Commit a decision about one step. */
    method CommitDecision(id: string, successor: ExecutionState, ghost decided: Cell)
      requires Tracked() && id in executions
      requires WithState(cells[id], successor).(rulings := decided.rulings, log := decided.log) == decided
      modifies this`executions, this`cells
      ensures Tracked() && executions == old(executions)[id := successor] && cells == old(cells)[id := decided]
    {
      hide Linked;
      LinkedAt(Remembered(), store.saved, cells, id);
      var won := CommitOutcome(id, executions[id], successor);
      NoteKeepsLink(Remembered(), store.saved, cells, id, decided);
      cells := cells[id := decided];
    }

    /** Commit a decision about one step, and keep it only if it became durable. */
    method Decide(id: string, successor: ExecutionState, lands: bool, ghost decided: Cell) returns (r: Report)
      requires Tracked() && id in executions
      requires decided.live.Some? && WithState(cells[id], successor).(rulings := decided.rulings, log := decided.log) == decided
      modifies this`executions, this`cells, store
      ensures Tracked() && cells == AfterDecision(old(cells), id, Some(decided), lands)
      ensures r == if lands then Reported else Rejected
      ensures executions == if lands then old(executions)[id := successor] else old(executions)
      ensures store.saved == if lands then Remembered().Document() else old(store.saved)
    {
      hide Linked, AfterDecision;
      var state := executions[id];
      LinkedAt(Remembered(), store.saved, cells, id);
      DecisionIsEverything(cells, id, Some(decided), lands);
      CommitDecision(id, successor, decided);
      FailedSaveChangesNothing(cells);
      var durable := Persist(lands);
      if !durable {
        var won := CommitOutcome(id, successor, state);
        return Rejected;
      }
      r := Reported;
    }

    /** Record one human ruling about an interrupted attempt. */
    method ProcessResolve(id: string, k: nat, ruling: Resolution, moment: int, lands: bool) returns (r: Report)
      requires Valid()
      modifies this`executions, this`cells, store
      ensures Valid() && RequestsKept(old(cells), cells)
      ensures r.Missing? <==> id !in old(executions)
      ensures r.Reported? <==> id in old(executions) && ResolveInterrupted(old(executions)[id], k, ruling, moment).Some? && lands
      ensures r.Missing? || r.Rejected? || r.Reported?
      ensures r.Reported? <==> id in old(executions) && MayRule(old(executions)[id], k, ruling) && lands
      ensures r.Reported? ==> id in executions && RuledOn(old(executions)[id], executions[id], k, ruling, moment)
      ensures id in old(cells) ==> cells == AfterDecision(old(cells), id, DoResolve(old(cells)[id], k, ruling, moment), lands)
      ensures r.Reported? ==> executions == old(executions)[id := ResolveInterrupted(old(executions)[id], k, ruling, moment).value]
                              && store.saved == Remembered().Document() && id in store.saved
      ensures !r.Reported? ==> executions == old(executions) && store.saved == old(store.saved)
    {
      hide Linked, Sound, AfterDecision, RequestsKept, MayRule, RuledOn, MayRecover, RecoveredAs;
      NothingDoneKeeps(cells);
      if id !in executions {
        NotLive(Remembered(), store.saved, cells, id);
        if id in cells {
          NothingDecided(cells, id, lands);
        }
        return Missing;
      }
      LinkedAt(Remembered(), store.saved, cells, id);
      ghost var decided := DoResolve(cells[id], k, ruling, moment);
      ResolvingIsSound(cells[id], k, ruling, moment, lands);
      AfterDecisionIsSound(cells, id, decided, lands);
      ResolveLaw(executions[id], k, ruling, moment);
      var resolved := ResolveInterrupted(executions[id], k, ruling, moment);
      if resolved.None? {
        NothingDecided(cells, id, lands);
        return Rejected;
      }
      ResolvingCarries(cells[id], k, ruling, moment);
      DecidingKeeps(cells, id, decided, lands);
      r := Decide(id, resolved.value, lands, decided.value);
    }

    /** Record what an operator did about a performed, unseen attempt. */
    method ProcessRecover(id: string, k: nat, recovery: Recovery, lands: bool) returns (r: Report)
      requires Valid()
      modifies this`executions, this`cells, store
      ensures Valid() && RequestsKept(old(cells), cells)
      ensures r.Missing? <==> id !in old(executions)
      ensures r.Reported? <==> id in old(executions) && RecoverBlocked(old(executions)[id], k, recovery).Some? && lands
      ensures r.Missing? || r.Rejected? || r.Reported?
      ensures r.Reported? <==> id in old(executions) && MayRecover(old(executions)[id], k, recovery) && lands
      ensures r.Reported? ==> id in executions && RecoveredAs(old(executions)[id], executions[id], k, recovery)
      ensures id in old(cells) ==> cells == AfterDecision(old(cells), id, DoRecover(old(cells)[id], k, recovery), lands)
      ensures r.Reported? ==> executions == old(executions)[id := RecoverBlocked(old(executions)[id], k, recovery).value]
                              && store.saved == Remembered().Document() && id in store.saved
      ensures !r.Reported? ==> executions == old(executions) && store.saved == old(store.saved)
    {
      hide Linked, Sound, AfterDecision, RequestsKept, MayRule, RuledOn, MayRecover, RecoveredAs;
      NothingDoneKeeps(cells);
      if id !in executions {
        NotLive(Remembered(), store.saved, cells, id);
        if id in cells {
          NothingDecided(cells, id, lands);
        }
        return Missing;
      }
      LinkedAt(Remembered(), store.saved, cells, id);
      ghost var decided := DoRecover(cells[id], k, recovery);
      RecoveringIsSound(cells[id], k, recovery, lands);
      AfterDecisionIsSound(cells, id, decided, lands);
      RecoverLaw(executions[id], k, recovery);
      var recovered := RecoverBlocked(executions[id], k, recovery);
      if recovered.None? {
        NothingDecided(cells, id, lands);
        return Rejected;
      }
      RecoveringCarries(cells[id], k, recovery);
      DecidingKeeps(cells, id, decided, lands);
      r := Decide(id, recovered.value, lands, decided.value);
    }

    // -- continuing ---------------------------------------------------------------------

    /** Why an advance changed nothing: out of budget, or refused for another reason. */
    function RefusalReason(id: string): (reason: StopReason)
      requires id in executions && id in plans
      reads `executions, `plans, `allowances
      ensures reason.BudgetExhausted? || reason.AdvanceRefused?
    {
      var next := NextPending(executions[id]);
      if id in allowances && next.Some?
         && CapabilityIn(plans[id].content.steps, executions[id].steps[next.value].id).Some?
         && !Affords(allowances[id], CostFor(CapabilityOr(plans[id].content, executions[id].steps[next.value].id)))
      then BudgetExhausted else StopReason.AdvanceRefused
    }

    lemma Held(id: string)
      requires Valid() && (id in executions || (id in cells && cells[id].live.Some?))
      ensures id in executions && id in plans && id in cells && cells[id].live.Some? && cells[id].live.value.state == executions[id]
    {
      assert id in cells ==> Agrees(cells[id], Remembered(), store.saved, id);
    }

    /** The reason is one the execution itself has: its plan declares what it was authored with. */
    lemma ReasonIsItsOwn(id: string)
      requires Valid() && id in executions && id in plans
      ensures id in cells && cells[id].live.Some? && RefusalReason(id) == RefusalOf(cells[id])
    {
      hide Linked, Sound, Agrees;
      EntriesOf(Remembered(), store.saved, cells, id);
      if NextPending(executions[id]).Some? {
        DeclaredAsAuthored(cells[id], NextPending(executions[id]).value);
        IsDeclared(cells[id], NextPending(executions[id]).value);
      }
    }

    /** Advance one execution at most `requested` times, until anything says stop. */
    method ProcessContinue(id: string, requested: Option<int>, inputs: nat -> AdvanceInputs)
      returns (r: ContinueReport, n: nat)
      requires Valid() && forall i: nat :: inputs(i).missionResolver == missionResolver
      modifies this`executions, this`allowances, this`cells, store
      ensures Valid() && RequestsKept(old(cells), cells)
      ensures r.BoundUnusable? <==> requested.None? || requested.value < 1 || requested.value > MAX_FOREGROUND_CONTINUATION_STEPS
      ensures r.NothingToContinue? <==> !r.BoundUnusable? && id !in old(executions)
      ensures r.BoundUnusable? || r.NothingToContinue? ==> n == 0 && cells == old(cells)
      ensures id in old(executions) ==>
                && id in old(cells) && id in cells && id in executions
                && exists attempted: seq<nat> :: SoFar(old(cells)[id], inputs, n, attempted, cells[id])
      ensures r.RaisedWithin? ==> 1 <= n <= requested.value
      ensures !r.BoundUnusable? && id in old(executions) ==>
                old(cells[id]).live.Some? && (r, n) == ContinueFrom(old(cells[id]), inputs, requested.value, 0, [])
      ensures r.Continued? ==>
                && id in old(executions) && id in executions && id in plans
                && SoFar(old(cells)[id], inputs, n, r.c.attempted, cells[id])
                && n <= requested.value && n - 1 <= |r.c.attempted| <= n
                && r.c.finalStatus == executions[id].status && r.c.next == NextPending(executions[id])
                && (r.c.reason.Halted? <==> Halts(executions[id].status))
                && (r.c.reason.Halted? ==> r.c.reason.status == executions[id].status)
                && (r.c.reason.BoundReached? ==> |r.c.attempted| == requested.value)
                && (r.c.reason.BudgetExhausted? || r.c.reason.AdvanceRefused? ==> r.c.reason == RefusalReason(id))
                && (r.c.reason.NoPendingStep? ==> NextPending(executions[id]).None?)
    {
      hide Valid, AfterAdvance, AdvanceCell, ReportOf, RefusalReason, RefusalOf, SoFar, RequestsKept, ContinueFrom, Halts, NextPending;
      NothingDoneKeeps(cells);
      n := 0;
      if id in executions {
        Held(id);
        NothingSoFar(cells[id], inputs);
      }
      if requested.None? || requested.value < 1 || requested.value > MAX_FOREGROUND_CONTINUATION_STEPS {
        return BoundUnusable, 0;
      }
      if id !in executions {
        return NothingToContinue, 0;
      }
      var bound := requested.value;
      ghost var first := cells[id];
      var attempted: seq<nat> := [];
      var reason := BoundReached;
      while |attempted| < bound
        invariant Valid() && id in executions && id in cells && RequestsKept(old(cells), cells)
        invariant n == |attempted| <= bound
        invariant SoFar(first, inputs, n, attempted, cells[id])
        invariant n > 0 ==> !Halts(executions[id].status)
        invariant reason == BoundReached
        invariant cells[id].live.Some? && cells[id].live.value.state == executions[id]
        invariant first.live.Some? && ContinueFrom(first, inputs, bound, 0, []) == ContinueFrom(cells[id], inputs, bound, n, attempted)
        decreases bound - |attempted|
      {
        Held(id);
        var state := executions[id];
        if Halts(state.status) {
          StopsHere(cells[id], inputs, bound, n, attempted);
          reason := Halted(state.status);
          break;
        }
        if NextPending(state).None? {
          StopsHere(cells[id], inputs, bound, n, attempted);
          reason := NoPendingStep;
          break;
        }
        var k := NextPending(state).value;
        OneFurther(first, inputs, n, attempted, cells[id], k);
        OnePass(cells[id], inputs, bound, n, attempted, k);
        AdvancedCellOf(cells, id, inputs(n));
        ghost var earlier := cells;
        var response := ProcessAdvance(id, inputs(n));
        KeptIsTransitive(old(cells), earlier, cells);
        n := n + 1;
        Held(id);
        if response.Escaping? {
          return RaisedWithin, n;
        }
        var after := executions[id];
        if !after.steps[k].status.Pending? {
          attempted := attempted + [k];
        }
        if Halts(after.status) {
          reason := Halted(after.status);
          break;
        }
        if !response.Success() || NextPending(after) == Some(k) {
          reason := RefusalReason(id);
          ReasonIsItsOwn(id);
          break;
        }
      }
      Held(id);
      if reason.BoundReached? {
        StopsHere(cells[id], inputs, bound, n, attempted);
      }
      var final := executions[id];
      r := Continued(Continuation(attempted, reason, final.status, NextPending(final)));
    }

    // -- starting -----------------------------------------------------------------------

    ghost predicate Backed()
      reads this, authorizer, authorizer.store
    {
      authorizer.Ok() && AllBacked(cells, authorizer.store.saved)
    }

    /** Write the entries of one newly started execution. */
    method WriteEntries(plan: Plan, ctx: Context, budget: Option<Budget>, requestId: Option<string>)
      modifies this`executions, this`plans, this`contexts, this`allowances, this`missionDigests, this`missionRequestIds
      ensures Remembered() == WithStarted(old(Remembered()), plan, ctx, FirstAllowance(budget), requestId)
    {
      var id, mission := plan.planId, plan.content.mission.Some?;
      if budget.Some? {
        allowances := allowances[id := Allowance(budget.value, NothingSpent)];
      }
      executions, plans, contexts := executions[id := Started(id, StepIds(plan.content))], plans[id := plan], contexts[id := ctx];
      missionDigests := if mission then missionDigests[id := plan.content] else missionDigests;
      missionRequestIds := if mission && requestId.Some? then missionRequestIds[id := requestId.value] else missionRequestIds;
    }

    method Register(plan: Plan, ctx: Context, budget: Option<Budget>, requestId: Option<string>)
      requires Tracked() && plan.planId !in cells
      modifies this`executions, this`plans, this`contexts, this`allowances, this`missionDigests, this`missionRequestIds, this`cells
      ensures Tracked()
      ensures Remembered() == WithStarted(old(Remembered()), plan, ctx, FirstAllowance(budget), requestId)
      ensures cells == old(cells)[plan.planId := BegunCell(plan, budget, ctx.runId, ctx.disclosure, requestId)]
    {
      hide Linked, WithStarted, BegunCell, FirstAllowance;
      StartKeepsLink(Remembered(), store.saved, cells, plan, ctx, budget, requestId);
      WriteEntries(plan, ctx, budget, requestId);
      cells := cells[plan.planId := BegunCell(plan, budget, ctx.runId, ctx.disclosure, requestId)];
    }

    /** Remove every entry of one execution whose first checkpoint did not land. */
    method Withdraw(id: string, ghost m: Memory, ghost c: Cell, ghost before: map<string, Cell>)
      requires Linked(m, store.saved, before) && id !in before && id in cells && cells == before[id := cells[id]]
      requires c.live.None? && c.allowance.None? && c.restored.None? && c.stored.None?
      requires m.executions == executions - {id} && m.plans == plans - {id} && m.contexts == contexts - {id}
      requires m.allowances == allowances - {id} && m.missionDigests == missionDigests - {id}
      requires m.missionRequestIds == missionRequestIds - {id} && m.restored == restored
      modifies this`executions, this`plans, this`contexts, this`allowances, this`missionDigests, this`missionRequestIds, this`cells
      ensures Tracked() && Remembered() == m && cells == old(cells)[id := c]
    {
      hide Linked;
      executions := executions - {id};
      plans := plans - {id};
      contexts := contexts - {id};
      allowances := allowances - {id};
      missionDigests := missionDigests - {id};
      missionRequestIds := missionRequestIds - {id};
      WithdrawKeepsLink(m, store.saved, before, id, c);
      PutTwice(before, id, cells[id], c);
      cells := cells[id := c];
    }

    /** Whether a start would be turned away before it reaches its approval. */
    predicate StartRefused(plan: Plan, inp: StartInputs)
      reads `executions
    {
      || plan.planId in executions
      || (plan.content.mission.Some? && !missionResolver)
      || |executions| >= maxActive
      || !inp.acceptable
    }

    /** The identity is not live, a mission can be resolved, there is room for one more, the request is usable,
        and the approval it names is recorded and permits exactly this plan and run. */
    predicate ApprovedStart(plan: Plan, runId: string, authorizationId: string, inp: StartInputs)
      reads `executions, authorizer`authorizations
    {
      && plan.planId !in executions && (plan.content.mission.Some? ==> missionResolver) && |executions| < maxActive && inp.acceptable
      && authorizationId in authorizer.authorizations
      && A.Permits(authorizer.authorizations[authorizationId],
                   A.Request(authorizationId, plan.content, runId, plan.planId, inp.now, inp.comparisonOk, None, None))
    }

    /** Begin one already derived plan, spending exactly one approval. Plan identifiers are minted
        fresh: one that is not live was never used. */
    method StartForPlan(plan: Plan, runId: string, authorizationId: string, requestId: Option<string>, inp: StartInputs)
      returns (r: Option<ExecutionState>, ghost spent: Option<A.Authorization>)
      requires Valid() && Backed() && ValidContent(plan.content)
      requires plan.planId !in executions ==> plan.planId !in cells && Unnamed(authorizer.store.saved, plan.planId)
      modifies this`executions, this`plans, this`contexts, this`allowances, this`missionDigests, this`missionRequestIds, this`cells, store
      modifies authorizer`authorizations, authorizer.store
      ensures Valid() && Backed()
      ensures r.None? ==> Remembered() == old(Remembered()) && store.saved == old(store.saved)
      ensures cells == if spent.None? then old(cells)
                       else AfterStart(old(cells), BegunCell(plan, Some(spent.value.budget), Some(runId), spent.value.disclosure, requestId),
                                       plan.planId, inp)
      ensures spent.Some? <==> old(ApprovedStart(plan, runId, authorizationId, inp)) && inp.approvalLands
      ensures r.Some? <==> old(ApprovedStart(plan, runId, authorizationId, inp)) && inp.approvalLands
                           && (plan.content.mission.Some? ==> inp.firstLands)
      ensures spent.Some? ==> spent.value.(consumption := None) == old(authorizer.authorizations)[authorizationId]
      ensures r.Some? ==>
                && !old(StartRefused(plan, inp)) && (plan.content.mission.Some? ==> inp.firstLands && plan.planId in store.saved)
                && executions == old(executions)[plan.planId := r.value] && r.value == Started(plan.planId, StepIds(plan.content))
                && plans == old(plans)[plan.planId := plan]
                && contexts == old(contexts)[plan.planId := Context(Some(runId), spent.value.disclosure)]
                && authorizationId in old(authorizer.authorizations)
                && plan.planId in allowances
                && allowances[plan.planId] == Allowance(old(authorizer.authorizations)[authorizationId].budget, NothingSpent)
                && authorizationId in authorizer.store.saved && Names(authorizer.store.saved[authorizationId], plan.planId)
                && spent == Some(authorizer.store.saved[authorizationId])
                && allowances[plan.planId] == Allowance(spent.value.budget, NothingSpent)
                && spent.value.digest == plan.content && spent.value.runId == runId
                && (plan.content.mission.Some? ==> store.saved[plan.planId].requestId == requestId)
                && (inp.lands ==> plan.planId in store.saved)
      ensures A.SpentForGood(old(authorizer.store.saved), authorizer.store.saved)
    {
      hide Linked, AllSound, Sound, WithStarted, AfterStart;
      r, spent := None, None;
      if StartRefused(plan, inp) {
        return;
      }
      var q := RequestFor(plan, runId, authorizationId, inp);
      ghost var book := authorizer.View();
      var verdict, approval := authorizer.ConsumeForExecution(q, inp.approvalLands);
      if approval.None? {
        RefusalSpendsNothing(book, q, inp.approvalLands);
        return;
      }
      spent := approval;
      StartIsBacked(cells, book, q, inp.approvalLands);
      var ctx := Context(Some(runId), approval.value.disclosure);
      AfterStartIsSound(cells, plan, Some(approval.value.budget), ctx, requestId, inp);
      AfterStartIsBacked(cells, authorizer.store.saved, plan, approval.value.budget, ctx, requestId, inp);
      r := StartWithBudget(plan, ctx, Some(approval.value.budget), requestId, inp);
    }

    /** Start one authored plan. Where approvals are required it spends exactly one, and its budget is the
        allowance; otherwise it starts with no allowance at all. Such a plan carries no mission. */
    method ProcessStart(plan: Plan, runId: Option<string>, authorizationId: Option<string>, approvalsRequired: bool, inp: StartInputs)
      returns (r: Report)
      requires Valid() && Backed() && ValidContent(plan.content) && plan.content.mission.None?
      requires plan.planId !in executions ==> plan.planId !in cells && Unnamed(authorizer.store.saved, plan.planId)
      modifies this`executions, this`plans, this`contexts, this`allowances, this`missionDigests, this`missionRequestIds, this`cells, store
      modifies authorizer`authorizations, authorizer.store
      ensures Valid() && Backed()
      ensures r.Rejected? || r.Reported?
      ensures r.Rejected? ==> Remembered() == old(Remembered()) && cells == old(cells) && store.saved == old(store.saved)
      ensures r.Reported? ==>
                && executions == old(executions)[plan.planId := Started(plan.planId, StepIds(plan.content))]
                && plans == old(plans)[plan.planId := plan] && plan.planId in contexts && contexts[plan.planId].runId == runId
                && contexts == old(contexts)[plan.planId := contexts[plan.planId]]
                && (inp.lands ==> plan.planId in store.saved)
                && (if approvalsRequired
                    then && authorizationId.Some? && runId.Some? && plan.planId in allowances
                         && authorizationId.value in authorizer.store.saved
                         && Names(authorizer.store.saved[authorizationId.value], plan.planId)
                         && allowances[plan.planId] == Allowance(authorizer.store.saved[authorizationId.value].budget, NothingSpent)
                         && contexts[plan.planId].disclosure == authorizer.store.saved[authorizationId.value].disclosure
                    else contexts[plan.planId].disclosure.Undisclosed? && plan.planId !in allowances && authorizer.View() == old(authorizer.View()))
      ensures r.Reported? <==>
                if approvalsRequired
                then authorizationId.Some? && runId.Some? && old(ApprovedStart(plan, runId.value, authorizationId.value, inp)) && inp.approvalLands
                else && plan.content.target.None? && plan.planId !in old(executions) && |old(executions)| < maxActive && inp.acceptable
    {
      hide Linked, AllSound, Sound, WithStarted, AfterStart;
      if (plan.content.target.Some? && !approvalsRequired) || StartRefused(plan, inp) {
        return Rejected;
      }
      if approvalsRequired {
        if authorizationId.None? || runId.None? {
          return Rejected;
        }
        var started, spent := StartForPlan(plan, runId.value, authorizationId.value, None, inp);
        if started.None? {
          return Rejected;
        }
        return Reported;
      }
      var ctx := Context(runId, Undisclosed);
      NotKept(Remembered(), store.saved, cells, plan.planId);
      AfterStartIsSound(cells, plan, None, ctx, None, inp);
      UnapprovedStaysBacked(cells, authorizer.store.saved, plan, ctx, None, inp);
      var begun := StartWithBudget(plan, ctx, None, None, inp);
      r := Reported;
    }

    /** A mission's first checkpoint; when it does not land, no entry is left behind. */
    method CheckpointMission(id: string, lands: bool, ghost m: Memory, ghost before: map<string, Cell>, ghost begun: Cell)
      returns (durable: bool)
      requires Tracked() && Linked(m, store.saved, before) && id !in before && cells == before[id := begun]
      requires begun.restored.None? && begun.stored.None?
      requires m.executions == executions - {id} && m.plans == plans - {id} && m.contexts == contexts - {id}
      requires m.allowances == allowances - {id} && m.missionDigests == missionDigests - {id}
      requires m.missionRequestIds == missionRequestIds - {id} && m.restored == restored
      modifies this`executions, this`plans, this`contexts, this`allowances, this`missionDigests, this`missionRequestIds, this`cells, store
      ensures Tracked() && durable == lands
      ensures durable ==> Remembered() == old(Remembered()) && cells == SavedAll(old(cells), true)
                          && store.saved == Remembered().Document()
      ensures !durable ==> Remembered() == m && store.saved == old(store.saved)
                           && cells == before[id := begun.(live := None, allowance := None)]
    {
      hide Linked;
      FailedSaveChangesNothing(cells);
      durable := Persist(lands);
      if !durable {
        Withdraw(id, m, begun.(live := None, allowance := None), before);
      }
    }

    /** Register the started execution, and for a mission make it durable first or take it back. */
    method StartWithBudget(plan: Plan, ctx: Context, budget: Option<Budget>, requestId: Option<string>, inp: StartInputs)
      returns (r: Option<ExecutionState>)
      requires Tracked() && plan.planId !in cells
      modifies this`executions, this`plans, this`contexts, this`allowances, this`missionDigests, this`missionRequestIds, this`cells, store
      ensures Tracked()
      ensures cells == AfterStart(old(cells), BegunCell(plan, budget, ctx.runId, ctx.disclosure, requestId), plan.planId, inp)
      ensures r.None? <==> plan.content.mission.Some? && !inp.firstLands
      ensures r.None? ==> Remembered() == old(Remembered()) && store.saved == old(store.saved)
      ensures r.Some? ==>
                && r.value == Started(plan.planId, StepIds(plan.content))
                && Remembered() == WithStarted(old(Remembered()), plan, ctx, FirstAllowance(budget), requestId)
                && executions == old(executions)[plan.planId := r.value]
                && plans == old(plans)[plan.planId := plan] && contexts == old(contexts)[plan.planId := ctx]
                && allowances == (if budget.Some? then old(allowances)[plan.planId := Allowance(budget.value, NothingSpent)] else old(allowances))
                && (inp.lands || plan.content.mission.Some? ==> plan.planId in store.saved)
                && (plan.content.mission.Some? ==> store.saved[plan.planId].requestId == requestId)
    {
      hide Linked, WithStarted, BegunCell;
      ghost var m, before := Remembered(), cells;
      ghost var begun := BegunCell(plan, budget, ctx.runId, ctx.disclosure, requestId);
      BegunIsBare(plan, budget, ctx.runId, ctx.disclosure, requestId);
      NotKept(m, store.saved, cells, plan.planId);
      WithdrawnMemory(m, store.saved, cells, plan, ctx, budget, requestId);
      Register(plan, ctx, budget, requestId);
      if plan.content.mission.Some? {
        var durable := CheckpointMission(plan.planId, inp.firstLands, m, before, begun);
        if !durable {
          return None;
        }
      }
      var saved := Persist(inp.lands);
      r := Some(Started(plan.planId, StepIds(plan.content)));
      LinkIsKeyed(Remembered(), store.saved, cells);
      StartedIsThere(m, plan, ctx, budget, requestId);
    }

    // -- rebinding ----------------------------------------------------------------------

    /** `_reconcile_recorded_revalidations`: complete what its own durable record proves, nothing else. */
    static method Reconcile(start: ExecutionState, sn: Snapshot, ctx: RebindContext) returns (r: Option<ExecutionState>)
      ensures r == Reconciled(start, sn, ctx)
    {
      var state, k := start, 0;
      while k < |sn.record.steps|
        invariant k <= |sn.record.steps|
        invariant Reconciled(start, sn, ctx) == Reconciled(state, sn, ctx, k)
      {
        if Provable(sn, k, ctx) {
          var next := CompleteFromRecord(state, k, ctx.recordedResults[sn.record.steps[k].id], ctx.revalidationOperation);
          if next.None? {
            return None;
          }
          state := next.value;
        }
        k := k + 1;
      }
      r := Some(state);
    }

    /** Bring one durable execution back, exactly as it was written down, or refuse. */
    method RebindRestored(plan: Plan, runId: string, id: string, ctx: RebindContext, lands: bool) returns (r: Option<ExecutionState>)
      requires Valid()
      modifies this`executions, this`plans, this`contexts, this`allowances, this`missionDigests, this`missionRequestIds, this`restored
      modifies this`cells, store
      ensures Valid() && RequestsKept(old(cells), cells)
      ensures r.Some? <==> id in old(restored) && id !in old(executions) && Rebound(old(restored)[id], plan, runId, ctx).Some?
      ensures r.None? ==> Remembered() == old(Remembered()) && store.saved == old(store.saved) && cells == old(cells)
      ensures r.Some? ==>
                && id in old(cells) && cells == AfterRebind(old(cells), id, plan, runId, ctx, lands)
                && r.value == Rebound(old(restored)[id], plan, runId, ctx).value.state
                && executions == old(executions)[id := r.value] && restored == old(restored) - {id}
                && old(restored)[id].allowance.Some? && allowances == old(allowances)[id := old(restored)[id].allowance.value]
    {
      hide Linked, AllSound, AfterRebind, MayRebind, WithRebound, DoRebind, RebindSaves, Reconciled, RequestsKept;
      NothingDoneKeeps(cells);
      r := None;
      ghost var m := Remembered();
      RestoredAt(Remembered(), store.saved, cells, id);
      if id !in restored || id in executions {
        return;
      }
      var sn := restored[id];
      RebindMeans(cells[id], plan, runId, ctx);
      if !MayRebind(sn, plan.content, runId, ctx) {
        return;
      }
      var start := ReboundState(sn);
      var state := Reconcile(start, sn, ctx);
      if state.None? {
        return;
      }
      var mission := IsMission(sn, plan.content);
      AfterRebindIsSound(cells, id, plan, runId, ctx, lands);
      RebindingKeeps(cells, id, plan, runId, ctx, lands);
      RebindIsEverything(cells, id, plan, runId, ctx, lands);
      Reenter(id, Live(state.value, plan.(planId := sn.record.planId), Some(runId),
                       if mission then sn.missionDisclosure else Undisclosed,
                       if mission then sn.missionDigest else None,
                       if mission then sn.requestId else None),
              sn.allowance.value, DoRebind(cells[id], plan, runId, ctx).value);
      if state.value != start {
        var saved := Persist(lands);
      }
      ReboundIsThere(m, id, DoRebind(old(cells)[id], plan, runId, ctx).value.live.value, sn.allowance.value);
      r := state;
    }

    /** Write the entries of one execution that is live again; it is no longer restored history. */
    method WriteReboundEntries(id: string, l: Live, allowance: Allowance)
      modifies this`executions, this`plans, this`contexts, this`allowances, this`missionDigests, this`missionRequestIds, this`restored
      ensures Remembered() == WithRebound(old(Remembered()), id, l, allowance)
    {
      executions, plans, contexts := executions[id := l.state], plans[id := l.plan], contexts[id := Context(l.runId, l.disclosure)];
      allowances, restored := allowances[id := allowance], restored - {id};
      missionDigests := if l.missionDigest.Some? then missionDigests[id := l.missionDigest.value] else missionDigests;
      missionRequestIds := if l.requestId.Some? then missionRequestIds[id := l.requestId.value] else missionRequestIds;
    }

    method Reenter(id: string, l: Live, allowance: Allowance, ghost c: Cell)
      requires Tracked() && id in cells && id !in executions
      requires c.stored == cells[id].stored && c.live == Some(l) && c.allowance == Some(allowance) && c.restored.None?
      modifies this`executions, this`plans, this`contexts, this`allowances, this`missionDigests, this`missionRequestIds, this`restored
      modifies this`cells
      ensures Tracked() && cells == old(cells)[id := c]
      ensures Remembered() == WithRebound(old(Remembered()), id, l, allowance)
    {
      hide Linked, WithRebound;
      RebindKeepsLink(Remembered(), store.saved, cells, c, id, l, allowance);
      WriteReboundEntries(id, l, allowance);
      cells := cells[id := c];
    }

    // -- what holds after any sequence of requests ---------------------------------------

    /** Everything ever dispatched for an approved execution is within the budget of the one approval
        that was durably spent on it, and every record it could be resumed from already counts it. */
    lemma SpendIsApproved(id: string)
      requires Valid() && Backed() && id in cells && cells[id].approved.Some?
      ensures var used := Used(cells[id].log, cells[id].origin);
              && (exists a :: a in authorizer.store.saved && Names(authorizer.store.saved[a], id)
                              && used.steps <= authorizer.store.saved[a].budget.steps
                              && used.network <= authorizer.store.saved[a].budget.network
                              && used.llm <= authorizer.store.saved[a].budget.llm)
              && (id in executions ==> id in allowances && Covers(allowances[id].spend, used))
              && (id in store.saved ==> store.saved[id].allowance.Some? && Covers(store.saved[id].allowance.value.spend, used))
    {
      var c := cells[id];
      assert Sound(c) && Agrees(c, Remembered(), store.saved, id);
      assert WithinApproval(c.approved, Used(c.log, c.origin));
      assert BackedBy(authorizer.store.saved, id, c.approved.value);
    }

    /** Exactly one durably spent approval names every execution that carries an allowance, live or
        stored, and it granted that allowance's budget. */
    lemma AllowanceIsApproved(id: string)
      requires Valid() && Backed()
      ensures id in executions && id in allowances ==> BackedBy(authorizer.store.saved, id, allowances[id].budget)
      ensures id in store.saved && store.saved[id].allowance.Some? ==>
                BackedBy(authorizer.store.saved, id, store.saved[id].allowance.value.budget)
    {
      if id in cells {
        assert Sound(cells[id]) && Agrees(cells[id], Remembered(), store.saved, id);
        AllowanceNeedsApproval(cells[id]);
      }
    }

    /** What an execution has spent stays within the one approval that was durably spent on it. */
    ghost predicate ApprovedSpend(id: string)
      requires id in allowances
      reads `allowances, authorizer, authorizer.store
    {
      exists a :: a in authorizer.store.saved && Names(authorizer.store.saved[a], id)
                  && Within(Allowance(authorizer.store.saved[a].budget, allowances[id].spend))
    }

    /** That is, steps, network calls and model calls, each on its own. */
    lemma ApprovedSpendMeans(id: string)
      requires id in allowances && ApprovedSpend(id)
      ensures exists a :: a in authorizer.store.saved && Names(authorizer.store.saved[a], id)
                          && allowances[id].spend.steps <= authorizer.store.saved[a].budget.steps
                          && allowances[id].spend.network <= authorizer.store.saved[a].budget.network
                          && allowances[id].spend.llm <= authorizer.store.saved[a].budget.llm
    {
      var a :| a in authorizer.store.saved && Names(authorizer.store.saved[a], id)
               && Within(Allowance(authorizer.store.saved[a].budget, allowances[id].spend));
    }

    lemma AllowanceStaysApproved(id: string)
      requires Valid() && Backed() && id in executions && id in allowances
      ensures ApprovedSpend(id)
    {
      AllowanceIsApproved(id);
      Held(id);
      assert Sound(cells[id]) && Agrees(cells[id], Remembered(), store.saved, id);
      assert Within(allowances[id]);
    }

    /** A request that keeps identities leaves every execution as well approved as it was. */
    lemma StaysBacked(before: map<string, Cell>)
      requires authorizer.Ok() && AllBacked(before, authorizer.store.saved) && RequestsKept(before, cells)
      ensures Backed()
    {
      KeptStaysBacked(before, cells, authorizer.store.saved);
    }

    /** Live and restored identities stay apart, and the next save keeps every saved execution, with
        its completed steps and closing decisions. */
    lemma HistoryIsKept(id: string)
      requires Valid()
      ensures !(id in executions && id in restored)
      ensures id in store.saved ==>
                id in Remembered().Document() && Follows(Some(store.saved[id]), Some(Remembered().Document()[id]))
    {
      if id in cells {
        assert Sound(cells[id]) && Agrees(cells[id], Remembered(), store.saved, id);
        SavedAgrees(Remembered(), store.saved, cells[id], id);
      }
    }

    /** A completed step was dispatched and seen to succeed, or proved by its own durable record; a
        pending one has no dispatch left to answer for. */
    lemma StepsAreHonest(id: string, k: nat)
      requires Valid() && id in executions && k < |executions[id].steps|
      ensures id in cells && AtMostOnce(cells[id].log)
      ensures executions[id].steps[k].status.Completed? ==> Proven(cells[id].log, k)
      ensures executions[id].steps[k].status.Pending? ==> !Outstanding(cells[id].log, k)
    {
      Held(id);
      assert Sound(cells[id]);
    }
  }
}
