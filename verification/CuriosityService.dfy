/** Starting and resuming an authorized Curiosity proposal: both only the plan whose digest was approved. */
module CuriosityService {
  import opened Options
  import opened Allowances
  import opened Plans
  import opened ExecutionStates
  import opened Snapshots
  import opened AttemptProtocol
  import opened ProtocolSafety
  import opened SequentialAdvance
  import opened ExecutionMemory
  import AuthorizationService
  import A = Approvals
  import P = PlanExecutionService

  class Curiosity {
    const execution: P.Service

    constructor (execution: P.Service)
      ensures this.execution == execution
    {
      this.execution := execution;
    }

    /** Spend one exact approval on a start that runs nothing. The plan is derived again; what starts is
        the plan the operator was shown, and the plan the spent approval names. */
    method StartAuthorizedProposal(expected: PlanContent, authorizationId: string, derived: Option<Plan>, runId: string, inp: StartInputs)
      returns (started: Option<ExecutionState>)
      requires execution.Valid() && execution.Backed()
      requires derived.Some? ==>
                 && ValidContent(derived.value.content)
                 && (derived.value.planId !in execution.executions ==>
                       derived.value.planId !in execution.cells && Unnamed(execution.authorizer.store.saved, derived.value.planId))
      modifies execution, execution.store, execution.authorizer, execution.authorizer.store
      ensures execution.Valid() && execution.Backed()
      ensures started.Some? ==>
                && derived.Some? && derived.value.content == expected
                && authorizationId in execution.authorizer.store.saved
                && execution.authorizer.store.saved[authorizationId].digest == expected
                && Names(execution.authorizer.store.saved[authorizationId], derived.value.planId)
                && started.value == Started(derived.value.planId, StepIds(expected))
                && forall j :: 0 <= j < |started.value.steps| ==> started.value.steps[j].status.Pending?
      ensures started.Some? <==>
                && derived.Some? && derived.value.content == expected
                && old(execution.ApprovedStart(derived.value, runId, authorizationId, inp)) && inp.approvalLands
                && (expected.mission.Some? ==> inp.firstLands)
      ensures started.Some? ==>
                && execution.executions == old(execution.executions)[derived.value.planId := started.value]
                && derived.value.planId in execution.allowances
                && execution.allowances[derived.value.planId]
                   == Allowance(execution.authorizer.store.saved[authorizationId].budget, NothingSpent)
                && execution.authorizer.store.saved[authorizationId].runId == runId
      ensures derived.None? || derived.value.content != expected ==>
                started.None? && execution.cells == old(execution.cells)
                && execution.authorizer.View() == old(execution.authorizer.View())
    {
      hide P.Service.Valid, P.Service.Backed;
      if derived.None? || derived.value.content != expected {
        return None;
      }
      ghost var spent;
      started, spent := execution.StartForPlan(derived.value, runId, authorizationId, None, inp);
    }

    /** An execution that can be rebound carries an allowance, and so one durably spent approval alone names it. */
    lemma RebindsOnlyBacked(id: string, plan: Plan, runId: string, ctx: RebindContext)
      requires execution.Valid() && execution.Backed() && id in execution.restored
      requires Rebound(execution.restored[id], plan, runId, ctx).Some?
      ensures id !in execution.executions
      ensures OnlyOneNames(id)
    {
      RebindNeedsAnAllowance(execution.restored[id], plan, runId, ctx);
      RestoredIsBacked(execution.Remembered(), execution.store.saved, execution.cells, id, execution.authorizer.store.saved);
      execution.HistoryIsKept(id);
    }

    /** The approval found is the one spent on the execution. */
    lemma TheOneSpent(id: string, found: A.Authorization)
      requires execution.authorizer.Ok() && found in execution.authorizer.authorizations.Values && Names(found, id)
      ensures exists a :: a in execution.authorizer.store.saved && execution.authorizer.store.saved[a] == found
      ensures OnlyOneNames(id) ==>
                forall a :: a in execution.authorizer.store.saved && Names(execution.authorizer.store.saved[a], id) ==>
                              execution.authorizer.store.saved[a] == found
    {
      SpentIsSaved(execution.authorizer.View(), found);
    }

    /** When none is found, none is stored. */
    lemma NoneFound(id: string)
      requires execution.authorizer.Ok()
      requires forall a :: a in execution.authorizer.authorizations ==> !Names(execution.authorizer.authorizations[a], id)
      ensures forall a :: a in execution.authorizer.store.saved ==> !Names(execution.authorizer.store.saved[a], id)
    {
      assert A.Mirrored(execution.authorizer.View());
    }

    ghost predicate OnlyOneNames(id: string)
      reads execution, execution.authorizer, execution.authorizer.store
    {
      exists budget :: BackedBy(execution.authorizer.store.saved, id, budget)
    }

    /** Make one durable execution live again. What permits it is the approval already spent on it: the
        rebuilt plan must have the digest that approval names. No approval is created, asked or changed. */
    method ResumeExecution(executionId: string, rebuilt: Option<Plan>, runId: string, ctx: RebindContext, lands: bool)
      returns (resumed: Option<ExecutionState>)
      requires execution.Valid() && execution.Backed()
      modifies execution, execution.store
      ensures execution.Valid()
      ensures execution.authorizer.View() == old(execution.authorizer.View())
      ensures resumed.Some? <==>
                && rebuilt.Some? && executionId in old(execution.restored)
                && (exists a :: a in execution.authorizer.store.saved && Names(execution.authorizer.store.saved[a], executionId)
                                && execution.authorizer.store.saved[a].digest == rebuilt.value.content)
                && Rebound(old(execution.restored)[executionId], rebuilt.value, runId, ctx).Some?
      ensures resumed.Some? ==>
                && resumed.value == Rebound(old(execution.restored)[executionId], rebuilt.value, runId, ctx).value.state
                && execution.executions == old(execution.executions)[executionId := resumed.value]
                && executionId in old(execution.cells)
                && execution.cells == AfterRebind(old(execution.cells), executionId, rebuilt.value, runId, ctx, lands)
      ensures resumed.None? ==> execution.cells == old(execution.cells) && execution.Remembered() == old(execution.Remembered())
    {
      hide P.Service.Valid, Rebound, AfterRebind, AllBacked, AuthorizationService.Service.Ok, OnlyOneNames;
      if executionId in execution.restored && rebuilt.Some? && Rebound(execution.restored[executionId], rebuilt.value, runId, ctx).Some? {
        RebindsOnlyBacked(executionId, rebuilt.value, runId, ctx);
      }
      var approval := execution.authorizer.AuthorizationForExecution(executionId);
      if approval.Some? {
        TheOneSpent(executionId, approval.value);
      } else {
        NoneFound(executionId);
      }
      if approval.None? || rebuilt.None? || rebuilt.value.content != approval.value.digest {
        return None;
      }
      resumed := execution.RebindRestored(rebuilt.value, runId, executionId, ctx, lands);
    }
  }

  lemma RebindNeedsAnAllowance(sn: Snapshot, plan: Plan, runId: string, ctx: RebindContext)
    requires Rebound(sn, plan, runId, ctx).Some?
    ensures sn.allowance.Some?
  {
  }

  /** Restored history that carries an allowance is named by the one approval that granted it. */
  lemma RestoredIsBacked(m: Memory, saved: map<string, Snapshot>, cells: map<string, Cell>, id: string, approvals: map<string, A.Authorization>)
    requires Linked(m, saved, cells) && AllSound(cells) && AllBacked(cells, approvals)
    requires id in m.restored && m.restored[id].allowance.Some?
    ensures BackedBy(approvals, id, m.restored[id].allowance.value.budget)
  {
    assert Agrees(cells[id], m, saved, id) && Sound(cells[id]);
    assert RecordOk(cells[id].restored, cells[id].origin, cells[id].approved, cells[id].log);
  }

  lemma SpentIsSaved(b: A.Book, a: A.Authorization)
    requires A.Mirrored(b) && a in b.recorded.Values && a.consumption.Some?
    ensures exists id :: id in b.saved && b.saved[id] == a
  {
    var id :| id in b.recorded && b.recorded[id] == a;
    assert id in b.saved;
  }
}
