/** The service that previews, confirms, records and spends approvals. */
module AuthorizationService {
  import opened Options
  import opened Allowances
  import opened Plans
  import opened Approvals

  datatype Confirmation = NotPending | Refused(verdict: Verdict) | Invalid | Changed | DoesNotFit | Duplicate | Unsaved | Confirmed

  class ApprovalStore {
    var saved: map<string, Authorization>

    constructor ()
      ensures saved == map[]
    {
      saved := map[];
    }

    /** An atomic replacement of the whole document: it lands whole or changes nothing. */
    method Save(document: map<string, Authorization>, lands: bool) returns (ok: bool)
      modifies this
      ensures ok == lands && saved == if lands then document else old(saved)
    {
      if lands {
        saved := document;
      }
      ok := lands;
    }
  }

  class Service {
    const store: ApprovalStore
    var pending: map<string, Authorization>
    var authorizations: map<string, Authorization>

    ghost function View(): Book
      reads this, store
    {
      Book(authorizations, store.saved)
    }

    ghost predicate Ok()
      reads this, store
    {
      && Mirrored(View())
      && (forall id :: id in pending ==> pending[id].id == id && pending[id].consumption.None?)
      && |pending| <= MAX_PENDING
    }

    /** A new process: nothing is pending, and memory is what was written. */
    constructor (store: ApprovalStore)
      ensures this.store == store && Ok() && pending == map[]
      ensures View() == Book(store.saved, store.saved)
    {
      this.store := store;
      pending := map[];
      authorizations := store.saved;
    }

    /** Show the exact approval that confirming would record; nothing is written. */
    method Preview(content: PlanContent, runId: string, acceptable: bool, budget: Option<Budget>,
                   disclosure: Disclosure, freshId: string, now: int) returns (shown: Option<Authorization>)
      requires Ok() && freshId !in pending
      modifies this`pending
      ensures Ok() && View() == old(View())
      ensures shown.Some? <==> acceptable && |old(pending)| < MAX_PENDING && budget.Some? && Sufficient(content, budget.value)
      ensures shown.Some? ==> shown.value == ForPlan(freshId, content, runId, budget.value, disclosure, now)
      ensures pending == if shown.Some? then old(pending)[freshId := shown.value] else old(pending)
    {
      hide Sufficient, Mirrored;
      shown := None;
      if !acceptable || |pending| >= MAX_PENDING || budget.None? || !Sufficient(content, budget.value) {
        return;
      }
      var approval := ForPlan(freshId, content, runId, budget.value, disclosure, now);
      assert pending[freshId := approval].Keys == pending.Keys + {freshId};
      pending := pending[freshId := approval];
      shown := Some(approval);
    }

    /** Record exactly the previewed approval, with the budget now chosen, or refuse and record nothing. A
        plan that compares semantically must be confirmed with the budget and disclosure it was shown with. */
    method Confirm(authorizationId: string, content: PlanContent, runId: string, acceptable: bool, compares: bool, comparisonOk: bool,
                   budget: Option<Budget>, disclosure: Disclosure, now: int, lands: bool) returns (r: Confirmation)
      requires Ok()
      modifies this, store
      ensures Ok()
      ensures r.NotPending? <==> authorizationId !in old(pending)
      ensures authorizationId in old(pending) ==>
                var a := old(pending)[authorizationId];
                var verdict := Verify(a, content, runId, now, comparisonOk);
                var changed := compares && (budget != Some(a.budget) || disclosure != a.disclosure);
                && (r.Invalid? <==> !acceptable || (verdict.Valid? && budget.None?))
                && (r.Refused? <==> acceptable && !verdict.Valid?) && (r.Refused? ==> r.verdict == verdict)
                && (r.Changed? <==> acceptable && verdict.Valid? && budget.Some? && changed)
                && (r.DoesNotFit? <==> acceptable && verdict.Valid? && budget.Some? && !changed && !Sufficient(content, budget.value))
                && (r.Duplicate? || r.Confirmed? || r.Unsaved? <==>
                      acceptable && verdict.Valid? && budget.Some? && !changed && Sufficient(content, budget.value))
                && (r.Duplicate? ==> authorizationId in old(authorizations))
                && (r.Confirmed? || r.Unsaved? ==> authorizationId !in old(authorizations))
      ensures r.NotPending? || r.Invalid? || r.DoesNotFit? ==> pending == old(pending)
      ensures r.Refused? || r.Changed? ==> pending == old(pending) - {authorizationId}
      ensures r.Confirmed? || r.Unsaved? || r.Duplicate? ==> pending == old(pending) - {authorizationId}
      ensures compares && (r.Confirmed? || r.Unsaved? || r.Duplicate?) ==>
                budget == Some(old(pending)[authorizationId].budget) && disclosure == old(pending)[authorizationId].disclosure
      ensures r.Confirmed? || r.Unsaved? ==>
                && authorizationId in old(pending) && budget.Some? && Sufficient(content, budget.value)
                && Verify(old(pending)[authorizationId], content, runId, now, comparisonOk) == Valid
                && r.Confirmed? == lands
                && View() == Record(old(View()), old(pending)[authorizationId].(budget := budget.value), lands)
      ensures !r.Confirmed? && !r.Unsaved? ==> View() == old(View())
    {
      if authorizationId !in pending {
        return NotPending;
      }
      var approval := pending[authorizationId];
      if !acceptable {
        return Invalid;
      }
      var verdict := Verify(approval, content, runId, now, comparisonOk);
      if verdict != Valid {
        Discard(authorizationId);
        return Refused(verdict);
      }
      if budget.None? {
        return Invalid;
      }
      if compares && (budget.value != approval.budget || disclosure != approval.disclosure) {
        Discard(authorizationId);
        return Changed;
      }
      if !Sufficient(content, budget.value) {
        return DoesNotFit;
      }
      approval := approval.(budget := budget.value);
      Discard(authorizationId);
      if approval.id in authorizations {
        return Duplicate;
      }
      var saved := Add(approval, lands);
      r := if saved then Confirmed else Unsaved;
    }

    method Discard(authorizationId: string)
      requires Ok() && authorizationId in pending
      modifies this`pending
      ensures Ok() && pending == old(pending) - {authorizationId}
    {
      assert (pending - {authorizationId}).Keys == pending.Keys - {authorizationId};
      pending := pending - {authorizationId};
    }

    method Add(approval: Authorization, lands: bool) returns (saved: bool)
      requires Ok() && approval.id !in authorizations && approval.consumption.None?
      modifies this`authorizations, store
      ensures Ok() && saved == lands && View() == Record(old(View()), approval, lands)
    {
      authorizations := authorizations[approval.id := approval];
      saved := store.Save(authorizations, lands);
    }

    /** Record one human approval of an already derived plan; nothing unless it became durable. */
    method RecordForPlan(content: PlanContent, runId: string, acceptable: bool, budget: Budget, disclosure: Disclosure,
                         freshId: string, now: int, lands: bool) returns (approval: Option<Authorization>)
      requires Ok()
      modifies this`authorizations, store
      ensures Ok()
      ensures approval.Some? <==> acceptable && Sufficient(content, budget) && freshId !in old(authorizations) && lands
      ensures approval.Some? ==>
                && approval.value == ForPlan(freshId, content, runId, budget, disclosure, now)
                && freshId in View().saved && View().saved[freshId] == approval.value
      ensures View() == if acceptable && Sufficient(content, budget) && freshId !in old(authorizations)
                        then Record(old(View()), ForPlan(freshId, content, runId, budget, disclosure, now), lands) else old(View())
      ensures pending == old(pending)
    {
      approval := None;
      if !acceptable || !Sufficient(content, budget) || freshId in authorizations {
        return;
      }
      var made := ForPlan(freshId, content, runId, budget, disclosure, now);
      var saved := Add(made, lands);
      if saved {
        approval := Some(made);
      }
    }

    /** Spend one approval on one execution, or refuse and spend nothing. A permitting answer means
        the store already holds the approval as spent on that execution. */
    method ConsumeForExecution(q: Request, lands: bool) returns (verdict: Verdict, spent: Option<Authorization>)
      requires Ok()
      modifies this`authorizations, store
      ensures Ok()
      ensures (View(), verdict) == Consume(old(View()), q, lands)
      ensures SpentForGood(old(View()).saved, View().saved)
      ensures verdict == Valid <==> spent.Some?
      ensures spent.Some? <==> q.authorizationId in old(authorizations) && Permits(old(authorizations)[q.authorizationId], q) && lands
      ensures spent.Some? ==> spent.value.(consumption := None) == old(authorizations)[q.authorizationId]
      ensures spent.Some? ==>
                && q.authorizationId in View().saved && View().saved[q.authorizationId] == spent.value
                && spent.value.consumption == Some(Consumption(q.executionId, q.now))
                && q.authorizationId in old(authorizations) && old(authorizations)[q.authorizationId].consumption.None?
    {
      spent := None;
      JudgeLaw(authorizations, q);
      verdict := Judge(authorizations, q);
      if verdict != Valid {
        return;
      }
      var previous := authorizations[q.authorizationId];
      var marked := Spent(previous, q);
      var before := authorizations;
      authorizations := authorizations[q.authorizationId := marked];
      var saved := store.Save(authorizations, lands);
      if !saved {
        authorizations := authorizations[q.authorizationId := previous];
        assert authorizations == before;
        return NotRecorded, None;
      }
      spent := Some(marked);
    }

    /** The approval spent on this exact execution, if any. */
    method AuthorizationForExecution(executionId: string) returns (found: Option<Authorization>)
      ensures found.Some? ==>
                && found.value in authorizations.Values && found.value.consumption.Some?
                && found.value.consumption.value.executionId == executionId
      ensures found.None? ==>
                forall id :: id in authorizations && authorizations[id].consumption.Some? ==>
                               authorizations[id].consumption.value.executionId != executionId
    {
      var unseen := authorizations.Keys;
      found := None;
      while unseen != {}
        invariant unseen <= authorizations.Keys
        invariant forall id :: id in authorizations && id !in unseen && authorizations[id].consumption.Some? ==>
                                 authorizations[id].consumption.value.executionId != executionId
        decreases |unseen|
      {
        var id :| id in unseen;
        var a := authorizations[id];
        if a.consumption.Some? && a.consumption.value.executionId == executionId {
          return Some(a);
        }
        unseen := unseen - {id};
      }
    }
  }
}
