/** The consume-before-dispatch gate for reviewed Kali operations, and the approver that shares its store. */
module Kali {
  import opened Options

  /** Every fact an approval binds besides the operation itself. */
  datatype Binding = Binding(program: string, revision: string, revisionDigest: string, policyDigest: string)

  datatype Approval = Approval(id: string, digest: string, binding: Binding, authorizedAt: int, expiresAt: int)

  const VALIDITY_SECONDS := 300

  datatype Preview = Preview(digest: string, binding: Binding)

  datatype Stage = RequestStage | ScopePolicy | Authorization | RuntimeReadiness | AuthorizationConsumption | Dispatch

  /** One request to run an operation, and what its gates meet outside the service. */
  datatype RunRequest = RunRequest(
    optIn: bool,
    authorizationId: string,
    expectedDigest: Option<string>,   // None: not a digest at all
    preview: Option<Preview>,         // None: scope or policy refuses
    supported: bool,
    loads: bool,
    now: int,
    ready: bool,
    consumptionLands: bool,
    adapterReturns: bool)

  datatype Outcome = Failed(stage: Stage) | Ran(authorizationId: string)

  function Ids(list: seq<Approval>): set<string> { set a | a in list :: a.id }

  predicate Distinct(list: seq<Approval>) {
    forall i, j :: 0 <= i < j < |list| ==> list[i].id != list[j].id
  }

  function WithId(list: seq<Approval>, id: string): (r: seq<Approval>)
    ensures forall a :: a in r <==> a in list && a.id == id
  {
    if list == [] then []
    else if list[0].id == id then [list[0]] + WithId(list[1..], id) else WithId(list[1..], id)
  }

  /** `authorizations_excluding`. */
  function Excluding(list: seq<Approval>, id: string): (r: seq<Approval>)
    ensures forall a :: a in r <==> a in list && a.id != id
    ensures |r| <= |list|
  {
    if list == [] then []
    else if list[0].id == id then Excluding(list[1..], id) else [list[0]] + Excluding(list[1..], id)
  }

  predicate Authorizes(a: Approval, id: string, p: Preview, now: int) {
    a.id == id && now < a.expiresAt && a.digest == p.digest && a.binding == p.binding
  }

  /** `find_exact_kali_operation_authorization`: exactly one record has the identity, and it matches exactly. */
  function FindExact(list: seq<Approval>, id: string, p: Preview, now: int): Option<Approval> {
    var matches := WithId(list, id);
    if |matches| != 1 || !Authorizes(matches[0], id, p, now) then None else Some(matches[0])
  }

  lemma {:induction false} NoneHasIt(list: seq<Approval>, id: string)
    requires forall a :: a in list ==> a.id != id
    ensures WithId(list, id) == []
  {
    if list != [] {
      NoneHasIt(list[1..], id);
    }
  }

  lemma {:induction false} DistinctHasOne(list: seq<Approval>, a: Approval)
    requires Distinct(list) && a in list
    ensures WithId(list, a.id) == [a]
  {
    if list[0] == a {
      NoneHasIt(list[1..], a.id);
    } else {
      assert a in list[1..];
      DistinctHasOne(list[1..], a);
    }
  }

  /** With distinct identities the gate finds an approval exactly when one is stored that authorizes
      this preview now. */
  lemma FoundIffAuthorized(list: seq<Approval>, id: string, p: Preview, now: int)
    requires Distinct(list)
    ensures FindExact(list, id, p, now).Some? <==> exists a :: a in list && Authorizes(a, id, p, now)
    ensures FindExact(list, id, p, now).Some? ==>
              FindExact(list, id, p, now).value in list && Authorizes(FindExact(list, id, p, now).value, id, p, now)
  {
    if FindExact(list, id, p, now).Some? {
      assert WithId(list, id)[0] in WithId(list, id);
    } else if a :| a in list && Authorizes(a, id, p, now) {
      DistinctHasOne(list, a);
    }
  }

  lemma {:induction false} ExcludingKeepsDistinct(list: seq<Approval>, id: string)
    requires Distinct(list)
    ensures Distinct(Excluding(list, id)) && Ids(Excluding(list, id)) == Ids(list) - {id}
  {
    if list != [] {
      ExcludingKeepsDistinct(list[1..], id);
      var rest := Excluding(list[1..], id);
      assert forall a :: a in rest ==> a in list[1..] && a.id != list[0].id;
    }
  }

  lemma {:induction false} ExcludingNothing(list: seq<Approval>, id: string)
    requires forall a :: a in list ==> a.id != id
    ensures Excluding(list, id) == list
  {
    if list != [] {
      ExcludingNothing(list[1..], id);
    }
  }

  lemma ExcludingFirst(x: Approval, rest: seq<Approval>, id: string)
    ensures Excluding([x] + rest, id) == (if x.id == id then [] else [x]) + Excluding(rest, id)
  {
    assert ([x] + rest)[1..] == rest;
  }

  lemma Spliced(list: seq<Approval>, k: nat)
    requires 0 < k < |list|
    ensures [list[0]] + (list[1..][..k - 1] + list[1..][k..]) == list[..k] + list[k + 1..]
  {
  }

  /** Taking an identity out takes one approval out of the list and leaves the others in their order. */
  lemma {:induction false} ExcludingTakesOneOut(list: seq<Approval>, k: nat)
    requires k < |list| && forall j :: 0 <= j < |list| && j != k ==> list[j].id != list[k].id
    ensures Excluding(list, list[k].id) == list[..k] + list[k + 1..]
  {
    hide Excluding;
    var id, rest := list[k].id, list[1..];
    assert list == [list[0]] + rest;
    assert Excluding(list, id) == (if k == 0 then [] else [list[0]]) + Excluding(rest, id) by {
      ExcludingFirst(list[0], rest, id);
    }
    if k == 0 {
      assert Excluding(rest, id) == rest by {
        ExcludingNothing(rest, id);
      }
    } else {
      assert Excluding(rest, id) == rest[..k - 1] + rest[k..] by {
        assert rest[k - 1] == list[k];
        ExcludingTakesOneOut(rest, k - 1);
      }
      Spliced(list, k);
    }
  }

  // -- the store and what has happened to it -----------------------------------------------

  /** The durable approvals, with the identities ever made durable, those consumed, and every
      dispatch, the last three kept for the proofs. */
  datatype Vault = Vault(stored: seq<Approval>, issued: set<string>, consumed: set<string>, dispatched: seq<string>)

  /** The gate a request fails at, if any. */
  function FirstFailure(stored: seq<Approval>, q: RunRequest): Option<Stage> {
    if !q.optIn || q.authorizationId == "" || q.expectedDigest.None? then Some(RequestStage)
    else if q.preview.None? || q.preview.value.digest != q.expectedDigest.value || !q.supported then Some(ScopePolicy)
    else if !q.loads || FindExact(stored, q.authorizationId, q.preview.value, q.now).None? then Some(Authorization)
    else if !q.ready then Some(RuntimeReadiness)
    else if !q.consumptionLands then Some(AuthorizationConsumption)
    else None
  }

  /** The request names itself and what it expects. */
  predicate Asked(q: RunRequest) { q.optIn && q.authorizationId != "" && q.expectedDigest.Some? }

  /** Scope and policy allow it, as exactly the operation that was expected, and it is supported. */
  predicate Allowed(q: RunRequest) { Asked(q) && q.preview.Some? && Some(q.preview.value.digest) == q.expectedDigest && q.supported }

  /** The store can be read and holds an approval under this identity, of this very operation, not expired. */
  predicate Approved(stored: seq<Approval>, q: RunRequest) {
    && Allowed(q) && q.loads
    && exists i :: 0 <= i < |stored| && stored[i].id == q.authorizationId && stored[i].digest == q.preview.value.digest
                   && stored[i].binding == q.preview.value.binding && q.now < stored[i].expiresAt
  }

  /** A request fails at the first gate that does not open, the opt-in before everything else, support before
      the approval is looked for, readiness before it is consumed; and at none only when all do. */
  lemma GatesInOrder(stored: seq<Approval>, q: RunRequest)
    requires Distinct(stored)
    ensures var gate := FirstFailure(stored, q);
            && (gate == Some(RequestStage) <==> !Asked(q))
            && (gate == Some(ScopePolicy) <==> Asked(q) && !Allowed(q))
            && (gate == Some(Authorization) <==> Allowed(q) && !Approved(stored, q))
            && (gate == Some(RuntimeReadiness) <==> Approved(stored, q) && !q.ready)
            && (gate == Some(AuthorizationConsumption) <==> Approved(stored, q) && q.ready && !q.consumptionLands)
            && (gate == None <==> Approved(stored, q) && q.ready && q.consumptionLands)
  {
    if Allowed(q) {
      FoundIffAuthorized(stored, q.authorizationId, q.preview.value, q.now);
    }
  }

  function Consumed(v: Vault, id: string): Vault {
    v.(stored := Excluding(v.stored, id), consumed := v.consumed + {id})
  }

  /** One whole `run`: the approval leaves the store, and only then the operation is dispatched. */
  function AfterRun(v: Vault, q: RunRequest): Vault {
    if FirstFailure(v.stored, q).Some? then v
    else Consumed(v, q.authorizationId).(dispatched := v.dispatched + [q.authorizationId])
  }

  function OutcomeOf(v: Vault, q: RunRequest): Outcome {
    if FirstFailure(v.stored, q).Some? then Failed(FirstFailure(v.stored, q).value)
    else if q.adapterReturns then Ran(q.authorizationId) else Failed(Dispatch)
  }

  /** A run dispatches only past every gate, and then its approval, and no other, has left the store and is
      consumed; past any other gate nothing has happened. It fails at dispatch only when the adapter did. */
  lemma RunLaw(v: Vault, q: RunRequest)
    requires Conserved(v)
    ensures var (after, outcome) := (AfterRun(v, q), OutcomeOf(v, q));
            if Approved(v.stored, q) && q.ready && q.consumptionLands then
              && after.dispatched == v.dispatched + [q.authorizationId] && after.consumed == v.consumed + {q.authorizationId}
              && q.authorizationId !in v.consumed && after.issued == v.issued
              && (forall a :: a in after.stored <==> a in v.stored && a.id != q.authorizationId)
              && outcome == (if q.adapterReturns then Ran(q.authorizationId) else Failed(Dispatch))
            else after == v && outcome.Failed? && Some(outcome.stage) == FirstFailure(v.stored, q)
  {
    GatesInOrder(v.stored, q);
    hide FirstFailure;
    assert Approved(v.stored, q) ==> q.authorizationId in Ids(v.stored);
  }

  /** The save half of an approval, which writes the document it loaded with the new approval added. */
  function SavedOver(loaded: seq<Approval>, v: Vault, a: Approval, lands: bool): Vault {
    if a.id in Ids(loaded) || !lands then v else v.(stored := loaded + [a], issued := v.issued + {a.id})
  }

  /** One whole approval, over a cache just read from the store. */
  function AfterApproval(v: Vault, a: Approval, lands: bool): Vault { SavedOver(v.stored, v, a, lands) }

  datatype Action = Approve(approval: Approval, lands: bool) | Run(request: RunRequest)

  /** Identifiers are minted fresh: a new approval never has the identity of an earlier one. */
  function Next(v: Vault, a: Action): Option<Vault> {
    match a
    case Approve(approval, lands) => if approval.id in v.issued then None else Some(AfterApproval(v, approval, lands))
    case Run(q) => Some(AfterRun(v, q))
  }

  function Exec(v: Vault, run: seq<Action>): Option<Vault>
    decreases |run|
  {
    if run == [] then Some(v)
    else
      var n := Next(v, run[0]);
      if n.None? then None else Exec(n.value, run[1..])
  }

  /** Stored approvals are exactly the issued ones less the consumed ones, and each dispatch has its
      own consumption. */
  predicate Conserved(v: Vault) {
    && Distinct(v.stored)
    && v.consumed <= v.issued
    && Ids(v.stored) == v.issued - v.consumed
    && (forall i :: 0 <= i < |v.dispatched| ==> v.dispatched[i] in v.consumed)
    && (forall i, j :: 0 <= i < j < |v.dispatched| ==> v.dispatched[i] != v.dispatched[j])
  }

  lemma RunConserves(v: Vault, q: RunRequest)
    requires Conserved(v)
    ensures Conserved(AfterRun(v, q))
  {
    if FirstFailure(v.stored, q).None? {
      FoundIffAuthorized(v.stored, q.authorizationId, q.preview.value, q.now);
      ExcludingKeepsDistinct(v.stored, q.authorizationId);
      assert q.authorizationId in Ids(v.stored);
    }
  }

  lemma ApprovalConserves(v: Vault, a: Approval, lands: bool)
    requires Conserved(v) && a.id !in v.issued
    ensures Conserved(AfterApproval(v, a, lands))
  {
    var n := AfterApproval(v, a, lands);
    if n != v {
      assert forall b :: b in v.stored ==> b.id in Ids(v.stored);
      assert Ids(n.stored) == Ids(v.stored) + {a.id};
    }
  }

  /** Conservation over every sequence of approvals and runs, with saves failing anywhere. */
  lemma {:induction false} ApprovalsAreConserved(v: Vault, run: seq<Action>)
    requires Conserved(v) && Exec(v, run).Some?
    ensures Conserved(Exec(v, run).value)
    ensures v.consumed <= Exec(v, run).value.consumed && v.dispatched <= Exec(v, run).value.dispatched
    decreases |run|
  {
    if run != [] {
      match run[0] {
        case Approve(a, lands) => ApprovalConserves(v, a, lands);
        case Run(q) => RunConserves(v, q);
      }
      ApprovalsAreConserved(Next(v, run[0]).value, run[1..]);
    }
  }

  /** A spent approval never comes back, whatever is approved or run afterwards. */
  lemma SpentStaysSpent(v: Vault, run: seq<Action>, id: string)
    requires Conserved(v) && Exec(v, run).Some? && id in v.consumed
    ensures id !in Ids(Exec(v, run).value.stored)
  {
    ApprovalsAreConserved(v, run);
  }

  lemma AddingToDistinct(list: seq<Approval>, a: Approval)
    requires Distinct(list) && a.id !in Ids(list)
    ensures Distinct(list + [a]) && Ids(list + [a]) == Ids(list) + {a.id}
  {
    assert forall b :: b in list ==> b.id in Ids(list);
  }

  /** An approver loads the document, anything is approved and run, and the approver saves what it loaded
      with its new approval. A consumed identifier is stored again if and only if something it loaded was
      consumed in between; and approvals are still conserved if and only if the store had come to hold
      the same approvals as before. */
  lemma OverlappingApprovalRevives(v: Vault, run: seq<Action>, another: Approval)
    requires Conserved(v) && Exec(v, run).Some? && another.id !in Exec(v, run).value.issued
    ensures var now := Exec(v, run).value;
            var saved := SavedOver(v.stored, now, another, true);
            && Conserved(now)
            && (Ids(saved.stored) * saved.consumed != {} <==> Ids(v.stored) * (now.consumed - v.consumed) != {})
            && (Conserved(saved) <==> Ids(v.stored) == Ids(now.stored))
  {
    ApprovalsAreConserved(v, run);
    IssuedGrow(v, run);
    var now := Exec(v, run).value;
    assert another.id !in v.issued;
    AddingToDistinct(v.stored, another);
    var saved := SavedOver(v.stored, now, another, true);
    assert Ids(saved.stored) * saved.consumed == Ids(v.stored) * (now.consumed - v.consumed);
    assert saved.issued - saved.consumed == Ids(now.stored) + {another.id};
    if Ids(saved.stored) == saved.issued - saved.consumed {
      assert Ids(v.stored) == Ids(saved.stored) - {another.id};
      assert Ids(now.stored) == saved.issued - saved.consumed - {another.id};
    }
  }

  lemma {:induction false} IssuedGrow(v: Vault, run: seq<Action>)
    requires Exec(v, run).Some?
    ensures v.issued <= Exec(v, run).value.issued
    decreases |run|
  {
    if run != [] {
      IssuedGrow(Next(v, run[0]).value, run[1..]);
    }
  }

  /** Such an approval is not merely listed: a request that could run at the load still can after the save,
      however often it has run since. */
  lemma RevivedApprovalRunsAgain(v: Vault, run: seq<Action>, q: RunRequest, another: Approval)
    requires Conserved(v) && FirstFailure(v.stored, q).None?
    requires Exec(v, run).Some? && another.id !in Exec(v, run).value.issued
    ensures FirstFailure(SavedOver(v.stored, Exec(v, run).value, another, true).stored, q).None?
  {
    IssuedGrow(v, run);
    FoundIffAuthorized(v.stored, q.authorizationId, q.preview.value, q.now);
    var a := FindExact(v.stored, q.authorizationId, q.preview.value, q.now).value;
    var saved := v.stored + [another];
    assert a in saved;
    AddingToDistinct(v.stored, another);
    FoundIffAuthorized(saved, q.authorizationId, q.preview.value, q.now);
  }

  // -- the services ---------------------------------------------------------------------------

  class ApprovalStore {
    var saved: seq<Approval>
    ghost var vault: Vault

    ghost predicate Ok()
      reads this
    {
      vault.stored == saved && Conserved(vault)
    }

    constructor ()
      ensures Ok() && saved == []
    {
      saved := [];
      vault := Vault([], {}, {}, []);
    }

    /** An atomic replacement of the whole document: it lands whole or changes nothing. */
    method Save(document: seq<Approval>, lands: bool) returns (ok: bool)
      modifies this`saved
      ensures ok == lands && saved == if lands then document else old(saved)
    {
      if lands {
        saved := document;
      }
      ok := lands;
    }
  }

  class Gateway {
    const store: ApprovalStore

    constructor (store: ApprovalStore)
      ensures this.store == store
    {
      this.store := store;
    }

    /** Check every gate anew; consume once, dispatch once, never retry. */
    method Run(q: RunRequest) returns (outcome: Outcome)
      requires store.Ok()
      modifies store
      ensures store.Ok() && store.vault == AfterRun(old(store.vault), q) && outcome == OutcomeOf(old(store.vault), q)
    {
      RunConserves(store.vault, q);
      var stage := RequestStage;
      if !q.optIn || q.authorizationId == "" || q.expectedDigest.None? {
        return Failed(stage);
      }
      stage := ScopePolicy;
      if q.preview.None? || q.preview.value.digest != q.expectedDigest.value || !q.supported {
        return Failed(stage);
      }
      stage := Authorization;
      if !q.loads {
        return Failed(stage);
      }
      var approvals := store.saved;
      var found := FindExact(approvals, q.authorizationId, q.preview.value, q.now);
      if found.None? {
        return Failed(stage);
      }
      stage := RuntimeReadiness;
      if !q.ready {
        return Failed(stage);
      }
      FoundIffAuthorized(approvals, q.authorizationId, q.preview.value, q.now);
      var remaining := Excluding(approvals, found.value.id);
      stage := AuthorizationConsumption;
      var consumed := store.Save(remaining, q.consumptionLands);
      if !consumed {
        return Failed(stage);
      }
      store.vault := Consumed(store.vault, q.authorizationId);
      stage := Dispatch;
      store.vault := store.vault.(dispatched := store.vault.dispatched + [q.authorizationId]);
      outcome := if q.adapterReturns then Ran(q.authorizationId) else Failed(stage);
    }
  }

  class Approver {
    const store: ApprovalStore
    var cache: seq<Approval>   // the dictionary, in the order of its keys

    constructor (store: ApprovalStore)
      requires store.Ok()
      ensures this.store == store && cache == store.saved
    {
      this.store := store;
      cache := store.saved;
    }

    method Restore(loads: bool) returns (ok: bool)
      modifies this
      ensures ok == loads && cache == if loads then store.saved else old(cache)
    {
      ok := loads;
      if loads {
        cache := store.saved;
      }
    }

    /** Approve one exact preview: refresh, add, save, and forget it again when the save did not land.
        However stale the cache was, nothing spent comes back. */
    method Authorize(expectedDigest: Option<string>, preview: Option<Preview>, freshId: string, now: int, loads: bool, lands: bool)
      returns (r: Option<Approval>)
      requires store.Ok() && freshId !in store.vault.issued
      modifies this, store
      ensures store.Ok()
      ensures r.Some? <==> expectedDigest.Some? && preview.Some? && preview.value.digest == expectedDigest.value && loads && lands
      ensures r.Some? ==> r.value == Approval(freshId, preview.value.digest, preview.value.binding, now, now + 300)
      ensures store.vault == if r.Some? then AfterApproval(old(store.vault), r.value, true) else old(store.vault)
      ensures r.Some? ==> cache == store.saved && r.value in store.saved
      ensures r.Some? ==> store.saved == old(store.saved) + [r.value]
      ensures r.None? ==> store.saved == old(store.saved) && (cache == old(cache) || cache == store.saved)
    {
      r := None;
      if expectedDigest.None? || preview.None? || preview.value.digest != expectedDigest.value {
        return;
      }
      var loaded := Restore(loads);
      if !loaded {
        return;
      }
      var approval := Approval(freshId, preview.value.digest, preview.value.binding, now, now + VALIDITY_SECONDS);
      assert forall a :: a in cache ==> a.id in Ids(store.vault.stored);
      if exists a :: a in cache && a.id == freshId {
        return;
      }
      ApprovalConserves(store.vault, approval, true);
      cache := cache + [approval];
      var saved := store.Save(cache, lands);
      if !saved {
        cache := cache[..|cache| - 1];
        return;
      }
      store.vault := AfterApproval(store.vault, approval, true);
      r := Some(approval);
    }
  }
}
