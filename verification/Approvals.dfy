/** One-use approvals: what verifies, what it costs, and what spending one does to the
    approvals in memory and in the store. Over every run an approval permits at most once. */
module Approvals {
  import opened Options
  import opened Allowances
  import opened Plans

  /** The execution an approval was spent on, and when. */
  datatype Consumption = Consumption(executionId: string, at: int)

  datatype Authorization = Authorization(
    id: string,
    digest: PlanContent,
    runId: string,
    capabilities: set<Capability>,
    restrictions: set<string>,
    budget: Budget,
    disclosure: Disclosure,
    authorizedAt: int,
    expiresAt: int,
    consumption: Option<Consumption>)

  datatype Verdict =
    | Valid
    | Unknown
    | DigestMismatch
    | RunMismatch
    | CapabilityMismatch
    | RestrictionMismatch
    | ComparisonRefused
    | AlreadyConsumed
    | Expired
    | BudgetExceeded
    | DisclosureUnsatisfied
    | NotRecorded

  const VALIDITY_SECONDS := 3600
  const MAX_PENDING: nat := 20

  function CapabilitiesOf(c: PlanContent): set<Capability> {
    set s | s in c.steps :: s.capability
  }

  function ForPlan(id: string, c: PlanContent, runId: string, budget: Budget, disclosure: Disclosure, now: int): Authorization {
    Authorization(id, c, runId, CapabilitiesOf(c), c.restrictions, budget, disclosure, now, now + VALIDITY_SECONDS, None)
  }

  /** `verify_plan_authorization`, in its fixed order. `comparisonOk` stands for the semantic-comparison rules. */
  function Verify(a: Authorization, c: PlanContent, runId: string, now: int, comparisonOk: bool): Verdict {
    if a.digest != c then DigestMismatch
    else if a.runId != runId then RunMismatch
    else if a.capabilities != CapabilitiesOf(c) then CapabilityMismatch
    else if a.restrictions != c.restrictions then RestrictionMismatch
    else if !comparisonOk then ComparisonRefused
    else if a.consumption.Some? then AlreadyConsumed
    else if now >= a.expiresAt then Expired
    else Valid
  }

  /** `_within`: every bound separately. */
  predicate WithinBudget(asked: Budget, granted: Budget) {
    asked.steps <= granted.steps && asked.network <= granted.network && asked.llm <= granted.llm && asked.seconds <= granted.seconds
  }

  predicate PermittedDisclosure(asked: Disclosure, granted: Disclosure) { asked.Rank() <= granted.Rank() }

  /** One clean pass over the authored steps. */
  function RequiredCost(steps: seq<PlanStep>): Cost {
    if steps == [] then Cost(0, 0)
    else
      var rest := RequiredCost(steps[1..]);
      var c := CostFor(steps[0].capability);
      Cost(c.network + rest.network, c.llm + rest.llm)
  }

  predicate Sufficient(c: PlanContent, b: Budget) {
    && RequiredCost(c.steps).network <= b.network
    && RequiredCost(c.steps).llm <= b.llm
    && |c.steps| <= b.steps
  }

  /** Approvals in memory beside the approvals in the store. */
  datatype Book = Book(recorded: map<string, Authorization>, saved: map<string, Authorization>)

  /** One question of the execution service: may this execution begin? */
  datatype Request = Request(
    authorizationId: string,
    content: PlanContent,
    runId: string,
    executionId: string,
    now: int,
    comparisonOk: bool,
    budget: Option<Budget>,
    disclosure: Option<Disclosure>)

  /** Everything `consume_for_execution` checks before it writes. */
  function Judge(recorded: map<string, Authorization>, q: Request): Verdict {
    if q.authorizationId !in recorded then Unknown
    else
      var a := recorded[q.authorizationId];
      var verdict := Verify(a, q.content, q.runId, q.now, q.comparisonOk);
      if verdict != Valid then verdict
      else if q.budget.Some? && !WithinBudget(q.budget.value, a.budget) then BudgetExceeded
      else if q.disclosure.Some? && !PermittedDisclosure(q.disclosure.value, a.disclosure) then DisclosureUnsatisfied
      else Valid
  }

  /** The approval is for exactly this plan, its capabilities and restrictions, and this run, under the rules
      for comparison plans; it is unspent and unexpired, and covers what is asked of it, bound by bound. */
  predicate Permits(a: Authorization, q: Request) {
    && a.digest == q.content && a.runId == q.runId && q.comparisonOk && a.consumption.None? && q.now < a.expiresAt
    && (forall cap :: cap in a.capabilities <==> exists s :: s in q.content.steps && s.capability == cap)
    && a.restrictions == q.content.restrictions
    && (q.budget.Some? ==>
          && q.budget.value.steps <= a.budget.steps && q.budget.value.network <= a.budget.network
          && q.budget.value.llm <= a.budget.llm && q.budget.value.seconds <= a.budget.seconds)
    && (q.disclosure.Some? ==> q.disclosure.value.Undisclosed? || q.disclosure.value == a.disclosure || a.disclosure.RemotePermitted?)
  }

  lemma CapabilitiesLaw(a: Authorization, c: PlanContent)
    ensures a.capabilities == CapabilitiesOf(c) <==> forall cap :: cap in a.capabilities <==> exists s :: s in c.steps && s.capability == cap
  {
  }

  /** The approval is for this very plan and run. */
  predicate SamePlanAndRun(a: Authorization, q: Request) { a.digest == q.content && a.runId == q.runId }

  /** It names exactly the capabilities of the plan's steps. */
  predicate SameCapabilities(a: Authorization, q: Request) {
    a.capabilities == set s | s in q.content.steps :: s.capability
  }

  /** Nothing is wrong with the approval itself. */
  predicate Standing(a: Authorization, q: Request) {
    && SamePlanAndRun(a, q) && SameCapabilities(a, q) && a.restrictions == q.content.restrictions
    && q.comparisonOk && a.consumption.None? && q.now < a.expiresAt
  }

  predicate BudgetFits(a: Authorization, q: Request) {
    q.budget.Some? ==>
      && q.budget.value.steps <= a.budget.steps && q.budget.value.network <= a.budget.network
      && q.budget.value.llm <= a.budget.llm && q.budget.value.seconds <= a.budget.seconds
  }

  /** A request is valid exactly when a recorded approval permits it; otherwise the answer names the first
      thing that is wrong, in this order. */
  lemma JudgeLaw(recorded: map<string, Authorization>, q: Request)
    ensures var v := Judge(recorded, q);
            && (v.Valid? <==> q.authorizationId in recorded && Permits(recorded[q.authorizationId], q))
            && (v.Unknown? <==> q.authorizationId !in recorded)
            && !v.NotRecorded?
            && (q.authorizationId in recorded ==>
                  var a := recorded[q.authorizationId];
                  var (same, capable, restricted) := (SamePlanAndRun(a, q), SameCapabilities(a, q), a.restrictions == q.content.restrictions);
                  && (v.DigestMismatch? <==> a.digest != q.content)
                  && (v.RunMismatch? <==> a.digest == q.content && a.runId != q.runId)
                  && (v.CapabilityMismatch? <==> same && !capable)
                  && (v.RestrictionMismatch? <==> same && capable && !restricted)
                  && (v.ComparisonRefused? <==> same && capable && restricted && !q.comparisonOk)
                  && (v.AlreadyConsumed? <==> same && capable && restricted && q.comparisonOk && a.consumption.Some?)
                  && (v.Expired? <==> same && capable && restricted && q.comparisonOk && a.consumption.None? && q.now >= a.expiresAt)
                  && (v.BudgetExceeded? <==> Standing(a, q) && !BudgetFits(a, q))
                  && (v.DisclosureUnsatisfied? <==> Standing(a, q) && BudgetFits(a, q) && !Permits(a, q)))
  {
    if q.authorizationId in recorded {
      CapabilitiesLaw(recorded[q.authorizationId], q.content);
    }
  }

  function Spent(a: Authorization, q: Request): Authorization {
    a.(consumption := Some(Consumption(q.executionId, q.now)))
  }

  /** The write half: mark spent, save, and roll back in memory when the save did not land. */
  function Write(b: Book, q: Request, lands: bool): (Book, Verdict)
    requires q.authorizationId in b.recorded
  {
    var spent := b.recorded[q.authorizationId := Spent(b.recorded[q.authorizationId], q)];
    if lands then (Book(spent, spent), Valid) else (b, NotRecorded)
  }

  function Consume(b: Book, q: Request, lands: bool): (Book, Verdict) {
    var verdict := Judge(b.recorded, q);
    if verdict != Valid then (b, verdict) else Write(b, q, lands)
  }

  /** A confirmed or directly recorded approval stays in memory even when its save did not land. */
  function Record(b: Book, a: Authorization, lands: bool): Book {
    var recorded := b.recorded[a.id := a];
    Book(recorded, if lands then recorded else b.saved)
  }

  function Reopen(b: Book): Book { Book(b.saved, b.saved) }

  // -- runs --------------------------------------------------------------------

  /** A permitting answer, kept for the proofs. */
  datatype Permit = Permit(authorizationId: string, executionId: string, budget: Budget)

  datatype Desk = Desk(book: Book, permits: seq<Permit>)

  datatype Action =
    | AddApproval(approval: Authorization, landed: bool)
    | AskToStart(request: Request, landed: bool)
    | Restart

  function Next(d: Desk, a: Action): Option<Desk> {
    match a
    case AddApproval(approval, landed) =>
      if approval.id in d.book.recorded || approval.consumption.Some? then None
      else Some(d.(book := Record(d.book, approval, landed)))
    case AskToStart(q, landed) =>
      var (book, verdict) := Consume(d.book, q, landed);
      Some(Desk(book, if verdict == Valid
                      then d.permits + [Permit(q.authorizationId, q.executionId, d.book.recorded[q.authorizationId].budget)]
                      else d.permits))
    case Restart => Some(d.(book := Reopen(d.book)))
  }

  function Exec(d: Desk, run: seq<Action>): Option<Desk>
    decreases |run|
  {
    if run == [] then Some(d)
    else
      var n := Next(d, run[0]);
      if n.None? then None else Exec(n.value, run[1..])
  }

  const EmptyDesk := Desk(Book(map[], map[]), [])

  /** The store never holds more than memory does. */
  predicate Mirrored(b: Book) {
    && (forall id :: id in b.saved ==> id in b.recorded && b.recorded[id] == b.saved[id])
    && (forall id :: id in b.recorded && b.recorded[id].consumption.Some? ==> id in b.saved)
  }

  predicate Names(saved: map<string, Authorization>, p: Permit) {
    && p.authorizationId in saved
    && saved[p.authorizationId].consumption.Some?
    && saved[p.authorizationId].consumption.value.executionId == p.executionId
    && saved[p.authorizationId].budget == p.budget
  }

  predicate DeskInv(d: Desk) {
    && Mirrored(d.book)
    && (forall i :: 0 <= i < |d.permits| ==> Names(d.book.saved, d.permits[i]))
    && (forall i, j :: 0 <= i < j < |d.permits| ==> d.permits[i].authorizationId != d.permits[j].authorizationId)
    && (forall id :: id in d.book.saved && d.book.saved[id].consumption.Some? ==>
          exists i :: 0 <= i < |d.permits| && d.permits[i].authorizationId == id)
  }

  /** No spent approval is ever changed, let alone made available again. */
  predicate SpentForGood(before: map<string, Authorization>, after: map<string, Authorization>) {
    forall id :: id in before && before[id].consumption.Some? ==> id in after && after[id] == before[id]
  }

  lemma EmptyDeskSatisfiesInv()
    ensures DeskInv(EmptyDesk)
  {
  }

  /** An approval given for a plan verifies for exactly that plan and run, unspent, until it expires. */
  lemma VerifiesExactlyWhatWasApproved(id: string, c: PlanContent, runId: string, budget: Budget, disclosure: Disclosure, given: int,
                                       asked: PlanContent, askedRun: string, now: int, comparisonOk: bool)
    ensures Verify(ForPlan(id, c, runId, budget, disclosure, given), asked, askedRun, now, comparisonOk) == Valid <==>
            asked == c && askedRun == runId && comparisonOk && now < given + VALIDITY_SECONDS
  {
  }

  /** What a recorded approval says, and what spending it changes: who it was spent on, and when. */
  lemma ApprovalLaw(id: string, c: PlanContent, runId: string, budget: Budget, disclosure: Disclosure, now: int, q: Request)
    ensures var a := ForPlan(id, c, runId, budget, disclosure, now);
            && a.id == id && a.digest == c && a.runId == runId && a.budget == budget && a.disclosure == disclosure
            && a.authorizedAt == now && a.expiresAt == now + 3600 && a.consumption.None? && a.restrictions == c.restrictions
            && (forall cap :: cap in a.capabilities <==> exists s :: s in c.steps && s.capability == cap)
            && Spent(a, q).(consumption := None) == a && Spent(a, q).consumption == Some(Consumption(q.executionId, q.now))
  {
    CapabilitiesLaw(ForPlan(id, c, runId, budget, disclosure, now), c);
  }

  lemma AskKeepsPermits(d: Desk, q: Request, landed: bool)
    requires DeskInv(d)
    ensures var n := Next(d, AskToStart(q, landed)).value;
            && Mirrored(n.book) && SpentForGood(d.book.saved, n.book.saved)
            && (forall i :: 0 <= i < |n.permits| ==> Names(n.book.saved, n.permits[i]))
            && (forall i, j :: 0 <= i < j < |n.permits| ==> n.permits[i].authorizationId != n.permits[j].authorizationId)
  {
    var n := Next(d, AskToStart(q, landed)).value;
    if n != d {
      forall i | 0 <= i < |d.permits| ensures Names(n.book.saved, d.permits[i]) && d.permits[i].authorizationId != q.authorizationId {
        assert Names(d.book.saved, d.permits[i]);
      }
    }
  }

  lemma AskKeepsInv(d: Desk, q: Request, landed: bool)
    requires DeskInv(d)
    ensures var n := Next(d, AskToStart(q, landed)).value; DeskInv(n) && SpentForGood(d.book.saved, n.book.saved)
  {
    var n := Next(d, AskToStart(q, landed)).value;
    AskKeepsPermits(d, q, landed);
    forall id | id in n.book.saved && n.book.saved[id].consumption.Some?
      ensures exists i :: 0 <= i < |n.permits| && n.permits[i].authorizationId == id
    {
      if id == q.authorizationId && n != d {
        assert n.permits[|d.permits|].authorizationId == id;
      } else {
        var i :| 0 <= i < |d.permits| && d.permits[i].authorizationId == id;
        assert n.permits[i].authorizationId == id;
      }
    }
  }

  lemma DeskStepKeepsInv(d: Desk, a: Action)
    requires DeskInv(d) && Next(d, a).Some?
    ensures DeskInv(Next(d, a).value) && SpentForGood(d.book.saved, Next(d, a).value.book.saved)
  {
    match a
    case AskToStart(q, landed) => AskKeepsInv(d, q, landed);
    case AddApproval(approval, landed) =>
      var n := Next(d, a).value;
      forall i | 0 <= i < |d.permits| ensures Names(n.book.saved, d.permits[i]) {
        assert Names(d.book.saved, d.permits[i]);
      }
    case Restart =>
  }

  /** Spending writes one name only: every spent approval in the store is the one asked for, now naming
      the asking execution, or was there before, unchanged. */
  lemma ConsumingNamesOnlyTheAsker(b: Book, q: Request, lands: bool)
    requires Mirrored(b)
    ensures var (after, verdict) := Consume(b, q, lands);
            && (verdict == Valid ==> q.authorizationId in after.saved && q.authorizationId in b.recorded
                                     && after.saved[q.authorizationId] == Spent(b.recorded[q.authorizationId], q))
            && (verdict != Valid ==> after == b)
            && forall id :: id in after.saved && after.saved[id].consumption.Some? ==>
                              || (verdict == Valid && id == q.authorizationId)
                              || (id in b.saved && b.saved[id] == after.saved[id])
  {
    var (after, verdict) := Consume(b, q, lands);
    if verdict == Valid {
      forall id | id in after.saved && after.saved[id].consumption.Some? && id != q.authorizationId
        ensures id in b.saved && b.saved[id] == after.saved[id]
      {
        assert after.saved[id] == b.recorded[id];
      }
    }
  }

  /** Linear approvals: over every run of approvals, starts, failed saves and restarts, a permitting
      answer means the store holds that approval as spent on that execution with that budget; no
      approval permits twice; and what is spent stays spent. */
  lemma {:induction false} ApprovalsAreLinear(d: Desk, run: seq<Action>)
    requires DeskInv(d) && Exec(d, run).Some?
    ensures var after := Exec(d, run).value; DeskInv(after) && SpentForGood(d.book.saved, after.book.saved)
    decreases |run|
  {
    if run != [] {
      DeskStepKeepsInv(d, run[0]);
      ApprovalsAreLinear(Next(d, run[0]).value, run[1..]);
    }
  }

  /** The allowance after one charged attempt at each of these steps. */
  function AfterPass(a: Allowance, steps: seq<PlanStep>): Allowance {
    if steps == [] then a
    else Charge(AfterPass(a, steps[..|steps| - 1]), CostFor(steps[|steps| - 1].capability))
  }

  lemma {:induction false} PassCosts(a: Allowance, steps: seq<PlanStep>, rest: seq<PlanStep>)
    ensures AfterPass(a, steps).budget == a.budget && AfterPass(a, steps).spend.seconds == a.spend.seconds
    ensures AfterPass(a, steps).spend.steps == a.spend.steps + |steps|
    ensures AfterPass(a, steps).spend.network + RequiredCost(rest).network == a.spend.network + RequiredCost(steps + rest).network
    ensures AfterPass(a, steps).spend.llm + RequiredCost(rest).llm == a.spend.llm + RequiredCost(steps + rest).llm
  {
    if steps == [] {
      assert steps + rest == rest;
    } else {
      var init, last := steps[..|steps| - 1], steps[|steps| - 1];
      PassCosts(a, init, [last] + rest);
      assert init + ([last] + rest) == steps + rest;
      assert ([last] + rest)[1..] == rest;
    }
  }

  /** A budget judged sufficient affords every authored step in turn, each attempted once. */
  lemma SufficientAffordsACleanPass(c: PlanContent, b: Budget, k: nat)
    requires Sufficient(c, b) && b.seconds > 0.0 && k < |c.steps|
    ensures Affords(AfterPass(Allowance(b, NothingSpent), c.steps[..k]), CostFor(c.steps[k].capability))
  {
    PassCosts(Allowance(b, NothingSpent), c.steps[..k], c.steps[k..]);
    assert c.steps[..k] + c.steps[k..] == c.steps;
  }

  /** And it is the least such budget: one that is not sufficient fails some step of the clean pass. */
  lemma InsufficientFailsACleanPass(c: PlanContent, b: Budget)
    requires !Sufficient(c, b)
    ensures !Within(AfterPass(Allowance(b, NothingSpent), c.steps))
  {
    PassCosts(Allowance(b, NothingSpent), c.steps, []);
    assert c.steps + [] == c.steps;
  }
}
