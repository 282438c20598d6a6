/** Approvals and executions together: one store holds what was approved and spent, another what was
    executed; writes of either overlap in any order, and a crash may come between any two. A crash can leave
    an approval spent with no execution to show for it. An execution holds the budget of the one approval
    its start was permitted on, and the approval store says so unless something disturbed that start. */
module JointStarts {
  import opened Options
  import opened Allowances
  import opened Plans
  import opened ExecutionStates
  import opened Snapshots
  import opened AttemptProtocol
  import opened SequentialDecisions
  import opened ExecutionMemory
  import A = Approvals
  import O = OverlappingStarts

  /** The approvals, the executions, the plan each identity was minted for, and the starts permitted since
      the last crash and not registered yet. */
  datatype Joint = Joint(office: O.Office, cells: map<string, Cell>, asked: map<string, Plan>, waiting: set<nat>)

  const NothingYet := Joint(O.EmptyOffice, map[], map[], {})

  datatype Act =
    | Paper(deed: O.Deed)
    | Ask(plan: Plan, request: A.Request, ticket: nat)
    | Register(start: nat, requestId: Option<string>)
    | StartUnapproved(plan: Plan, runId: Option<string>, requestId: Option<string>)
    | CellStep(id: string, action: Action)
    | CrashBoth

  /** An identifier no execution or start has ever had: they are minted fresh. */
  predicate Unused(j: Joint, id: string) { id !in j.cells && id !in j.asked }

  function ApprovalOf(o: O.Office, k: nat): A.Authorization
    requires k < |o.starts| && o.starts[k].authorizationId in o.minted
  {
    o.minted[o.starts[k].authorizationId]
  }

  /** A permitted start registers its execution with the budget and the disclosure it was approved with. */
  function DoRegister(j: Joint, k: nat, requestId: Option<string>): Option<Joint> {
    if k !in j.waiting || k >= |j.office.starts| || j.office.starts[k].authorizationId !in j.office.minted then None
    else if j.office.starts[k].executionId !in j.asked then None
    else
      var id := j.office.starts[k].executionId;
      var a := ApprovalOf(j.office, k);
      var begun := BegunCell(j.asked[id], Some(a.budget), Some(a.runId), a.disclosure, requestId);
      Some(j.(cells := j.cells[id := begun], waiting := j.waiting - {k}))
  }

  /** One atomic step of either service; a crash ends both. */
  function Acted(j: Joint, act: Act): Option<Joint> {
    match act
    case Paper(deed) =>
      if deed.Check? || deed.Restarted? then None
      else
        var n := O.Done(j.office, deed);
        if n.None? then None else Some(j.(office := n.value, waiting := j.waiting + (n.value.granted - j.office.granted)))
    case Ask(plan, q, ticket) =>
      if q.executionId != plan.planId || q.content != plan.content || !Unused(j, plan.planId) then None
      else
        var n := O.Done(j.office, O.Check(q, ticket));
        if n.None? then None else Some(j.(office := n.value, asked := j.asked[plan.planId := plan]))
    case Register(k, requestId) => DoRegister(j, k, requestId)
    case StartUnapproved(plan, runId, requestId) =>
      if !Unused(j, plan.planId) then None
      else Some(j.(cells := j.cells[plan.planId := BegunCell(plan, None, runId, Undisclosed, requestId)]))
    case CellStep(id, a) =>
      if id !in j.cells || a.Start? || a.Crash? then None
      else
        var n := Next(j.cells[id], a);
        if n.None? then None else Some(j.(cells := j.cells[id := n.value]))
    case CrashBoth => Some(Joint(O.DoRestart(j.office), map id | id in j.cells :: DoCrash(j.cells[id]), j.asked, {}))
  }

  function Course(j: Joint, acts: seq<Act>): Option<Joint>
    decreases |acts|
  {
    if acts == [] then Some(j)
    else
      var n := Acted(j, acts[0]);
      if n.None? then None else Course(n.value, acts[1..])
  }

  // -- what the steps between the two services do --------------------------------------------

  /** A start that was permitted, and no other, can be registered; its execution is then live with the plan it was
      asked for and the run, disclosure and budget it was approved with, nothing spent, and it waits no more. */
  lemma RegisterLaw(j: Joint, k: nat, requestId: Option<string>)
    ensures var n := Acted(j, Register(k, requestId));
            && (n.Some? <==> && k in j.waiting && k < |j.office.starts| && j.office.starts[k].authorizationId in j.office.minted
                             && j.office.starts[k].executionId in j.asked)
            && (n.Some? ==>
                  var (id, a) := (j.office.starts[k].executionId, ApprovalOf(j.office, k));
                  && id in n.value.cells && n.value.cells == j.cells[id := n.value.cells[id]]
                  && n.value.cells[id].approved == Some(a.budget) && n.value.cells[id].allowance == Some(Allowance(a.budget, NothingSpent))
                  && n.value.cells[id].live.Some? && n.value.cells[id].live.value.plan == j.asked[id]
                  && n.value.cells[id].live.value.runId == Some(a.runId) && n.value.cells[id].live.value.disclosure == a.disclosure
                  && n.value.waiting == j.waiting - {k} && n.value.office == j.office && n.value.asked == j.asked)
  {
  }

  /** A start is asked for under a plan's own identity and content, and only under one that was never used. */
  lemma AskLaw(j: Joint, plan: Plan, q: A.Request, ticket: nat)
    ensures var (n, checked) := (Acted(j, Ask(plan, q, ticket)), O.Done(j.office, O.Check(q, ticket)));
            && (n.Some? <==> && checked.Some? && q.executionId == plan.planId && q.content == plan.content
                             && plan.planId !in j.cells && plan.planId !in j.asked)
            && (n.Some? ==> n.value == j.(office := checked.value, asked := j.asked[plan.planId := plan]))
  {
  }

  /** What else happens to the approvals touches no execution; starts it permits wait to be registered. */
  lemma PaperLaw(j: Joint, deed: O.Deed)
    requires !deed.Check? && !deed.Restarted?
    ensures var (n, done) := (Acted(j, Paper(deed)), O.Done(j.office, deed));
            && (n.Some? <==> done.Some?)
            && (n.Some? ==>
                  && n.value.office == done.value && n.value.cells == j.cells && n.value.asked == j.asked
                  && forall k :: k in n.value.waiting <==> k in j.waiting || (k in done.value.granted && k !in j.office.granted))
  {
  }

  // -- money exists for approved budgets only --------------------------------------------

  predicate ForBudget(a: Option<Allowance>, approved: Option<Budget>) { a.Some? ==> approved == Some(a.value.budget) }

  predicate RecordFor(sn: Option<Snapshot>, approved: Option<Budget>) { sn.Some? ==> ForBudget(sn.value.allowance, approved) }

  /** Every allowance a cell holds anywhere, in memory, in the store or on its way there, is for the
      budget approved for it. */
  predicate Granted(c: Cell) {
    && ForBudget(c.allowance, c.approved)
    && RecordFor(c.stored, c.approved) && RecordFor(c.restored, c.approved)
    && (forall key :: key in c.saves.docs ==> RecordFor(c.saves.docs[key], c.approved))
    && (c.attempt.InFlight? ==> ForBudget(c.attempt.allowance, c.approved))
  }

  /** A record or an allowance in use for this budget. */
  predicate HoldsBudget(c: Cell, b: Budget) {
    || (c.allowance.Some? && c.allowance.value.budget == b)
    || RecordHolds(c.stored, b) || RecordHolds(c.restored, b)
    || (exists key :: key in c.saves.docs && RecordHolds(c.saves.docs[key], b))
    || (c.attempt.InFlight? && c.attempt.allowance.Some? && c.attempt.allowance.value.budget == b)
  }

  predicate RecordHolds(sn: Option<Snapshot>, b: Budget) {
    sn.Some? && sn.value.allowance.Some? && sn.value.allowance.value.budget == b
  }

  lemma AttemptStepsAreGranted(c: Cell, a: Action)
    requires Granted(c) && Next(c, a).Some?
    requires a.BeginAttempt? || a.ChargeAttempt? || a.CommitAttempt? || a.UndoAttempt? || a.RefundAttempt? || a.Dispatch? || a.Return?
    ensures Granted(Next(c, a).value) && Next(c, a).value.approved == c.approved
  {
    hide Outcome, StartStep, Permitted, Capture, StepCost, RecordFor;
  }

  lemma CaptureIsGranted(c: Cell, owner: SaveOwner, key: nat)
    requires Granted(c) && DoBeginSave(c, owner, key).Some?
    ensures Granted(DoBeginSave(c, owner, key).value) && DoBeginSave(c, owner, key).value.approved == c.approved
  {
    assert RecordFor(Current(c), c.approved);
    hide RecordFor, Current;
  }

  lemma EndIsGranted(c: Cell, key: nat, lands: bool)
    requires Granted(c) && DoEndSave(c, key, lands).Some?
    ensures Granted(DoEndSave(c, key, lands).value) && DoEndSave(c, key, lands).value.approved == c.approved
  {
    hide RecordFor;
  }

  lemma RestartsAreGranted(c: Cell)
    requires Granted(c)
    ensures Granted(DoCrash(c)) && DoCrash(c).approved == c.approved
  {
    hide RunningStep;
  }

  lemma RebindIsGranted(c: Cell, plan: Plan, runId: string, ctx: RebindContext)
    requires Granted(c) && DoRebind(c, plan, runId, ctx).Some?
    ensures Granted(DoRebind(c, plan, runId, ctx).value) && DoRebind(c, plan, runId, ctx).value.approved == c.approved
  {
    hide Rebound, ReboundState, InterruptedStep;
  }

  lemma StepIsGranted(c: Cell, a: Action)
    requires Granted(c) && Next(c, a).Some? && !a.Start?
    ensures Granted(Next(c, a).value) && Next(c, a).value.approved == c.approved
  {
    hide DoRebind, DoCrash, DoBeginSave, DoEndSave;
    if a.BeginSave? {
      CaptureIsGranted(c, a.owner, a.key);
    } else if a.EndSave? {
      EndIsGranted(c, a.key, a.lands);
    } else if a.Crash? {
      RestartsAreGranted(c);
    } else if a.Rebind? {
      RebindIsGranted(c, a.plan, a.rebindRun, a.ctx);
    } else if a.WithdrawStart? || a.CancelExecution? || a.Resolve? || a.Recover? || a.WithdrawRuling? || a.HoldStep? || a.RefuseStep? || a.PauseStep? {
      hide Cancel, ResolveInterrupted, RecoverBlocked, BlockStep, RefuseAdvance, RequireAuthority, Held, Advanceable, RecordFor;
    } else {
      AttemptStepsAreGranted(c, a);
    }
  }

  lemma BegunIsGranted(plan: Plan, budget: Option<Budget>, runId: Option<string>, disclosure: Disclosure, requestId: Option<string>)
    ensures var c := BegunCell(plan, budget, runId, disclosure, requestId); Granted(c) && c.approved == budget
  {
  }

  // -- what permitted it ----------------------------------------------------------------

  /** This start was permitted for this execution, on an approval of this budget. */
  predicate PaidBy(o: O.Office, k: nat, id: string, b: Budget) {
    && k < |o.starts| && k in o.granted && o.starts[k].executionId == id
    && o.starts[k].authorizationId in o.minted && ApprovalOf(o, k).budget == b
  }

  ghost predicate Paid(o: O.Office, id: string, b: Budget) { exists k: nat :: PaidBy(o, k, id, b) }

  predicate Begun(o: O.Office, id: string) { exists k :: 0 <= k < |o.starts| && o.starts[k].executionId == id }

  /** Every execution asks once: no two starts, begun or only checked, have its identity. */
  predicate AskedOnce(o: O.Office, asked: map<string, Plan>) {
    && (forall k :: 0 <= k < |o.starts| ==> o.starts[k].executionId in asked)
    && (forall i, k :: 0 <= i < k < |o.starts| ==> o.starts[i].executionId != o.starts[k].executionId)
    && (forall t :: t in o.pending ==> o.pending[t].request.executionId in asked && !Begun(o, o.pending[t].request.executionId))
    && (forall t, u :: t in o.pending && u in o.pending && t != u ==>
          o.pending[t].request.executionId != o.pending[u].request.executionId)
  }

  ghost predicate CellsPaid(j: Joint) {
    forall id :: id in j.cells ==>
      Granted(j.cells[id]) && (j.cells[id].approved.Some? ==> Paid(j.office, id, j.cells[id].approved.value))
  }

  predicate WaitingOk(j: Joint) {
    && j.waiting <= j.office.granted
    && forall k :: k in j.waiting ==> k < |j.office.starts| && j.office.starts[k].executionId !in j.cells
  }

  /** What is permitted and not registered has no execution; every execution is paid for by one start. */
  ghost predicate JointInv(j: Joint) {
    && O.OfficeInv(j.office) && AskedOnce(j.office, j.asked) && CellsPaid(j) && WaitingOk(j)
    && (forall k :: 0 <= k < |j.office.starts| && k !in j.office.granted ==> j.office.starts[k].executionId !in j.cells)
    && (forall t :: t in j.office.pending ==> j.office.pending[t].request.executionId !in j.cells)
    && (forall id :: id in j.asked ==> j.asked[id].planId == id)
  }

  /** What approvals and starts can only gain. */
  predicate Gains(o: O.Office, n: O.Office) {
    && o.starts <= n.starts && o.granted <= n.granted
    && forall x :: x in o.minted ==> x in n.minted && n.minted[x] == o.minted[x]
  }

  lemma DeedGains(o: O.Office, deed: O.Deed)
    requires O.Done(o, deed).Some?
    ensures Gains(o, O.Done(o, deed).value)
  {
  }

  lemma PaidStays(o: O.Office, n: O.Office, id: string, b: Budget)
    requires Gains(o, n) && Paid(o, id, b)
    ensures Paid(n, id, b)
  {
    var k: nat :| PaidBy(o, k, id, b);
    assert PaidBy(n, k, id, b);
  }

  lemma CellsStayPaid(j: Joint, n: Joint)
    requires CellsPaid(j) && Gains(j.office, n.office) && n.cells == j.cells
    ensures CellsPaid(n)
  {
    hide Granted, Paid, Gains;
    forall id | id in n.cells && n.cells[id].approved.Some? ensures Paid(n.office, id, n.cells[id].approved.value) {
      PaidStays(j.office, n.office, id, n.cells[id].approved.value);
    }
  }

  /** A start begins where a check was pending; nothing else on paper begins one or adds a check. */
  lemma DeedBegins(o: O.Office, deed: O.Deed)
    requires O.Done(o, deed).Some? && !deed.Check? && !deed.Restarted?
    ensures var n := O.Done(o, deed).value;
            if deed.Mark? then deed.ticket in o.pending && n.starts == o.starts + [O.StartOf(o.pending[deed.ticket], o.clock)]
                               && n.pending == o.pending - {deed.ticket} && n.granted == o.granted
            else n.starts == o.starts && n.pending == o.pending
  {
  }

  lemma PaperAsksOnce(o: O.Office, deed: O.Deed, asked: map<string, Plan>)
    requires O.Done(o, deed).Some? && !deed.Check? && !deed.Restarted? && AskedOnce(o, asked)
    ensures AskedOnce(O.Done(o, deed).value, asked)
  {
    hide O.Done;
    DeedBegins(o, deed);
    var n := O.Done(o, deed).value;
    if deed.Mark? {
      assert forall k :: 0 <= k < |o.starts| ==> n.starts[k] == o.starts[k];
      forall k | 0 <= k < |o.starts| ensures o.starts[k].executionId != o.pending[deed.ticket].request.executionId {
        assert !Begun(o, o.pending[deed.ticket].request.executionId);
      }
      forall t | t in n.pending ensures !Begun(n, n.pending[t].request.executionId) {
        assert !Begun(o, n.pending[t].request.executionId);
      }
    }
  }

  /** What becomes granted was begun and not granted, so no execution has its identity yet. */
  lemma DeedGrants(o: O.Office, deed: O.Deed, k: nat)
    requires O.OfficeInv(o) && O.Done(o, deed).Some? && k in O.Done(o, deed).value.granted && k !in o.granted
    ensures k < |o.starts|
  {
    hide O.Holds, O.Genuine, O.FoundUnspent, O.EntryHolds, O.GenuineEntry;
    assert deed.EndWrite? && deed.landed;
    assert O.MarkOk(o, o.writing[deed.ticket]);
  }

  lemma PaperKeepsInv(j: Joint, deed: O.Deed)
    requires JointInv(j) && Acted(j, Paper(deed)).Some?
    ensures JointInv(Acted(j, Paper(deed)).value)
  {
    hide O.Done, O.OfficeInv, Granted, Paid, AskedOnce;
    var n := Acted(j, Paper(deed)).value;
    O.DeedKeepsOffice(j.office, deed);
    DeedGains(j.office, deed);
    DeedBegins(j.office, deed);
    PaperAsksOnce(j.office, deed, j.asked);
    CellsStayPaid(j, n);
    forall k | k in n.waiting ensures k < |n.office.starts| && n.office.starts[k].executionId !in n.cells {
      if k !in j.office.granted {
        DeedGrants(j.office, deed, k);
      }
    }
  }

  /** A check begins nothing: at most the asker is pending now. */
  lemma CheckBegins(o: O.Office, q: A.Request, ticket: nat)
    requires O.DoCheck(o, q, ticket).Some?
    ensures var n := O.DoCheck(o, q, ticket).value;
            && n.starts == o.starts && n.granted == o.granted && n.minted == o.minted
            && forall t :: t in n.pending ==>
                 if t == ticket then n.pending[t].request == q else t in o.pending && n.pending[t] == o.pending[t]
  {
    hide A.Judge;
  }

  lemma AskAsksOnce(o: O.Office, asked: map<string, Plan>, plan: Plan, q: A.Request, ticket: nat)
    requires AskedOnce(o, asked) && q.executionId == plan.planId && plan.planId !in asked && O.DoCheck(o, q, ticket).Some?
    ensures AskedOnce(O.DoCheck(o, q, ticket).value, asked[plan.planId := plan])
  {
    hide O.DoCheck;
    CheckBegins(o, q, ticket);
    assert forall x :: Begun(O.DoCheck(o, q, ticket).value, x) <==> Begun(o, x);
  }

  lemma AskKeepsInv(j: Joint, plan: Plan, q: A.Request, ticket: nat)
    requires JointInv(j) && Acted(j, Ask(plan, q, ticket)).Some?
    ensures JointInv(Acted(j, Ask(plan, q, ticket)).value)
  {
    hide O.OfficeInv, O.DoCheck, Granted, Paid, AskedOnce;
    var n := Acted(j, Ask(plan, q, ticket)).value;
    O.CheckKeepsOffice(j.office, q, ticket);
    CheckBegins(j.office, q, ticket);
    AskAsksOnce(j.office, j.asked, plan, q, ticket);
    CellsStayPaid(j, n);
    AllAreAsked(j);
  }

  lemma AllAreAsked(j: Joint)
    requires AskedOnce(j.office, j.asked)
    ensures forall k :: 0 <= k < |j.office.starts| ==> j.office.starts[k].executionId in j.asked
  {
  }

  lemma RegisterKeepsInv(j: Joint, k: nat, requestId: Option<string>)
    requires JointInv(j) && DoRegister(j, k, requestId).Some?
    ensures JointInv(DoRegister(j, k, requestId).value)
  {
    hide O.OfficeInv, Granted, BegunCell;
    var n := DoRegister(j, k, requestId).value;
    var id := j.office.starts[k].executionId;
    var a := ApprovalOf(j.office, k);
    BegunIsGranted(j.asked[id], Some(a.budget), Some(a.runId), a.disclosure, requestId);
    assert PaidBy(j.office, k, id, a.budget);
    forall t | t in n.office.pending ensures n.office.pending[t].request.executionId !in n.cells {
      assert !Begun(j.office, j.office.pending[t].request.executionId);
    }
  }

  lemma StartUnapprovedKeepsInv(j: Joint, plan: Plan, runId: Option<string>, requestId: Option<string>)
    requires JointInv(j) && Acted(j, StartUnapproved(plan, runId, requestId)).Some?
    ensures JointInv(Acted(j, StartUnapproved(plan, runId, requestId)).value)
  {
    hide O.OfficeInv, Granted, BegunCell, Paid;
    BegunIsGranted(plan, None, runId, Undisclosed, requestId);
  }

  lemma CellStepKeepsInv(j: Joint, id: string, a: Action)
    requires JointInv(j) && Acted(j, CellStep(id, a)).Some?
    ensures JointInv(Acted(j, CellStep(id, a)).value)
  {
    hide Next, Granted, Paid, O.OfficeInv, AskedOnce;
    StepIsGranted(j.cells[id], a);
  }

  lemma CrashKeepsJointInv(j: Joint)
    requires JointInv(j)
    ensures JointInv(Acted(j, CrashBoth).value)
  {
    hide Granted, DoCrash, O.OfficeInv, Paid;
    O.RestartKeepsOffice(j.office);
    forall id | id in j.cells ensures Granted(DoCrash(j.cells[id])) && DoCrash(j.cells[id]).approved == j.cells[id].approved {
      RestartsAreGranted(j.cells[id]);
    }
    forall id, b | Paid(j.office, id, b) ensures Paid(O.DoRestart(j.office), id, b) {
      PaidStays(j.office, O.DoRestart(j.office), id, b);
    }
  }

  lemma ActKeepsInv(j: Joint, act: Act)
    requires JointInv(j) && Acted(j, act).Some?
    ensures JointInv(Acted(j, act).value)
  {
    hide JointInv, Acted, DoRegister;
    match act
    case Paper(deed) => PaperKeepsInv(j, deed);
    case Ask(plan, q, ticket) => AskKeepsInv(j, plan, q, ticket);
    case Register(k, requestId) => RegisteringIs(j, k, requestId); RegisterKeepsInv(j, k, requestId);
    case StartUnapproved(plan, runId, requestId) => StartUnapprovedKeepsInv(j, plan, runId, requestId);
    case CellStep(id, a) => CellStepKeepsInv(j, id, a);
    case CrashBoth => CrashKeepsJointInv(j);
  }

  lemma RegisteringIs(j: Joint, k: nat, requestId: Option<string>)
    ensures Acted(j, Register(k, requestId)) == DoRegister(j, k, requestId)
  {
  }

  lemma {:induction false} CourseKeepsInv(j: Joint, acts: seq<Act>)
    requires JointInv(j) && Course(j, acts).Some?
    ensures JointInv(Course(j, acts).value)
    decreases |acts|
  {
    hide JointInv, Acted;
    if acts != [] {
      ActKeepsInv(j, acts[0]);
      CourseKeepsInv(Acted(j, acts[0]).value, acts[1..]);
    }
  }

  lemma HoldersAreGranted(c: Cell, b: Budget)
    requires Granted(c) && HoldsBudget(c, b)
    ensures c.approved == Some(b)
  {
  }

  lemma OnlyStart(o: O.Office, asked: map<string, Plan>, k: nat, m: nat)
    requires AskedOnce(o, asked) && k < |o.starts| && m < |o.starts| && o.starts[k].executionId == o.starts[m].executionId
    ensures k == m
  {
  }

  /** What a course does to the approvals. */
  function DeedsOf(acts: seq<Act>): seq<O.Deed> {
    if acts == [] then []
    else
      (match acts[0]
       case Paper(deed) => [deed]
       case Ask(_, q, ticket) => [O.Check(q, ticket)]
       case CrashBoth => [O.Restarted]
       case _ => [])
      + DeedsOf(acts[1..])
  }

  lemma {:induction false} CourseRunsItsDeeds(j: Joint, acts: seq<Act>)
    requires Course(j, acts).Some?
    ensures O.Run(j.office, DeedsOf(acts)) == Some(Course(j, acts).value.office)
    decreases |acts|
  {
    hide O.Done, Next, DoCrash, BegunCell;
    if acts != [] {
      var n := Acted(j, acts[0]).value;
      CourseRunsItsDeeds(n, acts[1..]);
      var rest := DeedsOf(acts[1..]);
      match acts[0] {
        case Paper(deed) => O.RunStep(j.office, deed, rest);
        case Ask(_, q, ticket) => O.RunStep(j.office, O.Check(q, ticket), rest);
        case CrashBoth => Restarts(j.office); O.RunStep(j.office, O.Restarted, rest);
        case _ => assert [] + rest == rest;
      }
    }
  }

  lemma Restarts(o: O.Office)
    ensures O.Done(o, O.Restarted) == Some(O.DoRestart(o))
  {
  }

  /** The store backs an execution exactly when it names the one start of it. */
  lemma BackedIffNamed(o: O.Office, asked: map<string, Plan>, k: nat, id: string, b: Budget)
    requires O.OfficeInv(o) && AskedOnce(o, asked) && PaidBy(o, k, id, b)
    ensures BackedBy(o.stored, id, b) <==> O.NamedIn(o.stored, o.starts[k])
  {
    hide O.Disturbed, O.Holds, O.StartsOk, O.ChecksOk, O.PendingOk, O.WritingOk;
    var a := o.starts[k].authorizationId;
    forall x | x in o.stored && Names(o.stored[x], id) ensures x == a {
      assert O.GenuineEntry(x, o.stored[x], o.minted, o.starts);
      var m :| 0 <= m < |o.starts| && o.starts[m].authorizationId == x && o.starts[m].executionId == id;
      OnlyStart(o, asked, k, m);
    }
    if O.NamedIn(o.stored, o.starts[k]) {
      assert O.GenuineEntry(a, o.stored[a], o.minted, o.starts);
      assert Names(o.stored[a], id);
    }
  }

  /** Over every run of approvals, starts and executions, with writes of either store overlapping, landing in
      any order or failing, and crashes anywhere: whatever budget an execution holds, live, stored, restored,
      in a document being saved or read by an attempt, exactly one start has its identity; that start was
      permitted, on an approval of that budget; and exactly one approval, of that budget, is durably spent on
      the execution if and only if the last approvals to be written were captured while memory said so, which
      is so if nothing was under way across the mark of the start. */
  lemma NoExecutionOnAnUnspentApproval(acts: seq<Act>, id: string, b: Budget)
    requires Course(NothingYet, acts).Some? && id in Course(NothingYet, acts).value.cells
    requires HoldsBudget(Course(NothingYet, acts).value.cells[id], b)
    ensures var o := Course(NothingYet, acts).value.office;
            exists k: nat ::
              && PaidBy(o, k, id, b) && (forall m: nat :: m < |o.starts| && o.starts[m].executionId == id ==> m == k)
              && (O.Disturbed(o, k) || BackedBy(o.stored, id, b))
              && (BackedBy(o.stored, id, b) <==> O.LastLandedNamed(O.EmptyOffice, DeedsOf(acts), o.starts[k], {}, false))
  {
    hide HoldsBudget, BackedBy, Granted, Course, O.OfficeInv, O.Disturbed;
    EmptyJointSatisfiesInv();
    CourseKeepsInv(NothingYet, acts);
    var j := Course(NothingYet, acts).value;
    HoldersAreGranted(j.cells[id], b);
    assert Paid(j.office, id, b);
    var k: nat :| PaidBy(j.office, k, id, b);
    forall m: nat | m < |j.office.starts| && j.office.starts[m].executionId == id ensures m == k {
      OnlyStart(j.office, j.asked, k, m);
    }
    BackedIffNamed(j.office, j.asked, k, id, b);
    if !O.Disturbed(j.office, k) {
      O.UndisturbedIsNamed(j.office, k);
      PermitIsStart(j.office, k);
    }
    CourseRunsItsDeeds(NothingYet, acts);
    O.NamedIffLastLandedNamed(O.EmptyOffice, DeedsOf(acts), j.office.starts[k], {});
  }

  lemma PermitIsStart(o: O.Office, k: nat)
    requires k < |o.starts| && o.starts[k].authorizationId in o.minted && A.Names(o.stored, O.PermitOf(o, k))
    ensures O.NamedIn(o.stored, o.starts[k])
  {
  }

  lemma EmptyJointSatisfiesInv()
    ensures JointInv(NothingYet)
  {
    O.EmptyOfficeSatisfiesInv();
    hide O.OfficeInv;
  }

  // -- the other way round a crash can lose ------------------------------------------------

  /** One consumption with nothing in between, cut off by a crash before its execution is registered. */
  function CutOff(plan: Plan, q: A.Request, ticket: nat): seq<Act> { [Ask(plan, q, ticket)] + WriteCutOff(ticket) }

  function WriteCutOff(ticket: nat): seq<Act> {
    [Paper(O.Mark(ticket))] + ([Paper(O.Capture(ticket))] + ([Paper(O.EndWrite(ticket, true))] + ([CrashBoth] + [])))
  }

  lemma CourseStep(j: Joint, act: Act, rest: seq<Act>)
    requires Acted(j, act).Some?
    ensures Course(j, [act] + rest) == Course(Acted(j, act).value, rest)
  {
    hide Acted;
    assert ([act] + rest)[1..] == rest;
  }

  lemma CourseEnds(j: Joint)
    ensures Course(j, []) == Some(j)
  {
  }

  /** A crash between a landed consumption and the first landed save of its execution leaves the approval
      spent on an execution that exists nowhere. */
  lemma CrashLeavesASpentApproval(acts: seq<Act>, plan: Plan, q: A.Request, ticket: nat)
    requires Course(NothingYet, acts).Some?
    requires var j := Course(NothingYet, acts).value;
             && q.executionId == plan.planId && q.content == plan.content && Unused(j, plan.planId)
             && A.Judge(j.office.memory, q) == A.Valid && ticket !in j.office.pending && ticket !in j.office.writing
    ensures var after := Course(Course(NothingYet, acts).value, CutOff(plan, q, ticket));
            && after.Some? && q.authorizationId in after.value.office.stored
            && Names(after.value.office.stored[q.authorizationId], plan.planId)
            && plan.planId !in after.value.cells && after.value.waiting == {}
            && after.value.cells.Keys == Course(NothingYet, acts).value.cells.Keys
  {
    hide Course, A.Judge, DoCrash;
    var j := Course(NothingYet, acts).value;
    Consumed(j, plan, q, ticket);
    var asked := Acted(j, Ask(plan, q, ticket)).value;
    var marked := Acted(asked, Paper(O.Mark(ticket))).value;
    var captured := Acted(marked, Paper(O.Capture(ticket))).value;
    var landed := Acted(captured, Paper(O.EndWrite(ticket, true))).value;
    hide Acted, O.Done, Unused, Names;
    CourseStep(j, Ask(plan, q, ticket), WriteCutOff(ticket));
    CourseStep(asked, Paper(O.Mark(ticket)), [Paper(O.Capture(ticket))] + ([Paper(O.EndWrite(ticket, true))] + ([CrashBoth] + [])));
    CourseStep(marked, Paper(O.Capture(ticket)), [Paper(O.EndWrite(ticket, true))] + ([CrashBoth] + []));
    CourseStep(captured, Paper(O.EndWrite(ticket, true)), [CrashBoth] + []);
    Crashed(landed);
    CourseStep(landed, CrashBoth, []);
    CourseEnds(Acted(landed, CrashBoth).value);
  }

  lemma Crashed(j: Joint)
    ensures var n := Acted(j, CrashBoth);
            n.Some? && n.value.office.stored == j.office.stored && n.value.cells.Keys == j.cells.Keys && n.value.waiting == {}
  {
    hide DoCrash;
  }

  /** A valid request that is asked, marks, captures and lands with nothing in between. */
  lemma Consumed(j: Joint, plan: Plan, q: A.Request, ticket: nat)
    requires q.executionId == plan.planId && q.content == plan.content && Unused(j, plan.planId)
    requires A.Judge(j.office.memory, q) == A.Valid && ticket !in j.office.pending && ticket !in j.office.writing
    ensures Acted(j, Ask(plan, q, ticket)).Some?
    ensures var asked := Acted(j, Ask(plan, q, ticket)).value;
            && Acted(asked, Paper(O.Mark(ticket))).Some?
            && var marked := Acted(asked, Paper(O.Mark(ticket))).value;
            && Acted(marked, Paper(O.Capture(ticket))).Some?
            && var captured := Acted(marked, Paper(O.Capture(ticket))).value;
            && Acted(captured, Paper(O.EndWrite(ticket, true))).Some?
            && var landed := Acted(captured, Paper(O.EndWrite(ticket, true))).value;
            && q.authorizationId in landed.office.stored && Names(landed.office.stored[q.authorizationId], plan.planId)
            && landed.cells == j.cells
  {
    AskedIsPending(j, plan, q, ticket);
    hide Unused, A.Judge, O.DoCheck;
    var marked := Acted(Acted(j, Ask(plan, q, ticket)).value, Paper(O.Mark(ticket))).value;
    MarkedLands(marked, ticket);
  }

  lemma AskedIsPending(j: Joint, plan: Plan, q: A.Request, ticket: nat)
    requires q.executionId == plan.planId && q.content == plan.content && Unused(j, plan.planId)
    requires A.Judge(j.office.memory, q) == A.Valid && ticket !in j.office.pending && ticket !in j.office.writing
    ensures var asked := Acted(j, Ask(plan, q, ticket));
            && asked.Some? && asked.value.cells == j.cells && asked.value.office.writing == j.office.writing
            && ticket in asked.value.office.pending && asked.value.office.pending[ticket].request == q
            && q.authorizationId in asked.value.office.memory
  {
  }

  /** A mark captured and landed puts in the store what memory holds. */
  lemma MarkedLands(j: Joint, ticket: nat)
    requires ticket in j.office.writing && j.office.writing[ticket].Marked? && ticket !in j.office.pending
    ensures Acted(j, Paper(O.Capture(ticket))).Some?
    ensures var captured := Acted(j, Paper(O.Capture(ticket))).value;
            && Acted(captured, Paper(O.EndWrite(ticket, true))).Some?
            && var landed := Acted(captured, Paper(O.EndWrite(ticket, true))).value;
            landed.office.stored == j.office.memory && landed.cells == j.cells
  {
  }

  /** And from nothing at all such a state is six steps away, for any plan and any approval of it. */
  lemma SpentWithNoExecutionAnywhere(plan: Plan, authorizationId: string, runId: string, budget: Budget, disclosure: Disclosure, now: int)
    ensures var a := A.ForPlan(authorizationId, plan.content, runId, budget, disclosure, now);
            var q := A.Request(authorizationId, plan.content, runId, plan.planId, now, true, None, None);
            var after := Course(NothingYet, [Paper(O.Approve(a))] + CutOff(plan, q, 0));
            && after.Some? && after.value.cells == map[] && after.value.waiting == {}
            && authorizationId in after.value.office.stored && Names(after.value.office.stored[authorizationId], plan.planId)
  {
    var a := A.ForPlan(authorizationId, plan.content, runId, budget, disclosure, now);
    var q := A.Request(authorizationId, plan.content, runId, plan.planId, now, true, None, None);
    var j := Acted(NothingYet, Paper(O.Approve(a))).value;
    assert A.Judge(j.office.memory, q) == A.Valid;
    CourseStep(NothingYet, Paper(O.Approve(a)), []);
    CourseEnds(j);
    CourseStep(NothingYet, Paper(O.Approve(a)), CutOff(plan, q, 0));
    CrashLeavesASpentApproval([Paper(O.Approve(a))], plan, q, 0);
    assert Course(NothingYet, [Paper(O.Approve(a))] + CutOff(plan, q, 0)).value.cells.Keys == {};
  }
}
