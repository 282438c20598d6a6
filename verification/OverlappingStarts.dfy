/** Starts whose steps come apart. `consume_for_execution` checks an approval, marks it spent in memory,
    captures and writes all approvals, and puts the old entry back when the write failed; recording an
    approval captures and writes them all too. No lock is held around any of it. Here is exactly when one
    approval permits two executions, and when the store still names an execution that was permitted. */
module OverlappingStarts {
  import opened Options
  import opened Approvals

  /** A start that has passed its check, with the approval as it was then. */
  datatype Checked = Checked(request: Request, approval: Authorization, at: nat)

  /** A write under way: a consumption that has marked memory, the same with its document captured, or a
      recording with its document. A consumption keeps the entry it found in memory when it marked. */
  datatype Writing =
    | Marked(start: nat, before: Authorization)
    | Spending(start: nat, before: Authorization, doc: map<string, Authorization>, at: nat)
    | Recording(doc: map<string, Authorization>, at: nat)

  /** A start that has marked its approval. */
  datatype Start = Start(authorizationId: string, executionId: string, checkedAt: nat, markedAt: nat)

  /** What was put back over the present: a document from its capture to its landing, or one entry from
      the mark it was found under to its rollback. */
  datatype Span = Span(from: nat, to: nat, only: Option<string>)

  /** `minted` are the approvals as they were given. The starts are kept for the proofs: those standing have
      not been rolled back or cut off by a restart, and those granted were answered with a permit. */
  datatype Office = Office(
    memory: map<string, Authorization>,
    stored: map<string, Authorization>,
    minted: map<string, Authorization>,
    pending: map<nat, Checked>,
    writing: map<nat, Writing>,
    starts: seq<Start>,
    standing: set<nat>,
    granted: set<nat>,
    over: seq<Span>,
    clock: nat)

  datatype Deed =
    | Approve(approval: Authorization)
    | Check(request: Request, ticket: nat)
    | Mark(ticket: nat)
    | Capture(ticket: nat)
    | EndWrite(ticket: nat, landed: bool)
    | Restarted

  const EmptyOffice := Office(map[], map[], map[], map[], map[], [], {}, {}, [], 0)

  function DoApprove(o: Office, a: Authorization): Option<Office> {
    if a.id in o.minted || a.consumption.Some? then None
    else Some(o.(clock := o.clock + 1, memory := o.memory[a.id := a], minted := o.minted[a.id := a]))
  }

  function DoCheck(o: Office, q: Request, t: nat): Option<Office> {
    if t in o.pending || t in o.writing then None
    else if Judge(o.memory, q) != Valid then Some(o.(clock := o.clock + 1))
    else Some(o.(clock := o.clock + 1, pending := o.pending[t := Checked(q, o.memory[q.authorizationId], o.clock)]))
  }

  function StartOf(p: Checked, now: nat): Start { Start(p.request.authorizationId, p.request.executionId, p.at, now) }

  /** The mark is made on the approval as it was checked; what memory holds by now is kept to put back. */
  function DoMark(o: Office, t: nat): Option<Office> {
    if t !in o.pending || o.pending[t].request.authorizationId !in o.memory then None
    else
      var p := o.pending[t];
      var id := p.request.authorizationId;
      Some(o.(clock := o.clock + 1, memory := o.memory[id := Spent(p.approval, p.request)], pending := o.pending - {t},
              writing := o.writing[t := Marked(|o.starts|, o.memory[id])],
              starts := o.starts + [StartOf(p, o.clock)], standing := o.standing + {|o.starts|}))
  }

  function DoCapture(o: Office, t: nat): Option<Office> {
    if t in o.pending then None
    else if t !in o.writing then Some(o.(clock := o.clock + 1, writing := o.writing[t := Recording(o.memory, o.clock)]))
    else if o.writing[t].Marked? then
      var w := o.writing[t];
      Some(o.(clock := o.clock + 1, writing := o.writing[t := Spending(w.start, w.before, o.memory, o.clock)]))
    else None
  }

  function DoLand(o: Office, t: nat): Option<Office> {
    if t !in o.writing || o.writing[t].Marked? then None
    else
      var w := o.writing[t];
      Some(o.(clock := o.clock + 1, writing := o.writing - {t}, stored := w.doc, over := o.over + [Span(w.at, o.clock, None)],
              granted := if w.Spending? then o.granted + {w.start} else o.granted))
  }

  /** A consumption whose write failed puts its entry back; a recording leaves its approval in memory. */
  function DoFail(o: Office, t: nat): Option<Office> {
    if t !in o.writing || o.writing[t].Marked? then None
    else if o.writing[t].Recording? then Some(o.(clock := o.clock + 1, writing := o.writing - {t}))
    else
      var w := o.writing[t];
      if w.start >= |o.starts| then None
      else
        var s := o.starts[w.start];
        Some(o.(clock := o.clock + 1, writing := o.writing - {t}, memory := o.memory[s.authorizationId := w.before],
                standing := o.standing - {w.start}, over := o.over + [Span(s.markedAt, o.clock, Some(s.authorizationId))]))
  }

  function DoRestart(o: Office): Office {
    o.(clock := o.clock + 1, memory := o.stored, pending := map[], writing := map[], standing := o.granted)
  }

  function Done(o: Office, deed: Deed): Option<Office> {
    match deed
    case Approve(a) => DoApprove(o, a)
    case Check(q, t) => DoCheck(o, q, t)
    case Mark(t) => DoMark(o, t)
    case Capture(t) => DoCapture(o, t)
    case EndWrite(t, landed) => if landed then DoLand(o, t) else DoFail(o, t)
    case Restarted => Some(DoRestart(o))
  }

  function Run(o: Office, deeds: seq<Deed>): Option<Office>
    decreases |deeds|
  {
    if deeds == [] then Some(o)
    else
      var n := Done(o, deeds[0]);
      if n.None? then None else Run(n.value, deeds[1..])
  }

  // -- what may have happened to a mark ---------------------------------------------------------

  /** A document captured before the mark landed after it, or a consumption of the same approval that had
      marked before it was rolled back after it. */
  predicate Overwritten(over: seq<Span>, s: Start, before: nat) {
    exists w :: 0 <= w < |over| && over[w].from < s.markedAt < over[w].to < before && over[w].only in {None, Some(s.authorizationId)}
  }

  predicate MarkedOver(starts: seq<Start>, s: Start, before: nat) {
    exists k :: 0 <= k < |starts| && starts[k].authorizationId == s.authorizationId && s.markedAt < starts[k].markedAt < before
  }

  function Entry(doc: map<string, Authorization>, id: string): Option<Authorization> {
    if id in doc then Some(doc[id]) else None
  }

  predicate SaysSpent(entry: Option<Authorization>) { entry.Some? && entry.value.consumption.Some? }

  predicate SaysSpentOn(entry: Option<Authorization>, s: Start) {
    SaysSpent(entry) && entry.value.consumption.value.executionId == s.executionId
  }

  /** An entry as it was at a moment holds a mark made before, unless that was overwritten; and names its
      execution, unless another start marked over it. */
  predicate Kept(entry: Option<Authorization>, s: Start, starts: seq<Start>, over: seq<Span>, at: nat) {
    s.markedAt < at ==>
      || Overwritten(over, s, at)
      || (SaysSpent(entry) && (SaysSpentOn(entry, s) || MarkedOver(starts, s, at)))
  }

  predicate Holds(doc: map<string, Authorization>, at: nat, starts: seq<Start>, which: set<nat>, over: seq<Span>) {
    forall i :: i in which && i < |starts| ==> Kept(Entry(doc, starts[i].authorizationId), starts[i], starts, over, at)
  }

  predicate EntryHolds(entry: Authorization, id: string, at: nat, starts: seq<Start>, which: set<nat>, over: seq<Span>) {
    forall i :: i in which && i < |starts| && starts[i].authorizationId == id ==> Kept(Some(entry), starts[i], starts, over, at)
  }

  /** A check that found the approval unspent saw no mark: each was made later or had been overwritten. */
  predicate FoundUnspent(id: string, checkedAt: nat, starts: seq<Start>, which: set<nat>, over: seq<Span>) {
    forall i :: i in which && i < |starts| && starts[i].authorizationId == id ==>
      checkedAt < starts[i].markedAt || Overwritten(over, starts[i], checkedAt)
  }

  predicate SpentBy(starts: seq<Start>, id: string, executionId: string) {
    exists k :: 0 <= k < |starts| && starts[k].authorizationId == id && starts[k].executionId == executionId
  }

  /** Approvals never change but for who they were spent on, and that only by a start. */
  predicate GenuineEntry(id: string, a: Authorization, minted: map<string, Authorization>, starts: seq<Start>) {
    && id in minted && a.(consumption := None) == minted[id]
    && (a.consumption.Some? ==> SpentBy(starts, id, a.consumption.value.executionId))
  }

  predicate Genuine(doc: map<string, Authorization>, minted: map<string, Authorization>, starts: seq<Start>) {
    forall x :: x in doc ==> GenuineEntry(x, doc[x], minted, starts)
  }

  predicate StartsOk(o: Office) {
    && o.granted <= o.standing
    && (forall i :: i in o.standing ==> i < |o.starts|)
    && (forall k :: 0 <= k < |o.starts| ==>
          o.starts[k].checkedAt < o.starts[k].markedAt < o.clock && o.starts[k].authorizationId in o.minted)
    && (forall i, k :: 0 <= i < k < |o.starts| ==> o.starts[i].markedAt < o.starts[k].markedAt)
  }

  predicate ChecksOk(o: Office) {
    forall k :: 0 <= k < |o.starts| ==>
      FoundUnspent(o.starts[k].authorizationId, o.starts[k].checkedAt, o.starts, o.standing - {k}, o.over)
  }

  predicate PendingOk(o: Office) {
    forall t :: t in o.pending ==>
      var p := o.pending[t];
      && t !in o.writing && p.at < o.clock && p.request.authorizationId in o.minted && p.request.authorizationId in o.memory
      && p.approval == o.minted[p.request.authorizationId] && p.approval.consumption.None?
      && FoundUnspent(p.request.authorizationId, p.at, o.starts, o.standing, o.over)
  }

  /** The mark of a write under way stands and is not granted, and what it would put back is genuine. */
  predicate MarkOk(o: Office, w: Writing) {
    !w.Recording? ==>
      && w.start in o.standing && w.start !in o.granted && w.start < |o.starts|
      && GenuineEntry(o.starts[w.start].authorizationId, w.before, o.minted, o.starts)
      && EntryHolds(w.before, o.starts[w.start].authorizationId, o.starts[w.start].markedAt, o.starts, o.standing, o.over)
  }

  predicate DocumentOk(o: Office, w: Writing) {
    !w.Marked? ==>
      w.at < o.clock && Genuine(w.doc, o.minted, o.starts) && Holds(w.doc, w.at + 1, o.starts, o.standing, o.over)
  }

  predicate WritingOk(o: Office) {
    && (forall t :: t in o.writing ==> MarkOk(o, o.writing[t]) && DocumentOk(o, o.writing[t]))
    && (forall t, u :: t in o.writing && u in o.writing && t != u && !o.writing[t].Recording? && !o.writing[u].Recording? ==>
          o.writing[t].start != o.writing[u].start)
  }

  predicate StoresOk(o: Office) {
    && Genuine(o.memory, o.minted, o.starts) && Holds(o.memory, o.clock, o.starts, o.standing, o.over)
    && Genuine(o.stored, o.minted, o.starts) && Holds(o.stored, o.clock, o.starts, o.granted, o.over)
    && (forall x :: x in o.minted ==> o.minted[x].consumption.None?)
  }

  predicate OfficeInv(o: Office) { StartsOk(o) && ChecksOk(o) && PendingOk(o) && WritingOk(o) && StoresOk(o) }

  // -- how what holds keeps holding -----------------------------------------------------------

  lemma OverwrittenLater(over: seq<Span>, more: seq<Span>, s: Start, before: nat, later: nat)
    requires Overwritten(over, s, before) && before <= later
    ensures Overwritten(over + more, s, later)
  {
    var w :| 0 <= w < |over| && over[w].from < s.markedAt < over[w].to < before && over[w].only in {None, Some(s.authorizationId)};
    assert (over + more)[w] == over[w];
  }

  lemma MarkedOverLater(starts: seq<Start>, more: seq<Start>, s: Start, before: nat, later: nat)
    requires MarkedOver(starts, s, before) && before <= later
    ensures MarkedOver(starts + more, s, later)
  {
    var k :| 0 <= k < |starts| && starts[k].authorizationId == s.authorizationId && s.markedAt < starts[k].markedAt < before;
    assert (starts + more)[k] == starts[k];
  }

  lemma KeptLater(entry: Option<Authorization>, s: Start, starts: seq<Start>, more: seq<Start>, over: seq<Span>, spans: seq<Span>,
                  at: nat, later: nat)
    requires Kept(entry, s, starts, over, at) && at <= later && (s.markedAt < at || later <= s.markedAt)
    ensures Kept(entry, s, starts + more, over + spans, later)
  {
    if s.markedAt < at {
      if Overwritten(over, s, at) {
        OverwrittenLater(over, spans, s, at, later);
      } else if !SaysSpentOn(entry, s) {
        MarkedOverLater(starts, more, s, at, later);
      }
    }
  }

  lemma HoldsLater(doc: map<string, Authorization>, at: nat, later: nat, starts: seq<Start>, more: seq<Start>,
                   which: set<nat>, still: set<nat>, over: seq<Span>, spans: seq<Span>)
    requires Holds(doc, at, starts, which, over) && at <= later
    requires forall i :: i in still && i < |starts| ==> i in which && (starts[i].markedAt < at || later <= starts[i].markedAt)
    requires forall i :: i in still && |starts| <= i < |starts + more| ==> later <= (starts + more)[i].markedAt
    ensures Holds(doc, later, starts + more, still, over + spans)
  {
    hide Kept;
    forall i | i in still && i < |starts + more|
      ensures Kept(Entry(doc, (starts + more)[i].authorizationId), (starts + more)[i], starts + more, over + spans, later)
    {
      if i < |starts| {
        assert (starts + more)[i] == starts[i];
        KeptLater(Entry(doc, starts[i].authorizationId), starts[i], starts, more, over, spans, at, later);
      } else {
        NotYetMarked(Entry(doc, (starts + more)[i].authorizationId), (starts + more)[i], starts + more, over + spans, later);
      }
    }
  }

  lemma NotYetMarked(entry: Option<Authorization>, s: Start, starts: seq<Start>, over: seq<Span>, at: nat)
    requires at <= s.markedAt
    ensures Kept(entry, s, starts, over, at)
  {
  }

  lemma EntryHoldsLater(entry: Authorization, id: string, at: nat, starts: seq<Start>, more: seq<Start>,
                        which: set<nat>, still: set<nat>, over: seq<Span>, spans: seq<Span>)
    requires EntryHolds(entry, id, at, starts, which, over)
    requires forall i :: i in still && i < |starts| ==> i in which
    requires forall i :: i in still && |starts| <= i < |starts + more| ==> at <= (starts + more)[i].markedAt
    ensures EntryHolds(entry, id, at, starts + more, still, over + spans)
  {
    hide Kept;
    forall i | i in still && i < |starts + more| && (starts + more)[i].authorizationId == id
      ensures Kept(Some(entry), (starts + more)[i], starts + more, over + spans, at)
    {
      if i < |starts| {
        assert (starts + more)[i] == starts[i];
        KeptStill(Some(entry), starts[i], starts, more, over, spans, at);
      } else {
        NotYetMarked(Some(entry), (starts + more)[i], starts + more, over + spans, at);
      }
    }
  }

  lemma KeptStill(entry: Option<Authorization>, s: Start, starts: seq<Start>, more: seq<Start>, over: seq<Span>, spans: seq<Span>,
                  at: nat)
    requires Kept(entry, s, starts, over, at)
    ensures Kept(entry, s, starts + more, over + spans, at)
  {
    KeptLater(entry, s, starts, more, over, spans, at, at);
  }

  lemma FoundUnspentStill(id: string, checkedAt: nat, starts: seq<Start>, more: seq<Start>, which: set<nat>, still: set<nat>,
                          over: seq<Span>, spans: seq<Span>)
    requires FoundUnspent(id, checkedAt, starts, which, over)
    requires forall i :: i in still && i < |starts| ==> i in which
    requires forall k :: 0 <= k < |more| ==> checkedAt < more[k].markedAt
    ensures FoundUnspent(id, checkedAt, starts + more, still, over + spans)
  {
    forall i | i in still && i < |starts + more| && (starts + more)[i].authorizationId == id
      ensures checkedAt < (starts + more)[i].markedAt || Overwritten(over + spans, (starts + more)[i], checkedAt)
    {
      if i < |starts| && !(checkedAt < starts[i].markedAt) {
        OverwrittenLater(over, spans, starts[i], checkedAt, checkedAt);
      }
    }
  }

  lemma GenuineEntryStill(id: string, a: Authorization, minted: map<string, Authorization>, more: map<string, Authorization>,
                          starts: seq<Start>, others: seq<Start>)
    requires GenuineEntry(id, a, minted, starts) && forall x :: x in minted ==> x in more && more[x] == minted[x]
    ensures GenuineEntry(id, a, more, starts + others)
  {
    if a.consumption.Some? {
      var k :| 0 <= k < |starts| && starts[k].authorizationId == id && starts[k].executionId == a.consumption.value.executionId;
      assert (starts + others)[k] == starts[k];
    }
  }

  lemma GenuineStill(doc: map<string, Authorization>, minted: map<string, Authorization>, more: map<string, Authorization>,
                     starts: seq<Start>, others: seq<Start>)
    requires Genuine(doc, minted, starts) && forall x :: x in minted ==> x in more && more[x] == minted[x]
    ensures Genuine(doc, more, starts + others)
  {
    forall x | x in doc ensures GenuineEntry(x, doc[x], more, starts + others) {
      GenuineEntryStill(x, doc[x], minted, more, starts, others);
    }
  }

  // -- every deed keeps it ----------------------------------------------------------------------

  /** One deed later: perhaps one more start, marked now, and one more span. */
  predicate Grows(o: Office, n: Office, more: seq<Start>, spans: seq<Span>) {
    && n.clock == o.clock + 1 && n.starts == o.starts + more && n.over == o.over + spans
    && (forall x :: x in o.minted ==> x in n.minted && n.minted[x] == o.minted[x])
    && (forall i :: i in n.standing && i < |o.starts| ==> i in o.standing)
    && (forall k :: 0 <= k < |more| ==> more[k].checkedAt < more[k].markedAt == o.clock)
  }

  lemma DocumentStays(o: Office, n: Office, more: seq<Start>, spans: seq<Span>, w: Writing)
    requires Grows(o, n, more, spans) && DocumentOk(o, w)
    ensures DocumentOk(n, w)
  {
    hide Holds, Genuine;
    if !w.Marked? {
      GenuineStill(w.doc, o.minted, n.minted, o.starts, more);
      HoldsLater(w.doc, w.at + 1, w.at + 1, o.starts, more, o.standing, n.standing, o.over, spans);
    }
  }

  predicate SameStanding(o: Office, n: Office) { n.standing == o.standing && n.granted == o.granted }

  lemma MarkStays(o: Office, n: Office, more: seq<Start>, spans: seq<Span>, w: Writing)
    requires Grows(o, n, more, spans) && StartsOk(o) && MarkOk(o, w)
    requires w.Recording? || SameStanding(o, n) || (w.start in n.standing && w.start !in n.granted)
    ensures MarkOk(n, w)
  {
    hide EntryHolds, GenuineEntry;
    if !w.Recording? {
      var s := o.starts[w.start];
      assert n.starts[w.start] == s;
      GenuineEntryStill(s.authorizationId, w.before, o.minted, n.minted, o.starts, more);
      EntryHoldsLater(w.before, s.authorizationId, s.markedAt, o.starts, more, o.standing, n.standing, o.over, spans);
    }
  }

  lemma PendingStays(o: Office, n: Office, more: seq<Start>, spans: seq<Span>)
    requires Grows(o, n, more, spans) && PendingOk(o)
    requires forall t :: t in n.pending ==> t in o.pending && n.pending[t] == o.pending[t]
    requires forall t :: t in n.pending ==> t !in n.writing
    requires forall x :: x in o.memory ==> x in n.memory
    ensures PendingOk(n)
  {
    hide FoundUnspent;
    forall t | t in n.pending
      ensures FoundUnspent(n.pending[t].request.authorizationId, n.pending[t].at, n.starts, n.standing, n.over)
    {
      FoundUnspentStill(o.pending[t].request.authorizationId, o.pending[t].at, o.starts, more, o.standing, n.standing, o.over, spans);
    }
  }

  lemma CheckStays(o: Office, n: Office, more: seq<Start>, spans: seq<Span>, k: nat)
    requires Grows(o, n, more, spans) && StartsOk(o) && ChecksOk(o) && k < |o.starts|
    ensures FoundUnspent(n.starts[k].authorizationId, n.starts[k].checkedAt, n.starts, n.standing - {k}, n.over)
  {
    hide FoundUnspent;
    assert n.starts[k] == o.starts[k];
    FoundUnspentStill(o.starts[k].authorizationId, o.starts[k].checkedAt, o.starts, more, o.standing - {k}, n.standing - {k},
                      o.over, spans);
  }

  /** A deed that adds no start and changes neither memory nor the store, nor adds a write. */
  lemma RestStays(o: Office, n: Office, spans: seq<Span>)
    requires Grows(o, n, [], spans) && OfficeInv(o)
    requires n.granted <= n.standing <= o.standing
    requires forall t :: t in n.writing ==> t in o.writing && n.writing[t] == o.writing[t]
    requires SameStanding(o, n) || forall t :: t in n.writing && !n.writing[t].Recording? ==>
               n.writing[t].start in n.standing && n.writing[t].start !in n.granted
    ensures StartsOk(n) && ChecksOk(n) && WritingOk(n)
  {
    hide FoundUnspent, MarkOk, DocumentOk, StoresOk, PendingOk;
    forall k | 0 <= k < |n.starts|
      ensures FoundUnspent(n.starts[k].authorizationId, n.starts[k].checkedAt, n.starts, n.standing - {k}, n.over)
    {
      CheckStays(o, n, [], spans, k);
    }
    forall t | t in n.writing ensures MarkOk(n, n.writing[t]) && DocumentOk(n, n.writing[t]) {
      MarkStays(o, n, [], spans, o.writing[t]);
      DocumentStays(o, n, [], spans, o.writing[t]);
    }
  }

  /** Memory or the store left alone says at the next moment what it said. */
  lemma DocStays(o: Office, n: Office, spans: seq<Span>, doc: map<string, Authorization>, which: set<nat>, still: set<nat>)
    requires Grows(o, n, [], spans) && StartsOk(o) && still <= which <= o.standing
    requires Genuine(doc, o.minted, o.starts) && Holds(doc, o.clock, o.starts, which, o.over)
    ensures Genuine(doc, n.minted, n.starts) && Holds(doc, n.clock, n.starts, still, n.over)
  {
    hide Holds, Genuine;
    GenuineStill(doc, o.minted, n.minted, o.starts, []);
    HoldsLater(doc, o.clock, n.clock, o.starts, [], which, still, o.over, spans);
  }

  lemma ApproveKeepsOffice(o: Office, a: Authorization)
    requires OfficeInv(o) && DoApprove(o, a).Some?
    ensures OfficeInv(DoApprove(o, a).value)
  {
    hide Holds, Genuine, GenuineEntry, FoundUnspent, MarkOk, DocumentOk;
    var n := DoApprove(o, a).value;
    RestStays(o, n, []);
    PendingStays(o, n, [], []);
    DocStays(o, n, [], o.memory, o.standing, o.standing);
    DocStays(o, n, [], o.stored, o.granted, o.granted);
    NewEntryGenuine(o.memory, a, n.minted, n.starts);
    OtherEntryHolds(o.memory, a.id, a, n.clock, n.starts, n.standing, n.over);
  }

  lemma NewEntryGenuine(doc: map<string, Authorization>, a: Authorization, minted: map<string, Authorization>, starts: seq<Start>)
    requires Genuine(doc, minted, starts) && a.consumption.None? && a.id in minted && minted[a.id] == a
    ensures Genuine(doc[a.id := a], minted, starts)
  {
  }

  /** An entry no start is about may change freely. */
  lemma OtherEntryHolds(doc: map<string, Authorization>, id: string, a: Authorization, at: nat, starts: seq<Start>, which: set<nat>,
                        over: seq<Span>)
    requires Holds(doc, at, starts, which, over) && EntryHolds(a, id, at, starts, which, over)
    ensures Holds(doc[id := a], at, starts, which, over)
  {
    hide Kept;
    forall i | i in which && i < |starts| ensures Kept(Entry(doc[id := a], starts[i].authorizationId), starts[i], starts, over, at) {
      assert Kept(Entry(doc, starts[i].authorizationId), starts[i], starts, over, at);
      if starts[i].authorizationId == id {
        assert Kept(Some(a), starts[i], starts, over, at);
      }
    }
  }

  lemma IdleKeepsOffice(o: Office)
    requires OfficeInv(o)
    ensures OfficeInv(o.(clock := o.clock + 1))
  {
    hide Holds, Genuine, FoundUnspent, MarkOk, DocumentOk;
    var n := o.(clock := o.clock + 1);
    RestStays(o, n, []);
    PendingStays(o, n, [], []);
    DocStays(o, n, [], o.memory, o.standing, o.standing);
    DocStays(o, n, [], o.stored, o.granted, o.granted);
  }

  lemma CheckKeepsOffice(o: Office, q: Request, t: nat)
    requires OfficeInv(o) && DoCheck(o, q, t).Some?
    ensures OfficeInv(DoCheck(o, q, t).value)
  {
    hide Holds, Genuine, FoundUnspent, MarkOk, DocumentOk, Judge;
    IdleKeepsOffice(o);
    if Judge(o.memory, q) == Valid {
      ValidIsUnspent(o, q);
      SamePlaces(o.(clock := o.clock + 1), DoCheck(o, q, t).value);
    }
  }

  /** Which checks are pending matters to no other clause. */
  lemma SamePlaces(m: Office, n: Office)
    requires n == m.(pending := n.pending) && StartsOk(m) && ChecksOk(m) && WritingOk(m) && StoresOk(m)
    ensures StartsOk(n) && ChecksOk(n) && WritingOk(n) && StoresOk(n)
  {
    hide Holds, Genuine, FoundUnspent, EntryHolds, GenuineEntry;
    forall t | t in n.writing ensures MarkOk(n, n.writing[t]) && DocumentOk(n, n.writing[t]) {
      assert MarkOk(m, m.writing[t]) && DocumentOk(m, m.writing[t]);
    }
  }

  /** An approval judged valid is as it was given, and whatever marked it is gone. */
  lemma ValidIsUnspent(o: Office, q: Request)
    requires StartsOk(o) && StoresOk(o) && Judge(o.memory, q) == Valid
    ensures q.authorizationId in o.memory && q.authorizationId in o.minted
    ensures o.memory[q.authorizationId] == o.minted[q.authorizationId] && o.memory[q.authorizationId].consumption.None?
    ensures FoundUnspent(q.authorizationId, o.clock, o.starts, o.standing, o.over)
  {
    var a := o.memory[q.authorizationId];
    assert GenuineEntry(q.authorizationId, a, o.minted, o.starts);
    forall i | i in o.standing && i < |o.starts| && o.starts[i].authorizationId == q.authorizationId
      ensures Overwritten(o.over, o.starts[i], o.clock)
    {
      assert Kept(Entry(o.memory, o.starts[i].authorizationId), o.starts[i], o.starts, o.over, o.clock);
    }
  }

  lemma CaptureKeepsOffice(o: Office, t: nat)
    requires OfficeInv(o) && DoCapture(o, t).Some?
    ensures OfficeInv(DoCapture(o, t).value)
  {
    hide Holds, Genuine, FoundUnspent, MarkOk, DocumentOk;
    var n := DoCapture(o, t).value;
    IdleKeepsOffice(o);
    CapturedWriting(o, n, t);
    forall u | u in n.pending ensures n.pending[u] == o.pending[u] && u !in n.writing {
    }
  }

  lemma CapturedWriting(o: Office, n: Office, t: nat)
    requires OfficeInv(o) && DoCapture(o, t) == Some(n)
    ensures WritingOk(n)
  {
    hide Holds, Genuine, FoundUnspent, MarkOk, DocumentOk, StoresOk, ChecksOk, PendingOk;
    CapturedOk(o, n, t);
    forall u | u in n.writing && u != t ensures MarkOk(n, n.writing[u]) && DocumentOk(n, n.writing[u]) {
      MarkStays(o, n, [], [], o.writing[u]);
      DocumentStays(o, n, [], [], o.writing[u]);
    }
  }

  lemma CapturedOk(o: Office, n: Office, t: nat)
    requires OfficeInv(o) && DoCapture(o, t) == Some(n)
    ensures t in n.writing && MarkOk(n, n.writing[t]) && DocumentOk(n, n.writing[t])
  {
    hide Holds, Genuine, FoundUnspent, EntryHolds, GenuineEntry;
    DocStays(o, n, [], o.memory, o.standing, o.standing);
    if t in o.writing {
      MarkStays(o, n, [], [], o.writing[t]);
    }
  }

  lemma LandKeepsOffice(o: Office, t: nat)
    requires OfficeInv(o) && DoLand(o, t).Some?
    ensures OfficeInv(DoLand(o, t).value)
  {
    hide Holds, Genuine, FoundUnspent, EntryHolds, GenuineEntry;
    var n := DoLand(o, t).value;
    var span := Span(o.writing[t].at, o.clock, None);
    assert MarkOk(o, o.writing[t]) && DocumentOk(o, o.writing[t]);
    RestStays(o, n, [span]);
    PendingStays(o, n, [], [span]);
    DocStays(o, n, [span], o.memory, o.standing, o.standing);
    LandedHolds(o, n, t);
  }

  lemma LandedHolds(o: Office, n: Office, t: nat)
    requires OfficeInv(o) && DoLand(o, t) == Some(n)
    ensures Genuine(n.stored, n.minted, n.starts) && Holds(n.stored, n.clock, n.starts, n.granted, n.over)
  {
    hide Kept, Genuine, EntryHolds, FoundUnspent;
    var w := o.writing[t];
    assert MarkOk(o, w) && DocumentOk(o, w);
    forall i | i in n.granted && i < |n.starts|
      ensures Kept(Entry(w.doc, n.starts[i].authorizationId), n.starts[i], n.starts, n.over, n.clock)
    {
      assert i in o.standing;
      if n.starts[i].markedAt <= w.at {
        assert o.starts + [] == o.starts;
        KeptLater(Entry(w.doc, o.starts[i].authorizationId), o.starts[i], o.starts, [], o.over, [Span(w.at, o.clock, None)],
                  w.at + 1, n.clock);
      } else {
        CoveredIsKept(Entry(w.doc, n.starts[i].authorizationId), n.starts[i], n.starts, n.over, |o.over|, n.clock);
      }
    }
  }

  lemma CoveredIsKept(entry: Option<Authorization>, s: Start, starts: seq<Start>, over: seq<Span>, w: nat, at: nat)
    requires w < |over| && over[w].from < s.markedAt < over[w].to < at && over[w].only in {None, Some(s.authorizationId)}
    ensures Kept(entry, s, starts, over, at)
  {
  }

  lemma FailKeepsOffice(o: Office, t: nat)
    requires OfficeInv(o) && DoFail(o, t).Some?
    ensures OfficeInv(DoFail(o, t).value)
  {
    hide Holds, Genuine, FoundUnspent, EntryHolds, GenuineEntry;
    var n := DoFail(o, t).value;
    var w := o.writing[t];
    assert MarkOk(o, w) && DocumentOk(o, w);
    var spans := if w.Recording? then [] else [Span(o.starts[w.start].markedAt, o.clock, Some(o.starts[w.start].authorizationId))];
    RestStays(o, n, spans);
    PendingStays(o, n, [], spans);
    DocStays(o, n, spans, o.stored, o.granted, o.granted);
    DocStays(o, n, spans, o.memory, o.standing, n.standing);
    if w.Spending? {
      PutBackHolds(o, n, t);
    }
  }

  lemma PutBackHolds(o: Office, n: Office, t: nat)
    requires OfficeInv(o) && DoFail(o, t) == Some(n) && o.writing[t].Spending?
    ensures Genuine(n.memory, n.minted, n.starts) && Holds(n.memory, n.clock, n.starts, n.standing, n.over)
  {
    hide Kept, FoundUnspent, GenuineEntry;
    var w := o.writing[t];
    assert MarkOk(o, w);
    var s := o.starts[w.start];
    var spans := [Span(s.markedAt, o.clock, Some(s.authorizationId))];
    DocStays(o, n, spans, o.memory, o.standing, n.standing);
    forall i | i in n.standing && i < |n.starts| && n.starts[i].authorizationId == s.authorizationId
      ensures Kept(Some(w.before), n.starts[i], n.starts, n.over, n.clock)
    {
      if i < w.start {
        assert o.starts + [] == o.starts;
        KeptLater(Some(w.before), o.starts[i], o.starts, [], o.over, spans, s.markedAt, n.clock);
      } else {
        CoveredIsKept(Some(w.before), n.starts[i], n.starts, n.over, |o.over|, n.clock);
      }
    }
    OtherEntryHolds(o.memory, s.authorizationId, w.before, n.clock, n.starts, n.standing, n.over);
  }

  lemma RestartKeepsOffice(o: Office)
    requires OfficeInv(o)
    ensures OfficeInv(DoRestart(o))
  {
    hide Holds, Genuine, FoundUnspent, MarkOk, DocumentOk;
    var n := DoRestart(o);
    RestStays(o, n, []);
    DocStays(o, n, [], o.stored, o.granted, o.granted);
  }

  lemma MarkKeepsOffice(o: Office, t: nat)
    requires OfficeInv(o) && DoMark(o, t).Some?
    ensures OfficeInv(DoMark(o, t).value)
  {
    hide Holds, Genuine, FoundUnspent, EntryHolds, GenuineEntry;
    var n := DoMark(o, t).value;
    var p := o.pending[t];
    var more := [StartOf(p, o.clock)];
    PendingStays(o, n, more, []);
    MarkedChecks(o, n, t);
    MarkedWriting(o, n, t);
    MarkedHolds(o, n, t);
    GenuineStill(o.stored, o.minted, n.minted, o.starts, more);
    HoldsLater(o.stored, o.clock, n.clock, o.starts, more, o.granted, o.granted, o.over, []);
    assert o.over + [] == o.over;
  }

  lemma MarkedChecks(o: Office, n: Office, t: nat)
    requires OfficeInv(o) && DoMark(o, t) == Some(n)
    ensures ChecksOk(n)
  {
    hide Holds, Genuine, FoundUnspent, MarkOk, DocumentOk;
    var p := o.pending[t];
    var more := [StartOf(p, o.clock)];
    assert o.over + [] == o.over;
    forall k | 0 <= k < |n.starts|
      ensures FoundUnspent(n.starts[k].authorizationId, n.starts[k].checkedAt, n.starts, n.standing - {k}, n.over)
    {
      if k < |o.starts| {
        CheckStays(o, n, more, [], k);
      } else {
        FoundUnspentStill(p.request.authorizationId, p.at, o.starts, more, o.standing, n.standing - {k}, o.over, []);
      }
    }
  }

  lemma MarkedWriting(o: Office, n: Office, t: nat)
    requires OfficeInv(o) && DoMark(o, t) == Some(n)
    ensures WritingOk(n)
  {
    hide Genuine, Holds, FoundUnspent, DocumentOk, ChecksOk;
    var more := [StartOf(o.pending[t], o.clock)];
    assert o.over + [] == o.over;
    assert forall u :: u in o.writing && !o.writing[u].Recording? ==> MarkOk(o, o.writing[u]) && o.writing[u].start < |o.starts|;
    MarkedEntry(o, n, t);
    forall u | u in o.writing ensures MarkOk(n, n.writing[u]) && DocumentOk(n, n.writing[u]) {
      MarkStays(o, n, more, [], o.writing[u]);
      DocumentStays(o, n, more, [], o.writing[u]);
    }
    assert DocumentOk(n, n.writing[t]) by { MarkedIsNoDocument(n, n.writing[t]); }
  }

  lemma MarkedIsNoDocument(n: Office, w: Writing)
    requires w.Marked?
    ensures DocumentOk(n, w)
  {
  }

  lemma MarkedEntry(o: Office, n: Office, t: nat)
    requires OfficeInv(o) && DoMark(o, t) == Some(n)
    ensures MarkOk(n, n.writing[t])
  {
    hide FoundUnspent, Kept, MarkOk, DocumentOk;
    var id := o.pending[t].request.authorizationId;
    var more := [StartOf(o.pending[t], o.clock)];
    assert o.over + [] == o.over;
    assert EntryHolds(o.memory[id], id, o.clock, o.starts, o.standing, o.over) by { EntryOfHolds(o, id); }
    EntryHoldsLater(o.memory[id], id, o.clock, o.starts, more, o.standing, n.standing, o.over, []);
    assert GenuineEntry(id, o.memory[id], o.minted, o.starts);
    GenuineEntryStill(id, o.memory[id], o.minted, n.minted, o.starts, more);
    MarkIs(n, n.writing[t]);
  }

  lemma MarkIs(n: Office, w: Writing)
    requires !w.Recording? && w.start in n.standing && w.start !in n.granted && w.start < |n.starts|
    requires GenuineEntry(n.starts[w.start].authorizationId, w.before, n.minted, n.starts)
    requires EntryHolds(w.before, n.starts[w.start].authorizationId, n.starts[w.start].markedAt, n.starts, n.standing, n.over)
    ensures MarkOk(n, w)
  {
  }

  lemma EntryOfHolds(o: Office, id: string)
    requires id in o.memory && Holds(o.memory, o.clock, o.starts, o.standing, o.over)
    ensures EntryHolds(o.memory[id], id, o.clock, o.starts, o.standing, o.over)
  {
    hide Kept;
    forall i | i in o.standing && i < |o.starts| && o.starts[i].authorizationId == id
      ensures Kept(Some(o.memory[id]), o.starts[i], o.starts, o.over, o.clock)
    {
      assert Kept(Entry(o.memory, o.starts[i].authorizationId), o.starts[i], o.starts, o.over, o.clock);
    }
  }

  lemma MarkedHolds(o: Office, n: Office, t: nat)
    requires OfficeInv(o) && DoMark(o, t) == Some(n)
    ensures Genuine(n.memory, n.minted, n.starts) && Holds(n.memory, n.clock, n.starts, n.standing, n.over)
  {
    hide FoundUnspent, MarkOk, DocumentOk, Kept;
    var p := o.pending[t];
    var id := p.request.authorizationId;
    var spent := Spent(p.approval, p.request);
    var more := [StartOf(p, o.clock)];
    var me := |o.starts|;
    assert o.over + [] == o.over && n.starts[me] == more[0];
    GenuineStill(o.memory, o.minted, n.minted, o.starts, more);
    assert GenuineEntry(id, spent, n.minted, n.starts) by { assert n.starts[me].authorizationId == id; }
    HoldsLater(o.memory, o.clock, n.clock, o.starts, more, o.standing, o.standing, o.over, []);
    forall i | i in n.standing && i < |n.starts|
      ensures Kept(Entry(n.memory, n.starts[i].authorizationId), n.starts[i], n.starts, n.over, n.clock)
    {
      if n.starts[i].authorizationId != id {
        assert Kept(Entry(o.memory, n.starts[i].authorizationId), n.starts[i], n.starts, n.over, n.clock);
      } else {
        SpentIsKept(spent, n.starts, i, n.over, n.clock);
      }
    }
  }

  /** The newest mark keeps itself, and stands over all older ones of its approval. */
  lemma SpentIsKept(spent: Authorization, starts: seq<Start>, i: nat, over: seq<Span>, at: nat)
    requires i < |starts| && spent.consumption.Some?
    requires var last := starts[|starts| - 1];
             && last.authorizationId == starts[i].authorizationId && last.executionId == spent.consumption.value.executionId
             && last.markedAt < at && (i < |starts| - 1 ==> starts[i].markedAt < last.markedAt)
    ensures Kept(Some(spent), starts[i], starts, over, at)
  {
  }

  lemma DeedKeepsOffice(o: Office, deed: Deed)
    requires OfficeInv(o) && Done(o, deed).Some?
    ensures OfficeInv(Done(o, deed).value)
  {
    hide OfficeInv, DoApprove, DoCheck, DoMark, DoCapture, DoLand, DoFail, DoRestart;
    match deed
    case Approve(a) => ApproveKeepsOffice(o, a);
    case Check(q, t) => CheckKeepsOffice(o, q, t);
    case Mark(t) => MarkKeepsOffice(o, t);
    case Capture(t) => CaptureKeepsOffice(o, t);
    case EndWrite(t, landed) => if landed { LandKeepsOffice(o, t); } else { FailKeepsOffice(o, t); }
    case Restarted => RestartKeepsOffice(o);
  }

  lemma {:induction false} RunKeepsOffice(o: Office, deeds: seq<Deed>)
    requires OfficeInv(o) && Run(o, deeds).Some?
    ensures OfficeInv(Run(o, deeds).value)
    decreases |deeds|
  {
    hide OfficeInv, Done;
    if deeds != [] {
      DeedKeepsOffice(o, deeds[0]);
      RunKeepsOffice(Done(o, deeds[0]).value, deeds[1..]);
    }
  }

  lemma EmptyOfficeSatisfiesInv()
    ensures OfficeInv(EmptyOffice)
  {
  }

  // -- one approval, one execution --------------------------------------------------------------

  /** Two permitted executions of one approval, in the order of their marks. */
  predicate SameApproval(o: Office, i: nat, j: nat) {
    i < j < |o.starts| && i in o.granted && j in o.granted && o.starts[i].authorizationId == o.starts[j].authorizationId
  }

  ghost predicate PermitsTwice(o: Office) {
    exists i: nat, j: nat :: SameApproval(o, i, j)
  }

  /** The second to mark had checked before the first marked, or after the first mark was overwritten. */
  predicate Overlapped(o: Office, i: nat, j: nat)
    requires i < |o.starts| && j < |o.starts|
  {
    o.starts[j].checkedAt < o.starts[i].markedAt || Overwritten(o.over, o.starts[i], o.starts[j].checkedAt)
  }

  ghost predicate SomeOverlap(o: Office) {
    exists i: nat, j: nat :: SameApproval(o, i, j) && Overlapped(o, i, j)
  }

  /** Something was under way across this mark: a document, a consumption that failed, or another start of
      the same approval that had checked before it and marked after it. */
  predicate Disturbed(o: Office, i: nat)
    requires i < |o.starts|
  {
    || Overwritten(o.over, o.starts[i], o.clock)
    || exists k :: 0 <= k < |o.starts| && o.starts[k].authorizationId == o.starts[i].authorizationId
                   && o.starts[k].checkedAt < o.starts[i].markedAt < o.starts[k].markedAt
  }

  /** The permit a granted start was answered with: its approval's budget, as it was given. */
  function PermitOf(o: Office, i: nat): Permit
    requires i < |o.starts| && o.starts[i].authorizationId in o.minted
  {
    Permit(o.starts[i].authorizationId, o.starts[i].executionId, o.minted[o.starts[i].authorizationId].budget)
  }

  ghost predicate EveryPermitIsNamed(o: Office) {
    forall i :: i in o.granted ==>
      i < |o.starts| && o.starts[i].authorizationId in o.minted && (Disturbed(o, i) || Names(o.stored, PermitOf(o, i)))
  }

  lemma MarkedOverIsDisturbed(o: Office, i: nat)
    requires OfficeInv(o) && i in o.standing && i < |o.starts| && MarkedOver(o.starts, o.starts[i], o.clock)
    ensures Disturbed(o, i)
  {
    hide PendingOk, WritingOk, StoresOk, Overwritten;
    var s := o.starts[i];
    var k :| 0 <= k < |o.starts| && o.starts[k].authorizationId == s.authorizationId && s.markedAt < o.starts[k].markedAt < o.clock;
    assert FoundUnspent(s.authorizationId, o.starts[k].checkedAt, o.starts, o.standing - {k}, o.over);
    if Overwritten(o.over, s, o.starts[k].checkedAt) {
      OverwrittenLater(o.over, [], s, o.starts[k].checkedAt, o.clock);
      assert o.over + [] == o.over;
    }
  }

  lemma UndisturbedIsNamed(o: Office, i: nat)
    requires OfficeInv(o) && i in o.granted && i < |o.starts| && !Disturbed(o, i)
    ensures Names(o.stored, PermitOf(o, i))
  {
    hide PendingOk, WritingOk;
    var s := o.starts[i];
    assert i in o.standing;
    assert Kept(Entry(o.stored, s.authorizationId), s, o.starts, o.over, o.clock);
    assert GenuineEntry(s.authorizationId, o.stored[s.authorizationId], o.minted, o.starts);
    if MarkedOver(o.starts, s, o.clock) {
      MarkedOverIsDisturbed(o, i);
    }
  }

  lemma SameApprovalOverlaps(o: Office, i: nat, j: nat)
    requires OfficeInv(o) && SameApproval(o, i, j)
    ensures Overlapped(o, i, j)
  {
    hide PendingOk, WritingOk, StoresOk, Overwritten;
    assert FoundUnspent(o.starts[j].authorizationId, o.starts[j].checkedAt, o.starts, o.standing - {j}, o.over);
  }

  lemma TwiceIffOverlap(o: Office)
    requires OfficeInv(o)
    ensures forall i: nat, j: nat :: SameApproval(o, i, j) ==> Overlapped(o, i, j)
    ensures PermitsTwice(o) <==> SomeOverlap(o)
  {
    hide OfficeInv, Overlapped;
    forall i: nat, j: nat | SameApproval(o, i, j) ensures Overlapped(o, i, j) {
      SameApprovalOverlaps(o, i, j);
    }
  }

  /** Over every run of approvals, checks, marks, captures, writes that land or fail in any order, and
      restarts: of any two executions permitted on one approval, the second to mark had checked before the
      first marked, or after something under way across that mark had put the old entry back. So an approval
      permits two executions if and only if two permitted starts of it are so related; that one direction is
      the content, the other is plain. And the store names every permitted execution whose mark nothing was
      under way across. */
  lemma OverlappingConsumptionPermitsTwice(deeds: seq<Deed>)
    requires Run(EmptyOffice, deeds).Some?
    ensures var o := Run(EmptyOffice, deeds).value;
            && (forall i: nat, j: nat :: SameApproval(o, i, j) ==> Overlapped(o, i, j))
            && (PermitsTwice(o) <==> SomeOverlap(o)) && EveryPermitIsNamed(o)
  {
    EmptyOfficeSatisfiesInv();
    hide Run, PermitsTwice, SomeOverlap, Names, Disturbed, Overlapped;
    RunKeepsOffice(EmptyOffice, deeds);
    var o := Run(EmptyOffice, deeds).value;
    TwiceIffOverlap(o);
    forall i | i in o.granted && !Disturbed(o, i) ensures Names(o.stored, PermitOf(o, i)) {
      assert i in o.standing;
      UndisturbedIsNamed(o, i);
    }
  }

  // -- what the store says in the end -------------------------------------------------------------

  predicate NamedIn(doc: map<string, Authorization>, s: Start) { SaysSpentOn(Entry(doc, s.authorizationId), s) }

  /** The last document to land was captured while memory named this start; `naming` are the writes under
      way that were, and `before` is what held when none lands. */
  predicate LastLandedNamed(o: Office, deeds: seq<Deed>, s: Start, naming: set<nat>, before: bool)
    decreases |deeds|
  {
    if deeds == [] || Done(o, deeds[0]).None? then before
    else
      var rest := NamingAfter(o, deeds[0], s, naming);
      var said := if deeds[0].EndWrite? && deeds[0].landed then deeds[0].ticket in naming else before;
      LastLandedNamed(Done(o, deeds[0]).value, deeds[1..], s, rest, said)
  }

  function NamingAfter(o: Office, deed: Deed, s: Start, naming: set<nat>): set<nat> {
    match deed
    case Capture(t) => if NamedIn(o.memory, s) then naming + {t} else naming - {t}
    case EndWrite(t, _) => naming - {t}
    case Restarted => {}
    case _ => naming
  }

  /** Exactly these writes under way have a document that names the start. */
  predicate Sorted(writing: map<nat, Writing>, s: Start, naming: set<nat>) {
    forall t :: t in writing && !writing[t].Marked? ==> (t in naming <==> NamedIn(writing[t].doc, s))
  }

  lemma DeedSorts(o: Office, deed: Deed, s: Start, naming: set<nat>)
    requires Done(o, deed).Some? && Sorted(o.writing, s, naming)
    ensures var n := Done(o, deed).value;
            && Sorted(n.writing, s, NamingAfter(o, deed, s, naming))
            && (NamedIn(n.stored, s) <==> if deed.EndWrite? && deed.landed then deed.ticket in naming else NamedIn(o.stored, s))
  {
    hide NamedIn, Judge;
  }

  /** The store names a start if and only if the last document to land was captured while memory did, whatever
      was under way across its mark. */
  lemma {:induction false} NamedIffLastLandedNamed(o: Office, deeds: seq<Deed>, s: Start, naming: set<nat>)
    requires Run(o, deeds).Some? && Sorted(o.writing, s, naming)
    ensures NamedIn(Run(o, deeds).value.stored, s) <==> LastLandedNamed(o, deeds, s, naming, NamedIn(o.stored, s))
    decreases |deeds|
  {
    hide Done, Sorted, NamedIn, NamingAfter;
    if deeds != [] {
      DeedSorts(o, deeds[0], s, naming);
      NamedIffLastLandedNamed(Done(o, deeds[0]).value, deeds[1..], s, NamingAfter(o, deeds[0], s, naming));
    }
  }

  /** And memory names a start from its mark on until another start of that approval marks or is rolled back,
      or the process restarts. */
  lemma MemoryNamesUntil(o: Office, deed: Deed, s: Start)
    requires Done(o, deed).Some? && s.authorizationId in o.minted
    ensures var n := Done(o, deed).value;
            && (deed.Mark? && n.starts[|o.starts|] == s ==> NamedIn(n.memory, s))
            && (NamedIn(o.memory, s) && !deed.Restarted?
                && !(deed.Mark? && n.starts[|o.starts|].authorizationId == s.authorizationId)
                && !(deed.EndWrite? && !deed.landed && o.writing[deed.ticket].Spending?
                     && o.starts[o.writing[deed.ticket].start].authorizationId == s.authorizationId) ==>
                  NamedIn(n.memory, s))
  {
    hide Judge;
  }

  // -- what no lock prevents --------------------------------------------------------------------

  lemma RunStep(o: Office, deed: Deed, rest: seq<Deed>)
    requires Done(o, deed).Some?
    ensures Run(o, [deed] + rest) == Run(Done(o, deed).value, rest)
  {
    hide Done;
    assert ([deed] + rest)[1..] == rest;
  }

  lemma {:induction false} RunSplits(o: Office, first: seq<Deed>, rest: seq<Deed>)
    requires Run(o, first).Some?
    ensures Run(o, first + rest) == Run(Run(o, first).value, rest)
    decreases |first|
  {
    hide Done;
    if first == [] {
      assert first + rest == rest;
    } else {
      RunSplits(Done(o, first[0]).value, first[1..], rest);
      assert (first + rest)[1..] == first[1..] + rest;
    }
  }

  function Through(t: nat): seq<Deed> { [Mark(t)] + ([Capture(t)] + ([EndWrite(t, true)] + [])) }

  /** A start past its check goes all the way if nothing else happens. */
  lemma GoesThrough(o: Office, t: nat)
    requires t in o.pending && t !in o.writing && o.pending[t].request.authorizationId in o.memory
    ensures var n := Run(o, Through(t));
            && n.Some? && n.value.starts == o.starts + [StartOf(o.pending[t], o.clock)] && n.value.granted == o.granted + {|o.starts|}
            && n.value.pending == o.pending - {t} && n.value.writing == o.writing
            && n.value.memory == o.memory[o.pending[t].request.authorizationId := Spent(o.pending[t].approval, o.pending[t].request)]
  {
    var a := Done(o, Mark(t)).value;
    var b := Done(a, Capture(t)).value;
    var c := Done(b, EndWrite(t, true)).value;
    RunStep(o, Mark(t), [Capture(t)] + ([EndWrite(t, true)] + []));
    RunStep(a, Capture(t), [EndWrite(t, true)] + []);
    RunStep(b, EndWrite(t, true), []);
    assert c.writing == o.writing;
  }

  /** Any two starts that have both passed their check on one approval can still both be permitted. */
  lemma BothPendingMayBePermitted(deeds: seq<Deed>, first: nat, second: nat)
    requires Run(EmptyOffice, deeds).Some?
    requires var o := Run(EmptyOffice, deeds).value;
             first != second && first in o.pending && second in o.pending
             && o.pending[first].request.authorizationId == o.pending[second].request.authorizationId
    ensures var after := Run(Run(EmptyOffice, deeds).value, Through(first) + Through(second));
            after.Some? && PermitsTwice(after.value)
  {
    EmptyOfficeSatisfiesInv();
    hide Run, Through, Done;
    RunKeepsOffice(EmptyOffice, deeds);
    var o := Run(EmptyOffice, deeds).value;
    GoesThrough(o, first);
    var one := Run(o, Through(first)).value;
    GoesThrough(one, second);
    RunSplits(o, Through(first), Through(second));
    assert SameApproval(Run(one, Through(second)).value, |o.starts|, |o.starts| + 1);
  }

  function Opening(t: nat): seq<Deed> { [Mark(t)] + ([Capture(t)] + []) }

  function Across(first: nat, second: nat): seq<Deed> {
    Opening(first) + (Through(second) + ([EndWrite(first, false)] + []))
  }

  lemma Opens(o: Office, t: nat)
    requires t in o.pending && t !in o.writing && o.pending[t].request.authorizationId in o.memory
    ensures var n := Run(o, Opening(t));
            && n.Some? && n.value.starts == o.starts + [StartOf(o.pending[t], o.clock)] && n.value.granted == o.granted
            && n.value.pending == o.pending - {t} && t in n.value.writing && n.value.writing[t].Spending?
            && n.value.writing - {t} == o.writing && n.value.writing[t].start == |o.starts|
            && n.value.writing[t].before == o.memory[o.pending[t].request.authorizationId]
            && n.value.memory == o.memory[o.pending[t].request.authorizationId := Spent(o.pending[t].approval, o.pending[t].request)]
  {
    var a := Done(o, Mark(t)).value;
    RunStep(o, Mark(t), [Capture(t)] + []);
    RunStep(a, Capture(t), []);
  }

  /** A start that marks and captures, another of the same approval that goes through, and the first one's
      write failing: the second is permitted, and memory is back where it was before either marked. */
  lemma AcrossRuns(o: Office, first: nat, second: nat)
    requires first != second && first in o.pending && second in o.pending && first !in o.writing && second !in o.writing
    requires o.pending[first].request.authorizationId == o.pending[second].request.authorizationId
    requires o.pending[first].request.authorizationId in o.memory
    ensures var n := Run(o, Across(first, second));
            && n.Some? && n.value.memory == o.memory && n.value.granted == o.granted + {|o.starts| + 1}
            && n.value.pending == o.pending - {first, second} && n.value.writing == o.writing && |n.value.starts| == |o.starts| + 2
            && n.value.starts[|o.starts| + 1].authorizationId == o.pending[second].request.authorizationId
  {
    hide Run, Through, Opening;
    Opens(o, first);
    var b := Run(o, Opening(first)).value;
    GoesThrough(b, second);
    var e := Run(b, Through(second)).value;
    RunStep(e, EndWrite(first, false), []);
    RunsOut(Done(e, EndWrite(first, false)).value);
    RunSplits(b, Through(second), [EndWrite(first, false)] + []);
    RunSplits(o, Opening(first), Through(second) + ([EndWrite(first, false)] + []));
    assert Done(e, EndWrite(first, false)).value.memory == o.memory;
  }

  lemma RunsOut(o: Office)
    ensures Run(o, []) == Some(o)
  {
  }

  /** So a permitted start can be forgotten by one that failed: a third request that was valid before either
      marked is checked and permitted afterwards, on an approval already permitted, and overlaps neither. */
  lemma FailedStartForgetsAPermit(deeds: seq<Deed>, first: nat, second: nat, q: Request, third: nat)
    requires Run(EmptyOffice, deeds).Some?
    requires var o := Run(EmptyOffice, deeds).value;
             && first != second && first in o.pending && second in o.pending && third !in o.pending && third !in o.writing
             && o.pending[first].request.authorizationId == o.pending[second].request.authorizationId == q.authorizationId
             && Judge(o.memory, q) == Valid
    ensures var o := Run(EmptyOffice, deeds).value;
            var after := Run(o, Across(first, second) + ([Check(q, third)] + Through(third)));
            && after.Some? && SameApproval(after.value, |o.starts| + 1, |o.starts| + 2)
            && after.value.starts[|o.starts| + 1].markedAt < after.value.starts[|o.starts| + 2].checkedAt
  {
    EmptyOfficeSatisfiesInv();
    hide Run, Through, Across, Judge;
    RunKeepsOffice(EmptyOffice, deeds);
    var o := Run(EmptyOffice, deeds).value;
    AcrossRuns(o, first, second);
    var n := Run(o, Across(first, second)).value;
    RunKeepsOffice(o, Across(first, second));
    ThirdIsPermitted(n, q, third, |o.starts| + 1);
    RunSplits(o, Across(first, second), [Check(q, third)] + Through(third));
  }

  lemma ThirdIsPermitted(n: Office, q: Request, third: nat, earlier: nat)
    requires OfficeInv(n) && Judge(n.memory, q) == Valid && third !in n.pending && third !in n.writing
    requires earlier < |n.starts| && earlier in n.granted && n.starts[earlier].authorizationId == q.authorizationId
    ensures var after := Run(n, [Check(q, third)] + Through(third));
            && after.Some? && SameApproval(after.value, earlier, |n.starts|)
            && after.value.starts[earlier].markedAt < after.value.starts[|n.starts|].checkedAt
  {
    hide Run, Through, PendingOk, ChecksOk, WritingOk;
    ValidIsUnspent(n, q);
    hide Judge, StoresOk;
    RunStep(n, Check(q, third), Through(third));
    GoesThrough(Done(n, Check(q, third)).value, third);
  }

  function Late(t: nat, recording: nat): seq<Deed> {
    [Capture(recording)] + (Through(t) + ([EndWrite(recording, true)] + []))
  }

  /** And by a recording: captured before a consumption and landed after it, it leaves the store, and after
      a restart memory, with the approval as it was before, so what was valid then is valid again. */
  lemma LateRecordingErasesASpend(deeds: seq<Deed>, t: nat, recording: nat)
    requires Run(EmptyOffice, deeds).Some?
    requires var o := Run(EmptyOffice, deeds).value; t in o.pending && recording !in o.pending && recording !in o.writing
    ensures var o := Run(EmptyOffice, deeds).value;
            var after := Run(o, Late(t, recording));
            && after.Some? && after.value.granted == o.granted + {|o.starts|}
            && after.value.starts == o.starts + [StartOf(o.pending[t], o.clock + 1)]
            && after.value.stored == o.memory && DoRestart(after.value).memory == o.memory
  {
    EmptyOfficeSatisfiesInv();
    hide Run, Through;
    RunKeepsOffice(EmptyOffice, deeds);
    var o := Run(EmptyOffice, deeds).value;
    RunStep(o, Capture(recording), Through(t) + ([EndWrite(recording, true)] + []));
    var a := Done(o, Capture(recording)).value;
    GoesThrough(a, t);
    var b := Run(a, Through(t)).value;
    RunSplits(a, Through(t), [EndWrite(recording, true)] + []);
    RunStep(b, EndWrite(recording, true), []);
    RunsOut(Done(b, EndWrite(recording, true)).value);
  }
}
