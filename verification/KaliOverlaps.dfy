/** Kali runs and approvals whose load and save come apart. Each reads the whole store, decides, and writes
    back what it read, with one approval left out or one added; in between, others do the same. Here is
    exactly when one approval is dispatched twice. */
module KaliOverlaps {
  import opened Options
  import opened Kali

  /** A run past all gates but its save, or an approval about to be saved, over what it loaded. */
  datatype Underway =
    | Running(request: RunRequest, loaded: seq<Approval>, at: nat)
    | Adding(approval: Approval, loaded: seq<Approval>, at: nat)

  /** A save that landed, with the moments of its load and of its landing. */
  datatype Landing = Landing(loadedAt: nat, savedAt: nat)

  datatype Dispatched = Dispatched(id: string, loadedAt: nat, savedAt: nat)

  /** `ever` are the identities that were ever in the store; kept for the proofs like what follows it. */
  datatype Yard = Yard(
    stored: seq<Approval>,
    underway: map<nat, Underway>,
    ever: set<string>,
    landings: seq<Landing>,
    dispatches: seq<Dispatched>,
    clock: nat)

  datatype Move =
    | LoadToRun(request: RunRequest, ticket: nat)
    | SaveRun(ticket: nat, lands: bool)
    | LoadToApprove(approval: Approval, ticket: nat)
    | SaveApproval(ticket: nat, lands: bool)

  const EmptyYard := Yard([], map[], {}, [], [], 0)

  /** Identifiers are minted fresh: never stored, and not about to be. */
  predicate FreshId(y: Yard, id: string) {
    id !in y.ever && forall t :: t in y.underway && y.underway[t].Adding? ==> y.underway[t].approval.id != id
  }

  /** The first gate that fails besides the save. */
  function GateFailure(stored: seq<Approval>, q: RunRequest): Option<Stage> {
    FirstFailure(stored, q.(consumptionLands := true))
  }

  function Moved(y: Yard, m: Move): Option<Yard> {
    var next := y.(clock := y.clock + 1);
    match m
    case LoadToRun(q, t) =>
      if t in y.underway then None
      else if GateFailure(y.stored, q).Some? then Some(next)
      else Some(next.(underway := y.underway[t := Running(q, y.stored, y.clock)]))
    case SaveRun(t, lands) =>
      if t !in y.underway || !y.underway[t].Running? then None
      else
        var Running(q, loaded, at) := y.underway[t];
        var done := next.(underway := y.underway - {t});
        Some(if !lands then done
             else done.(stored := Excluding(loaded, q.authorizationId),
                        landings := y.landings + [Landing(at, y.clock)],
                        dispatches := y.dispatches + [Dispatched(q.authorizationId, at, y.clock)]))
    case LoadToApprove(a, t) =>
      if t in y.underway || !FreshId(y, a.id) then None
      else Some(next.(underway := y.underway[t := Adding(a, y.stored, y.clock)]))
    case SaveApproval(t, lands) =>
      if t !in y.underway || !y.underway[t].Adding? then None
      else
        var Adding(a, loaded, at) := y.underway[t];
        var done := next.(underway := y.underway - {t});
        Some(if !lands then done
             else done.(stored := loaded + [a], ever := y.ever + {a.id}, landings := y.landings + [Landing(at, y.clock)]))
  }

  function Moves(y: Yard, moves: seq<Move>): Option<Yard>
    decreases |moves|
  {
    if moves == [] then Some(y)
    else
      var n := Moved(y, moves[0]);
      if n.None? then None else Moves(n.value, moves[1..])
  }

  /** A save landed between these two moments that had loaded before the first of them. */
  predicate LateLanding(landings: seq<Landing>, after: nat, before: nat) {
    exists w :: 0 <= w < |landings| && landings[w].loadedAt < after < landings[w].savedAt < before
  }

  predicate SameId(dispatches: seq<Dispatched>, i: nat, j: nat) {
    i < j < |dispatches| && dispatches[i].id == dispatches[j].id
  }

  ghost predicate DispatchedTwice(y: Yard) { exists i: nat, j: nat :: SameId(y.dispatches, i, j) }

  /** The second run had loaded before the first one saved, or loaded what a late save had brought back. */
  predicate Explained(landings: seq<Landing>, first: Dispatched, second: Dispatched) {
    second.loadedAt < first.savedAt || LateLanding(landings, first.savedAt, second.loadedAt)
  }

  ghost predicate TwiceExplained(y: Yard) {
    exists i: nat, j: nat :: SameId(y.dispatches, i, j) && Explained(y.landings, y.dispatches[i], y.dispatches[j])
  }

  // -- what every move keeps ------------------------------------------------------------------

  /** A dispatched approval is in a document only if it was read before the dispatch, or brought back since. */
  predicate GoneFrom(doc: seq<Approval>, at: nat, dispatches: seq<Dispatched>, landings: seq<Landing>) {
    forall i :: 0 <= i < |dispatches| && dispatches[i].id in Ids(doc) ==>
      at < dispatches[i].savedAt || LateLanding(landings, dispatches[i].savedAt, at)
  }

  predicate UnderwayOk(y: Yard) {
    forall t :: t in y.underway ==>
      && y.underway[t].at < y.clock && Ids(y.underway[t].loaded) <= y.ever
      && GoneFrom(y.underway[t].loaded, y.underway[t].at, y.dispatches, y.landings)
      && (y.underway[t].Running? ==> y.underway[t].request.authorizationId in Ids(y.underway[t].loaded))
      && (y.underway[t].Adding? ==> y.underway[t].approval.id !in y.ever)
  }

  predicate ApartPending(underway: map<nat, Underway>) {
    forall t, u :: t in underway && u in underway && t != u && underway[t].Adding? && underway[u].Adding? ==>
      underway[t].approval.id != underway[u].approval.id
  }

  predicate PastOk(y: Yard) {
    forall i :: 0 <= i < |y.dispatches| ==>
      && y.dispatches[i].id in y.ever && y.dispatches[i].savedAt < y.clock
      && exists w :: 0 <= w < |y.landings| && y.landings[w] == Landing(y.dispatches[i].loadedAt, y.dispatches[i].savedAt)
  }

  predicate InOrder(dispatches: seq<Dispatched>) {
    forall i, j :: 0 <= i < j < |dispatches| ==> dispatches[i].savedAt < dispatches[j].savedAt
  }

  ghost predicate YardInv(y: Yard) {
    && Ids(y.stored) <= y.ever && GoneFrom(y.stored, y.clock, y.dispatches, y.landings)
    && UnderwayOk(y) && ApartPending(y.underway) && PastOk(y) && InOrder(y.dispatches)
    && forall i: nat, j: nat :: SameId(y.dispatches, i, j) ==> Explained(y.landings, y.dispatches[i], y.dispatches[j])
  }

  lemma LaterLanding(landings: seq<Landing>, more: seq<Landing>, after: nat, before: nat, later: nat)
    requires LateLanding(landings, after, before) && before <= later
    ensures LateLanding(landings + more, after, later)
  {
    var w :| 0 <= w < |landings| && landings[w].loadedAt < after < landings[w].savedAt < before;
    assert (landings + more)[w] == landings[w];
  }

  lemma GoneWithMoreLandings(doc: seq<Approval>, at: nat, dispatches: seq<Dispatched>, landings: seq<Landing>, more: seq<Landing>)
    requires GoneFrom(doc, at, dispatches, landings)
    ensures GoneFrom(doc, at, dispatches, landings + more)
  {
    forall i | 0 <= i < |dispatches| && dispatches[i].id in Ids(doc) && at >= dispatches[i].savedAt
      ensures LateLanding(landings + more, dispatches[i].savedAt, at)
    {
      LaterLanding(landings, more, dispatches[i].savedAt, at, at);
    }
  }

  /** What is stored now stays as explained while time passes. */
  lemma GoneAsTimePasses(doc: seq<Approval>, now: nat, dispatches: seq<Dispatched>, landings: seq<Landing>)
    requires GoneFrom(doc, now, dispatches, landings) && forall i :: 0 <= i < |dispatches| ==> dispatches[i].savedAt < now
    ensures GoneFrom(doc, now + 1, dispatches, landings)
  {
    assert landings + [] == landings;
    forall i | 0 <= i < |dispatches| && dispatches[i].id in Ids(doc) ensures LateLanding(landings, dispatches[i].savedAt, now + 1) {
      LaterLanding(landings, [], dispatches[i].savedAt, now, now + 1);
    }
  }

  /** A document that lands brings back exactly what it was read with. */
  lemma GoneOnceLanded(loaded: seq<Approval>, doc: seq<Approval>, at: nat, now: nat, dispatches: seq<Dispatched>, landings: seq<Landing>)
    requires GoneFrom(loaded, at, dispatches, landings) && at < now
    requires forall i :: 0 <= i < |dispatches| ==> dispatches[i].savedAt < now
    requires forall i :: 0 <= i < |dispatches| && dispatches[i].id in Ids(doc) ==> dispatches[i].id in Ids(loaded)
    ensures GoneFrom(doc, now + 1, dispatches, landings + [Landing(at, now)])
  {
    forall i | 0 <= i < |dispatches| && dispatches[i].id in Ids(doc)
      ensures LateLanding(landings + [Landing(at, now)], dispatches[i].savedAt, now + 1)
    {
      if at < dispatches[i].savedAt {
        assert (landings + [Landing(at, now)])[|landings|] == Landing(at, now);
      } else {
        LaterLanding(landings, [Landing(at, now)], dispatches[i].savedAt, at, now + 1);
      }
    }
  }

  lemma GoneWithOneMore(doc: seq<Approval>, at: nat, dispatches: seq<Dispatched>, landings: seq<Landing>, d: Dispatched)
    requires GoneFrom(doc, at, dispatches, landings) && (at < d.savedAt || d.id !in Ids(doc))
    ensures GoneFrom(doc, at, dispatches + [d], landings)
  {
  }

  lemma LoadKeepsYard(y: Yard, u: Underway, t: nat)
    requires YardInv(y) && t !in y.underway && u.loaded == y.stored && u.at == y.clock
    requires u.Running? ==> u.request.authorizationId in Ids(y.stored)
    requires u.Adding? ==> FreshId(y, u.approval.id)
    ensures YardInv(y.(clock := y.clock + 1, underway := y.underway[t := u]))
  {
    GoneAsTimePasses(y.stored, y.clock, y.dispatches, y.landings);
  }

  lemma PassingKeepsYard(y: Yard)
    requires YardInv(y)
    ensures YardInv(y.(clock := y.clock + 1))
  {
    GoneAsTimePasses(y.stored, y.clock, y.dispatches, y.landings);
  }

  lemma DroppingKeepsYard(y: Yard, t: nat)
    requires YardInv(y)
    ensures YardInv(y.(clock := y.clock + 1, underway := y.underway - {t}))
  {
    GoneAsTimePasses(y.stored, y.clock, y.dispatches, y.landings);
  }

  lemma UnderwayWithMore(y: Yard, t: nat, more: seq<Landing>, ever: set<string>)
    requires YardInv(y) && t in y.underway && y.ever <= ever
    requires ever == y.ever || (y.underway[t].Adding? && ever == y.ever + {y.underway[t].approval.id})
    ensures UnderwayOk(y.(clock := y.clock + 1, underway := y.underway - {t}, landings := y.landings + more, ever := ever))
  {
    forall u | u in y.underway ensures GoneFrom(y.underway[u].loaded, y.underway[u].at, y.dispatches, y.landings + more) {
      GoneWithMoreLandings(y.underway[u].loaded, y.underway[u].at, y.dispatches, y.landings, more);
    }
  }

  lemma PastWithMore(y: Yard, n: Yard)
    requires PastOk(y) && n.dispatches == y.dispatches && n.clock == y.clock + 1 && y.ever <= n.ever && y.landings <= n.landings
    ensures PastOk(n)
  {
    forall i | 0 <= i < |n.dispatches|
      ensures exists w :: 0 <= w < |n.landings| && n.landings[w] == Landing(n.dispatches[i].loadedAt, n.dispatches[i].savedAt)
    {
      var w :| 0 <= w < |y.landings| && y.landings[w] == Landing(y.dispatches[i].loadedAt, y.dispatches[i].savedAt);
      assert n.landings[w] == y.landings[w];
    }
  }

  lemma ExplainedWithMore(landings: seq<Landing>, more: seq<Landing>, first: Dispatched, second: Dispatched)
    requires Explained(landings, first, second)
    ensures Explained(landings + more, first, second)
  {
    if !(second.loadedAt < first.savedAt) {
      LaterLanding(landings, more, first.savedAt, second.loadedAt, second.loadedAt);
    }
  }

  /** The yard once this document has landed, before any dispatch it makes. */
  lemma LandingKeepsYard(y: Yard, t: nat, doc: seq<Approval>, ever: set<string>)
    requires YardInv(y) && t in y.underway && y.ever <= ever && Ids(doc) <= ever
    requires ever == y.ever || (y.underway[t].Adding? && ever == y.ever + {y.underway[t].approval.id})
    requires forall x :: x in Ids(doc) && x in y.ever ==> x in Ids(y.underway[t].loaded)
    ensures YardInv(y.(clock := y.clock + 1, underway := y.underway - {t}, stored := doc, ever := ever,
                       landings := y.landings + [Landing(y.underway[t].at, y.clock)]))
  {
    var u := y.underway[t];
    var more := [Landing(u.at, y.clock)];
    var n := y.(clock := y.clock + 1, underway := y.underway - {t}, stored := doc, ever := ever, landings := y.landings + more);
    GoneOnceLanded(u.loaded, doc, u.at, y.clock, y.dispatches, y.landings);
    UnderwayWithMore(y, t, more, ever);
    PastWithMore(y, n);
    hide GoneFrom, LateLanding, PastOk, Ids;
    forall i: nat, j: nat | SameId(n.dispatches, i, j) ensures Explained(n.landings, n.dispatches[i], n.dispatches[j]) {
      ExplainedWithMore(y.landings, more, y.dispatches[i], y.dispatches[j]);
    }
  }

  /** A run that has just saved its consumption dispatches. */
  lemma DispatchKeepsYard(n: Yard, d: Dispatched)
    requires YardInv(n) && d.id !in Ids(n.stored) && d.id in n.ever && d.savedAt + 1 == n.clock
    requires exists w :: 0 <= w < |n.landings| && n.landings[w] == Landing(d.loadedAt, d.savedAt)
    requires forall t :: t in n.underway ==> n.underway[t].at < d.savedAt
    requires forall i :: 0 <= i < |n.dispatches| ==> n.dispatches[i].savedAt < d.savedAt
    requires forall i :: 0 <= i < |n.dispatches| && n.dispatches[i].id == d.id ==> Explained(n.landings, n.dispatches[i], d)
    ensures YardInv(n.(dispatches := n.dispatches + [d]))
  {
    var after := n.(dispatches := n.dispatches + [d]);
    GoneWithOneMore(n.stored, n.clock, n.dispatches, n.landings, d);
    forall t | t in n.underway ensures GoneFrom(n.underway[t].loaded, n.underway[t].at, after.dispatches, n.landings) {
      GoneWithOneMore(n.underway[t].loaded, n.underway[t].at, n.dispatches, n.landings, d);
    }
    hide GoneFrom, LateLanding, Ids, Explained;
    forall i: nat, j: nat | SameId(after.dispatches, i, j) ensures Explained(n.landings, after.dispatches[i], after.dispatches[j]) {
      if j < |n.dispatches| {
        assert SameId(n.dispatches, i, j);
      }
    }
  }

  lemma {:induction false} ExcludingDrops(list: seq<Approval>, id: string)
    ensures id !in Ids(Excluding(list, id)) && Ids(Excluding(list, id)) <= Ids(list)
  {
  }

  lemma SaveRunKeepsYard(y: Yard, t: nat)
    requires YardInv(y) && Moved(y, SaveRun(t, true)).Some?
    ensures YardInv(Moved(y, SaveRun(t, true)).value)
  {
    var Running(q, loaded, at) := y.underway[t];
    var id := q.authorizationId;
    ExcludingDrops(loaded, id);
    LandingKeepsYard(y, t, Excluding(loaded, id), y.ever);
    var n := y.(clock := y.clock + 1, underway := y.underway - {t}, stored := Excluding(loaded, id), landings := y.landings + [Landing(at, y.clock)]);
    var d := Dispatched(id, at, y.clock);
    assert n.landings[|y.landings|] == Landing(at, y.clock);
    forall i | 0 <= i < |y.dispatches| && y.dispatches[i].id == id ensures Explained(n.landings, y.dispatches[i], d) {
      assert Explained(y.landings, y.dispatches[i], d);
      ExplainedWithMore(y.landings, [Landing(at, y.clock)], y.dispatches[i], d);
    }
    DispatchKeepsYard(n, d);
  }

  lemma SaveApprovalKeepsYard(y: Yard, t: nat)
    requires YardInv(y) && Moved(y, SaveApproval(t, true)).Some?
    ensures YardInv(Moved(y, SaveApproval(t, true)).value)
  {
    var Adding(a, loaded, at) := y.underway[t];
    LandingKeepsYard(y, t, loaded + [a], y.ever + {a.id});
  }

  lemma PassedGates(stored: seq<Approval>, q: RunRequest)
    requires GateFailure(stored, q).None?
    ensures q.authorizationId in Ids(stored)
  {
    var matches := WithId(stored, q.authorizationId);
    assert matches[0] in matches;
  }

  lemma MoveKeepsYard(y: Yard, m: Move)
    requires YardInv(y) && Moved(y, m).Some?
    ensures YardInv(Moved(y, m).value)
  {
    hide YardInv;
    match m
    case LoadToRun(q, t) =>
      if GateFailure(y.stored, q).Some? {
        PassingKeepsYard(y);
      } else {
        PassedGates(y.stored, q);
        LoadKeepsYard(y, Running(q, y.stored, y.clock), t);
      }
    case SaveRun(t, lands) => if lands { SaveRunKeepsYard(y, t); } else { DroppingKeepsYard(y, t); }
    case LoadToApprove(a, t) => LoadKeepsYard(y, Adding(a, y.stored, y.clock), t);
    case SaveApproval(t, lands) => if lands { SaveApprovalKeepsYard(y, t); } else { DroppingKeepsYard(y, t); }
  }

  lemma {:induction false} MovesKeepYard(y: Yard, moves: seq<Move>)
    requires YardInv(y) && Moves(y, moves).Some?
    ensures YardInv(Moves(y, moves).value)
    decreases |moves|
  {
    hide YardInv, Moved;
    if moves != [] {
      MoveKeepsYard(y, moves[0]);
      MovesKeepYard(Moved(y, moves[0]).value, moves[1..]);
    }
  }

  lemma EmptyYardSatisfiesInv()
    ensures YardInv(EmptyYard)
  {
    assert forall i: nat, j: nat :: !SameId([], i, j);
  }

  lemma TwiceIsExplained(y: Yard)
    requires YardInv(y)
    ensures forall i: nat, j: nat :: SameId(y.dispatches, i, j) ==> Explained(y.landings, y.dispatches[i], y.dispatches[j])
    ensures DispatchedTwice(y) <==> TwiceExplained(y)
  {
    hide GoneFrom, UnderwayOk, PastOk, Explained, Ids;
    if DispatchedTwice(y) {
      var i: nat, j: nat :| SameId(y.dispatches, i, j);
      assert Explained(y.landings, y.dispatches[i], y.dispatches[j]);
    }
  }

  /** Consume once, dispatch once: over every run of loads, saves, failed saves and approvals, of any two runs
      that dispatched one approval the later had loaded before the earlier one saved, or had loaded what a
      save brought back that had loaded before the earlier one saved and landed after. So an approval is
      dispatched twice if and only if two of its runs are so related; that one direction is the content, the
      other is plain. */
  lemma DispatchedTwiceIffOverlapped(moves: seq<Move>)
    requires Moves(EmptyYard, moves).Some?
    ensures var y := Moves(EmptyYard, moves).value;
            && (forall i: nat, j: nat :: SameId(y.dispatches, i, j) ==> Explained(y.landings, y.dispatches[i], y.dispatches[j]))
            && (DispatchedTwice(y) <==> TwiceExplained(y))
  {
    EmptyYardSatisfiesInv();
    hide YardInv, Moves;
    MovesKeepYard(EmptyYard, moves);
    TwiceIsExplained(Moves(EmptyYard, moves).value);
  }

  /** No save landed between another one's load and its landing. */
  predicate NoneOverlap(landings: seq<Landing>) {
    forall w, v :: 0 <= w < |landings| && 0 <= v < |landings| ==> !(landings[w].loadedAt < landings[v].savedAt < landings[w].savedAt)
  }

  lemma ApartIsNotTwice(y: Yard, i: nat, j: nat)
    requires YardInv(y) && NoneOverlap(y.landings)
    ensures !SameId(y.dispatches, i, j)
  {
  }

  /** So as long as no two saves overlap, no approval is dispatched twice. */
  lemma ApartIsOnce(moves: seq<Move>)
    requires Moves(EmptyYard, moves).Some? && NoneOverlap(Moves(EmptyYard, moves).value.landings)
    ensures !DispatchedTwice(Moves(EmptyYard, moves).value)
  {
    EmptyYardSatisfiesInv();
    hide YardInv, Moves, NoneOverlap, SameId;
    MovesKeepYard(EmptyYard, moves);
    forall i: nat, j: nat ensures !SameId(Moves(EmptyYard, moves).value.dispatches, i, j) {
      ApartIsNotTwice(Moves(EmptyYard, moves).value, i, j);
    }
  }

  /** Any two runs that have both loaded one approval can both dispatch it. */
  lemma BothLoadedMayDispatch(y: Yard, first: nat, second: nat)
    requires first != second && first in y.underway && second in y.underway && y.underway[first].Running? && y.underway[second].Running?
    requires y.underway[first].request.authorizationId == y.underway[second].request.authorizationId
    ensures Moved(y, SaveRun(first, true)).Some? && Moved(Moved(y, SaveRun(first, true)).value, SaveRun(second, true)).Some?
    ensures DispatchedTwice(Moved(Moved(y, SaveRun(first, true)).value, SaveRun(second, true)).value)
  {
    var two := Moved(Moved(y, SaveRun(first, true)).value, SaveRun(second, true)).value;
    assert SameId(two.dispatches, |y.dispatches|, |y.dispatches| + 1);
  }

  /** And a run of another approval that had loaded the first one brings it back. */
  lemma AnotherRunBringsItBack(y: Yard, first: nat, other: nat)
    requires first != other && first in y.underway && other in y.underway && y.underway[first].Running? && y.underway[other].Running?
    requires y.underway[first].request.authorizationId != y.underway[other].request.authorizationId
    requires y.underway[first].request.authorizationId in Ids(y.underway[other].loaded)
    ensures Moved(y, SaveRun(first, true)).Some? && Moved(Moved(y, SaveRun(first, true)).value, SaveRun(other, true)).Some?
    ensures y.underway[first].request.authorizationId in Ids(Moved(Moved(y, SaveRun(first, true)).value, SaveRun(other, true)).value.stored)
  {
    var id := y.underway[first].request.authorizationId;
    var a :| a in y.underway[other].loaded && a.id == id;
    assert a in Excluding(y.underway[other].loaded, y.underway[other].request.authorizationId);
  }
}
