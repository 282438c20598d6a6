/** What a worker cycle asked for, run by run, set against what the executions spent and against what
    the queue counted for its tasks. */
module WorkerAccounts {
  import opened Options
  import opened Allowances
  import opened AttemptProtocol
  import opened Autonomy
  import opened Tasks
  import S = Scheduling

  /** One run of a cycle: for which task, on which execution, and what it asked for. */
  datatype RunRecord = RunRecord(taskId: string, executionId: string, ledger: Ledger)

  function SpentIn(account: seq<RunRecord>, executionId: string): Ledger {
    if account == [] then NothingAsked
    else
      var last := account[|account| - 1];
      Sum(SpentIn(account[..|account| - 1], executionId), if last.executionId == executionId then last.ledger else NothingAsked)
  }

  function AskedIn(account: seq<RunRecord>, taskId: string): Ledger {
    if account == [] then NothingAsked
    else
      var last := account[|account| - 1];
      Sum(AskedIn(account[..|account| - 1], taskId), if last.taskId == taskId then last.ledger else NothingAsked)
  }

  /** No execution's own ledger grew by more than what was asked for it. */
  ghost predicate Accounted(before: map<string, Cell>, now: map<string, Cell>, account: seq<RunRecord>) {
    now.Keys == before.Keys
    && forall id :: id in before ==> Bounded(before[id].allowance, now[id].allowance, SpentIn(account, id))
  }

  /** The queue counted for every task exactly what its runs asked for. */
  ghost predicate Counted(before: map<string, Ledger>, now: map<string, Ledger>, account: seq<RunRecord>) {
    forall id :: S.AskedFor(now, id) == Sum(S.AskedFor(before, id), AskedIn(account, id))
  }

  /** Every run was of a task of the queue, on its execution, within its budget. */
  predicate RunsOf(account: seq<RunRecord>, tasks: map<string, Task>) {
    forall i :: 0 <= i < |account| ==>
      && account[i].taskId in tasks && tasks[account[i].taskId].executionId == account[i].executionId
      && WithinRun(account[i].ledger, tasks[account[i].taskId].budget)
  }

  lemma NothingAccounted(cells: map<string, Cell>, asked: map<string, Ledger>, tasks: map<string, Task>)
    ensures Accounted(cells, cells, []) && Counted(asked, asked, []) && RunsOf([], tasks)
  {
    NothingCounted(asked);
    hide Counted;
    forall id | id in cells ensures Bounded(cells[id].allowance, cells[id].allowance, SpentIn([], id)) {
      assert SpentIn([], id) == NothingAsked;
    }
  }

  lemma NothingCounted(asked: map<string, Ledger>)
    ensures Counted(asked, asked, [])
  {
    hide S.AskedFor, AskedIn, Sum;
    forall id ensures S.AskedFor(asked, id) == Sum(S.AskedFor(asked, id), AskedIn([], id)) {
      NothingAskedOf(id, S.AskedFor(asked, id));
    }
  }

  lemma NothingAskedOf(id: string, ledger: Ledger)
    ensures AskedIn([], id) == NothingAsked && Sum(ledger, AskedIn([], id)) == ledger
  {
  }

  lemma SpentGrows(account: seq<RunRecord>, r: RunRecord, id: string)
    ensures SpentIn(account + [r], id) == Sum(SpentIn(account, id), if r.executionId == id then r.ledger else NothingAsked)
  {
    assert (account + [r])[..|account|] == account;
  }

  lemma AccountGrows(before: map<string, Cell>, mid: map<string, Cell>, now: map<string, Cell>, account: seq<RunRecord>, r: RunRecord)
    requires Accounted(before, mid, account) && Spends(mid, now, r.executionId, r.ledger)
    ensures Accounted(before, now, account + [r])
  {
    hide Bounded, OnlySaved, SpentIn;
    forall id | id in before ensures Bounded(before[id].allowance, now[id].allowance, SpentIn(account + [r], id)) {
      SpentGrows(account, r, id);
      if id != r.executionId {
        assert OnlySaved(mid[id], now[id]);
        SavingSpendsNothing(mid[id], now[id]);
      }
      BoundedTogether(before[id].allowance, mid[id].allowance, now[id].allowance, SpentIn(account, id),
                      if id == r.executionId then r.ledger else NothingAsked);
    }
  }

  lemma SavingSpendsNothing(a: Cell, b: Cell)
    requires OnlySaved(a, b)
    ensures Bounded(a.allowance, b.allowance, NothingAsked)
  {
  }

  lemma AskedGrows(account: seq<RunRecord>, r: RunRecord, id: string)
    ensures AskedIn(account + [r], id) == Sum(AskedIn(account, id), if r.taskId == id then r.ledger else NothingAsked)
  {
    assert (account + [r])[..|account|] == account;
  }

  lemma CountGrows(before: map<string, Ledger>, mid: map<string, Ledger>, account: seq<RunRecord>, r: RunRecord)
    requires Counted(before, mid, account)
    ensures Counted(before, mid[r.taskId := Sum(S.AskedFor(mid, r.taskId), r.ledger)], account + [r])
  {
    hide AskedIn;
    var now := mid[r.taskId := Sum(S.AskedFor(mid, r.taskId), r.ledger)];
    forall id ensures S.AskedFor(now, id) == Sum(S.AskedFor(before, id), AskedIn(account + [r], id)) {
      AskedGrows(account, r, id);
      assert S.AskedFor(mid, id) == Sum(S.AskedFor(before, id), AskedIn(account, id));
    }
  }

  lemma AccountsAdd(account: seq<RunRecord>, r: RunRecord, tasks: map<string, Task>)
    requires RunsOf(account, tasks) && r.taskId in tasks && tasks[r.taskId].executionId == r.executionId
    requires WithinRun(r.ledger, tasks[r.taskId].budget)
    ensures RunsOf(account + [r], tasks)
  {
  }
}
