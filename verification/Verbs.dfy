/** The operator's verbs, the sweep and the claim as they run: each reads and writes inside
    one unit of work, and the attempts it ends are cancelled after the commit
    (athanore/engine/ops.py, athanore/engine/recovery.py, athanore/store/repos/tasks.py). */
module Verbs {
  import opened Base
  import opened Json
  import opened Graphs
  import opened Rows
  import opened Store
  import opened Transactions
  import opened Ops
  import opened Interventions
  import Machine
  import Runner

  // A claimed row, and whether this claim started its run.
  datatype Claimed = Claimed(id: nat, started: bool)

  // The rows of a run that a cancellation stops, oldest first.
  function PendingIds(tasks: seq<Task>, run: string, upto: nat): (r: seq<nat>)
    requires upto <= |tasks|
    ensures forall id: nat :: id in r <==> id < upto && tasks[id].run == run && Pending(tasks[id].status)
  {
    if upto == 0 then []
    else
      var before := PendingIds(tasks, run, upto - 1);
      if tasks[upto - 1].run == run && Pending(tasks[upto - 1].status) then before + [upto - 1] else before
  }

  class Engine {
    const database: Database
    var graphs: map<string, Graph>
    // The attempts this process is running, each with the workflow it was claimed for.
    var attempts: map<nat, string>

    constructor (database: Database, graphs: map<string, Graph>)
      ensures this.database == database && this.graphs == graphs && attempts == map[]
    {
      this.database := database;
      this.graphs := graphs;
      this.attempts := map[];
    }

    // What the machine keeps of the engine, beside the returns.
    ghost function State(returned: map<nat, Machine.Return>): Machine.State
      reads this, database
    {
      Machine.State(database.tables, attempts.Keys, returned)
    }

    method CancelAttempts(ids: set<nat>)
      modifies this`attempts
      ensures attempts == old(attempts) - ids
    {
      attempts := attempts - ids;
    }

    method ReopenRun(uow: UnitOfWork, run: string)
      requires run in uow.runs
      modifies uow
      ensures uow.Seen() == Reopen(old(uow.Seen()), run)
    {
      if !Terminal(uow.runs[run].status) {
        return;
      }
      uow.UpdateRun(run, uow.runs[run].(status := Running, finished := None));
      uow.Emit(Some(run), None, RunReopened);
    }

    method EnqueueTask(uow: UnitOfWork, row: Task) returns (id: nat)
      modifies uow
      ensures uow.Seen() == EnqueueRow(old(uow.Seen()), row) && id == old(|uow.tasks|)
    {
      id := uow.Enqueue(row);
      uow.Emit(Some(row.run), Some(id), TaskEnqueued(row.lineage.reason));
    }

    method StopTask(uow: UnitOfWork, id: nat)
      requires id < |uow.tasks|
      modifies uow
      ensures uow.Seen() == CancelTask(old(uow.Seen()), id)
    {
      var run := uow.tasks[id].run;
      uow.SetTask(id, Cancelled);
      uow.Emit(Some(run), Some(id), TaskCancelledEvent);
    }

    method Pause(run: string) returns (r: Result<(), OpError>)
      modifies database
      ensures r.Ok? <==> Ops.Pause(old(database.tables), run).Ok?
      ensures r.Ok? ==> database.tables == Ops.Pause(old(database.tables), run).value
      ensures r.Ok? ==> OnlyStatus(old(database.tables), database.tables, run, Paused, RunPausedEvent)
      ensures r.Err? ==> database.tables == old(database.tables) && r.error == Ops.Pause(database.tables, run).error
    {
      var uow := new UnitOfWork(database);
      if run !in uow.runs { return Err(NotFound); }
      if uow.runs[run].status != Queued && uow.runs[run].status != Running { return Err(Conflict); }
      uow.SetRun(run, Paused, None);
      uow.Emit(Some(run), None, RunPausedEvent);
      database.Commit(uow);
      return Ok(());
    }

    method Resume(run: string) returns (r: Result<(), OpError>)
      modifies database
      ensures r.Ok? <==> Ops.Resume(old(database.tables), run).Ok?
      ensures r.Ok? ==> database.tables == Ops.Resume(old(database.tables), run).value
      ensures r.Ok? ==> OnlyStatus(old(database.tables), database.tables, run, Running, RunResumed)
      ensures r.Err? ==> database.tables == old(database.tables) && r.error == Ops.Resume(database.tables, run).error
    {
      var uow := new UnitOfWork(database);
      if run !in uow.runs { return Err(NotFound); }
      if uow.runs[run].status != Paused { return Err(Conflict); }
      uow.SetRun(run, Running, None);
      uow.Emit(Some(run), None, RunResumed);
      database.Commit(uow);
      return Ok(());
    }

    /** Stops every outstanding row of a run, oldest first, and says which. */
    method StopTasks(uow: UnitOfWork, run: string) returns (ids: seq<nat>)
      modifies uow
      ensures uow.Seen() == CancelTasks(old(uow.Seen()), run, |old(uow.tasks)|)
      ensures ids == PendingIds(old(uow.tasks), run, |old(uow.tasks)|)
    {
      hide CancelTask, CancelTasks, PendingIds;
      ghost var db := uow.Seen();
      var tasks := uow.tasks;
      ids := [];
      NothingStopped(db, run);
      for id := 0 to |tasks|
        invariant uow.Seen() == CancelTasks(db, run, id) && |uow.tasks| == |tasks|
        invariant ids == PendingIds(tasks, run, id)
      {
        StopsNext(db, run, id);
        if tasks[id].run == run && Pending(tasks[id].status) {
          StopTask(uow, id);
          ids := ids + [id];
        }
      }
    }

    method Cancel(run: string, now: nat) returns (r: Result<seq<nat>, OpError>)
      modifies database, this`attempts
      ensures r.Ok? <==> Ops.Cancel(old(database.tables), run, now).Ok?
      ensures r.Ok? ==> database.tables == Ops.Cancel(old(database.tables), run, now).value
      ensures r.Ok? ==> attempts.Keys == old(attempts.Keys) - Machine.PendingRows(old(database.tables), run)
      ensures r.Ok? ==> forall id: nat :: id in r.value <==> id in Machine.PendingRows(old(database.tables), run)
      ensures r.Err? ==> database.tables == old(database.tables) && attempts == old(attempts)
      ensures r.Err? ==> r.error == Ops.Cancel(database.tables, run, now).error
    {
      var uow := new UnitOfWork(database);
      if run !in uow.runs { return Err(NotFound); }
      if Terminal(uow.runs[run].status) { return Err(Conflict); }
      var ids := StopTasks(uow, run);
      uow.SetRun(run, RunCancelled, Some(now));
      uow.Emit(Some(run), None, RunCancelledEvent);
      database.Commit(uow);
      CancelAttempts(set id | id in ids);
      return Ok(ids);
    }

    method Rerun(run: string, node: string, now: nat) returns (r: Result<nat, OpError>)
      modifies database
      ensures r.Ok? <==> Ops.Rerun(old(database.tables), graphs, run, node, now).Ok?
      ensures r.Ok? ==> database.tables == Ops.Rerun(old(database.tables), graphs, run, node, now).value
      ensures r.Ok? ==> r.value == |old(database.tables).tasks|
      ensures r.Err? ==> database.tables == old(database.tables)
      ensures r.Err? ==> r.error == Ops.Rerun(database.tables, graphs, run, node, now).error
    {
      hide RerunRow, Reopen, EnqueueRow;
      var uow := new UnitOfWork(database);
      if run !in uow.runs { return Err(NotFound); }
      var target := Lookup(graphs, uow.runs[run].workflow, node);
      if target.Err? { return Err(target.error); }
      var row := RerunRow(uow.Seen(), run, target.value, now);
      if row.Err? { return Err(row.error); }
      var id := EnqueueTask(uow, row.value);
      EnqueueLeavesRuns(database.tables, row.value);
      ReopenRun(uow, run);
      ReopenLeavesEvents(EnqueueRow(database.tables, row.value), run);
      database.Commit(uow);
      return Ok(id);
    }

    method Retry(id: nat) returns (r: Result<nat, OpError>)
      modifies database
      ensures r.Ok? <==> Ops.Retry(old(database.tables), graphs, id).Ok?
      ensures r.Ok? ==> database.tables == Ops.Retry(old(database.tables), graphs, id).value
      ensures r.Ok? ==> r.value == |old(database.tables).tasks|
      ensures r.Err? ==> database.tables == old(database.tables)
      ensures r.Err? ==> r.error == Ops.Retry(database.tables, graphs, id).error
    {
      var uow := new UnitOfWork(database);
      if id >= |uow.tasks| { return Err(NotFound); }
      var t := uow.tasks[id];
      if Pending(t.status) { return Err(Conflict); }
      if t.run !in uow.runs { return Err(NotFound); }
      var target := Lookup(graphs, uow.runs[t.run].workflow, t.node);
      if target.Err? { return Err(target.error); }
      var retry := EnqueueTask(uow, Runner.RetryOf(t, id, ManualRetryReason));
      ReopenRun(uow, t.run);
      database.Commit(uow);
      return Ok(retry);
    }

    method Move(id: nat, node: string, now: nat) returns (r: Result<nat, OpError>)
      modifies database, this`attempts
      ensures r.Ok? <==> Ops.Move(old(database.tables), graphs, id, node, now).Ok?
      ensures r.Ok? ==> database.tables == Ops.Move(old(database.tables), graphs, id, node, now).value
      ensures r.Ok? ==> r.value == |old(database.tables).tasks| && attempts == old(attempts) - {id}
      ensures r.Err? ==> database.tables == old(database.tables) && attempts == old(attempts)
      ensures r.Err? ==> r.error == Ops.Move(database.tables, graphs, id, node, now).error
    {
      var uow := new UnitOfWork(database);
      if id >= |uow.tasks| { return Err(NotFound); }
      var t := uow.tasks[id];
      if t.run !in uow.runs { return Err(NotFound); }
      var target := Lookup(graphs, uow.runs[t.run].workflow, node);
      if target.Err? { return Err(target.error); }
      if target.value.join { return Err(Conflict); }
      if Pending(t.status) {
        StopTask(uow, id);
      }
      var row := Runner.NewTask(t.run, target.value, t.payload, 1, now, t.branch, Lineage(MoveReason, Some(id), []));
      var moved := EnqueueTask(uow, row);
      uow.Emit(Some(t.run), Some(id), TaskMoved(moved));
      ReopenRun(uow, t.run);
      database.Commit(uow);
      CancelAttempts({id});
      return Ok(moved);
    }

    method SetStatus(id: nat, status: TaskStatus) returns (r: Result<(), OpError>)
      requires Settable(status)
      modifies database, this`attempts
      ensures r.Ok? <==> Ops.SetStatus(old(database.tables), id, status).Ok?
      ensures r.Ok? ==> database.tables == Ops.SetStatus(old(database.tables), id, status).value
      ensures r.Ok? ==> attempts == old(attempts) - {id}
      ensures r.Err? ==> database.tables == old(database.tables) && attempts == old(attempts)
      ensures r.Err? ==> r.error == Ops.SetStatus(database.tables, id, status).error
    {
      var uow := new UnitOfWork(database);
      if id >= |uow.tasks| { return Err(NotFound); }
      var run := uow.tasks[id].run;
      uow.SetTask(id, status);
      uow.Emit(Some(run), Some(id), TaskStatusSet(status));
      if status == Cancelled {
        uow.Emit(Some(run), Some(id), TaskCancelledEvent);
      }
      if status == Ready {
        if run !in uow.runs { return Err(NotFound); }
        ReopenRun(uow, run);
      }
      database.Commit(uow);
      CancelAttempts({id});
      return Ok(());
    }

    method Submit(workflow: string, run: string, payload: Json, now: nat) returns (r: Result<nat, OpError>)
      requires forall w | w in graphs :: graphs[w].start in graphs[w].nodes
      modifies database
      ensures r.Ok? <==> Ops.Submit(old(database.tables), graphs, workflow, run, payload, now).Ok?
      ensures r.Ok? ==> database.tables == Ops.Submit(old(database.tables), graphs, workflow, run, payload, now).value
      ensures r.Ok? ==> r.value == |old(database.tables).tasks|
      ensures r.Err? ==> database.tables == old(database.tables) && r.error == UnknownWorkflow
    {
      if workflow !in graphs { return Err(UnknownWorkflow); }
      var uow := new UnitOfWork(database);
      uow.UpdateRun(run, Run(workflow, Queued, None, None));
      uow.Emit(Some(run), None, RunCreated);
      var start := graphs[workflow].nodes[graphs[workflow].start];
      var id := EnqueueTask(uow, Runner.NewTask(run, start, payload, 1, now, [], Lineage(StartReason, None, [])));
      database.Commit(uow);
      return Ok(id);
    }

    /** The attempts of the named workflows this process is running. */
    function AttemptsOf(names: set<string>): set<nat>
      reads this
    {
      set id | id in attempts && attempts[id] in names
    }

    method ResetForRecovery(uow: UnitOfWork, names: set<string>, held: set<nat>) returns (ids: seq<nat>)
      modifies uow
      ensures uow.runs == old(uow.runs) && uow.arrivals == old(uow.arrivals) && uow.outbox == old(uow.outbox)
      ensures |uow.tasks| == old(|uow.tasks|)
      ensures forall id | 0 <= id < |uow.tasks| :: uow.tasks[id] == SweptTask(old(uow.Seen()), names, held, id)
      ensures ids == SweptIds(old(uow.Seen()), names, held, old(|uow.tasks|))
    {
      ghost var db := uow.Seen();
      ids := [];
      for id := 0 to |uow.tasks|
        invariant uow.runs == db.runs && uow.arrivals == db.arrivals && uow.outbox == old(uow.outbox)
        invariant |uow.tasks| == |db.tasks|
        invariant forall j | 0 <= j < id :: uow.tasks[j] == SweptTask(db, names, held, j)
        invariant forall j | id <= j < |db.tasks| :: uow.tasks[j] == db.tasks[j]
        invariant ids == SweptIds(db, names, held, id)
      {
        var t := uow.tasks[id];
        if Interrupted(t.status) && t.run in uow.runs && uow.runs[t.run].workflow in names && id !in held {
          uow.tasks := uow.tasks[id := t.(status := Ready)];
          ids := ids + [id];
        }
      }
    }

    /** The sweep of every workflow, or of the named ones, each of which must be registered. */
    method Recover(workflows: Option<set<string>>) returns (r: Result<seq<nat>, set<string>>)
      modifies database
      ensures var names := if workflows.None? then graphs.Keys else workflows.value;
              && (r.Ok? <==> names <= graphs.Keys)
              && (r.Err? ==> r.error == names - graphs.Keys && database.tables == old(database.tables))
              && (r.Ok? ==> database.tables == Ops.Recover(old(database.tables), names, AttemptsOf(names)))
              && (r.Ok? ==> r.value == SweptIds(old(database.tables), names, AttemptsOf(names),
                  |old(database.tables).tasks|))
    {
      var names := if workflows.None? then graphs.Keys else workflows.value;
      var unknown := names - graphs.Keys;
      if unknown != {} {
        return Err(unknown);
      }
      assert names <= graphs.Keys by {
        forall n | n in names ensures n in graphs.Keys {
          assert n !in unknown;
        }
      }
      var held := AttemptsOf(names);
      var uow := new UnitOfWork(database);
      var ids := ResetForRecovery(uow, names, held);
      if ids != [] {
        uow.Emit(None, None, EngineRecovered(ids));
      }
      assert uow.tasks == Ops.Recover(old(database.tables), names, held).tasks;
      database.Commit(uow);
      return Ok(ids);
    }
  }

  lemma NothingStopped(db: Tables, run: string)
    ensures CancelTasks(db, run, 0) == db && PendingIds(db.tasks, run, 0) == []
  {
  }

  lemma StopsNext(db: Tables, run: string, id: nat)
    requires id < |db.tasks|
    ensures var stops, before := db.tasks[id].run == run && Pending(db.tasks[id].status), CancelTasks(db, run, id);
            && CancelTasks(db, run, id + 1) == (if stops then CancelTask(before, id) else before)
            && PendingIds(db.tasks, run, id + 1) == PendingIds(db.tasks, run, id) + (if stops then [id] else [])
  {
    hide CancelTask;
  }

  lemma EnqueueLeavesRuns(db: Tables, row: Task)
    ensures EnqueueRow(db, row).runs == db.runs
  {
  }

  lemma ReopenLeavesEvents(db: Tables, run: string)
    requires run in db.runs
    ensures db.events <= Reopen(db, run).events
  {
  }

  // Sparing the attempts of the swept workflows spares every attempt, as long as each is
  // kept under the workflow of its run.
  lemma {:induction false} SweptAlike(db: Tables, attempts: map<nat, string>, names: set<string>, upto: nat)
    requires upto <= |db.tasks|
    requires forall id | id in attempts && id < |db.tasks| && db.tasks[id].run in db.runs ::
               attempts[id] == db.runs[db.tasks[id].run].workflow
    ensures SweptIds(db, names, (set id | id in attempts && attempts[id] in names), upto) == SweptIds(db, names,
        attempts.Keys, upto)
  {
    if upto > 0 {
      SweptAlike(db, attempts, names, upto - 1);
    }
  }

  lemma SweepSparesAttempts(db: Tables, attempts: map<nat, string>, names: set<string>)
    requires forall id | id in attempts && id < |db.tasks| && db.tasks[id].run in db.runs ::
               attempts[id] == db.runs[db.tasks[id].run].workflow
    ensures Ops.Recover(db, names, (set id | id in attempts && attempts[id] in names)) == Ops.Recover(db, names,
        attempts.Keys)
  {
    var held := set id | id in attempts && attempts[id] in names;
    SweptAlike(db, attempts, names, |db.tasks|);
    forall id | 0 <= id < |db.tasks| ensures SweptTask(db, names, held, id) == SweptTask(db, names, attempts.Keys, id) {
    }
    assert Ops.Recover(db, names, held).tasks == Ops.Recover(db, names, attempts.Keys).tasks;
  }

  // ------------------------------------------------------------------------
  // The claim
  // ------------------------------------------------------------------------

  // The rows a claim selected: distinct, ready, and of runs that may dispatch.
  predicate Selected(db: Tables, ids: seq<nat>) {
    && (forall i | 0 <= i < |ids| :: Machine.Claimable(db, ids[i]))
    && (forall i, j | 0 <= i < j < |ids| :: ids[i] != ids[j])
  }

  // A run some claimed row belongs to.
  predicate Picks(tasks: seq<Task>, ids: seq<nat>, run: string) {
    exists i | 0 <= i < |ids| :: ids[i] < |tasks| && tasks[ids[i]].run == run
  }

  function ClaimedTask(tasks: seq<Task>, ids: seq<nat>, id: nat): Task
    requires id < |tasks|
  {
    if id in ids then tasks[id].(status := InProgress) else tasks[id]
  }

  function ClaimedRun(db: Tables, ids: seq<nat>, run: string): Run
    requires run in db.runs
  {
    if db.runs[run].status == Queued && Picks(db.tasks, ids, run) then db.runs[run].(status := Running)
        else db.runs[run]
  }

  // The tables after a claim of all these rows.
  predicate ClaimedTables(db: Tables, ids: seq<nat>, db': Tables) {
    && |db'.tasks| == |db.tasks| && db'.arrivals == db.arrivals && db'.events == db.events
        && db'.runs.Keys == db.runs.Keys
    && (forall id | 0 <= id < |db.tasks| :: db'.tasks[id] == ClaimedTask(db.tasks, ids, id))
    && (forall run | run in db.runs :: db'.runs[run] == ClaimedRun(db, ids, run))
  }

  // The first of the claimed rows of a run that was still queued.
  predicate StartsRun(db: Tables, ids: seq<nat>, i: nat)
    requires i < |ids| && Machine.Claimable(db, ids[i])
  {
    var run := db.tasks[ids[i]].run;
    db.runs[run].status == Queued && !Picks(db.tasks, ids[..i], run)
  }

  method MarkRows(uow: UnitOfWork, selected: seq<nat>)
    requires Selected(uow.Seen(), selected)
    modifies uow
    ensures uow.runs == old(uow.runs) && uow.arrivals == old(uow.arrivals) && uow.outbox == old(uow.outbox)
    ensures |uow.tasks| == old(|uow.tasks|)
    ensures forall id | 0 <= id < |uow.tasks| :: uow.tasks[id] == ClaimedTask(old(uow.tasks), selected, id)
  {
    ghost var tasks := uow.tasks;
    for i := 0 to |selected|
      invariant uow.runs == old(uow.runs) && uow.arrivals == old(uow.arrivals) && uow.outbox == old(uow.outbox)
      invariant |uow.tasks| == |tasks|
      invariant forall id | 0 <= id < |tasks| :: uow.tasks[id] == ClaimedTask(tasks, selected[..i], id)
    {
      assert selected[..i + 1] == selected[..i] + [selected[i]];
      uow.tasks := uow.tasks[selected[i] := uow.tasks[selected[i]].(status := InProgress)];
    }
    assert selected[..|selected|] == selected;
  }

  method StartRuns(uow: UnitOfWork, db: Tables, selected: seq<nat>) returns (claimed: seq<Claimed>)
    requires Selected(db, selected) && uow.runs == db.runs && |uow.tasks| == |db.tasks|
    requires forall id | 0 <= id < |db.tasks| :: uow.tasks[id].run == db.tasks[id].run
    modifies uow
    ensures uow.tasks == old(uow.tasks) && uow.arrivals == old(uow.arrivals) && uow.outbox == old(uow.outbox)
    ensures uow.runs.Keys == db.runs.Keys && forall run | run in db.runs ::
        uow.runs[run] == ClaimedRun(db, selected, run)
    ensures |claimed| == |selected|
    ensures forall i | 0 <= i < |selected| :: claimed[i] == Claimed(selected[i], StartsRun(db, selected, i))
  {
    hide Picks;
    claimed := [];
    NonePicked(db.tasks);
    for i := 0 to |selected|
      invariant uow.tasks == old(uow.tasks) && uow.arrivals == old(uow.arrivals) && uow.outbox == old(uow.outbox)
      invariant uow.runs.Keys == db.runs.Keys
      invariant forall run | run in db.runs :: uow.runs[run] == ClaimedRun(db, selected[..i], run)
      invariant |claimed| == i
      invariant forall j | 0 <= j < i :: claimed[j] == Claimed(selected[j], StartsRun(db, selected, j))
    {
      var run := uow.tasks[selected[i]].run;
      var started := uow.runs[run].status == Queued;
      PicksNext(db.tasks, selected, i);
      if started {
        uow.runs := uow.runs[run := uow.runs[run].(status := Running)];
      }
      claimed := claimed + [Claimed(selected[i], started)];
    }
    assert selected[..|selected|] == selected;
  }

  lemma NonePicked(tasks: seq<Task>)
    ensures forall run :: !Picks(tasks, [], run)
  {
  }

  // A row the claim may take: ready, of a run that may dispatch, of one of the workflows.
  predicate Candidate(db: Tables, workflows: set<string>, id: nat) {
    Machine.Claimable(db, id) && db.runs[db.tasks[id].run].workflow in workflows
  }

  // What the query yields: each candidate once, in the order of dispatch.
  ghost predicate Lists(db: Tables, workflows: set<string>, ready: seq<nat>) {
    && (forall id: nat :: id in ready <==> Candidate(db, workflows, id))
    && (forall i, j | 0 <= i < j < |ready| :: ready[i] != ready[j])
  }

  /** Takes the first candidates, at most `limit`: marks them in progress and their queued
      runs running. A run's start is announced on one of its rows. */
  method ClaimReady(uow: UnitOfWork, limit: nat, ghost workflows: set<string>, ready: seq<nat>)
    returns (claimed: seq<Claimed>)
    requires Lists(uow.Seen(), workflows, ready)
    modifies uow
    ensures |claimed| == if |ready| <= limit then |ready| else limit
    ensures var db, selected := old(uow.Seen()), ready[..|claimed|];
            && Selected(db, selected) && ClaimedTables(db, selected, uow.Seen())
            && forall i | 0 <= i < |claimed| ::
                 claimed[i] == Claimed(selected[i], StartsRun(db, selected, i)) && Candidate(db, workflows, selected[i])
    ensures |claimed| < limit ==> forall id: nat | Candidate(old(uow.Seen()), workflows, id) :: id in ready[..|claimed|]
  {
    var db := uow.Seen();
    var n := if |ready| <= limit then |ready| else limit;
    var selected := ready[..n];
    assert forall i | 0 <= i < n :: selected[i] in ready;
    MarkRows(uow, selected);
    claimed := StartRuns(uow, db, selected);
    assert n == |ready| ==> selected == ready;
  }

  lemma PicksNext(tasks: seq<Task>, ids: seq<nat>, i: nat)
    requires i < |ids| && ids[i] < |tasks|
    ensures forall run :: Picks(tasks, ids[..i + 1], run) <==> Picks(tasks, ids[..i], run) || run == tasks[ids[i]].run
  {
    forall run ensures Picks(tasks, ids[..i + 1], run) <==> Picks(tasks, ids[..i], run) || run == tasks[ids[i]].run {
      var next := ids[..i + 1];
      assert next[i] == ids[i];
      if Picks(tasks, ids[..i], run) {
        var j :| 0 <= j < i && ids[..i][j] < |tasks| && tasks[ids[..i][j]].run == run;
        assert next[j] == ids[..i][j];
      }
      if Picks(tasks, next, run) {
        var j :| 0 <= j < |next| && next[j] < |tasks| && tasks[next[j]].run == run;
        assert j < i ==> ids[..i][j] == next[j];
      }
    }
  }

  function ClaimSteps(ids: seq<nat>): seq<Machine.Step> {
    seq(|ids|, i requires 0 <= i < |ids| => Machine.Claim(ids[i]))
  }

  // A claim of several rows is as many claims of one, in that order.
  lemma {:induction false} ClaimIsSteps(s: Machine.State, ids: seq<nat>)
    requires Selected(s.db, ids)
    ensures Machine.IsRun(s, ClaimSteps(ids))
    ensures ClaimedTables(s.db, ids, Machine.End(s, ClaimSteps(ids)).db)
    ensures Machine.End(s, ClaimSteps(ids)).live == s.live + (set id | id in ids)
    decreases |ids|
  {
    hide ClaimedTables;
    if ids == [] {
      NothingClaimed(s.db);
    } else {
      var s1 := Machine.Next(s, Machine.Claim(ids[0]));
      assert ClaimSteps(ids)[1..] == ClaimSteps(ids[1..]);
      ClaimOne(s.db, ids);
      ClaimIsSteps(s1, ids[1..]);
      ClaimedBoth(s.db, ids, Machine.End(s, ClaimSteps(ids)).db);
      assert (set id | id in ids) == {ids[0]} + (set id | id in ids[1..]);
    }
  }

  lemma NothingClaimed(db: Tables)
    ensures ClaimedTables(db, [], db)
  {
  }

  // The rest of a selection can still be claimed.
  lemma ClaimOne(db: Tables, ids: seq<nat>)
    requires Selected(db, ids) && ids != []
    ensures Selected(Machine.ClaimRow(db, ids[0]), ids[1..])
  {
  }

  lemma ClaimedBoth(db: Tables, ids: seq<nat>, db': Tables)
    requires Selected(db, ids) && ids != []
    requires ClaimedTables(Machine.ClaimRow(db, ids[0]), ids[1..], db')
    ensures ClaimedTables(db, ids, db')
  {
    hide Picks;
    var run := db.tasks[ids[0]].run;
    forall id: nat ensures id in ids <==> id == ids[0] || id in ids[1..] {
    }
    forall other ensures Picks(db.tasks, ids, other) <==>
        other == run || Picks(Machine.ClaimRow(db, ids[0]).tasks, ids[1..], other) {
      PicksSplit(db, ids, other);
    }
  }

  lemma PicksSplit(db: Tables, ids: seq<nat>, run: string)
    requires Selected(db, ids) && ids != []
    ensures Picks(db.tasks, ids, run) <==>
        run == db.tasks[ids[0]].run || Picks(Machine.ClaimRow(db, ids[0]).tasks, ids[1..], run)
  {
    var tasks := Machine.ClaimRow(db, ids[0]).tasks;
    if Picks(tasks, ids[1..], run) {
      var i :| 0 <= i < |ids[1..]| && ids[1..][i] < |tasks| && tasks[ids[1..][i]].run == run;
      assert ids[i + 1] == ids[1..][i];
    }
    if Picks(db.tasks, ids, run) {
      var i :| 0 <= i < |ids| && ids[i] < |db.tasks| && db.tasks[ids[i]].run == run;
      assert i > 0 ==> ids[1..][i - 1] == ids[i];
    }
  }
}
