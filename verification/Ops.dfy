/** The operator's verbs (athanore/engine/ops.py) and the sweep that follows a crash
    (athanore/engine/recovery.py), each as a function of the tables. The methods that make the
    same changes inside one unit of work are in `Verbs`. */
module Ops {
  import opened Base
  import opened Json
  import opened Graphs
  import opened Rows
  import opened Store
  import Runner

  datatype OpError = NotFound | UnknownWorkflow | UnknownNode | Conflict

  // ------------------------------------------------------------------------
  // Shared
  // ------------------------------------------------------------------------

  // The finalized node an operation names, or the refusal.
  function Lookup(graphs: map<string, Graph>, workflow: string, node: string): Result<Node, OpError> {
    if workflow !in graphs then Err(UnknownWorkflow)
    else if node !in graphs[workflow].nodes then Err(UnknownNode)
    else Ok(graphs[workflow].nodes[node])
  }

  function Reopen(db: Tables, run: string): Tables
    requires run in db.runs
  {
    if !Terminal(db.runs[run].status) then db
    else
      Emit(db.(runs := db.runs[run := db.runs[run].(status := Running, finished := None)]),
           Some(run), None, RunReopened)
  }

  function EnqueueRow(db: Tables, row: Task): Tables {
    Emit(Enqueue(db, row), Some(row.run), Some(|db.tasks|), TaskEnqueued(row.lineage.reason))
  }

  function CancelTask(db: Tables, id: nat): Tables
    requires id < |db.tasks|
  {
    Emit(SetTask(db, id, Cancelled), Some(db.tasks[id].run), Some(id), TaskCancelledEvent)
  }

  function CancelTasks(db: Tables, run: string, upto: nat): (r: Tables)
    requires upto <= |db.tasks|
    ensures |r.tasks| == |db.tasks| && r.runs == db.runs && r.arrivals == db.arrivals
    ensures forall id | 0 <= id < |db.tasks| ::
      r.tasks[id] == if id < upto && db.tasks[id].run == run && Pending(db.tasks[id].status)
                     then db.tasks[id].(status := Cancelled) else db.tasks[id]
  {
    if upto == 0 then db
    else
      var before := CancelTasks(db, run, upto - 1);
      if db.tasks[upto - 1].run == run && Pending(db.tasks[upto - 1].status) then CancelTask(before, upto - 1)
          else before
  }

  // The newest row at a node of a run.
  function LastForNode(tasks: seq<Task>, run: string, node: string): (r: Option<nat>)
    ensures r.Some? ==> r.value < |tasks| && tasks[r.value].run == run && tasks[r.value].node == node
    ensures forall id | 0 <= id < |tasks| && tasks[id].run == run && tasks[id].node == node :: r.Some? && id <= r.value
  {
    if tasks == [] then None
    else
      var last := |tasks| - 1;
      if tasks[last].run == run && tasks[last].node == node then Some(last) else LastForNode(tasks[..last], run, node)
  }

  // One past the highest attempt the node has reached in the run.
  function NextAttempt(tasks: seq<Task>, run: string, node: string): (n: int)
    ensures n >= 1 && forall id | 0 <= id < |tasks| && tasks[id].run == run && tasks[id].node == node ::
        tasks[id].attempt < n
  {
    if tasks == [] then 1
    else
      var last := tasks[|tasks| - 1];
      var before := NextAttempt(tasks[..|tasks| - 1], run, node);
      if last.run == run && last.node == node && last.attempt >= before then last.attempt + 1 else before
  }

  // ------------------------------------------------------------------------
  // The verbs
  // ------------------------------------------------------------------------

  function Submit(
    db: Tables, graphs: map<string, Graph>, workflow: string, run: string, payload: Json,
        now: nat): Result<Tables, OpError>
    requires forall w | w in graphs :: graphs[w].start in graphs[w].nodes
  {
    if workflow !in graphs then Err(UnknownWorkflow)
    else
      var start := graphs[workflow].nodes[graphs[workflow].start];
      var created := Emit(db.(runs := db.runs[run := Run(workflow, Queued, None, None)]), Some(run), None, RunCreated);
      Ok(EnqueueRow(created, Runner.NewTask(run, start, payload, 1, now, [], Lineage(StartReason, None, []))))
  }

  function Pause(db: Tables, run: string): Result<Tables, OpError> {
    if run !in db.runs then Err(NotFound)
    else if db.runs[run].status != Queued && db.runs[run].status != Running then Err(Conflict)
    else Ok(Emit(SetRun(db, run, Paused, None), Some(run), None, RunPausedEvent))
  }

  function Resume(db: Tables, run: string): Result<Tables, OpError> {
    if run !in db.runs then Err(NotFound)
    else if db.runs[run].status != Paused then Err(Conflict)
    else Ok(Emit(SetRun(db, run, Running, None), Some(run), None, RunResumed))
  }

  function Cancel(db: Tables, run: string, now: nat): Result<Tables, OpError> {
    if run !in db.runs then Err(NotFound)
    else if Terminal(db.runs[run].status) then Err(Conflict)
    else
      var stopped := CancelTasks(db, run, |db.tasks|);
      Ok(Emit(SetRun(stopped, run, RunCancelled, Some(now)), Some(run), None, RunCancelledEvent))
  }

  // What a rerun of `target` starts from: the payload, branch and lineage of its task.
  function RerunRow(db: Tables, run: string, target: Node, now: nat): Result<Task, OpError> {
    var last := LastForNode(db.tasks, run, target.name);
    var attempt := NextAttempt(db.tasks, run, target.name);
    var branch := if last.Some? then db.tasks[last.value].branch else [];
    if target.join then
      // The replay reads the fan-out off the newest row's lineage.
      if last.None? || db.tasks[last.value].lineage.from.None? then Err(Conflict)
      else
        var fanout := db.tasks[last.value].lineage.from.value;
        if Indexes(db.arrivals, run, target.name, fanout) == {} then Err(Conflict)
        else
          Ok(Runner.NewTask(run, target, ArrivalsPayload(db.arrivals, run, target.name, fanout), attempt, now, branch,
               Lineage(RerunReason, Some(fanout), ArrivalSenders(db.arrivals, run, target.name, fanout))))
    else
      var payload := if last.Some? then db.tasks[last.value].payload else JNull;
      Ok(Runner.NewTask(run, target, payload, attempt, now, branch, Lineage(RerunReason, last, [])))
  }

  function Rerun(db: Tables, graphs: map<string, Graph>, run: string, node: string, now: nat): Result<Tables, OpError> {
    if run !in db.runs then Err(NotFound)
    else
      var target := Lookup(graphs, db.runs[run].workflow, node);
      if target.Err? then Err(target.error)
      else
        var row := RerunRow(db, run, target.value, now);
        if row.Err? then Err(row.error) else Ok(Reopen(EnqueueRow(db, row.value), run))
  }

  function Retry(db: Tables, graphs: map<string, Graph>, id: nat): Result<Tables, OpError> {
    if id >= |db.tasks| then Err(NotFound)
    else
      var t := db.tasks[id];
      if Pending(t.status) then Err(Conflict)
      else if t.run !in db.runs then Err(NotFound)
      else
        var target := Lookup(graphs, db.runs[t.run].workflow, t.node);
        if target.Err? then Err(target.error)
        else Ok(Reopen(EnqueueRow(db, Runner.RetryOf(t, id, ManualRetryReason)), t.run))
  }

  function Move(db: Tables, graphs: map<string, Graph>, id: nat, node: string, now: nat): Result<Tables, OpError> {
    if id >= |db.tasks| then Err(NotFound)
    else
      var t := db.tasks[id];
      if t.run !in db.runs then Err(NotFound)
      else
        var target := Lookup(graphs, db.runs[t.run].workflow, node);
        if target.Err? then Err(target.error)
        else if target.value.join then Err(Conflict)
        else
          var stopped := if Pending(t.status) then CancelTask(db, id) else db;
          var row := Runner.NewTask(t.run, target.value, t.payload, 1, now, t.branch,
              Lineage(MoveReason, Some(id), []));
          var moved := Emit(EnqueueRow(stopped, row), Some(t.run), Some(id), TaskMoved(|db.tasks|));
          Ok(Reopen(moved, t.run))
  }

  // The three statuses an operator may write.
  predicate Settable(s: TaskStatus) {
    s == Ready || s == Cancelled || s == DeadLetter
  }

  function SetStatus(db: Tables, id: nat, status: TaskStatus): Result<Tables, OpError>
    requires Settable(status)
  {
    if id >= |db.tasks| then Err(NotFound)
    else
      var t := db.tasks[id];
      var set' := Emit(SetTask(db, id, status), Some(t.run), Some(id), TaskStatusSet(status));
      if status == Cancelled then Ok(Emit(set', Some(t.run), Some(id), TaskCancelledEvent))
      else if status == Ready then
        if t.run !in db.runs then Err(NotFound) else Ok(Reopen(set', t.run))
      else Ok(set')
  }

  // ------------------------------------------------------------------------
  // Recovery
  // ------------------------------------------------------------------------

  // A row the sweep resets: interrupted, of a workflow it names, and held by no attempt.
  predicate Swept(db: Tables, names: set<string>, held: set<nat>, id: nat)
    requires id < |db.tasks|
  {
    var t := db.tasks[id];
    Interrupted(t.status) && t.run in db.runs && db.runs[t.run].workflow in names && id !in held
  }

  function SweptIds(db: Tables, names: set<string>, held: set<nat>, upto: nat): (r: seq<nat>)
    requires upto <= |db.tasks|
    ensures forall id: nat :: id in r <==> id < upto && Swept(db, names, held, id)
    ensures forall i | 0 <= i < |r| :: r[i] < upto
    ensures forall i, j | 0 <= i < j < |r| :: r[i] < r[j]
  {
    if upto == 0 then []
    else
      var before := SweptIds(db, names, held, upto - 1);
      if Swept(db, names, held, upto - 1) then before + [upto - 1] else before
  }

  function SweptTask(db: Tables, names: set<string>, held: set<nat>, id: nat): Task
    requires id < |db.tasks|
  {
    if Swept(db, names, held, id) then db.tasks[id].(status := Ready) else db.tasks[id]
  }

  function Recover(db: Tables, names: set<string>, held: set<nat>): (r: Tables) {
    var tasks := seq(|db.tasks|, i requires 0 <= i < |db.tasks| => SweptTask(db, names, held, i));
    var ids := SweptIds(db, names, held, |db.tasks|);
    var reset := db.(tasks := tasks);
    if ids == [] then reset else Emit(reset, None, None, EngineRecovered(ids))
  }
}
