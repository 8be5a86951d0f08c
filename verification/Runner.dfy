/** One attempt's outcome as a transaction (athanore/engine/runner.py).

    Each transaction is a function of the tables, and a method that makes the same
    change step by step inside a unit of work. */
module Runner {
  import opened Base
  import opened Json
  import opened Graphs
  import opened Rows
  import opened Routing
  import opened Store
  import opened Transactions

  // The dispatch key of a task at `target`: its own priority, else downstream first.
  function Priority(target: Node): int {
    if target.priority.Some? then target.priority.value else -(target.generation as int)
  }

  function NewTask(
    run: string, target: Node, payload: Json, attempt: int, created: nat, branch: seq<Frame>, lineage: Lineage): Task
  {
    Task(run, target.name, attempt, Ready, payload, None, false,
         Priority(target), target.priority.Some?, created, branch, lineage)
  }

  // ------------------------------------------------------------------------
  // Success
  // ------------------------------------------------------------------------

  function EnqueueTransition(db: Tables, id: nat, target: Node, hop: Hop, frames: seq<Frame>, now: nat): Tables
    requires id < |db.tasks|
  {
    var run := db.tasks[id].run;
    var row := NewTask(run, target, hop.payload, 1, now, frames, Lineage(TransitionReason, Some(id), []));
    Emit(Enqueue(db, row), Some(run), Some(|db.tasks|), TaskEnqueued(TransitionReason))
  }

  // The join task of a fan-out, as the arrivals stand.
  function JoinTask(db: Tables, run: string, target: Node, fanout: nat, outer: seq<Frame>, now: nat): Task {
    NewTask(run, target, ArrivalsPayload(db.arrivals, run, target.name, fanout), 1, now, outer,
            Lineage(JoinReason, Some(fanout), ArrivalSenders(db.arrivals, run, target.name, fanout)))
  }

  function EnqueueJoin(db: Tables, run: string, target: Node, fanout: nat, outer: seq<Frame>, now: nat): Tables {
    Emit(Enqueue(db, JoinTask(db, run, target, fanout, outer, now)),
         Some(run), Some(|db.tasks|), TaskEnqueued(JoinReason))
  }

  // The arrival itself, and its event.
  function WriteArrival(db: Tables, id: nat, p: Place, frame: Frame, value: Json): Tables {
    var late := Fired(db.tasks, p.run, p.join, p.fanout);
    var db' := Arrive(db, p, Arrival(frame.key, value, id, late));
    Emit(db', Some(p.run), Some(id),
         JoinArrived(p, |Indexes(db'.arrivals, p.run, p.join, p.fanout)|, frame.count, late))
  }

  function RecordArrival(db: Tables, id: nat, target: Node, hop: Hop, frames: seq<Frame>, now: nat): Tables
    requires id < |db.tasks| && frames != []
  {
    var run := db.tasks[id].run;
    var frame := frames[|frames| - 1];
    var p := Place(run, target.name, frame.fanout, frame.index);
    var db' := WriteArrival(db, id, p, frame, hop.payload);
    if Fired(db.tasks, run, target.name, frame.fanout)
      || |Indexes(db'.arrivals, run, target.name, frame.fanout)| < frame.count
    then db'
    else EnqueueJoin(db', run, target, frame.fanout, frames[..|frames| - 1], now)
  }

  // Every transition resolves, and none reaches a join without a frame to pop.
  predicate Routable(g: Graph, branch: seq<Frame>, hops: seq<Hop>, fanning: bool) {
    forall i | 0 <= i < |hops| ::
        hops[i].target in g.nodes && (g.nodes[hops[i].target].join ==> fanning || branch != [])
  }

  function RouteOne(db: Tables, id: nat, g: Graph, hops: seq<Hop>, fanning: bool, i: nat, now: nat): (r: Tables)
    requires id < |db.tasks| && Routable(g, db.tasks[id].branch, hops, fanning) && i < |hops|
  {
    var frames := ChildFrames(id, db.tasks[id].branch, hops[i], i, |hops|, fanning);
    var target := g.nodes[hops[i].target];
    if target.join then RecordArrival(db, id, target, hops[i], frames, now)
    else EnqueueTransition(db, id, target, hops[i], frames, now)
  }

  // The tables once the first `upto` transitions are written.
  function Route(db: Tables, id: nat, g: Graph, hops: seq<Hop>, fanning: bool, upto: nat, now: nat): (r: Tables)
    requires id < |db.tasks| && Routable(g, db.tasks[id].branch, hops, fanning) && upto <= |hops|
    ensures db.tasks <= r.tasks && r.runs == db.runs
  {
    if upto == 0 then db
    else RouteOne(Route(db, id, g, hops, fanning, upto - 1, now), id, g, hops, fanning, upto - 1, now)
  }

  // A row a transition adds, and tables that only gained such rows.
  predicate Fresh(run: string, id: nat, t: Task) {
    && t.run == run && t.status == Ready && t.attempt == 1 && t.result == None && !t.terminal
    && (t.lineage == Lineage(TransitionReason, Some(id), []) || t.lineage.reason == JoinReason)
  }

  predicate Added(run: string, id: nat, tasks: seq<Task>, tasks': seq<Task>) {
    tasks <= tasks' && forall c | |tasks| <= c < |tasks'| :: Fresh(run, id, tasks'[c])
  }

  lemma RouteOneAdds(db: Tables, id: nat, g: Graph, hops: seq<Hop>, fanning: bool, i: nat, now: nat)
    requires id < |db.tasks| && Routable(g, db.tasks[id].branch, hops, fanning) && i < |hops|
    ensures Added(db.tasks[id].run, id, db.tasks, RouteOne(db, id, g, hops, fanning, i, now).tasks)
  {
    hide ArrivalsPayload, ArrivalSenders, Indexes, Fired;
  }

  lemma {:induction false} RouteAdds(db: Tables, id: nat, g: Graph, hops: seq<Hop>, fanning: bool, upto: nat, now: nat)
    requires id < |db.tasks| && Routable(g, db.tasks[id].branch, hops, fanning) && upto <= |hops|
    ensures Added(db.tasks[id].run, id, db.tasks, Route(db, id, g, hops, fanning, upto, now).tasks)
  {
    hide RouteOne, Fresh;
    if upto > 0 {
      RouteAdds(db, id, g, hops, fanning, upto - 1, now);
      RouteOneAdds(Route(db, id, g, hops, fanning, upto - 1, now), id, g, hops, fanning, upto - 1, now);
    }
  }

  function Output(results: seq<Json>): Json {
    if |results| == 1 then results[0] else JList(results)
  }

  // The frame index path of a row compared with another's: a prefix comes first.
  predicate PathBefore(a: seq<Frame>, b: seq<Frame>) {
    if b == [] then false
    else if a == [] then true
    else a[0].index < b[0].index || (a[0].index == b[0].index && PathBefore(a[1..], b[1..]))
  }

  // The terminal rows of a run, in branch order; the id breaks ties.
  function Insert(tasks: seq<Task>, order: seq<nat>, id: nat): (r: seq<nat>)
    requires id < |tasks| && forall i | 0 <= i < |order| :: order[i] < |tasks|
    ensures forall i | 0 <= i < |r| :: r[i] < |tasks|
  {
    if order == [] || PathBefore(tasks[id].branch, tasks[order[0]].branch) then [id] + order
    else [order[0]] + Insert(tasks, order[1..], id)
  }

  function Terminals(tasks: seq<Task>, run: string, upto: nat): (r: seq<nat>)
    requires upto <= |tasks|
    ensures forall i | 0 <= i < |r| :: r[i] < |tasks|
  {
    if upto == 0 then []
    else
      var before := Terminals(tasks, run, upto - 1);
      if tasks[upto - 1].run == run && tasks[upto - 1].terminal then Insert(tasks, before, upto - 1) else before
  }

  function ResultOf(t: Task): Json {
    if t.result.Some? then t.result.value else JNull
  }

  function RunOutput(tasks: seq<Task>, run: string): Json {
    var order := Terminals(tasks, run, |tasks|);
    Output(seq(|order|, i requires 0 <= i < |order| => ResultOf(tasks[order[i]])))
  }

  function SettleRun(db: Tables, run: string, terminal: bool, now: nat): Tables {
    if run !in db.runs || db.runs[run].status != Running then db
    else if HasPending(db.tasks, run) then db
    else if HasIncomplete(db, run) then
      Emit(SetRun(db, run, RunFailed, Some(now)), Some(run), None, RunFailedEvent)
    else if !terminal then db
    else
      var row := db.runs[run].(status := Completed, output := Some(RunOutput(db.tasks, run)), finished := Some(now));
      Emit(db.(runs := db.runs[run := row]), Some(run), None, RunCompleted)
  }

  function HopTargets(hops: seq<Hop>): seq<string> {
    seq(|hops|, i requires 0 <= i < |hops| => hops[i].target)
  }

  // How the engine reads a return value: the transitions, or the routing error that
  // fails the attempt before anything of it is kept.
  function Reading(db: Tables, id: nat, g: Graph, value: Value): (r: Result<seq<Hop>, RoutingError>)
    requires id < |db.tasks| && EdgesOk(g.nodes)
    ensures r.Ok? ==> Routable(g, db.tasks[id].branch, r.value, IsFanOut(value))
    ensures r.Ok? ==> if IsFanOut(value) then |r.value| >= 1 else |r.value| <= 1
  {
    var t := db.tasks[id];
    if t.node !in g.nodes then Err(NoSuchNode)
    else
      var hops := Interpret(g.nodes[t.node], value);
      if hops.Err? then hops
      else
        TargetsResolve(g, t.node, value);
        HopCount(g.nodes[t.node], value);
        if Routable(g, t.branch, hops.value, IsFanOut(value)) then hops else Err(JoinWithoutFrame)
  }

  // The row done and its transitions written: everything but the settlement.
  function Written(db: Tables, id: nat, g: Graph, value: Value, now: nat): Tables
    requires id < |db.tasks| && EdgesOk(g.nodes) && Reading(db, id, g, value).Ok?
  {
    var hops := Reading(db, id, g, value).value;
    var done := Finish(db, id, Done, Some(Jsonable(value)), hops == []);
    var routed := Route(done, id, g, hops, IsFanOut(value), |hops|, now);
    Emit(routed, Some(db.tasks[id].run), Some(id), TaskDone(HopTargets(hops), hops == []))
  }

  function Success(db: Tables, id: nat, g: Graph, value: Value, now: nat): Result<Tables, RoutingError>
    requires id < |db.tasks| && EdgesOk(g.nodes)
  {
    var hops := Reading(db, id, g, value);
    if hops.Err? then Err(hops.error)
    else Ok(SettleRun(Written(db, id, g, value, now), db.tasks[id].run, hops.value == [], now))
  }

  // ------------------------------------------------------------------------
  // Failure
  // ------------------------------------------------------------------------

  function RetryBudget(node: Option<Node>, maxRetries: int): int {
    if node.None? || node.value.retries.None? then maxRetries else node.value.retries.value
  }

  function RetryOf(t: Task, id: nat, reason: Reason): Task {
    t.(attempt := t.attempt + 1, status := Ready, result := None, terminal := false,
       lineage := Lineage(reason, Some(id), []))
  }

  function FailRun(db: Tables, run: string, now: nat): Tables {
    if run in db.runs && db.runs[run].status == Running
    then Emit(SetRun(db, run, RunFailed, Some(now)), Some(run), None, RunFailedEvent)
    else db
  }

  function Failure(db: Tables, id: nat, retryable: bool, budget: int, now: nat): Tables
    requires id < |db.tasks|
  {
    var t := db.tasks[id];
    var failed := Finish(db, id, Failed, None, false);
    if retryable && t.attempt < budget then
      var retried := Emit(Enqueue(failed, RetryOf(t, id, RetryReason)),
                          Some(t.run), Some(|db.tasks|), TaskEnqueued(RetryReason));
      Emit(retried, Some(t.run), Some(id), TaskFailed(true))
    else
      var dead := SetTask(Emit(failed, Some(t.run), Some(id), TaskFailed(false)), id, DeadLetter);
      FailRun(Emit(dead, Some(t.run), Some(id), TaskDeadLettered), t.run, now)
  }

  // How many attempts the work of a row gets: what its own node says, or the server.
  predicate HasBudget(node: Option<Node>, maxRetries: int, budget: int) {
    budget == if node.Some? && node.value.retries.Some? then node.value.retries.value else maxRetries
  }

  // The row has failed and the next attempt at the same work is ready.
  predicate RetriedAs(db: Tables, id: nat, db': Tables)
    requires id < |db.tasks|
  {
    var t := db.tasks[id];
    && db'.tasks == db.tasks[id := t.(status := Failed, result := None, terminal := false)]
        + [Task(t.run, t.node, t.attempt + 1, Ready, t.payload, None, false, t.priority, t.explicit, t.created,
            t.branch, Lineage(RetryReason, Some(id), []))]
    && db'.runs == db.runs && db'.arrivals == db.arrivals
    && db'.events == db.events + [Event(Some(t.run), Some(|db.tasks|), TaskEnqueued(RetryReason)),
                                  Event(Some(t.run), Some(id), TaskFailed(true))]
  }

  // The row is a dead letter, no row is new, and its run has failed if it was running.
  predicate BuriedAs(db: Tables, id: nat, now: nat, db': Tables)
    requires id < |db.tasks|
  {
    var t := db.tasks[id];
    var fails := t.run in db.runs && db.runs[t.run].status == Running;
    && db'.tasks == db.tasks[id := t.(status := DeadLetter, result := None, terminal := false)]
    && db'.runs == (if fails then db.runs[t.run := db.runs[t.run].(status := RunFailed, finished := Some(now))]
                    else db.runs)
    && db'.arrivals == db.arrivals
    && db'.events == db.events + [Event(Some(t.run), Some(id), TaskFailed(false)),
                                  Event(Some(t.run), Some(id), TaskDeadLettered)]
                     + (if fails then [Event(Some(t.run), None, RunFailedEvent)] else [])
  }

  // A failure is retried if and only if its error is retryable and the attempt is below the
  // budget of its node; and otherwise it is a dead letter.
  lemma FailureIs(db: Tables, id: nat, retryable: bool, budget: int, now: nat)
    requires id < |db.tasks|
    ensures var db' := Failure(db, id, retryable, budget, now);
            if retryable && db.tasks[id].attempt < budget then RetriedAs(db, id, db') else BuriedAs(db, id, now, db')
  {
  }

  // ------------------------------------------------------------------------
  // The same transactions, step by step
  // ------------------------------------------------------------------------

  method WriteTransition(uow: UnitOfWork, id: nat, target: Node, hop: Hop, frames: seq<Frame>, now: nat)
    requires id < |uow.tasks|
    modifies uow
    ensures uow.Seen() == EnqueueTransition(old(uow.Seen()), id, target, hop, frames, now)
  {
    var run := uow.tasks[id].run;
    var child := uow.Enqueue(
      NewTask(run, target, hop.payload, 1, now, frames, Lineage(TransitionReason, Some(id), [])));
    uow.Emit(Some(run), Some(child), TaskEnqueued(TransitionReason));
  }

  method WriteJoinArrival(uow: UnitOfWork, id: nat, target: Node, hop: Hop, frames: seq<Frame>, now: nat)
    requires id < |uow.tasks| && frames != []
    modifies uow
    ensures uow.Seen() == RecordArrival(old(uow.Seen()), id, target, hop, frames, now)
  {
    var run := uow.tasks[id].run;
    var frame := frames[|frames| - 1];
    var p := Place(run, target.name, frame.fanout, frame.index);
    var arrived, late := uow.Arrive(p, frame.key, hop.payload, id);
    uow.Emit(Some(run), Some(id), JoinArrived(p, arrived, frame.count, late));
    if late || arrived < frame.count {
      return;
    }
    var payload := ArrivalsPayload(uow.arrivals, run, target.name, frame.fanout);
    var senders := ArrivalSenders(uow.arrivals, run, target.name, frame.fanout);
    var child := uow.Enqueue(
      NewTask(run, target, payload, 1, now, frames[..|frames| - 1], Lineage(JoinReason, Some(frame.fanout), senders)));
    uow.Emit(Some(run), Some(child), TaskEnqueued(JoinReason));
  }

  method Settle(uow: UnitOfWork, run: string, terminal: bool, now: nat)
    modifies uow
    ensures uow.Seen() == SettleRun(old(uow.Seen()), run, terminal, now)
  {
    if run !in uow.runs || uow.runs[run].status != Running {
      return;
    }
    if HasPending(uow.tasks, run) {
      return;
    }
    if HasIncomplete(uow.Seen(), run) {
      uow.SetRun(run, RunFailed, Some(now));
      uow.Emit(Some(run), None, RunFailedEvent);
      return;
    }
    if !terminal {
      return;
    }
    var output := RunOutput(uow.tasks, run);
    uow.UpdateRun(run, uow.runs[run].(status := Completed, output := Some(output), finished := Some(now)));
    uow.Emit(Some(run), None, RunCompleted);
  }

  method WriteRoute(uow: UnitOfWork, id: nat, g: Graph, hops: seq<Hop>, fanning: bool, i: nat, now: nat)
    requires id < |uow.tasks| && Routable(g, uow.tasks[id].branch, hops, fanning) && i < |hops|
    modifies uow
    ensures uow.Seen() == RouteOne(old(uow.Seen()), id, g, hops, fanning, i, now)
  {
    var frames := ChildFrames(id, uow.tasks[id].branch, hops[i], i, |hops|, fanning);
    var target := g.nodes[hops[i].target];
    if target.join {
      WriteJoinArrival(uow, id, target, hops[i], frames, now);
    } else {
      WriteTransition(uow, id, target, hops[i], frames, now);
    }
  }

  /** Writes the whole outcome of a return, or nothing when its routing is an error. */
  method RecordSuccess(database: Database, id: nat, g: Graph, value: Value, now: nat)
    returns (r: Result<(), RoutingError>)
    requires id < |database.tables.tasks| && EdgesOk(g.nodes)
    modifies database
    ensures r.Ok? <==> Success(old(database.tables), id, g, value, now).Ok?
    ensures r.Ok? ==> database.tables == Success(old(database.tables), id, g, value, now).value
    ensures r.Err? ==> database.tables == old(database.tables)
    ensures r.Err? ==> r.error == Success(old(database.tables), id, g, value, now).error
  {
    hide RouteOne, SettleRun, Interpret, IsFanOut, Jsonable, HopTargets;
    var t := database.tables.tasks[id];
    if t.node !in g.nodes { return Err(NoSuchNode); }
    var interpreted := Interpret(g.nodes[t.node], value);
    if interpreted.Err? { return Err(interpreted.error); }
    var hops := interpreted.value;
    TargetsResolve(g, t.node, value);
    var uow := new UnitOfWork(database);
    uow.Finish(id, Done, Some(Jsonable(value)), hops == []);
    ghost var done := uow.Seen();
    // A transition that reaches a join with no frame to pop raises inside the block,
    // and the whole of it is rolled back: nothing below is committed.
    if !Routable(g, t.branch, hops, IsFanOut(value)) { return Err(JoinWithoutFrame); }
    for i := 0 to |hops|
      invariant database.tables == old(database.tables) && uow.Base() == database.tables.events
      invariant uow.Seen() == Route(done, id, g, hops, IsFanOut(value), i, now)
    {
      WriteRoute(uow, id, g, hops, IsFanOut(value), i, now);
    }
    uow.Emit(Some(t.run), Some(id), TaskDone(HopTargets(hops), hops == []));
    Settle(uow, t.run, hops == [], now);
    database.Commit(uow);
    return Ok(());
  }

  method RecordFailure(database: Database, id: nat, retryable: bool, node: Option<Node>, maxRetries: int, now: nat)
    requires id < |database.tables.tasks|
    modifies database
    ensures database.tables == Failure(old(database.tables), id, retryable, RetryBudget(node, maxRetries), now)
    ensures forall budget: int | HasBudget(node, maxRetries, budget) ::
              if retryable && old(database.tables).tasks[id].attempt < budget
              then RetriedAs(old(database.tables), id, database.tables)
              else BuriedAs(old(database.tables), id, now, database.tables)
  {
    FailureIs(database.tables, id, retryable, RetryBudget(node, maxRetries), now);
    hide RetriedAs, BuriedAs;
    var t := database.tables.tasks[id];
    var budget := RetryBudget(node, maxRetries);
    var willRetry := retryable && t.attempt < budget;
    var uow := new UnitOfWork(database);
    uow.Finish(id, Failed, None, false);
    if willRetry {
      var retry := uow.Enqueue(RetryOf(t, id, RetryReason));
      uow.Emit(Some(t.run), Some(retry), TaskEnqueued(RetryReason));
    }
    uow.Emit(Some(t.run), Some(id), TaskFailed(willRetry));
    if !willRetry {
      uow.SetTask(id, DeadLetter);
      uow.Emit(Some(t.run), Some(id), TaskDeadLettered);
      if t.run in uow.runs && uow.runs[t.run].status == Running {
        uow.SetRun(t.run, RunFailed, Some(now));
        uow.Emit(Some(t.run), None, RunFailedEvent);
      }
    }
    database.Commit(uow);
  }
}
