/** The engine as a state machine: one step per committed transaction, crash or sweep.

    The state is the tables, the rows an attempt of this process is running, and what
    each finished attempt returned. The last is bookkeeping for the claims below: no
    table holds it, and no step reads it. */
module Machine {
  import opened Base
  import opened Json
  import opened Graphs
  import opened Rows
  import opened Routing
  import opened Store
  import Runner
  import Ops

  // The transitions a done row returned, whether each led to a join, and whether the
  // return was a fan-out.
  datatype Return = Return(hops: seq<Hop>, joins: seq<bool>, fanning: bool)

  datatype State = State(db: Tables, live: set<nat>, returned: map<nat, Return>)

  datatype Step =
    | Submit(graphs: map<string, Graph>, workflow: string, run: string, payload: Json, now: nat)
    | Claim(id: nat)
    | Park(id: nat)
    | Unpark(id: nat)
    | Succeed(id: nat, g: Graph, value: Value, now: nat)
    | Fail(id: nat, retryable: bool, budget: int, now: nat)
    | Crash
    | Drop(workflow: string)
    | Recover(names: set<string>)
    | Pause(run: string)
    | Resume(run: string)
    | Cancel(run: string, now: nat)
    | Rerun(graphs: map<string, Graph>, run: string, node: string, now: nat)
    | Retry(graphs: map<string, Graph>, id: nat)
    | Move(graphs: map<string, Graph>, id: nat, node: string, now: nat)
    | SetStatus(id: nat, status: TaskStatus)

  const Empty := State(Tables(map[], [], map[], []), {}, map[])

  predicate Finalized(g: Graph) {
    EdgesOk(g.nodes) && NamesOk(g.nodes)
  }

  // A registry holds finalized graphs only.
  predicate Registered(graphs: map<string, Graph>) {
    forall w | w in graphs :: graphs[w].start in graphs[w].nodes && Finalized(graphs[w])
  }

  predicate Claimable(db: Tables, id: nat) {
    && id < |db.tasks| && db.tasks[id].status == Ready
    && db.tasks[id].run in db.runs
    && db.runs[db.tasks[id].run].status in {Queued, Running}
  }

  // A claim of several rows is that many of these in one transaction.
  function ClaimRow(db: Tables, id: nat): Tables
    requires Claimable(db, id)
  {
    var run := db.tasks[id].run;
    var claimed := SetTask(db, id, InProgress);
    if db.runs[run].status == Queued then SetRun(claimed, run, Running, None) else claimed
  }

  function ReturnOf(g: Graph, hops: seq<Hop>, fanning: bool): Return
    requires forall i | 0 <= i < |hops| :: hops[i].target in g.nodes
  {
    Return(hops, seq(|hops|, i requires 0 <= i < |hops| => g.nodes[hops[i].target].join), fanning)
  }

  // The attempts a workflow's removal cancels.
  function OfWorkflow(s: State, workflow: string): set<nat> {
    set id | id in s.live && id < |s.db.tasks| && s.db.tasks[id].run in s.db.runs
      && s.db.runs[s.db.tasks[id].run].workflow == workflow
  }

  function PendingRows(db: Tables, run: string): set<nat> {
    set id: nat | id < |db.tasks| && db.tasks[id].run == run && Pending(db.tasks[id].status)
  }

  function Accepted<E>(r: Result<Tables, E>): Option<Tables> {
    if r.Ok? then Some(r.value) else None
  }

  // The tables after a step, or None where the step cannot happen. An attempt records an
  // outcome, or parks, only while this process runs it; a refused verb changes nothing.
  function Apply(s: State, a: Step): Option<Tables> {
    match a
    case Submit(graphs, workflow, run, payload, now) =>
      if Registered(graphs) && run !in s.db.runs then
        Accepted(Ops.Submit(s.db, graphs, workflow, run, payload, now))
      else None
    case Claim(id) => if Claimable(s.db, id) then Some(ClaimRow(s.db, id)) else None
    case Park(id) =>
      if Held(s, id) && s.db.tasks[id].status == InProgress then Some(SetTask(s.db, id, Waiting)) else None
    case Unpark(id) =>
      if Held(s, id) && s.db.tasks[id].status == Waiting then Some(SetTask(s.db, id, InProgress)) else None
    case Succeed(id, g, value, now) =>
      if Held(s, id) && Finalized(g) then Accepted(Runner.Success(s.db, id, g, value, now)) else None
    case Fail(id, retryable, budget, now) =>
      if Held(s, id) then Some(Runner.Failure(s.db, id, retryable, budget, now)) else None
    case Crash => Some(s.db)
    case Drop(_) => Some(s.db)
    case Recover(names) => Some(Ops.Recover(s.db, names, s.live))
    case Pause(run) => Accepted(Ops.Pause(s.db, run))
    case Resume(run) => Accepted(Ops.Resume(s.db, run))
    case Cancel(run, now) => Accepted(Ops.Cancel(s.db, run, now))
    case Rerun(graphs, run, node, now) =>
      if Registered(graphs) then Accepted(Ops.Rerun(s.db, graphs, run, node, now)) else None
    case Retry(graphs, id) => if Registered(graphs) then Accepted(Ops.Retry(s.db, graphs, id)) else None
    case Move(graphs, id, node, now) =>
      if Registered(graphs) then Accepted(Ops.Move(s.db, graphs, id, node, now)) else None
    case SetStatus(id, status) => if Ops.Settable(status) then Accepted(Ops.SetStatus(s.db, id, status)) else None
  }

  predicate Held(s: State, id: nat) {
    id in s.live && id < |s.db.tasks|
  }

  predicate Enabled(s: State, a: Step) {
    Apply(s, a).Some?
  }

  // The attempts still running after a step. A verb that ends work cancels its attempts
  // in the same step as its commit.
  function LiveAfter(s: State, a: Step): set<nat> {
    match a
    case Claim(id) => s.live + {id}
    case Succeed(id, _, _, _) => s.live - {id}
    case Fail(id, _, _, _) => s.live - {id}
    case Crash => {}
    case Drop(workflow) => s.live - OfWorkflow(s, workflow)
    case Cancel(run, _) => s.live - PendingRows(s.db, run)
    case Move(_, id, _, _) => s.live - {id}
    case SetStatus(id, _) => s.live - {id}
    case _ => s.live
  }

  // What a success returned, as the engine reads it.
  function ReturnedBy(s: State, id: nat, g: Graph, value: Value): Return {
    if id < |s.db.tasks| && EdgesOk(g.nodes) && Runner.Reading(s.db, id, g, value).Ok?
    then ReturnOf(g, Runner.Reading(s.db, id, g, value).value, IsFanOut(value))
    else Return([], [], false)
  }

  function Next(s: State, a: Step): State
    requires Enabled(s, a)
  {
    State(Apply(s, a).value, LiveAfter(s, a),
          if a.Succeed? then s.returned[a.id := ReturnedBy(s, a.id, a.g, a.value)] else s.returned)
  }

  // What each step is, one at a time.
  lemma SubmitIs(s: State, a: Step)
    requires a.Submit? && Enabled(s, a)
    ensures Registered(a.graphs) && a.run !in s.db.runs
        && Ops.Submit(s.db, a.graphs, a.workflow, a.run, a.payload, a.now).Ok?
    ensures Next(s, a) == State(Ops.Submit(s.db, a.graphs, a.workflow, a.run, a.payload, a.now).value, s.live,
        s.returned)
  {
    hide Ops.Submit;
  }

  lemma FailIs(s: State, a: Step)
    requires a.Fail? && Enabled(s, a)
    ensures Held(s, a.id)
    ensures Next(s, a) == State(Runner.Failure(s.db, a.id, a.retryable, a.budget, a.now), s.live - {a.id}, s.returned)
  {
    hide Runner.Failure;
  }

  lemma RecoverIs(s: State, a: Step)
    requires a.Recover? && Enabled(s, a)
    ensures Next(s, a) == State(Ops.Recover(s.db, a.names, s.live), s.live, s.returned)
  {
    hide Ops.Recover;
  }

  lemma CancelIs(s: State, a: Step)
    requires a.Cancel? && Enabled(s, a)
    ensures Ops.Cancel(s.db, a.run, a.now).Ok?
    ensures Next(s, a) == State(Ops.Cancel(s.db, a.run, a.now).value, s.live - PendingRows(s.db, a.run), s.returned)
  {
    hide Ops.Cancel;
  }

  lemma ClaimIs(s: State, a: Step)
    requires a.Claim? && Enabled(s, a)
    ensures Claimable(s.db, a.id) && Next(s, a) == State(ClaimRow(s.db, a.id), s.live + {a.id}, s.returned)
  {
    hide ClaimRow, Claimable;
  }

  // An attempt that parks or resumes.
  lemma ParkIs(s: State, a: Step)
    requires (a.Park? || a.Unpark?) && Enabled(s, a)
    ensures Held(s, a.id) && Interrupted(s.db.tasks[a.id].status)
    ensures Next(s, a) == State(SetTask(s.db, a.id, if a.Park? then Waiting else InProgress), s.live, s.returned)
  {
    hide SetTask;
  }

  // Attempts that are lost, with the tables as they were.
  lemma CrashIs(s: State, a: Step)
    requires (a.Crash? || a.Drop?) && Enabled(s, a)
    ensures Next(s, a).db == s.db && Next(s, a).returned == s.returned && Next(s, a).live <= s.live
  {
  }

  lemma PauseIs(s: State, a: Step)
    requires (a.Pause? || a.Resume?) && Enabled(s, a)
    ensures a.run in s.db.runs && Next(s, a).live == s.live && Next(s, a).returned == s.returned
    ensures Next(s, a).db.tasks == s.db.tasks && Next(s, a).db.arrivals == s.db.arrivals
    ensures Next(s, a).db.runs.Keys == s.db.runs.Keys
  {
  }

  // The steps the engine takes on its own.
  predicate EngineStep(a: Step) {
    a.Submit? || a.Claim? || a.Park? || a.Unpark? || a.Succeed? || a.Fail? || a.Crash? || a.Drop? || a.Recover?
  }

  // The steps that send no work down a branch again: the engine's own, and an operator
  // who pauses, resumes or cancels.
  predicate ForwardStep(a: Step) {
    EngineStep(a) || a.Pause? || a.Resume? || a.Cancel?
  }

  // A status the operator writes over a row that is done re-executes or denies a return
  // its successors already carry.
  predicate OverwritesDone(s: State, a: Step) {
    a.SetStatus? && a.id < |s.db.tasks| && s.db.tasks[a.id].status == Done
  }

  // Every step of the trace is enabled in the state the steps before it lead to.
  predicate IsRun(s: State, trace: seq<Step>)
    decreases |trace|
  {
    trace == [] || (Enabled(s, trace[0]) && IsRun(Next(s, trace[0]), trace[1..]))
  }

  function End(s: State, trace: seq<Step>): State
    requires IsRun(s, trace)
    decreases |trace|
  {
    if trace == [] then s else End(Next(s, trace[0]), trace[1..])
  }

  // A run in which no operator takes part.
  predicate EngineRun(s: State, trace: seq<Step>) {
    IsRun(s, trace) && forall i | 0 <= i < |trace| :: EngineStep(trace[i])
  }

  predicate ForwardRun(s: State, trace: seq<Step>) {
    IsRun(s, trace) && forall i | 0 <= i < |trace| :: ForwardStep(trace[i])
  }

  // A run in which no done row is overwritten.
  predicate KeepingRun(s: State, trace: seq<Step>)
    decreases |trace|
  {
    trace == [] || (Enabled(s, trace[0]) && !OverwritesDone(s, trace[0]) && KeepingRun(Next(s, trace[0]), trace[1..]))
  }
}
