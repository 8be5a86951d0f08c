/** Dispatch as a state machine: ticks, attempts, waits, ends and registry changes in every
    interleaving (athanore/engine/scheduler.py, athanore/engine/runner.py,
    athanore/engine/services.py, athanore/engine/__init__.py). A step is what runs between two
    suspensions. A body may have several waits open at once, a wait may outlive its attempt or
    be entered by a task that did, and an attempt may be cancelled while it closes. */
module Dispatch {
  import opened Base
  import opened Claims

  // A lease: its pool, whether it was given back, and the attempt it is for.
  datatype Slot = Slot(pool: string, released: bool, attempt: Option<nat>)

  // Where a wait for a human is: past the guard and writing its first transaction, parked,
  // waiting to be re-admitted, handed a slot it has not picked up, or over.
  datatype Stage = Asking | Open | Queued | Served(slot: nat) | Closed

  // A wait of an attempt, with the slot the attempt had when it was entered.
  datatype Wait = Wait(attempt: nat, lease: nat, stage: Stage)

  // Where an attempt is: before its first line, in its body, closing its transcript with its
  // slots still out, or over, whether or not its body ever ran.
  datatype Phase = Loading | Body | Closing | Ended(ran: bool)

  // `first` is the slot it was dispatched on, `held` the one its lease service has now,
  // `waiting` the flag that guards a wait. One that an unregistration cancelled is doomed.
  datatype Attempt = Attempt(task: nat, workflow: string, first: nat, held: nat, waiting: bool, phase: Phase,
      doomed: bool)

  datatype Turn =
    | Between
    | Dispatching(todo: seq<string>)
    | Claiming(pool: string, slots: seq<nat>, workflows: set<string>, todo: seq<string>)

  // An unregistration that has cancelled its attempts and waits for them. `rebound` says the
  // name was registered again since.
  datatype Leaving = Leaving(workflow: string, waiting: set<nat>, rebound: bool)

  datatype State = State(
    capacity: map<string, nat>,
    leased: map<string, nat>,
    slots: seq<Slot>,
    queues: map<string, seq<nat>>,
    attempts: seq<Attempt>,
    waits: seq<Wait>,
    live: set<nat>,
    entries: map<nat, nat>,
    bindings: map<string, string>,
    turn: Turn,
    leaving: seq<Leaving>)

  datatype Step =
    | Tick(order: seq<string>)
    | PoolTurn
    | Claimed(ready: seq<Row>)
    | ClaimFailed
    | TickEnd
    | Stop
    | Begin(a: nat)
    | Enter(a: nat)
    | Suspend(w: nat)
    | Ask(w: nat)
    | Receive(w: nat)
    | Abandon(w: nat)
    | Close(a: nat)
    | End(a: nat)
    | Cut(a: nat)
    | EndUnbegun(a: nat)
    | Register(workflow: string, pool: string, capacity: nat)
    | Rebind(workflow: string, pool: string)
    | Unregister(workflow: string)
    | UnregisterDone(k: nat)

  const Empty := State(map[], map[], [], map[], [], [], {}, map[], map[], Between, [])

  // ------------------------------------------------------------------------
  // Slots
  // ------------------------------------------------------------------------

  function Count(m: map<string, nat>, p: string): nat {
    if p in m then m[p] else 0
  }

  function Release(s: State, l: nat): State {
    if l >= |s.slots| || s.slots[l].released then s
    else
      var p := s.slots[l].pool;
      s.(slots := s.slots[l := s.slots[l].(released := true)],
         leased := s.leased[p := if Count(s.leased, p) > 0 then Count(s.leased, p) - 1 else 0])
  }

  function Acquire(s: State, p: string, attempt: Option<nat>): State {
    s.(slots := s.slots + [Slot(p, false, attempt)], leased := s.leased[p := Count(s.leased, p) + 1])
  }

  function ReleaseAll(s: State, ids: seq<nat>): State
    decreases |ids|
  {
    if ids == [] then s else ReleaseAll(Release(s, ids[0]), ids[1..])
  }

  function AcquireAll(s: State, p: string, n: nat): State
    decreases n
  {
    if n == 0 then s else AcquireAll(Acquire(s, p, None), p, n - 1)
  }

  function Free(s: State, p: string): nat {
    if Count(s.capacity, p) > Count(s.leased, p) then Count(s.capacity, p) - Count(s.leased, p) else 0
  }

  function SetPhase(s: State, a: nat, phase: Phase): State
    requires a < |s.attempts|
  {
    s.(attempts := s.attempts[a := s.attempts[a].(phase := phase)])
  }

  function SetStage(s: State, w: nat, stage: Stage): State
    requires w < |s.waits|
  {
    s.(waits := s.waits[w := s.waits[w].(stage := stage)])
  }

  // The guard of a wait, raised and lowered by the waits of one attempt alike.
  function SetWaiting(s: State, a: nat, waiting: bool): State {
    if a < |s.attempts| then s.(attempts := s.attempts[a := s.attempts[a].(waiting := waiting)]) else s
  }

  // ------------------------------------------------------------------------
  // A pool's turn
  // ------------------------------------------------------------------------

  function Queue(s: State, p: string): seq<nat> {
    if p in s.queues then s.queues[p] else []
  }

  predicate Waits(s: State, w: nat) {
    w < |s.waits| && s.waits[w].stage == Queued
  }

  // The wait at the head of a queue, off it and with a new slot of the pool.
  function Serve(s: State, p: string, w: nat): State
    requires w < |s.waits|
  {
    SetStage(Acquire(s, p, Some(s.waits[w].attempt)), w, Served(|s.slots|))
  }

  // The re-admit queue, served oldest first while slots remain. A waiter that is done is
  // dropped.
  function Drain(s: State, p: string): State
    decreases |Queue(s, p)|
  {
    var queue := Queue(s, p);
    if queue == [] || Free(s, p) == 0 then s
    else
      var popped := s.(queues := s.queues[p := queue[1..]]);
      if !Waits(s, queue[0]) then Drain(popped, p)
      else Drain(Serve(popped, p, queue[0]), p)
  }

  function WorkflowsOf(s: State, p: string): set<string> {
    set w | w in s.bindings && s.bindings[w] == p
  }

  function NewSlots(from: nat, n: nat): seq<nat> {
    seq(n, i requires 0 <= i < n => from + i)
  }

  // Re-admit, then reserve what is left for a claim.
  function TakeTurn(s: State, p: string, todo: seq<string>): State {
    var drained := Drain(s, p);
    var free, workflows := Free(drained, p), WorkflowsOf(drained, p);
    if free == 0 || workflows == {} then drained.(turn := Dispatching(todo))
    else
      AcquireAll(drained, p, free).(turn := Claiming(p, NewSlots(|drained.slots|, free), workflows, todo))
  }

  predicate StillRuns(s: State, task: nat) {
    task in s.entries && s.entries[task] < |s.attempts| && !s.attempts[s.entries[task]].phase.Ended?
  }

  // One attempt of a claimed row, on this slot. One still running the row keeps the entry.
  function Spawn(s: State, row: Row, slot: nat): State {
    var a := |s.attempts|;
    s.(attempts := s.attempts + [Attempt(row.task, row.workflow, slot, slot, false, Loading, false)],
       slots := if slot < |s.slots| then s.slots[slot := s.slots[slot].(attempt := Some(a))] else s.slots,
       live := s.live + {a},
       entries := if StillRuns(s, row.task) then s.entries else s.entries[row.task := a])
  }

  function SpawnAll(s: State, rows: seq<Row>, slots: seq<nat>): State
    requires |rows| <= |slots|
    decreases |rows|
  {
    if rows == [] then s else SpawnAll(Spawn(s, rows[0], slots[0]), rows[1..], slots[1..])
  }

  // ------------------------------------------------------------------------
  // Reaping
  // ------------------------------------------------------------------------

  predicate Over(s: State, a: nat) {
    a < |s.attempts| && s.attempts[a].phase.Ended?
  }

  function ReleaseEnded(s: State, upto: nat): State
    requires upto <= |s.attempts|
    ensures ReleaseEnded(s, upto).attempts == s.attempts && ReleaseEnded(s, upto).live == s.live
  {
    if upto == 0 then s
    else
      var before := ReleaseEnded(s, upto - 1);
      if upto - 1 in s.live && Over(s, upto - 1) then Release(before, s.attempts[upto - 1].first) else before
  }

  function Reap(s: State): State {
    ReleaseEnded(s, |s.attempts|).(
      live := (set a | a in s.live && !Over(s, a)),
      entries := (map t | t in s.entries && !Over(s, s.entries[t]) :: s.entries[t]))
  }

  // The slot an attempt has now and the one it was dispatched on go back when it ends. One
  // that is cancelled while it closes its transcript gives back neither.
  function EndHeld(s: State, a: nat): State
    requires a < |s.attempts|
  {
    SetPhase(Release(Release(s, s.attempts[a].held), s.attempts[a].first), a, Ended(true))
  }

  // A wait that is cancelled: its flag falls, and a slot it was handed goes back.
  function Dropped(s: State, w: nat): State
    requires w < |s.waits|
  {
    var v := s.waits[w];
    var t := if v.stage.Open? then SetWaiting(s, v.attempt, false)
             else if v.stage.Served? then Release(s, v.stage.slot) else s;
    SetStage(t, w, Closed)
  }

  // ------------------------------------------------------------------------
  // The steps
  // ------------------------------------------------------------------------

  predicate Alive(s: State, a: nat) {
    a in s.live && a < |s.attempts| && !s.attempts[a].phase.Ended?
  }

  // The attempts of a workflow a process is running, and those of the same rows.
  function RunningOf(s: State, workflow: string): set<nat> {
    set a | a in s.live && Alive(s, a) && s.attempts[a].workflow == workflow
  }

  function Doom(attempts: seq<Attempt>, doomed: set<nat>): seq<Attempt> {
    seq(|attempts|, i requires 0 <= i < |attempts| => if i in doomed then attempts[i].(doomed := true) else attempts[i])
  }

  function Rebound(leaving: seq<Leaving>, workflow: string): seq<Leaving> {
    seq(|leaving|, i requires 0 <= i < |leaving| =>
      if leaving[i].workflow == workflow then leaving[i].(rebound := true) else leaving[i])
  }

  // The body runs, or may have left a task running.
  predicate Ran(s: State, a: nat) {
    a < |s.attempts| && s.attempts[a].phase != Loading && s.attempts[a].phase != Ended(false)
  }

  predicate Enabled(s: State, a: Step) {
    match a
    case Tick(order) => s.turn.Between? && forall i | 0 <= i < |order| :: order[i] in s.capacity
    case PoolTurn => s.turn.Dispatching? && s.turn.todo != []
    case Claimed(ready) => s.turn.Claiming? && forall i | 0 <= i < |ready| :: ready[i].workflow in s.turn.workflows
    case ClaimFailed => s.turn.Claiming?
    case TickEnd => s.turn.Dispatching? && s.turn.todo == []
    case Stop => !s.turn.Between?
    case Begin(i) => Alive(s, i) && s.attempts[i].phase == Loading
    case Enter(i) => Ran(s, i) && !s.attempts[i].waiting
    case Suspend(w) => w < |s.waits| && s.waits[w].stage == Asking
    case Ask(w) => w < |s.waits| && s.waits[w].stage == Open
    case Receive(w) => w < |s.waits| && s.waits[w].stage.Served? && s.waits[w].attempt < |s.attempts|
    case Abandon(w) => w < |s.waits| && s.waits[w].stage != Closed
    case Close(i) => Alive(s, i) && s.attempts[i].phase == Body
    case End(i) => Alive(s, i) && s.attempts[i].phase == Closing
    case Cut(i) => Alive(s, i) && s.attempts[i].phase == Closing
    case EndUnbegun(i) => Alive(s, i) && s.attempts[i].phase == Loading
    case Register(w, p, capacity) =>
      w !in s.capacity && p !in s.bindings && w != p && (w in s.bindings ==> s.bindings[w] == p)
    case Rebind(w, p) => s.turn.Between? && w in s.bindings && p in s.capacity && RunningOf(s, w) == {}
    case Unregister(w) => s.turn.Between? && w in s.bindings
    case UnregisterDone(k) => k < |s.leaving| && forall i | i in s.leaving[k].waiting :: Over(s, i)
  }

  function Next(s: State, a: Step): State
    requires Enabled(s, a)
  {
    match a
    case Tick(order) => Reap(s).(turn := Dispatching(order))
    case PoolTurn => TakeTurn(s, s.turn.todo[0], s.turn.todo[1..])
    case Claimed(ready) =>
      var rows := Taken(ready, |s.turn.slots|);
      ReleaseAll(SpawnAll(s, rows, s.turn.slots), s.turn.slots[|rows|..]).(turn := Dispatching(s.turn.todo))
    case ClaimFailed => ReleaseAll(s, s.turn.slots).(turn := Dispatching(s.turn.todo))
    case TickEnd => s.(turn := Between)
    case Stop => (if s.turn.Claiming? then ReleaseAll(s, s.turn.slots) else s).(turn := Between)
    case Begin(i) => SetPhase(s, i, Body)
    case Enter(i) => s.(waits := s.waits + [Wait(i, s.attempts[i].held, Asking)])
    case Suspend(w) => SetStage(Release(SetWaiting(s, s.waits[w].attempt, true), s.waits[w].lease), w, Open)
    case Ask(w) =>
      var v := s.waits[w];
      var p := if v.lease < |s.slots| then s.slots[v.lease].pool else "";
      SetStage(SetWaiting(s, v.attempt, false), w, Queued).(queues := s.queues[p := Queue(s, p) + [w]])
    case Receive(w) =>
      var v := s.waits[w];
      SetStage(s.(attempts := s.attempts[v.attempt := s.attempts[v.attempt].(held := v.stage.slot)]), w, Closed)
    case Abandon(w) => Dropped(s, w)
    case Close(i) => SetPhase(s, i, Closing)
    case End(i) => EndHeld(s, i)
    case Cut(i) => SetPhase(s, i, Ended(true))
    case EndUnbegun(i) => SetPhase(s, i, Ended(false))
    case Register(w, p, capacity) =>
      var made := if p in s.capacity then s
                  else s.(capacity := s.capacity[p := capacity], leased := s.leased[p := 0],
                      queues := s.queues[p := []]);
      made.(bindings := s.bindings[w := p], leaving := Rebound(s.leaving, w))
    case Rebind(w, p) => s.(bindings := s.bindings[w := p])
    case Unregister(w) =>
      var gone := RunningOf(s, w);
      s.(bindings := s.bindings - {w}, attempts := Doom(s.attempts, gone),
          leaving := s.leaving + [Leaving(w, gone, false)])
    case UnregisterDone(k) => Reap(s).(leaving := s.leaving[..k] + s.leaving[k + 1..])
  }

  predicate IsRun(s: State, trace: seq<Step>)
    decreases |trace|
  {
    trace == [] || (Enabled(s, trace[0]) && IsRun(Next(s, trace[0]), trace[1..]))
  }

  function EndOf(s: State, trace: seq<Step>): State
    requires IsRun(s, trace)
    decreases |trace|
  {
    if trace == [] then s else EndOf(Next(s, trace[0]), trace[1..])
  }
}
