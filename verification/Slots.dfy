/** The slots of `Dispatch`: how many are out, whose each one is, and who waits for one. */
module Slots {
  import opened Base
  import opened Claims
  import opened Dispatch
  import Pools

  // ------------------------------------------------------------------------
  // Conservation of slots
  // ------------------------------------------------------------------------

  // The slots of a pool that are out.
  function Out(s: State, p: string): set<nat> {
    set l: nat | l < |s.slots| && s.slots[l].pool == p && !s.slots[l].released
  }

  // As many as the pool says are leased, and never more than it has.
  predicate CountsOk(s: State) {
    && s.leased.Keys == s.capacity.Keys && s.queues.Keys == s.capacity.Keys
    && (forall l: nat | l < |s.slots| :: s.slots[l].pool in s.capacity)
    && forall p | p in s.capacity :: s.leased[p] == |Out(s, p)| <= s.capacity[p]
  }

  lemma ReleaseOut(s: State, l: nat, q: string)
    requires l < |s.slots| && !s.slots[l].released
    ensures Out(Release(s, l), q) == if q == s.slots[l].pool then Out(s, q) - {l} else Out(s, q)
    ensures q == s.slots[l].pool ==> l in Out(s, q)
  {
  }

  lemma ReleaseCounts(s: State, l: nat)
    requires CountsOk(s)
    ensures CountsOk(Release(s, l))
  {
    hide Out;
    if l < |s.slots| && !s.slots[l].released {
      forall q | q in s.capacity
        ensures Out(Release(s, l), q) == if q == s.slots[l].pool then Out(s, q) - {l} else Out(s, q)
        ensures q == s.slots[l].pool ==> l in Out(s, q)
      {
        ReleaseOut(s, l, q);
      }
    }
  }

  lemma AcquireOut(s: State, p: string, attempt: Option<nat>, q: string)
    ensures Out(Acquire(s, p, attempt), q) == if q == p then Out(s, q) + {|s.slots|} else Out(s, q)
    ensures |s.slots| !in Out(s, q)
  {
  }

  lemma AcquireCounts(s: State, p: string, attempt: Option<nat>)
    requires CountsOk(s) && p in s.capacity && Free(s, p) > 0
    ensures CountsOk(Acquire(s, p, attempt))
  {
    hide Out;
    var s' := Acquire(s, p, attempt);
    forall q | q in s.capacity
      ensures Out(s', q) == if q == p then Out(s, q) + {|s.slots|} else Out(s, q)
      ensures |s.slots| !in Out(s, q)
    {
      AcquireOut(s, p, attempt, q);
    }
  }

  lemma {:induction false} ReleaseAllCounts(s: State, ids: seq<nat>)
    requires CountsOk(s)
    ensures CountsOk(ReleaseAll(s, ids))
    decreases |ids|
  {
    if ids != [] {
      ReleaseCounts(s, ids[0]);
      ReleaseAllCounts(Release(s, ids[0]), ids[1..]);
    }
  }

  lemma {:induction false} AcquireAllCounts(s: State, p: string, n: nat)
    requires CountsOk(s) && p in s.capacity && n <= Free(s, p)
    ensures CountsOk(AcquireAll(s, p, n))
    decreases n
  {
    if n > 0 {
      AcquireCounts(s, p, None);
      AcquireAllCounts(Acquire(s, p, None), p, n - 1);
    }
  }

  // Slots of the same pools, as many of them out.
  predicate SameSlots(s: State, s': State) {
    && |s'.slots| == |s.slots| && s'.leased == s.leased && s'.capacity == s.capacity
    && forall l | 0 <= l < |s.slots| ::
        s'.slots[l].pool == s.slots[l].pool && s'.slots[l].released == s.slots[l].released
  }

  // Only the slots and the pools matter to the counts.
  lemma SameCounts(s: State, s': State)
    requires CountsOk(s) && SameSlots(s, s') && s'.queues.Keys == s.queues.Keys
    ensures CountsOk(s')
  {
    forall p | p in s.capacity ensures Out(s', p) == Out(s, p) {
    }
  }

  lemma {:induction false} DrainCounts(s: State, p: string)
    requires CountsOk(s) && p in s.capacity
    ensures CountsOk(Drain(s, p)) && Drain(s, p).capacity == s.capacity
    decreases |Queue(s, p)|
  {
    hide CountsOk, Out;
    PoolHasQueue(s, p);
    var queue := Queue(s, p);
    if queue != [] && Free(s, p) > 0 {
      var popped := s.(queues := s.queues[p := queue[1..]]);
      SameCounts(s, popped);
      if !Waits(s, queue[0]) {
        DrainCounts(popped, p);
      } else {
        var acquired := Acquire(popped, p, Some(s.waits[queue[0]].attempt));
        AcquireCounts(popped, p, Some(s.waits[queue[0]].attempt));
        SameCounts(acquired, Serve(popped, p, queue[0]));
        DrainCounts(Serve(popped, p, queue[0]), p);
      }
    }
  }

  lemma PoolHasQueue(s: State, p: string)
    requires CountsOk(s) && p in s.capacity
    ensures p in s.queues && s.queues[p := Queue(s, p)].Keys == s.queues.Keys && p in s.leased
  {
  }

  // Starting attempts says whose the slots are and changes no queue.
  lemma {:induction false} SpawnAllKeepsSlots(s: State, rows: seq<Row>, slots: seq<nat>)
    requires |rows| <= |slots|
    ensures var s' := SpawnAll(s, rows, slots);
            && SameSlots(s, s') && s'.queues == s.queues && s'.waits == s.waits && s'.turn == s.turn
            && s'.bindings == s.bindings && s'.leaving == s.leaving
    decreases |rows|
  {
    if rows != [] {
      SpawnAllKeepsSlots(Spawn(s, rows[0], slots[0]), rows[1..], slots[1..]);
    }
  }

  lemma {:induction false} ReleaseEndedCounts(s: State, upto: nat)
    requires CountsOk(s) && upto <= |s.attempts|
    ensures CountsOk(ReleaseEnded(s, upto))
  {
    hide CountsOk;
    if upto > 0 {
      ReleaseEndedCounts(s, upto - 1);
      ReleaseCounts(ReleaseEnded(s, upto - 1), s.attempts[upto - 1].first);
    }
  }

  lemma ReapCounts(s: State)
    requires CountsOk(s)
    ensures CountsOk(Reap(s))
  {
    hide CountsOk;
    ReleaseEndedCounts(s, |s.attempts|);
    SameCounts(ReleaseEnded(s, |s.attempts|), Reap(s));
  }

  lemma TurnCounts(s: State, p: string, todo: seq<string>)
    requires CountsOk(s) && p in s.capacity
    ensures CountsOk(TakeTurn(s, p, todo))
  {
    hide CountsOk, Drain, AcquireAll;
    DrainCounts(s, p);
    var drained := Drain(s, p);
    SameCounts(drained, drained.(turn := Dispatching(todo)));
    AcquireAllCounts(drained, p, Free(drained, p));
    var workflows := WorkflowsOf(drained, p);
    var reserved := AcquireAll(drained, p, Free(drained, p));
    SameCounts(reserved, reserved.(turn := Claiming(p, NewSlots(|drained.slots|, Free(drained, p)), workflows, todo)));
  }

  // ------------------------------------------------------------------------
  // Whose a slot is
  // ------------------------------------------------------------------------

  predicate IsFree(s: State, l: nat) {
    l < |s.slots| && s.slots[l].released
  }

  predicate IsOut(s: State, l: nat) {
    l < |s.slots| && !s.slots[l].released
  }

  predicate IsFor(s: State, l: nat, a: nat) {
    l < |s.slots| && s.slots[l].attempt == Some(a)
  }

  // The slots an attempt names are its own. One that is not live has given back the slot it
  // was dispatched on.
  predicate AttemptOk(s: State, a: nat)
    requires a < |s.attempts|
  {
    var t := s.attempts[a];
    && IsFor(s, t.first, a) && IsFor(s, t.held, a)
    && (t.phase == Loading ==> t.held == t.first)
    && (a !in s.live ==> t.phase.Ended? && IsFree(s, t.first))
  }

  // A wait has a slot of its attempt, and one it is handed is out and named by nothing else
  // of the attempt.
  predicate WaitOk(s: State, w: nat)
    requires w < |s.waits|
  {
    var v := s.waits[w];
    && v.attempt < |s.attempts| && s.attempts[v.attempt].phase != Loading && IsFor(s, v.lease, v.attempt)
    && (v.stage.Served? ==>
          && IsOut(s, v.stage.slot) && IsFor(s, v.stage.slot, v.attempt)
          && v.stage.slot != s.attempts[v.attempt].first && v.stage.slot != s.attempts[v.attempt].held)
  }

  // Nor by another wait.
  predicate Unshared(waits: seq<Wait>) {
    forall w: nat, x: nat | w < |waits| && x < |waits| && waits[w].stage.Served? ::
      waits[x].lease != waits[w].stage.slot && (x != w ==> waits[x].stage != waits[w].stage)
  }

  // All slots of an attempt are of one pool.
  predicate SlotOk(s: State, l: nat)
    requires l < |s.slots|
  {
    s.slots[l].attempt.Some? ==>
      var a := s.slots[l].attempt.value;
      a < |s.attempts| && s.attempts[a].first < |s.slots| && s.slots[l].pool == s.slots[s.attempts[a].first].pool
  }

  // The slots that are out and nobody's are those reserved for the claim in progress.
  ghost predicate ReservedOk(s: State, reserved: seq<nat>) {
    && (forall k | 0 <= k < |reserved| :: IsOut(s, reserved[k]) && s.slots[reserved[k]].attempt == None)
    && (forall j, k | 0 <= j < k < |reserved| :: reserved[j] != reserved[k])
    && (forall l: nat | IsOut(s, l) && s.slots[l].attempt == None :: l in reserved)
  }

  ghost predicate OwnersAt(s: State, reserved: seq<nat>) {
    && (forall a | a in s.live :: a < |s.attempts|)
    && (forall a: nat | a < |s.attempts| :: AttemptOk(s, a))
    && (forall w: nat | w < |s.waits| :: WaitOk(s, w))
    && Unshared(s.waits)
    && (forall l: nat | l < |s.slots| :: SlotOk(s, l))
    && ReservedOk(s, reserved)
  }

  function Reserved(turn: Turn): seq<nat> {
    if turn.Claiming? then turn.slots else []
  }

  // A change to flags, phases and stages, which names no other slot.
  predicate Mild(s: State, s': State) {
    && s'.slots == s.slots && s'.live == s.live && |s'.attempts| == |s.attempts| && |s'.waits| == |s.waits|
    && (forall a | 0 <= a < |s.attempts| ::
          && s'.attempts[a].first == s.attempts[a].first && s'.attempts[a].held == s.attempts[a].held
          && (s.attempts[a].phase.Ended? ==> s'.attempts[a].phase.Ended?)
          && (s'.attempts[a].phase == Loading ==> s.attempts[a].phase == Loading))
    && (forall w | 0 <= w < |s.waits| ::
          && s'.waits[w].attempt == s.waits[w].attempt && s'.waits[w].lease == s.waits[w].lease
          && (s'.waits[w].stage == s.waits[w].stage || !s'.waits[w].stage.Served?))
  }

  lemma MildOwners(s: State, s': State, reserved: seq<nat>)
    requires OwnersAt(s, reserved) && Mild(s, s')
    ensures OwnersAt(s', reserved)
  {
    forall a: nat | a < |s'.attempts| ensures AttemptOk(s', a) {
      assert AttemptOk(s, a);
    }
    forall w: nat | w < |s'.waits| ensures WaitOk(s', w) {
      assert WaitOk(s, w);
    }
    forall l: nat | l < |s'.slots| ensures SlotOk(s', l) {
      assert SlotOk(s, l);
    }
    assert ReservedOk(s', reserved) by {
      forall l: nat | IsOut(s', l) && s'.slots[l].attempt == None ensures l in reserved {
        assert IsOut(s, l);
      }
      forall k | 0 <= k < |reserved| ensures IsOut(s', reserved[k]) {
        assert IsOut(s, reserved[k]);
      }
    }
  }

  // An attempt's slot that no wait is being handed goes back.
  lemma ReleaseOwners(s: State, l: nat, reserved: seq<nat>)
    requires OwnersAt(s, reserved) && l < |s.slots| && s.slots[l].attempt.Some?
    requires forall w: nat | w < |s.waits| :: s.waits[w].stage != Served(l)
    ensures OwnersAt(Release(s, l), reserved)
  {
    var s' := Release(s, l);
    forall a: nat | a < |s'.attempts| ensures AttemptOk(s', a) {
      assert AttemptOk(s, a);
    }
    forall w: nat | w < |s'.waits| ensures WaitOk(s', w) {
      assert WaitOk(s, w);
    }
    forall m: nat | m < |s'.slots| ensures SlotOk(s', m) {
      assert SlotOk(s, m);
    }
    assert ReservedOk(s', reserved) by {
      forall m: nat | IsOut(s', m) && s'.slots[m].attempt == None ensures m in reserved {
        assert IsOut(s, m);
      }
      forall k | 0 <= k < |reserved| ensures IsOut(s', reserved[k]) {
        assert IsOut(s, reserved[k]);
      }
    }
  }

  lemma AttemptIsOk(s: State, reserved: seq<nat>, a: nat)
    requires OwnersAt(s, reserved) && a < |s.attempts|
    ensures AttemptOk(s, a)
    ensures forall w: nat | w < |s.waits| ::
        s.waits[w].stage != Served(s.attempts[a].first) && s.waits[w].stage != Served(s.attempts[a].held)
  {
    assert AttemptOk(s, a);
    forall w: nat | w < |s.waits|
      ensures s.waits[w].stage != Served(s.attempts[a].first) && s.waits[w].stage != Served(s.attempts[a].held)
    {
      assert WaitOk(s, w);
    }
  }

  lemma WaitIsOk(s: State, reserved: seq<nat>, w: nat)
    requires OwnersAt(s, reserved) && w < |s.waits|
    ensures WaitOk(s, w)
    ensures forall x: nat | x < |s.waits| :: s.waits[x].stage != Served(s.waits[w].lease)
  {
    assert WaitOk(s, w);
  }

  // A body enters a wait with the slot it has.
  lemma EnterOwners(s: State, a: Step, reserved: seq<nat>)
    requires OwnersAt(s, reserved) && Enabled(s, a) && a.Enter?
    ensures OwnersAt(Next(s, a), reserved)
  {
    var s' := Next(s, a);
    AttemptIsOk(s, reserved, a.a);
    forall b: nat | b < |s'.attempts| ensures AttemptOk(s', b) {
      assert AttemptOk(s, b);
    }
    forall w: nat | w < |s'.waits| ensures WaitOk(s', w) {
      assert w < |s.waits| ==> WaitOk(s, w);
    }
    forall l: nat | l < |s'.slots| ensures SlotOk(s', l) {
      assert SlotOk(s, l);
    }
    SameReserved(s, s', reserved);
  }

  lemma SameReserved(s: State, s': State, reserved: seq<nat>)
    requires ReservedOk(s, reserved) && s'.slots == s.slots
    ensures ReservedOk(s', reserved)
  {
    forall l: nat | IsOut(s', l) && s'.slots[l].attempt == None ensures l in reserved {
      assert IsOut(s, l);
    }
    forall k | 0 <= k < |reserved| ensures IsOut(s', reserved[k]) {
      assert IsOut(s, reserved[k]);
    }
  }

  // The slot a wait was handed becomes the one its attempt has.
  lemma ReceiveOwners(s: State, a: Step, reserved: seq<nat>)
    requires OwnersAt(s, reserved) && Enabled(s, a) && a.Receive?
    ensures OwnersAt(Next(s, a), reserved)
  {
    var s' := Next(s, a);
    assert WaitOk(s, a.w);
    forall b: nat | b < |s'.attempts| ensures AttemptOk(s', b) {
      assert AttemptOk(s, b);
    }
    forall w: nat | w < |s'.waits| ensures WaitOk(s', w) {
      assert WaitOk(s, w);
    }
    forall l: nat | l < |s'.slots| ensures SlotOk(s', l) {
      assert SlotOk(s, l);
    }
    SameReserved(s, s', reserved);
  }

  lemma SuspendOwners(s: State, a: Step, reserved: seq<nat>)
    requires OwnersAt(s, reserved) && Enabled(s, a) && a.Suspend?
    ensures OwnersAt(Next(s, a), reserved)
  {
    hide OwnersAt;
    var v := s.waits[a.w];
    var raised := SetWaiting(s, v.attempt, true);
    WaitIsOk(s, reserved, a.w);
    MildOwners(s, raised, reserved);
    ReleaseOwners(raised, v.lease, reserved);
    MildOwners(Release(raised, v.lease), Next(s, a), reserved);
  }

  lemma DroppedOwners(s: State, w: nat, reserved: seq<nat>)
    requires OwnersAt(s, reserved) && w < |s.waits|
    ensures OwnersAt(Dropped(s, w), reserved)
  {
    hide OwnersAt;
    if s.waits[w].stage.Served? {
      HandedBackOwners(s, w, reserved);
    } else {
      MildOwners(s, Dropped(s, w), reserved);
    }
  }

  lemma HandedBackOwners(s: State, w: nat, reserved: seq<nat>)
    requires OwnersAt(s, reserved) && w < |s.waits| && s.waits[w].stage.Served?
    ensures OwnersAt(Dropped(s, w), reserved)
  {
    hide OwnersAt, Release;
    var l, closed := s.waits[w].stage.slot, SetStage(s, w, Closed);
    WaitIsOk(s, reserved, w);
    HandedOnce(s, reserved, w);
    MildOwners(s, closed, reserved);
    ReleaseOwners(closed, l, reserved);
    ReleaseFirst(s, w, l, Closed);
  }

  lemma ReleaseFirst(s: State, w: nat, l: nat, stage: Stage)
    requires w < |s.waits|
    ensures SetStage(Release(s, l), w, stage) == Release(SetStage(s, w, stage), l)
  {
  }

  lemma HandedOnce(s: State, reserved: seq<nat>, w: nat)
    requires OwnersAt(s, reserved) && w < |s.waits| && s.waits[w].stage.Served?
    ensures forall x: nat | x < |s.waits| && x != w :: s.waits[x].stage != s.waits[w].stage
  {
  }

  lemma EndOwners(s: State, a: Step, reserved: seq<nat>)
    requires OwnersAt(s, reserved) && Enabled(s, a) && a.End?
    ensures OwnersAt(Next(s, a), reserved)
  {
    hide OwnersAt;
    var t := s.attempts[a.a];
    AttemptIsOk(s, reserved, a.a);
    ReleaseOwners(s, t.held, reserved);
    ReleaseOwners(Release(s, t.held), t.first, reserved);
    MildOwners(Release(Release(s, t.held), t.first), Next(s, a), reserved);
  }

  // A waiter is handed a new slot.
  lemma ServeOwners(s: State, p: string, w: nat, reserved: seq<nat>)
    requires OwnersAt(s, reserved) && Waits(s, w) && s.waits[w].lease < |s.slots| && s.slots[s.waits[w].lease].pool == p
    ensures OwnersAt(Serve(s, p, w), reserved)
  {
    var s', n, a := Serve(s, p, w), |s.slots|, s.waits[w].attempt;
    assert WaitOk(s, w) && SlotOk(s, s.waits[w].lease) && AttemptOk(s, a);
    forall b: nat | b < |s'.attempts| ensures AttemptOk(s', b) {
      assert AttemptOk(s, b);
    }
    forall x: nat | x < |s'.waits| ensures WaitOk(s', x) && s'.waits[x].lease < n {
      assert WaitOk(s, x);
    }
    forall l: nat | l < |s'.slots| ensures SlotOk(s', l) {
      assert l < n ==> SlotOk(s, l);
    }
    assert ReservedOk(s', reserved) by {
      forall l: nat | IsOut(s', l) && s'.slots[l].attempt == None ensures l in reserved {
        assert IsOut(s, l);
      }
      forall k | 0 <= k < |reserved| ensures IsOut(s', reserved[k]) {
        assert IsOut(s, reserved[k]);
      }
    }
    forall x: nat, y: nat | x < |s'.waits| && y < |s'.waits| && s'.waits[x].stage.Served?
      ensures s'.waits[y].lease != s'.waits[x].stage.slot && (y != x ==> s'.waits[y].stage != s'.waits[x].stage)
    {
      assert WaitOk(s, x) && WaitOk(s, y);
    }
  }

  // A slot is reserved.
  lemma ReserveOwners(s: State, p: string, reserved: seq<nat>)
    requires OwnersAt(s, reserved)
    ensures OwnersAt(Acquire(s, p, None), reserved + [|s.slots|])
  {
    var s', longer, n := Acquire(s, p, None), reserved + [|s.slots|], |s.slots|;
    forall b: nat | b < |s'.attempts| ensures AttemptOk(s', b) {
      assert AttemptOk(s, b);
    }
    forall w: nat | w < |s'.waits| ensures WaitOk(s', w) {
      assert WaitOk(s, w);
    }
    forall l: nat | l < |s'.slots| ensures SlotOk(s', l) {
      assert l < n ==> SlotOk(s, l);
    }
    assert ReservedOk(s', longer) by {
      forall k | 0 <= k < |longer| ensures IsOut(s', longer[k]) && s'.slots[longer[k]].attempt == None {
        assert k < |reserved| ==> IsOut(s, reserved[k]);
      }
      forall l: nat | IsOut(s', l) && s'.slots[l].attempt == None ensures l in longer {
        assert longer[|reserved|] == n;
        if l < n {
          assert IsOut(s, l);
        }
      }
      assert forall k | 0 <= k < |reserved| :: longer[k] == reserved[k] && IsOut(s, reserved[k]);
    }
  }

  // A reserved slot becomes a new attempt's.
  lemma SpawnOwners(s: State, row: Row, reserved: seq<nat>)
    requires OwnersAt(s, reserved) && reserved != []
    ensures OwnersAt(Spawn(s, row, reserved[0]), reserved[1..])
  {
    var s', l, n := Spawn(s, row, reserved[0]), reserved[0], |s.attempts|;
    assert IsOut(s, reserved[0]);
    forall b: nat | b < |s'.attempts| ensures AttemptOk(s', b) {
      assert b < n ==> AttemptOk(s, b);
    }
    forall w: nat | w < |s'.waits| ensures WaitOk(s', w) {
      assert WaitOk(s, w);
    }
    forall m: nat | m < |s'.slots| ensures SlotOk(s', m) {
      assert SlotOk(s, m);
      assert m != l && s.slots[m].attempt.Some? ==> AttemptOk(s, s.slots[m].attempt.value);
    }
    RestReserved(s, s', reserved);
  }

  // The first reserved slot is no longer both out and nobody's.
  lemma RestReserved(s: State, s': State, reserved: seq<nat>)
    requires ReservedOk(s, reserved) && reserved != [] && |s'.slots| == |s.slots|
    requires forall m | 0 <= m < |s.slots| && m != reserved[0] :: s'.slots[m] == s.slots[m]
    requires s'.slots[reserved[0]].released || s'.slots[reserved[0]].attempt.Some?
    ensures ReservedOk(s', reserved[1..])
  {
    var rest := reserved[1..];
    forall k | 0 <= k < |rest| ensures IsOut(s', rest[k]) && s'.slots[rest[k]].attempt == None {
      assert rest[k] == reserved[k + 1] && IsOut(s, reserved[k + 1]) && reserved[0] != reserved[k + 1];
    }
    forall j, k | 0 <= j < k < |rest| ensures rest[j] != rest[k] {
      assert reserved[j + 1] != reserved[k + 1];
    }
    forall m: nat | IsOut(s', m) && s'.slots[m].attempt == None ensures m in rest {
      assert IsOut(s, m);
      var k :| 0 <= k < |reserved| && reserved[k] == m;
      assert rest[k - 1] == m;
    }
  }

  // A reserved slot goes back.
  lemma UnreserveOwners(s: State, reserved: seq<nat>)
    requires OwnersAt(s, reserved) && reserved != []
    ensures OwnersAt(Release(s, reserved[0]), reserved[1..])
  {
    var s' := Release(s, reserved[0]);
    assert IsOut(s, reserved[0]);
    forall b: nat | b < |s'.attempts| ensures AttemptOk(s', b) {
      assert AttemptOk(s, b);
    }
    forall w: nat | w < |s'.waits| ensures WaitOk(s', w) {
      assert WaitOk(s, w);
    }
    forall m: nat | m < |s'.slots| ensures SlotOk(s', m) {
      assert SlotOk(s, m);
    }
    RestReserved(s, s', reserved);
  }

  // ------------------------------------------------------------------------
  // The re-admit queues
  // ------------------------------------------------------------------------

  // What is in a queue is waiting for a slot of that pool, or over; and each waits in one
  // place.
  predicate QueuesOk(s: State) {
    && (forall p, k | p in s.queues && 0 <= k < |s.queues[p]| :: PlaceOk(s, p, s.queues[p][k]))
    && (forall p, j, k | p in s.queues && 0 <= j < k < |s.queues[p]| ::
        s.queues[p][j] != s.queues[p][k] || !Waits(s, s.queues[p][j]))
  }

  predicate PlaceOk(s: State, p: string, w: nat) {
    && w < |s.waits| && s.waits[w].lease < |s.slots|
    && (s.waits[w].stage == Closed || (s.waits[w].stage == Queued && s.slots[s.waits[w].lease].pool == p))
  }

  // The waiters of a queue that are done already.
  function Dones(s: State, queue: seq<nat>): seq<bool> {
    seq(|queue|, i requires 0 <= i < |queue| => !Waits(s, queue[i]))
  }

  // Whoever leaves the queue's head, waiting or not, leaves the rest as it should be.
  lemma PopKeepsQueues(s: State, p: string)
    requires QueuesOk(s) && p in s.queues && s.queues[p] != []
    ensures QueuesOk(s.(queues := s.queues[p := s.queues[p][1..]]))
  {
    var s' := s.(queues := s.queues[p := s.queues[p][1..]]);
    forall q, k | q in s'.queues && 0 <= k < |s'.queues[q]| ensures PlaceOk(s', q, s'.queues[q][k]) {
      assert PlaceOk(s, q, if q == p then s.queues[p][k + 1] else s.queues[q][k]);
    }
    forall q, j, k | q in s'.queues && 0 <= j < k < |s'.queues[q]|
      ensures s'.queues[q][j] != s'.queues[q][k] || !Waits(s', s'.queues[q][j])
    {
      if q == p {
        assert s.queues[p][j + 1] != s.queues[p][k + 1] || !Waits(s, s.queues[p][j + 1]);
      }
    }
  }

  lemma WaitsOnce(s: State, p: string, j: nat, k: nat)
    requires QueuesOk(s) && p in s.queues && j < k < |s.queues[p]|
    ensures s.queues[p][j] != s.queues[p][k] || !Waits(s, s.queues[p][j])
  {
  }

  lemma ServeKeepsQueues(s: State, p: string)
    requires QueuesOk(s) && p in s.queues && s.queues[p] != [] && Waits(s, s.queues[p][0])
    ensures var w, rest := s.queues[p][0], s.queues[p][1..];
            && QueuesOk(Serve(s.(queues := s.queues[p := rest]), p, w))
            && forall k | 0 <= k < |rest| :: rest[k] != w
  {
    var w, rest := s.queues[p][0], s.queues[p][1..];
    var s' := Serve(s.(queues := s.queues[p := rest]), p, w);
    PopKeepsQueues(s, p);
    assert PlaceOk(s, p, w);
    forall k | 0 <= k < |rest| ensures rest[k] != w {
      WaitsOnce(s, p, 0, k + 1);
    }
    forall q, k | q in s'.queues && 0 <= k < |s'.queues[q]|
      ensures PlaceOk(s', q, s'.queues[q][k]) && s'.queues[q][k] != w
    {
      assert PlaceOk(s, q, if q == p then s.queues[p][k + 1] else s.queues[q][k]);
      assert q == p ==> rest[k] != w;
    }
    forall q, j, k | q in s'.queues && 0 <= j < k < |s'.queues[q]|
      ensures s'.queues[q][j] != s'.queues[q][k] || !Waits(s', s'.queues[q][j])
    {
      assert q == p ==> s.queues[p][j + 1] != s.queues[p][k + 1] || !Waits(s, s.queues[p][j + 1]);
    }
  }

  // What the drain does to slots and queues, whichever way each waiter went.
  lemma {:induction false} DrainOwners(s: State, p: string, reserved: seq<nat>)
    requires OwnersAt(s, reserved) && QueuesOk(s) && p in s.queues
    ensures OwnersAt(Drain(s, p), reserved) && QueuesOk(Drain(s, p))
    ensures Drain(s, p).queues.Keys == s.queues.Keys && Drain(s, p).capacity == s.capacity
    ensures Drain(s, p).live == s.live && Drain(s, p).entries == s.entries && Drain(s, p).bindings == s.bindings
    ensures Drain(s, p).leaving == s.leaving && Drain(s, p).turn == s.turn && Drain(s, p).attempts == s.attempts
    ensures |s.slots| <= |Drain(s, p).slots| && Drain(s, p).slots[..|s.slots|] == s.slots
    decreases |Queue(s, p)|
  {
    hide OwnersAt, QueuesOk, PlaceOk;
    var queue := Queue(s, p);
    if queue != [] && Free(s, p) > 0 {
      var popped := s.(queues := s.queues[p := queue[1..]]);
      MildOwners(s, popped, reserved);
      if !Waits(s, queue[0]) {
        PopKeepsQueues(s, p);
        DrainOwners(popped, p, reserved);
      } else {
        var served := Serve(popped, p, queue[0]);
        ServeKeepsQueues(s, p);
        HeadWaits(s, p);
        ServeOwners(popped, p, queue[0], reserved);
        DrainOwners(served, p, reserved);
        assert Drain(served, p).slots[..|s.slots|] == Drain(served, p).slots[..|served.slots|][..|s.slots|];
      }
    }
  }

  lemma HeadWaits(s: State, p: string)
    requires QueuesOk(s) && p in s.queues && s.queues[p] != [] && Waits(s, s.queues[p][0])
    ensures var w := s.queues[p][0];
            s.waits[w].lease < |s.slots| && s.slots[s.waits[w].lease].pool == p
  {
    assert PlaceOk(s, p, s.queues[p][0]);
  }

  // d is s with exactly the first waiters off the queue, as many as the cut says, and a
  // slot leased for each that was still waiting.
  predicate ServesFirst(s: State, d: State, p: string) {
    var queue, dones := Queue(s, p), Dones(s, Queue(s, p));
    var k := Pools.Cut(dones, Free(s, p));
    && Queue(d, p) == queue[k..] && d.capacity == s.capacity
    && Count(d.leased, p) == Count(s.leased, p) + Pools.Live(dones, k)
    && forall i | k <= i < |queue| :: Waits(d, queue[i]) <==> Waits(s, queue[i])
  }

  // One waiter off the queue, and then the rest.
  lemma OneThenRest(s: State, next: State, d: State, p: string)
    requires Queue(s, p) != [] && Free(s, p) > 0 && ServesFirst(next, d, p) && next.capacity == s.capacity
    requires Queue(next, p) == Queue(s, p)[1..]
    requires forall i | 0 < i < |Queue(s, p)| :: Waits(next, Queue(s, p)[i]) <==> Waits(s, Queue(s, p)[i])
    requires Count(next.leased, p) == Count(s.leased, p) + (if Waits(s, Queue(s, p)[0]) then 1 else 0)
    ensures ServesFirst(s, d, p)
  {
    hide Waits;
    var queue, dones := Queue(s, p), Dones(s, Queue(s, p));
    assert Dones(next, Queue(next, p)) == dones[1..];
    Pools.LiveSplit(dones, Pools.Cut(dones, Free(s, p)));
    forall i | Pools.Cut(dones, Free(s, p)) <= i < |queue| ensures Waits(d, queue[i]) <==> Waits(s, queue[i]) {
      assert queue[i] == Queue(next, p)[i - 1];
    }
  }

  lemma {:induction false} DrainServesFirst(s: State, p: string)
    requires QueuesOk(s) && p in s.queues
    ensures ServesFirst(s, Drain(s, p), p)
    decreases |Queue(s, p)|
  {
    hide QueuesOk, ServesFirst, PlaceOk;
    var queue := Queue(s, p);
    if queue != [] && Free(s, p) > 0 {
      var popped := s.(queues := s.queues[p := queue[1..]]);
      if !Waits(s, queue[0]) {
        PopKeepsQueues(s, p);
        DrainServesFirst(popped, p);
        OneThenRest(s, popped, Drain(popped, p), p);
      } else {
        var served := Serve(popped, p, queue[0]);
        ServeKeepsQueues(s, p);
        DrainServesFirst(served, p);
        assert forall i | 0 < i < |queue| :: queue[i] == queue[1..][i - 1];
        OneThenRest(s, served, Drain(served, p), p);
      }
    } else {
      NoneServed(s, p);
    }
  }

  lemma NoneServed(s: State, p: string)
    requires Queue(s, p) == [] || Free(s, p) == 0
    ensures ServesFirst(s, s, p)
  {
  }

  // After the drain there is a free slot only if no waiter is left waiting, and then each
  // that was waiting was served.
  lemma DrainLeavesNoneWaiting(s: State, p: string)
    requires CountsOk(s) && QueuesOk(s) && p in s.capacity
    ensures var served := Count(Drain(s, p).leased, p) - Count(s.leased, p);
            var live := Pools.Live(Dones(s, Queue(s, p)), |Queue(s, p)|);
            served == if live <= Free(s, p) then live else Free(s, p)
    ensures Free(Drain(s, p), p) > 0 ==> Queue(Drain(s, p), p) == []
  {
    hide QueuesOk;
    DrainServesFirst(s, p);
    DrainCounts(s, p);
    Pools.DrainIsPrefix(Dones(s, Queue(s, p)), Free(s, p));
  }

  // A change that leaves every place in a queue as good as it was.
  predicate SamePlaces(s: State, s': State) {
    && s'.queues == s.queues && |s.waits| <= |s'.waits| && |s.slots| <= |s'.slots|
    && (forall l | 0 <= l < |s.slots| :: s'.slots[l].pool == s.slots[l].pool)
    && (forall w | 0 <= w < |s.waits| && s.waits[w].stage in {Queued, Closed} ::
          && s'.waits[w].lease == s.waits[w].lease
          && (s'.waits[w].stage == s.waits[w].stage || s'.waits[w].stage == Closed))
  }

  lemma QueuesKept(s: State, s': State)
    requires QueuesOk(s) && SamePlaces(s, s')
    ensures QueuesOk(s')
  {
    forall p, k | p in s'.queues && 0 <= k < |s'.queues[p]| ensures PlaceOk(s', p, s'.queues[p][k]) {
      assert PlaceOk(s, p, s.queues[p][k]);
    }
    forall p, j, k | p in s'.queues && 0 <= j < k < |s'.queues[p]|
      ensures s'.queues[p][j] != s'.queues[p][k] || !Waits(s', s'.queues[p][j])
    {
      assert PlaceOk(s, p, s.queues[p][j]);
      assert s.queues[p][j] != s.queues[p][k] || !Waits(s, s.queues[p][j]);
    }
  }

  // ------------------------------------------------------------------------
  // Several slots at once
  // ------------------------------------------------------------------------

  lemma {:induction false} ReserveAllOwners(s: State, p: string, reserved: seq<nat>, n: nat)
    requires OwnersAt(s, reserved)
    ensures OwnersAt(AcquireAll(s, p, n), reserved + NewSlots(|s.slots|, n))
    decreases n
  {
    hide OwnersAt;
    if n == 0 {
      assert reserved + NewSlots(|s.slots|, 0) == reserved;
    } else {
      var s1 := Acquire(s, p, None);
      ReserveOwners(s, p, reserved);
      ReserveAllOwners(s1, p, reserved + [|s.slots|], n - 1);
      assert reserved + [|s.slots|] + NewSlots(|s1.slots|, n - 1) == reserved + NewSlots(|s.slots|, n);
    }
  }

  lemma {:induction false} AcquireAllAdds(s: State, p: string, n: nat)
    ensures var s' := AcquireAll(s, p, n);
            && |s'.slots| == |s.slots| + n && s'.slots[..|s.slots|] == s.slots
            && (forall l | |s.slots| <= l < |s'.slots| :: s'.slots[l] == Slot(p, false, None))
            && s' == s.(slots := s'.slots, leased := s'.leased)
    decreases n
  {
    if n > 0 {
      var s1 := Acquire(s, p, None);
      AcquireAllAdds(s1, p, n - 1);
      assert AcquireAll(s, p, n).slots[..|s.slots|] == AcquireAll(s, p, n).slots[..|s1.slots|][..|s.slots|];
      assert AcquireAll(s, p, n).slots[|s.slots|] == AcquireAll(s, p, n).slots[..|s1.slots|][|s.slots|];
    }
  }

  lemma {:induction false} SpawnAllOwners(s: State, rows: seq<Row>, slots: seq<nat>)
    requires OwnersAt(s, slots) && |rows| <= |slots|
    ensures OwnersAt(SpawnAll(s, rows, slots), slots[|rows|..])
    decreases |rows|
  {
    hide OwnersAt;
    if rows != [] {
      SpawnOwners(s, rows[0], slots);
      SpawnAllOwners(Spawn(s, rows[0], slots[0]), rows[1..], slots[1..]);
      assert slots[1..][|rows[1..]|..] == slots[|rows|..];
    }
  }

  lemma {:induction false} ReleaseAllOwners(s: State, ids: seq<nat>)
    requires OwnersAt(s, ids)
    ensures OwnersAt(ReleaseAll(s, ids), [])
    decreases |ids|
  {
    hide OwnersAt;
    if ids != [] {
      UnreserveOwners(s, ids);
      ReleaseAllOwners(Release(s, ids[0]), ids[1..]);
    }
  }

  // Giving slots back touches nothing but that they are out.
  predicate OnlySlots(s: State, s': State) {
    && |s'.slots| == |s.slots|
    && (forall l | 0 <= l < |s.slots| :: s'.slots[l] == s.slots[l].(released := s'.slots[l].released))
    && s' == s.(slots := s'.slots, leased := s'.leased)
  }

  lemma {:induction false} ReleaseAllTouches(s: State, ids: seq<nat>)
    ensures OnlySlots(s, ReleaseAll(s, ids))
    decreases |ids|
  {
    if ids != [] {
      ReleaseAllTouches(Release(s, ids[0]), ids[1..]);
    }
  }

  // The slots a reap gives back: the first slots of the live attempts that are over.
  predicate Reaped(s: State, upto: nat, l: nat) {
    exists a :: a in s.live && a < upto && Over(s, a) && s.attempts[a].first == l
  }

  lemma {:induction false} ReleaseEndedSlots(s: State, upto: nat)
    requires upto <= |s.attempts|
    ensures OnlySlots(s, ReleaseEnded(s, upto))
    ensures forall l: nat | l < |s.slots| ::
              ReleaseEnded(s, upto).slots[l] == if Reaped(s, upto, l) then s.slots[l].(released := true) else s.slots[l]
  {
    if upto > 0 {
      ReleaseEndedSlots(s, upto - 1);
      var a := upto - 1;
      forall l: nat | l < |s.slots|
        ensures Reaped(s, upto, l) <==>
            Reaped(s, upto - 1, l) || (a in s.live && Over(s, a) && s.attempts[a].first == l)
      {
        if Reaped(s, upto, l) {
          var b :| b in s.live && b < upto && Over(s, b) && s.attempts[b].first == l;
          assert b < upto - 1 ==> Reaped(s, upto - 1, l);
        }
        if Reaped(s, upto - 1, l) {
          var b :| b in s.live && b < upto - 1 && Over(s, b) && s.attempts[b].first == l;
          assert Reaped(s, upto, l);
        }
      }
    }
  }

  // A reaped slot is the first of an attempt that is over.
  lemma ReapedIs(s: State, reserved: seq<nat>, l: nat)
    requires OwnersAt(s, reserved) && Reaped(s, |s.attempts|, l)
    ensures l < |s.slots| && s.slots[l].attempt.Some?
    ensures var a := s.slots[l].attempt.value;
            a in s.live && Over(s, a) && s.attempts[a].first == l
    ensures forall w: nat | w < |s.waits| :: s.waits[w].stage != Served(l)
  {
    var a :| a in s.live && a < |s.attempts| && Over(s, a) && s.attempts[a].first == l;
    AttemptIsOk(s, reserved, a);
  }

  lemma ReapOwners(s: State, reserved: seq<nat>)
    requires OwnersAt(s, reserved)
    ensures OwnersAt(Reap(s), reserved)
  {
    hide Reaped;
    var s' := Reap(s);
    ReleaseEndedSlots(s, |s.attempts|);
    forall l: nat | Reaped(s, |s.attempts|, l)
      ensures l < |s.slots| && s.slots[l].attempt.Some? && forall w: nat | w < |s.waits| ::
          s.waits[w].stage != Served(l)
    {
      ReapedIs(s, reserved, l);
    }
    forall a: nat | a < |s'.attempts| ensures AttemptOk(s', a) {
      assert AttemptOk(s, a);
      OverIsReaped(s, a);
    }
    forall w: nat | w < |s'.waits| ensures WaitOk(s', w) {
      assert WaitOk(s, w);
    }
    forall l: nat | l < |s'.slots| ensures SlotOk(s', l) {
      assert SlotOk(s, l);
    }
    assert ReservedOk(s', reserved) by {
      forall l: nat | IsOut(s', l) && s'.slots[l].attempt == None ensures l in reserved {
        assert IsOut(s, l);
      }
      forall k | 0 <= k < |reserved| ensures IsOut(s', reserved[k]) && s'.slots[reserved[k]].attempt == None {
        assert IsOut(s, reserved[k]);
      }
    }
  }

  lemma OverIsReaped(s: State, a: nat)
    requires a < |s.attempts|
    ensures a in s.live && Over(s, a) ==> Reaped(s, |s.attempts|, s.attempts[a].first)
  {
  }
}
