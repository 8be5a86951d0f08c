/** What every interleaving of `Dispatch` keeps: slots are counted, waiters come first,
    reservation is strict, the two ledgers agree, and an unregistration is complete. */
module Capacity {
  import opened Base
  import opened Claims
  import opened Dispatch
  import opened Slots

  // ------------------------------------------------------------------------
  // The ledgers, the bindings, and those who leave
  // ------------------------------------------------------------------------

  // A claim in progress is for the workflows its pool has.
  predicate TurnOk(s: State) {
    match s.turn
    case Between => true
    case Dispatching(todo) => forall i | 0 <= i < |todo| :: todo[i] in s.capacity
    case Claiming(p, slots, workflows, todo) =>
      && p in s.capacity && (forall i | 0 <= i < |todo| :: todo[i] in s.capacity)
      && (forall i | 0 <= i < |slots| :: slots[i] < |s.slots| && s.slots[slots[i]].pool == p)
      && (forall w | w in workflows :: w in s.bindings && s.bindings[w] == p)
  }

  // Every entry is a live attempt of that task.
  predicate LedgerOk(s: State) {
    && (forall a | a in s.live :: a < |s.attempts|)
    && forall t | t in s.entries :: s.entries[t] in s.live && s.attempts[s.entries[t]].task == t
  }

  // Every attempt that runs and is not doomed was dispatched from the pool its workflow is
  // bound to; pools and workflows are apart.
  predicate BoundOk(s: State) {
    && (forall w | w in s.bindings :: s.bindings[w] in s.capacity && w !in s.capacity)
    && forall a | a in s.live && Alive(s, a) && !s.attempts[a].doomed :: AttemptBound(s, a)
  }

  predicate AttemptBound(s: State, a: nat)
    requires a < |s.attempts|
  {
    && s.attempts[a].workflow in s.bindings && s.attempts[a].first < |s.slots|
    && s.bindings[s.attempts[a].workflow] == s.slots[s.attempts[a].first].pool
  }

  // An unregistration waits for every attempt of the workflow that still runs, as long as
  // the name is not registered again.
  predicate LeavingOk(s: State) {
    forall k | 0 <= k < |s.leaving| :: LeavesOk(s, s.leaving[k])
  }

  predicate LeavesOk(s: State, leaving: Leaving) {
    && (forall a | a in leaving.waiting :: a < |s.attempts|)
    && (!leaving.rebound ==>
          && leaving.workflow !in s.bindings
          && forall a | a in s.live && Alive(s, a) && s.attempts[a].workflow == leaving.workflow ::
              a in leaving.waiting)
  }

  predicate BooksOk(s: State) {
    TurnOk(s) && LedgerOk(s) && BoundOk(s) && LeavingOk(s)
  }

  // A change to attempts that starts none and moves none.
  predicate Quieter(s: State, s': State) {
    && |s'.attempts| == |s.attempts| && s'.live <= s.live
    && (forall a | 0 <= a < |s.attempts| ::
          && s'.attempts[a].task == s.attempts[a].task && s'.attempts[a].workflow == s.attempts[a].workflow
          && s'.attempts[a].first == s.attempts[a].first
          && (s.attempts[a].doomed ==> s'.attempts[a].doomed)
          && (s.attempts[a].phase.Ended? ==> s'.attempts[a].phase.Ended?))
    && |s.slots| <= |s'.slots| && (forall l | 0 <= l < |s.slots| :: s'.slots[l].pool == s.slots[l].pool)
  }

  lemma QuieterBound(s: State, s': State)
    requires BoundOk(s) && Quieter(s, s') && s'.bindings == s.bindings && s'.capacity == s.capacity
    ensures BoundOk(s')
  {
    forall a | a in s'.live && Alive(s', a) && !s'.attempts[a].doomed ensures AttemptBound(s', a) {
      assert Alive(s, a) && AttemptBound(s, a);
    }
  }

  lemma QuieterLeaving(s: State, s': State)
    requires LeavingOk(s) && Quieter(s, s') && s'.bindings == s.bindings && s'.leaving == s.leaving
    ensures LeavingOk(s')
  {
    forall k | 0 <= k < |s'.leaving| ensures LeavesOk(s', s'.leaving[k]) {
      assert LeavesOk(s, s.leaving[k]);
      forall a | a in s'.live && Alive(s', a) ensures a in s.live && Alive(s, a) {
      }
    }
  }

  lemma QuieterLedger(s: State, s': State)
    requires LedgerOk(s) && Quieter(s, s') && s'.entries == s.entries && s'.live == s.live
    ensures LedgerOk(s')
  {
  }

  // The books of a state that differs in no attempt's place, no binding and no turn.
  lemma QuieterBooks(s: State, s': State)
    requires BooksOk(s) && Quieter(s, s') && s'.entries == s.entries && s'.live == s.live && s'.turn == s.turn
    requires s'.bindings == s.bindings && s'.capacity == s.capacity && s'.leaving == s.leaving
    ensures BooksOk(s')
  {
    hide LedgerOk, BoundOk, LeavingOk;
    QuieterLedger(s, s');
    QuieterBound(s, s');
    QuieterLeaving(s, s');
  }

  lemma SpawnBooks(s: State, row: Row, slot: nat)
    requires LedgerOk(s) && BoundOk(s) && LeavingOk(s)
    requires slot < |s.slots| && row.workflow in s.bindings && s.bindings[row.workflow] == s.slots[slot].pool
    ensures LedgerOk(Spawn(s, row, slot)) && BoundOk(Spawn(s, row, slot)) && LeavingOk(Spawn(s, row, slot))
  {
    var s', n := Spawn(s, row, slot), |s.attempts|;
    assert n !in s.live;
    forall a | a in s'.live && Alive(s', a) && !s'.attempts[a].doomed ensures AttemptBound(s', a) {
      if a < n {
        assert Alive(s, a) && AttemptBound(s, a);
      }
    }
    forall k | 0 <= k < |s'.leaving| ensures LeavesOk(s', s'.leaving[k]) {
      assert LeavesOk(s, s.leaving[k]);
      forall a | a in s'.live && Alive(s', a) && a < n ensures a in s.live && Alive(s, a) {
      }
    }
  }

  lemma {:induction false} SpawnAllBooks(s: State, rows: seq<Row>, slots: seq<nat>, p: string)
    requires LedgerOk(s) && BoundOk(s) && LeavingOk(s) && |rows| <= |slots|
    requires forall i | 0 <= i < |slots| :: slots[i] < |s.slots| && s.slots[slots[i]].pool == p
    requires forall i | 0 <= i < |rows| :: rows[i].workflow in s.bindings && s.bindings[rows[i].workflow] == p
    ensures LedgerOk(SpawnAll(s, rows, slots)) && BoundOk(SpawnAll(s, rows, slots))
        && LeavingOk(SpawnAll(s, rows, slots))
    decreases |rows|
  {
    hide LedgerOk, BoundOk, LeavingOk;
    if rows != [] {
      SpawnBooks(s, rows[0], slots[0]);
      SpawnAllBooks(Spawn(s, rows[0], slots[0]), rows[1..], slots[1..], p);
    }
  }

  lemma {:induction false} SpawnAllStarts(s: State, rows: seq<Row>, slots: seq<nat>)
    requires |rows| <= |slots|
    ensures |SpawnAll(s, rows, slots).attempts| == |s.attempts| + |rows|
    ensures forall a | 0 <= a < |s.attempts| :: SpawnAll(s, rows, slots).attempts[a] == s.attempts[a]
    ensures forall i | 0 <= i < |rows| ::
              SpawnAll(s, rows, slots).attempts[|s.attempts| + i] ==
                Attempt(rows[i].task, rows[i].workflow, slots[i], slots[i], false, Loading, false)
    ensures s.live <= SpawnAll(s, rows, slots).live
    decreases |rows|
  {
    if rows != [] {
      SpawnAllStarts(Spawn(s, rows[0], slots[0]), rows[1..], slots[1..]);
      var s' := SpawnAll(s, rows, slots);
      forall i | 0 <= i < |rows|
        ensures s'.attempts[|s.attempts| + i] == Attempt(rows[i].task, rows[i].workflow, slots[i], slots[i], false,
            Loading, false)
      {
        assert i > 0 ==> rows[i] == rows[1..][i - 1] && slots[i] == slots[1..][i - 1];
        assert i > 0 ==> s'.attempts[|s.attempts| + 1 + (i - 1)] == s'.attempts[|s.attempts| + i];
      }
    }
  }

  // ------------------------------------------------------------------------
  // Every step
  // ------------------------------------------------------------------------

  ghost predicate Inv(s: State) {
    CountsOk(s) && OwnersAt(s, Reserved(s.turn)) && QueuesOk(s) && BooksOk(s)
  }

  lemma PoolTurnKeeps(s: State, a: Step)
    requires Inv(s) && Enabled(s, a) && a.PoolTurn?
    ensures Inv(Next(s, a))
  {
    hide CountsOk, OwnersAt, QueuesOk, LedgerOk, BoundOk, LeavingOk, Drain, AcquireAll, Free;
    var p, todo := s.turn.todo[0], s.turn.todo[1..];
    PoolHasQueue(s, p);
    TurnCounts(s, p, todo);
    TurnOwners(s, p, todo);
    TurnBooks(s, p, todo);
  }

  lemma TurnBooks(s: State, p: string, todo: seq<string>)
    requires OwnersAt(s, []) && QueuesOk(s) && BooksOk(s) && s.turn == Dispatching([p] + todo) && p in s.queues
    ensures BooksOk(TakeTurn(s, p, todo))
  {
    hide OwnersAt, QueuesOk, LedgerOk, BoundOk, LeavingOk, Drain, AcquireAll, Free;
    DrainOwners(s, p, []);
    var drained, s' := Drain(s, p), TakeTurn(s, p, todo);
    AcquireAllAdds(drained, p, Free(drained, p));
    assert forall i | 0 <= i < |todo| :: ([p] + todo)[i + 1] == todo[i];
    assert ([p] + todo)[0] == p;
    assert forall l | 0 <= l < |s.slots| :: s'.slots[l] == s'.slots[..|drained.slots|][..|s.slots|][l];
    QuieterLedger(s, s');
    QuieterBound(s, s');
    QuieterLeaving(s, s');
  }

  lemma TurnOwners(s: State, p: string, todo: seq<string>)
    requires OwnersAt(s, []) && QueuesOk(s) && p in s.queues
    ensures var s' := TakeTurn(s, p, todo);
            && OwnersAt(s', Reserved(s'.turn)) && QueuesOk(s')
  {
    hide OwnersAt, QueuesOk, Drain, AcquireAll, Free;
    DrainOwners(s, p, []);
    var drained := Drain(s, p);
    var n := Free(drained, p);
    ReserveAllOwners(drained, p, [], n);
    AcquireAllAdds(drained, p, n);
    assert [] + NewSlots(|drained.slots|, n) == NewSlots(|drained.slots|, n);
    var reserved := AcquireAll(drained, p, n);
    var s' := TakeTurn(s, p, todo);
    assert forall l | 0 <= l < |drained.slots| :: reserved.slots[l] == reserved.slots[..|drained.slots|][l];
    if s'.turn.Claiming? {
      MildOwners(reserved, s', NewSlots(|drained.slots|, n));
      QueuesKept(drained, s');
    } else {
      MildOwners(drained, s', []);
      QueuesKept(drained, s');
    }
  }

  // The slots a claim leaves over go back, and the claimed rows have the others.
  lemma ClaimedKeeps(s: State, a: Step)
    requires Inv(s) && Enabled(s, a) && a.Claimed?
    ensures Inv(Next(s, a))
  {
    hide CountsOk, OwnersAt, QueuesOk, LedgerOk, BoundOk, LeavingOk, SpawnAll, ReleaseAll;
    var slots, rows := s.turn.slots, Taken(a.ready, |s.turn.slots|);
    var spawned := SpawnAll(s, rows, slots);
    var s' := Next(s, a);
    SpawnAllKeepsSlots(s, rows, slots);
    SameCounts(s, spawned);
    ReleaseAllCounts(spawned, slots[|rows|..]);
    SpawnAllOwners(s, rows, slots);
    ReleaseAllOwners(spawned, slots[|rows|..]);
    ReleaseAllTouches(spawned, slots[|rows|..]);
    SpawnAllBooks(s, rows, slots, s.turn.pool);
    var released := ReleaseAll(spawned, slots[|rows|..]);
    SameCounts(released, s');
    MildOwners(released, s', []);
    QueuesKept(s, s');
    assert Quieter(spawned, s');
    QuieterLedger(spawned, s');
    QuieterBound(spawned, s');
    QuieterLeaving(spawned, s');
  }

  lemma UnclaimedKeeps(s: State, a: Step)
    requires Inv(s) && Enabled(s, a) && (a.ClaimFailed? || a.Stop? || a.TickEnd?)
    ensures Inv(Next(s, a))
  {
    hide CountsOk, OwnersAt, QueuesOk, LedgerOk, BoundOk, LeavingOk, ReleaseAll;
    var s' := Next(s, a);
    var slots := Reserved(s.turn);
    ReleaseAllCounts(s, slots);
    ReleaseAllOwners(s, slots);
    ReleaseAllTouches(s, slots);
    NothingReleased(s);
    var released := ReleaseAll(s, slots);
    SameCounts(released, s');
    MildOwners(released, s', []);
    QueuesKept(s, s');
    QuieterLedger(s, s');
    QuieterBound(s, s');
    QuieterLeaving(s, s');
  }

  lemma NothingReleased(s: State)
    ensures ReleaseAll(s, []) == s
  {
  }

  // ------------------------------------------------------------------------
  // The steps of an attempt and of its waits
  // ------------------------------------------------------------------------

  predicate OfAttempt(a: Step) {
    a.Enter? || a.Suspend? || a.Ask? || a.Receive? || a.Abandon? || a.End? || OfPhase(a)
  }

  // Those that move an attempt on and touch nothing else.
  predicate OfPhase(a: Step) {
    a.Begin? || a.Close? || a.Cut? || a.EndUnbegun?
  }

  // They leave the rest of the state alone, but for the end of one queue.
  predicate AttemptOnly(s: State, s': State) {
    && Quieter(s, s') && |s'.slots| == |s.slots| && s'.live == s.live && s'.entries == s.entries
    && s'.bindings == s.bindings && s'.leaving == s.leaving && s'.capacity == s.capacity && s'.turn == s.turn
  }

  lemma ReleaseTouches(s: State, l: nat)
    ensures OnlySlots(s, Release(s, l))
  {
  }

  // The steps that give no slot back.
  lemma PhaseTouches(s: State, a: Step)
    requires Enabled(s, a) && (a.Enter? || OfPhase(a))
    ensures AttemptOnly(s, Next(s, a)) && SamePlaces(s, Next(s, a))
  {
  }

  lemma ResumeTouches(s: State, a: Step)
    requires Enabled(s, a) && a.Receive?
    ensures AttemptOnly(s, Next(s, a)) && SamePlaces(s, Next(s, a))
  {
  }

  lemma AskTouches(s: State, a: Step)
    requires Enabled(s, a) && a.Ask?
    ensures AttemptOnly(s, Next(s, a))
  {
  }

  // One thing after the other.
  lemma TouchesThen(s: State, t: State, u: State)
    requires AttemptOnly(s, t) && SamePlaces(s, t) && AttemptOnly(t, u) && SamePlaces(t, u)
    ensures AttemptOnly(s, u) && SamePlaces(s, u)
  {
  }

  lemma FlagTouches(s: State, a: nat, waiting: bool)
    ensures AttemptOnly(s, SetWaiting(s, a, waiting)) && SamePlaces(s, SetWaiting(s, a, waiting))
  {
    hide AttemptOnly, SamePlaces, SetWaiting;
    FlagIs(s, a, waiting);
    FlagAlike(s, SetWaiting(s, a, waiting));
  }

  lemma FlagIs(s: State, a: nat, waiting: bool)
    ensures var s' := SetWaiting(s, a, waiting);
            && s' == s.(attempts := s'.attempts) && |s'.attempts| == |s.attempts|
            && forall b | 0 <= b < |s.attempts| :: s'.attempts[b] == s.attempts[b].(waiting := s'.attempts[b].waiting)
  {
  }

  lemma FlagAlike(s: State, s': State)
    requires s' == s.(attempts := s'.attempts) && |s'.attempts| == |s.attempts|
    requires forall b | 0 <= b < |s.attempts| :: s'.attempts[b] == s.attempts[b].(waiting := s'.attempts[b].waiting)
    ensures AttemptOnly(s, s') && SamePlaces(s, s')
  {
  }

  lemma ReleasePlaces(s: State, l: nat)
    ensures AttemptOnly(s, Release(s, l)) && SamePlaces(s, Release(s, l))
  {
    ReleaseTouches(s, l);
  }

  lemma StageTouches(s: State, w: nat, stage: Stage)
    requires w < |s.waits| && (stage == Closed || s.waits[w].stage !in {Queued, Closed})
    ensures AttemptOnly(s, SetStage(s, w, stage)) && SamePlaces(s, SetStage(s, w, stage))
  {
  }

  lemma SuspendTouches(s: State, a: Step)
    requires Enabled(s, a) && a.Suspend?
    ensures AttemptOnly(s, Next(s, a)) && SamePlaces(s, Next(s, a))
  {
    hide AttemptOnly, SamePlaces, Release;
    var v := s.waits[a.w];
    var raised := SetWaiting(s, v.attempt, true);
    var released := Release(raised, v.lease);
    FlagTouches(s, v.attempt, true);
    ReleasePlaces(raised, v.lease);
    TouchesThen(s, raised, released);
    ReleaseTouches(raised, v.lease);
    StageTouches(released, a.w, Open);
    TouchesThen(s, released, SetStage(released, a.w, Open));
  }

  lemma AbandonTouches(s: State, a: Step)
    requires Enabled(s, a) && a.Abandon?
    ensures AttemptOnly(s, Next(s, a)) && SamePlaces(s, Next(s, a))
  {
    hide AttemptOnly, SamePlaces, Release;
    var v := s.waits[a.w];
    if v.stage.Open? {
      FlagTouches(s, v.attempt, false);
      StageTouches(SetWaiting(s, v.attempt, false), a.w, Closed);
      TouchesThen(s, SetWaiting(s, v.attempt, false), Next(s, a));
    } else if v.stage.Served? {
      ReleasePlaces(s, v.stage.slot);
      ReleaseTouches(s, v.stage.slot);
      StageTouches(Release(s, v.stage.slot), a.w, Closed);
      TouchesThen(s, Release(s, v.stage.slot), Next(s, a));
    } else {
      StageTouches(s, a.w, Closed);
    }
  }

  // What an end gives back.
  function GivenBack(s: State, a: nat): State
    requires a < |s.attempts|
  {
    Release(Release(s, s.attempts[a].held), s.attempts[a].first)
  }

  lemma GivenBackTouches(s: State, a: nat)
    requires a < |s.attempts|
    ensures EndHeld(s, a) == GivenBack(s, a).(attempts := s.attempts[a := s.attempts[a].(phase := Ended(true))])
    ensures OnlySlots(s, GivenBack(s, a))
  {
    hide Release;
    var t := s.attempts[a];
    ReleaseTouches(s, t.held);
    ReleaseTouches(Release(s, t.held), t.first);
  }

  lemma EndTouches(s: State, a: Step)
    requires Enabled(s, a) && a.End?
    ensures AttemptOnly(s, Next(s, a)) && SamePlaces(s, Next(s, a))
  {
    hide Release, EndHeld, GivenBack;
    GivenBackTouches(s, a.a);
  }

  lemma AttemptTouches(s: State, a: Step)
    requires Enabled(s, a) && OfAttempt(a)
    ensures AttemptOnly(s, Next(s, a)) && (!a.Ask? ==> SamePlaces(s, Next(s, a)))
  {
    hide Enabled, Next, AttemptOnly, SamePlaces;
    if a.Suspend? {
      SuspendTouches(s, a);
    } else if a.Abandon? {
      AbandonTouches(s, a);
    } else if a.End? {
      EndTouches(s, a);
    } else if a.Ask? {
      AskTouches(s, a);
    } else if a.Receive? {
      ResumeTouches(s, a);
    } else {
      PhaseTouches(s, a);
    }
  }

  lemma EndCounts(s: State, a: Step)
    requires CountsOk(s) && Enabled(s, a) && a.End?
    ensures CountsOk(Next(s, a))
  {
    hide CountsOk, Release;
    var t := s.attempts[a.a];
    ReleaseCounts(s, t.held);
    ReleaseCounts(Release(s, t.held), t.first);
    GivenBackTouches(s, a.a);
    SameCounts(GivenBack(s, a.a), Next(s, a));
  }

  lemma WaitCounts(s: State, a: Step)
    requires CountsOk(s) && Enabled(s, a) && (a.Suspend? || a.Abandon?)
    ensures CountsOk(Next(s, a))
  {
    hide CountsOk, Release;
    var s' := Next(s, a);
    if a.Suspend? {
      var raised := SetWaiting(s, s.waits[a.w].attempt, true);
      SameCounts(s, raised);
      ReleaseCounts(raised, s.waits[a.w].lease);
      SameCounts(Release(raised, s.waits[a.w].lease), s');
    } else if s.waits[a.w].stage.Served? {
      ReleaseCounts(s, s.waits[a.w].stage.slot);
      SameCounts(Release(s, s.waits[a.w].stage.slot), s');
    } else {
      SameCounts(s, s');
    }
  }

  lemma AttemptCounts(s: State, a: Step)
    requires CountsOk(s) && Enabled(s, a) && (a.Enter? || a.Receive? || OfPhase(a))
    ensures CountsOk(Next(s, a))
  {
    hide CountsOk;
    SameCounts(s, Next(s, a));
  }

  lemma AttemptOwners(s: State, a: Step, reserved: seq<nat>)
    requires OwnersAt(s, reserved) && Enabled(s, a) && OfAttempt(a)
    ensures OwnersAt(Next(s, a), reserved)
  {
    hide OwnersAt;
    if a.Enter? {
      EnterOwners(s, a, reserved);
    } else if a.Suspend? {
      SuspendOwners(s, a, reserved);
    } else if a.Receive? {
      ReceiveOwners(s, a, reserved);
    } else if a.Abandon? {
      DroppedOwners(s, a.w, reserved);
    } else if a.End? {
      EndOwners(s, a, reserved);
    } else {
      MildOwners(s, Next(s, a), reserved);
    }
  }

  lemma AttemptStepKeeps(s: State, a: Step)
    requires Inv(s) && Enabled(s, a) && OfAttempt(a) && !a.Ask?
    ensures Inv(Next(s, a))
  {
    hide CountsOk, OwnersAt, QueuesOk, BooksOk, Enabled, Next, Quieter, SamePlaces;
    var s' := Next(s, a);
    if a.End? {
      EndCounts(s, a);
    } else if a.Suspend? || a.Abandon? {
      WaitCounts(s, a);
    } else {
      AttemptCounts(s, a);
    }
    AttemptTouches(s, a);
    AttemptOwners(s, a, Reserved(s.turn));
    QueuesKept(s, s');
    QuieterBooks(s, s');
  }

  lemma AskKeeps(s: State, a: Step)
    requires Inv(s) && Enabled(s, a) && a.Ask?
    ensures Inv(Next(s, a))
  {
    hide CountsOk, OwnersAt, QueuesOk, BooksOk, Quieter;
    var s' := Next(s, a);
    WaitIsOk(s, Reserved(s.turn), a.w);
    var p := s.slots[s.waits[a.w].lease].pool;
    SlotsHavePools(s, s.waits[a.w].lease);
    PoolHasQueue(s, p);
    assert s'.queues.Keys == s.queues.Keys;
    SameCounts(s, s');
    AttemptOwners(s, a, Reserved(s.turn));
    AskQueues(s, a.w, p);
    AttemptTouches(s, a);
    QuieterBooks(s, s');
  }

  lemma SlotsHavePools(s: State, l: nat)
    requires CountsOk(s) && l < |s.slots|
    ensures s.slots[l].pool in s.capacity
  {
  }

  // An answered wait joins at the end of its pool's queue.
  lemma AskQueues(s: State, w: nat, p: string)
    requires QueuesOk(s) && p in s.queues && w < |s.waits| && s.waits[w].stage == Open
    requires s.waits[w].lease < |s.slots| && s.slots[s.waits[w].lease].pool == p
    ensures QueuesOk(SetStage(SetWaiting(s, s.waits[w].attempt, false), w,
        Queued).(queues := s.queues[p := Queue(s, p) + [w]]))
  {
    var s' := SetStage(SetWaiting(s, s.waits[w].attempt, false), w,
        Queued).(queues := s.queues[p := Queue(s, p) + [w]]);
    forall q, k | q in s.queues && 0 <= k < |s.queues[q]|
      ensures PlaceOk(s', q, s.queues[q][k]) && s.queues[q][k] != w
    {
      assert PlaceOk(s, q, s.queues[q][k]);
    }
    forall q, j, k | q in s'.queues && 0 <= j < k < |s'.queues[q]|
      ensures s'.queues[q][j] != s'.queues[q][k] || !Waits(s', s'.queues[q][j])
    {
      if k < |s.queues[q]| {
        WaitsOnce(s, q, j, k);
      }
    }
  }

  // ------------------------------------------------------------------------
  // Ticks and the registry
  // ------------------------------------------------------------------------

  lemma ReapBooks(s: State)
    requires OwnersAt(s, Reserved(s.turn)) && QueuesOk(s) && BooksOk(s)
    ensures QueuesOk(Reap(s)) && BooksOk(Reap(s)) && Quieter(s, Reap(s))
  {
    hide OwnersAt, QueuesOk, BoundOk, LeavingOk;
    ReleaseEndedSlots(s, |s.attempts|);
    var s' := Reap(s);
    QueuesKept(s, s');
    QuieterBound(s, s');
    QuieterLeaving(s, s');
  }

  lemma TickKeeps(s: State, a: Step)
    requires Inv(s) && Enabled(s, a) && a.Tick?
    ensures Inv(Next(s, a))
  {
    hide CountsOk, OwnersAt, QueuesOk, LedgerOk, BoundOk, LeavingOk, Reap;
    var reaped, s' := Reap(s), Next(s, a);
    ReapCounts(s);
    ReapOwners(s, []);
    ReapBooks(s);
    ReapTouches(s);
    SameCounts(reaped, s');
    MildOwners(reaped, s', []);
    QueuesKept(reaped, s');
    QuieterLedger(reaped, s');
    QuieterBound(reaped, s');
    QuieterLeaving(reaped, s');
  }

  lemma ReapTouches(s: State)
    ensures Reap(s).capacity == s.capacity && Reap(s).turn == s.turn && Reap(s).leaving == s.leaving
    ensures Reap(s).bindings == s.bindings && Reap(s).queues == s.queues && Reap(s).attempts == s.attempts
    ensures Reap(s).waits == s.waits && |Reap(s).slots| == |s.slots|
  {
    ReleaseEndedSlots(s, |s.attempts|);
  }

  lemma LeftKeeps(s: State, a: Step)
    requires Inv(s) && Enabled(s, a) && a.UnregisterDone?
    ensures Inv(Next(s, a))
  {
    hide CountsOk, OwnersAt, QueuesOk, LedgerOk, BoundOk, Reap, LeavesOk;
    var reaped, s' := Reap(s), Next(s, a);
    ReapCounts(s);
    ReapOwners(s, Reserved(s.turn));
    ReapBooks(s);
    ReapTouches(s);
    SameCounts(reaped, s');
    MildOwners(reaped, s', Reserved(s.turn));
    QueuesKept(reaped, s');
    QuieterLedger(reaped, s');
    QuieterBound(reaped, s');
    forall k | 0 <= k < |s'.leaving| ensures LeavesOk(s', s'.leaving[k]) {
      var was := if k < a.k then k else k + 1;
      assert s'.leaving[k] == reaped.leaving[was];
      SameLeaves(reaped, s', reaped.leaving[was]);
    }
  }

  lemma SameLeaves(s: State, s': State, leaving: Leaving)
    requires LeavesOk(s, leaving) && s'.attempts == s.attempts && s'.live == s.live && s'.bindings == s.bindings
    ensures LeavesOk(s', leaving)
  {
  }

  lemma RegisterKeeps(s: State, a: Step)
    requires Inv(s) && Enabled(s, a) && a.Register?
    ensures Inv(Next(s, a))
  {
    hide CountsOk, OwnersAt, QueuesOk, BooksOk, Enabled;
    RegisterCounts(s, a);
    MildOwners(s, Next(s, a), Reserved(s.turn));
    RegisterQueues(s, a);
    RegisterBooks(s, a);
  }

  lemma RegisterBooks(s: State, a: Step)
    requires BooksOk(s) && Enabled(s, a) && a.Register?
    ensures BooksOk(Next(s, a))
  {
    hide LedgerOk, BoundOk, LeavingOk;
    var s' := Next(s, a);
    QuieterLedger(s, s');
    RegisterBound(s, a);
    RegisterLeaving(s, a);
  }

  lemma RegisterBound(s: State, a: Step)
    requires BoundOk(s) && Enabled(s, a) && a.Register?
    ensures BoundOk(Next(s, a))
  {
    hide AttemptBound;
    var s' := Next(s, a);
    forall i | i in s'.live && Alive(s', i) && !s'.attempts[i].doomed ensures AttemptBound(s', i) {
      BoundStays(s, s', i);
    }
  }

  lemma RegisterLeaving(s: State, a: Step)
    requires LeavingOk(s) && Enabled(s, a) && a.Register?
    ensures LeavingOk(Next(s, a))
  {
    hide LeavesOk;
    forall k | 0 <= k < |Next(s, a).leaving| ensures LeavesOk(Next(s, a), Next(s, a).leaving[k]) {
      RegisterLeaves(s, a, k);
    }
  }

  lemma RegisterCounts(s: State, a: Step)
    requires CountsOk(s) && Enabled(s, a) && a.Register?
    ensures CountsOk(Next(s, a))
  {
    var s' := Next(s, a);
    forall p | p in s.capacity ensures Out(s', p) == Out(s, p) {
    }
    if a.pool !in s.capacity {
      assert Out(s', a.pool) == {};
    }
  }

  lemma RegisterQueues(s: State, a: Step)
    requires CountsOk(s) && QueuesOk(s) && Enabled(s, a) && a.Register?
    ensures QueuesOk(Next(s, a))
  {
    var s' := Next(s, a);
    forall p, k | p in s'.queues && 0 <= k < |s'.queues[p]| ensures PlaceOk(s', p, s'.queues[p][k]) {
      assert PlaceOk(s, p, s.queues[p][k]);
    }
    forall p, j, k | p in s'.queues && 0 <= j < k < |s'.queues[p]|
      ensures s'.queues[p][j] != s'.queues[p][k] || !Waits(s', s'.queues[p][j])
    {
      WaitsOnce(s, p, j, k);
    }
  }

  lemma BoundStays(s: State, s': State, a: nat)
    requires BoundOk(s) && s'.attempts == s.attempts && s'.slots == s.slots && a in s.live && Alive(s, a)
        && !s.attempts[a].doomed
    requires forall w | w in s.bindings :: w in s'.bindings && s'.bindings[w] == s.bindings[w]
    ensures AttemptBound(s', a)
  {
    assert AttemptBound(s, a);
  }

  lemma RegisterLeaves(s: State, a: Step, k: nat)
    requires LeavingOk(s) && Enabled(s, a) && a.Register? && k < |s.leaving|
    ensures LeavesOk(Next(s, a), Next(s, a).leaving[k])
  {
    assert LeavesOk(s, s.leaving[k]);
    var s' := Next(s, a);
    forall i | i in s'.live && Alive(s', i) ensures i in s.live && Alive(s, i) {
    }
  }

  // A move while nothing of the workflow runs strands no slot.
  lemma RebindKeeps(s: State, a: Step)
    requires Inv(s) && Enabled(s, a) && a.Rebind?
    ensures Inv(Next(s, a))
  {
    hide CountsOk, OwnersAt, QueuesOk;
    var s' := Next(s, a);
    SameCounts(s, s');
    MildOwners(s, s', []);
    QueuesKept(s, s');
    forall i | i in s'.live && Alive(s', i) && !s'.attempts[i].doomed ensures AttemptBound(s', i) {
      assert Alive(s, i) && AttemptBound(s, i);
      assert i in RunningOf(s, s.attempts[i].workflow);
    }
    forall k | 0 <= k < |s'.leaving| ensures LeavesOk(s', s'.leaving[k]) {
      assert LeavesOk(s, s.leaving[k]);
    }
  }

  lemma UnregisterKeeps(s: State, a: Step)
    requires Inv(s) && Enabled(s, a) && a.Unregister?
    ensures Inv(Next(s, a))
  {
    hide CountsOk, OwnersAt, QueuesOk, BooksOk;
    var s' := Next(s, a);
    SameCounts(s, s');
    MildOwners(s, s', []);
    QueuesKept(s, s');
    UnregisterBooks(s, a);
  }

  lemma UnregisterBooks(s: State, a: Step)
    requires BooksOk(s) && Enabled(s, a) && a.Unregister?
    ensures BooksOk(Next(s, a))
  {
    hide AttemptBound, LeavesOk;
    var s' := Next(s, a);
    QuieterLedger(s, s');
    forall i | i in s'.live && Alive(s', i) && !s'.attempts[i].doomed ensures AttemptBound(s', i) {
      UnregisterBound(s, a, i);
    }
    forall k | 0 <= k < |s'.leaving| ensures LeavesOk(s', s'.leaving[k]) {
      UnregisterLeaves(s, a, k);
    }
  }

  lemma UnregisterBound(s: State, a: Step, i: nat)
    requires BoundOk(s) && Enabled(s, a) && a.Unregister?
    requires i in s.live && Alive(Next(s, a), i) && !Next(s, a).attempts[i].doomed
    ensures AttemptBound(Next(s, a), i)
  {
    assert Alive(s, i) && AttemptBound(s, i);
    assert i in RunningOf(s, s.attempts[i].workflow);
  }

  lemma UnregisterLeaves(s: State, a: Step, k: nat)
    requires LeavingOk(s) && LedgerOk(s) && Enabled(s, a) && a.Unregister? && k < |Next(s, a).leaving|
    ensures LeavesOk(Next(s, a), Next(s, a).leaving[k])
  {
    var s' := Next(s, a);
    forall i | i in s'.live && Alive(s', i)
      ensures i in s.live && Alive(s, i) && s'.attempts[i].workflow == s.attempts[i].workflow
    {
    }
    if k < |s.leaving| {
      assert LeavesOk(s, s.leaving[k]);
    }
  }

  lemma StepKeeps(s: State, a: Step)
    requires Inv(s) && Enabled(s, a)
    ensures Inv(Next(s, a))
  {
    hide Inv, Enabled, Next;
    match a
    case Tick(_) => TickKeeps(s, a);
    case PoolTurn => PoolTurnKeeps(s, a);
    case Claimed(_) => ClaimedKeeps(s, a);
    case ClaimFailed => UnclaimedKeeps(s, a);
    case TickEnd => UnclaimedKeeps(s, a);
    case Stop => UnclaimedKeeps(s, a);
    case Ask(_) => AskKeeps(s, a);
    case Register(_, _, _) => RegisterKeeps(s, a);
    case Rebind(_, _) => RebindKeeps(s, a);
    case Unregister(_) => UnregisterKeeps(s, a);
    case UnregisterDone(_) => LeftKeeps(s, a);
    case _ => AttemptStepKeeps(s, a);
  }

  lemma {:induction false} RunKeeps(s: State, trace: seq<Step>)
    requires Inv(s) && IsRun(s, trace)
    ensures Inv(EndOf(s, trace))
    decreases |trace|
  {
    hide Inv, Enabled, Next;
    if trace != [] {
      StepKeeps(s, trace[0]);
      RunKeeps(Next(s, trace[0]), trace[1..]);
    }
  }

  lemma Reachable(trace: seq<Step>)
    requires IsRun(Empty, trace)
    ensures Inv(EndOf(Empty, trace))
  {
    RunKeeps(Empty, trace);
  }

  // ------------------------------------------------------------------------
  // What holds in every run
  // ------------------------------------------------------------------------

  // Each pool's count is the number of its slots that are out, and within its capacity. A
  // slot that is out is reserved for the claim in progress or is one attempt's, not both,
  // and all slots of an attempt are of the pool it was dispatched from.
  lemma SlotsAreConserved(trace: seq<Step>, p: string, l: nat)
    requires IsRun(Empty, trace)
    ensures var s := EndOf(Empty, trace);
            && (p in s.capacity ==> p in s.leased && s.leased[p] == |Out(s, p)| <= s.capacity[p])
            && (l in Reserved(s.turn) <==> IsOut(s, l) && s.slots[l].attempt == None)
            && (l < |s.slots| && s.slots[l].attempt.Some? ==>
                  var a := s.slots[l].attempt.value;
                  && a < |s.attempts| && s.attempts[a].first < |s.slots|
                  && s.slots[l].pool == s.slots[s.attempts[a].first].pool)
  {
    hide QueuesOk, BooksOk, AttemptOk, WaitOk;
    Reachable(trace);
    var s := EndOf(Empty, trace);
    assert l < |s.slots| ==> SlotOk(s, l);
    if l in Reserved(s.turn) {
      var k :| 0 <= k < |Reserved(s.turn)| && Reserved(s.turn)[k] == l;
      assert IsOut(s, Reserved(s.turn)[k]);
    }
  }

  // A claim gives each row it took a slot of its own, and gives the rest back. Nothing
  // ready is left beside a slot that was free.
  lemma ClaimIsExact(trace: seq<Step>, ready: seq<Row>)
    requires IsRun(Empty, trace) && Enabled(EndOf(Empty, trace), Claimed(ready))
    ensures var s := EndOf(Empty, trace);
            var s', slots := Next(s, Claimed(ready)), s.turn.slots;
            var rows := Taken(ready, |slots|);
            && |s'.attempts| == |s.attempts| + |rows|
            && (forall i | 0 <= i < |rows| ::
                  s'.attempts[|s.attempts| + i] == Attempt(rows[i].task, rows[i].workflow, slots[i], slots[i], false,
                      Loading, false))
            && (forall i, j | 0 <= i < j < |slots| :: slots[i] != slots[j])
            && (forall i | |rows| <= i < |slots| :: IsFree(s', slots[i]))
            && (|rows| < |slots| ==> rows == ready)
  {
    hide Inv, IsRun, EndOf;
    Reachable(trace);
    ClaimSplits(EndOf(Empty, trace), ready);
  }

  lemma ClaimSplits(s: State, ready: seq<Row>)
    requires Inv(s) && Enabled(s, Claimed(ready))
    ensures var s', slots := Next(s, Claimed(ready)), s.turn.slots;
            var rows := Taken(ready, |slots|);
            && |s'.attempts| == |s.attempts| + |rows|
            && (forall i | 0 <= i < |rows| ::
                  s'.attempts[|s.attempts| + i] == Attempt(rows[i].task, rows[i].workflow, slots[i], slots[i], false,
                      Loading, false))
            && (forall i, j | 0 <= i < j < |slots| :: slots[i] != slots[j])
            && (forall i | |rows| <= i < |slots| :: IsFree(s', slots[i]))
            && (|rows| < |slots| ==> rows == ready)
  {
    hide Inv, SpawnAll, ReleaseAll;
    var slots, rows := s.turn.slots, Taken(ready, |s.turn.slots|);
    var spawned := SpawnAll(s, rows, slots);
    ReservedApart(s);
    SpawnAllStarts(s, rows, slots);
    SpawnAllKeepsSlots(s, rows, slots);
    ReleaseAllTouches(spawned, slots[|rows|..]);
    SurplusIsFree(spawned, slots, |rows|);
  }

  lemma ReservedApart(s: State)
    requires Inv(s) && s.turn.Claiming?
    ensures forall i | 0 <= i < |s.turn.slots| :: s.turn.slots[i] < |s.slots|
    ensures forall i, j | 0 <= i < j < |s.turn.slots| :: s.turn.slots[i] != s.turn.slots[j]
  {
    hide CountsOk, AttemptOk, WaitOk, SlotOk, QueuesOk, LedgerOk, BoundOk, LeavingOk;
  }

  lemma SurplusIsFree(s: State, slots: seq<nat>, n: nat)
    requires n <= |slots| && forall i | 0 <= i < |slots| :: slots[i] < |s.slots|
    ensures forall i | n <= i < |slots| :: IsFree(ReleaseAll(s, slots[n..]), slots[i])
  {
    ReleasedAreFree(s, slots[n..]);
    forall i | n <= i < |slots| ensures IsFree(ReleaseAll(s, slots[n..]), slots[i]) {
      assert slots[i] == slots[n..][i - n];
    }
  }

  // A failed claim gives every slot back.
  lemma FailedClaimReturnsAll(trace: seq<Step>, i: nat)
    requires IsRun(Empty, trace) && Enabled(EndOf(Empty, trace), ClaimFailed)
    ensures var s := EndOf(Empty, trace);
            i < |s.turn.slots| ==> IsFree(Next(s, ClaimFailed), s.turn.slots[i])
    ensures Next(EndOf(Empty, trace), ClaimFailed).attempts == EndOf(Empty, trace).attempts
  {
    hide CountsOk, OwnersAt, QueuesOk, LedgerOk, BoundOk, LeavingOk, ReleaseAll;
    Reachable(trace);
    var s := EndOf(Empty, trace);
    ReleaseAllTouches(s, s.turn.slots);
    ReleasedAreFree(s, s.turn.slots);
  }

  lemma {:induction false} ReleasedAreFree(s: State, ids: seq<nat>)
    requires forall i | 0 <= i < |ids| :: ids[i] < |s.slots|
    ensures forall i | 0 <= i < |ids| :: IsFree(ReleaseAll(s, ids), ids[i])
    ensures forall l: nat | IsFree(s, l) :: IsFree(ReleaseAll(s, ids), l)
    decreases |ids|
  {
    if ids != [] {
      ReleasedAreFree(Release(s, ids[0]), ids[1..]);
    }
  }

  // A pool's turn serves the waiters of its queue before it reserves a slot for new work:
  // the first of them that still wait, as many as there are slots, and all if any is left.
  lemma WaitersComeFirst(trace: seq<Step>)
    requires IsRun(Empty, trace) && Enabled(EndOf(Empty, trace), PoolTurn)
    ensures var s := EndOf(Empty, trace);
            var p := s.turn.todo[0];
            var drained, s' := Drain(s, p), Next(s, PoolTurn);
            && ServesFirst(s, drained, p)
            && s'.queues == drained.queues
            && (s'.turn.Claiming? ==> Queue(s', p) == [] && |s'.turn.slots| == Free(drained, p) > 0)
  {
    hide OwnersAt, QueuesOk, LedgerOk, BoundOk, LeavingOk, Drain, AcquireAll;
    Reachable(trace);
    var s := EndOf(Empty, trace);
    var p := s.turn.todo[0];
    PoolHasQueue(s, p);
    DrainServesFirst(s, p);
    DrainLeavesNoneWaiting(s, p);
    DrainOwners(s, p, []);
    AcquireAllAdds(Drain(s, p), p, Free(Drain(s, p), p));
  }

  // Every attempt that runs, and was not cancelled by an unregistration, has its slots from
  // the pool its workflow is bound to now.
  lemma ReservationIsStrict(trace: seq<Step>, a: nat, l: nat)
    requires IsRun(Empty, trace)
    ensures var s := EndOf(Empty, trace);
            a in s.live && Alive(s, a) && !s.attempts[a].doomed && IsFor(s, l, a) ==>
              && s.attempts[a].workflow in s.bindings
              && s.slots[l].pool == s.bindings[s.attempts[a].workflow]
  {
    hide CountsOk, QueuesOk, LedgerOk, LeavingOk, TurnOk, WaitOk, ReservedOk, AttemptOk;
    Reachable(trace);
    var s := EndOf(Empty, trace);
    if a in s.live && Alive(s, a) && !s.attempts[a].doomed && IsFor(s, l, a) {
      assert SlotOk(s, l) && AttemptBound(s, a);
    }
  }

  // Every entry of the ledger is a live attempt of that task, and a reap drops exactly the
  // entries of the attempts that are over.
  lemma LedgersAgree(trace: seq<Step>, t: nat)
    requires IsRun(Empty, trace)
    ensures var s := EndOf(Empty, trace);
            && (t in s.entries ==>
                s.entries[t] in s.live && s.entries[t] < |s.attempts| && s.attempts[s.entries[t]].task == t)
            && (t in Reap(s).entries <==> t in s.entries && !Over(s, s.entries[t]))
            && (t in Reap(s).entries ==> Reap(s).entries[t] == s.entries[t] && s.entries[t] in Reap(s).live)
  {
    hide CountsOk, OwnersAt, QueuesOk, BoundOk, LeavingOk, TurnOk;
    Reachable(trace);
  }

  // A claim leaves a task whose attempt still runs its entry, and gives every other task that
  // it claims one.
  lemma ClaimKeepsEntries(s: State, ready: seq<Row>, t: nat)
    requires Enabled(s, Claimed(ready))
    ensures var s' := Next(s, Claimed(ready));
            && (Runs(s, t) ==> t in s'.entries && s'.entries[t] == s.entries[t])
            && (t in s'.entries && (t !in s.entries || s'.entries[t] != s.entries[t]) ==>
                  !Runs(s, t) && exists i :: 0 <= i < |ready| && i < |s.turn.slots| && ready[i].task == t)
            && forall i | 0 <= i < |ready| && i < |s.turn.slots| :: ready[i].task in s'.entries
  {
    var rows := Taken(ready, |s.turn.slots|);
    SpawnAllEntries(s, rows, s.turn.slots, t);
    ReleaseAllEntries(SpawnAll(s, rows, s.turn.slots), s.turn.slots[|rows|..]);
    forall i | 0 <= i < |rows| ensures rows[i].task in SpawnAll(s, rows, s.turn.slots).entries {
      SpawnAllEntries(s, rows, s.turn.slots, rows[i].task);
    }
  }

  // The entry of the task is of an attempt that is not over.
  predicate Runs(s: State, t: nat) {
    t in s.entries && s.entries[t] < |s.attempts| && !s.attempts[s.entries[t]].phase.Ended?
  }

  lemma {:induction false} SpawnAllEntries(s: State, rows: seq<Row>, slots: seq<nat>, t: nat)
    requires |rows| <= |slots|
    ensures var s' := SpawnAll(s, rows, slots);
            && (t in s.entries ==> t in s'.entries)
            && (Runs(s, t) ==> Runs(s', t) && s'.entries[t] == s.entries[t])
            && (t in s'.entries && (t !in s.entries || s'.entries[t] != s.entries[t]) ==>
                  !Runs(s, t) && exists i :: 0 <= i < |rows| && rows[i].task == t)
            && forall i | 0 <= i < |rows| && rows[i].task == t :: t in s'.entries
    decreases |rows|
  {
    if rows != [] {
      SpawnAllEntries(Spawn(s, rows[0], slots[0]), rows[1..], slots[1..], t);
      assert forall i | 0 <= i < |rows| - 1 :: rows[1..][i] == rows[i + 1];
    }
  }

  lemma {:induction false} ReleaseAllEntries(s: State, ids: seq<nat>)
    ensures ReleaseAll(s, ids).entries == s.entries
    decreases |ids|
  {
    if ids != [] {
      ReleaseAllEntries(Release(s, ids[0]), ids[1..]);
    }
  }

  // An unregistration cancels exactly the running attempts of the workflow, waits for exactly
  // those, and unbinds the name; nothing else changes.
  lemma UnregisterDooms(s: State, w: string, a: nat)
    requires Enabled(s, Unregister(w))
    ensures var s' := Next(s, Unregister(w));
            var runs := a in s.live && a < |s.attempts| && !s.attempts[a].phase.Ended? && s.attempts[a].workflow == w;
            && |s'.leaving| == |s.leaving| + 1
            && var waiting := s'.leaving[|s.leaving|].waiting;
               && s'.leaving == s.leaving + [Leaving(w, waiting, false)] && (a in waiting <==> runs)
               && |s'.attempts| == |s.attempts|
               && (a < |s.attempts| ==>
                     s'.attempts[a] == if runs then s.attempts[a].(doomed := true) else s.attempts[a])
               && s' == s.(bindings := s.bindings - {w}, attempts := s'.attempts, leaving := s'.leaving)
  {
  }

  // A registration binds the name to its pool, and makes the pool, with all slots free and
  // nobody waiting, if there is none; an unregistration of the name still under way knows.
  lemma RegisterBinds(s: State, w: string, p: string, capacity: nat, k: nat)
    requires Enabled(s, Register(w, p, capacity))
    ensures var s' := Next(s, Register(w, p, capacity));
            && s'.bindings == s.bindings[w := p] && p in s'.capacity
            && (p in s.capacity ==> s'.capacity == s.capacity && s'.leased == s.leased && s'.queues == s.queues)
            && (p !in s.capacity ==>
                  s'.capacity == s.capacity[p := capacity] && Free(s', p) == capacity && Queue(s', p) == [])
            && |s'.leaving| == |s.leaving|
            && (k < |s.leaving| ==>
                  s'.leaving[k] == s.leaving[k].(rebound := s.leaving[k].rebound || s.leaving[k].workflow == w))
            && s'.slots == s.slots && s'.attempts == s.attempts && s'.waits == s.waits && s'.live == s.live
            && s'.entries == s.entries && s'.turn == s.turn
  {
  }

  // When an unregistration returns, and the name was not registered again meanwhile, no
  // attempt of the workflow is live, and the slots those it waited for were dispatched on
  // are back.
  lemma UnregisterIsComplete(trace: seq<Step>, k: nat, a: nat)
    requires IsRun(Empty, trace) && Enabled(EndOf(Empty, trace), UnregisterDone(k))
    ensures var s := EndOf(Empty, trace);
            var s' := Next(s, UnregisterDone(k));
            && (!s.leaving[k].rebound && a in s'.live ==>
                a < |s'.attempts| && s'.attempts[a].workflow != s.leaving[k].workflow)
            && (a in s.leaving[k].waiting ==> a < |s'.attempts| && a !in s'.live && IsFree(s', s'.attempts[a].first))
  {
    hide CountsOk, OwnersAt, QueuesOk, LedgerOk, BoundOk, TurnOk;
    Reachable(trace);
    var s := EndOf(Empty, trace);
    var s' := Next(s, UnregisterDone(k));
    StepKeeps(s, UnregisterDone(k));
    ReapTouches(s);
    assert LeavesOk(s, s.leaving[k]);
    LiveInRange(s);
    if a in s.leaving[k].waiting {
      assert Over(s, a);
      AttemptIsOk(s', Reserved(s'.turn), a);
    }
  }

  lemma LiveInRange(s: State)
    requires LedgerOk(s)
    ensures forall a | a in s.live :: a < |s.attempts|
  {
  }

  // A tick begins by reaping: no attempt that is over is live after it, and the slots such
  // attempts were dispatched on are back.
  lemma TickReaps(trace: seq<Step>, order: seq<string>, a: nat)
    requires IsRun(Empty, trace) && Enabled(EndOf(Empty, trace), Tick(order))
    ensures var s := EndOf(Empty, trace);
            var s' := Next(s, Tick(order));
            && s'.turn == Dispatching(order)
            && (a in s'.live <==> a in s.live && !Over(s, a))
            && (a in s.live && Over(s, a) ==> IsFree(s', s.attempts[a].first))
  {
    hide CountsOk, OwnersAt, QueuesOk, LedgerOk, BoundOk, LeavingOk, TurnOk;
    Reachable(trace);
    var s := EndOf(Empty, trace);
    StepKeeps(s, Tick(order));
    if a in s.live && Over(s, a) {
      ReapTouches(s);
      AttemptIsOk(Next(s, Tick(order)), [], a);
    }
  }

  // ------------------------------------------------------------------------
  // First come, first served
  // ------------------------------------------------------------------------

  // The queue of a pool loses waiters at its head, all of them served or done, and gains one
  // at its end when an answer to a wait of that pool comes.
  ghost predicate MovesOn(s: State, s': State, p: string, k: nat, more: seq<nat>) {
    && k <= |Queue(s, p)| && Queue(s', p) == Queue(s, p)[k..] + more
    && forall i | 0 <= i < k :: !Waits(s', Queue(s, p)[i])
  }

  lemma {:induction false} DrainMovesOn(s: State, p: string, q: string) returns (k: nat)
    requires QueuesOk(s) && p in s.queues
    ensures MovesOn(s, Drain(s, p), q, k, []) && (q != p ==> k == 0)
    ensures forall w: nat | Waits(Drain(s, p), w) :: Waits(s, w)
    decreases |Queue(s, p)|
  {
    hide QueuesOk, PlaceOk;
    var queue := Queue(s, p);
    k := 0;
    if queue != [] && Free(s, p) > 0 {
      var popped := s.(queues := s.queues[p := queue[1..]]);
      var next := if Waits(s, queue[0]) then Serve(popped, p, queue[0]) else popped;
      if Waits(s, queue[0]) {
        ServeKeepsQueues(s, p);
      } else {
        PopKeepsQueues(s, p);
      }
      NextWaits(s, p, next);
      k := DrainMovesOn(next, p, q);
      if q == p {
        HeadToo(s, next, Drain(s, p), p, k);
        k := k + 1;
      } else {
        assert Queue(next, q) == Queue(s, q);
      }
    } else {
      assert Queue(s, q)[0..] + [] == Queue(s, q);
    }
  }

  // Whoever is taken off the head waits no more.
  lemma NextWaits(s: State, p: string, next: State)
    requires Queue(s, p) != []
    requires var popped := s.(queues := s.queues[p := Queue(s, p)[1..]]);
             next == if Waits(s, Queue(s, p)[0]) then Serve(popped, p, Queue(s, p)[0]) else popped
    ensures !Waits(next, Queue(s, p)[0]) && forall w: nat | Waits(next, w) :: Waits(s, w)
  {
  }

  lemma HeadToo(s: State, next: State, d: State, p: string, k: nat)
    requires Queue(s, p) != [] && Queue(next, p) == Queue(s, p)[1..] && MovesOn(next, d, p, k, [])
    requires !Waits(next, Queue(s, p)[0]) && forall w: nat | Waits(d, w) :: Waits(next, w)
    ensures MovesOn(s, d, p, k + 1, [])
  {
    hide Waits;
    assert Queue(s, p)[1..][k..] == Queue(s, p)[k + 1..];
    forall i | 0 <= i < k + 1 ensures !Waits(d, Queue(s, p)[i]) {
      assert i > 0 ==> Queue(s, p)[i] == Queue(next, p)[i - 1];
    }
  }

  // The pool of the slot a wait was entered with.
  function PoolOf(s: State, w: nat): string {
    if w < |s.waits| && s.waits[w].lease < |s.slots| then s.slots[s.waits[w].lease].pool else ""
  }

  // In every run waiters are re-admitted in the order their answers came: each step takes from
  // a queue's head only, and only those it served or that are done, and adds at its end only.
  lemma FirstComeFirstServed(trace: seq<Step>, a: Step, p: string) returns (k: nat)
    requires IsRun(Empty, trace) && Enabled(EndOf(Empty, trace), a)
    ensures var s := EndOf(Empty, trace);
            && MovesOn(s, Next(s, a), p, k, if a.Ask? && PoolOf(s, a.w) == p then [a.w] else [])
            && (k > 0 ==> a.PoolTurn? && s.turn.todo[0] == p)
  {
    hide CountsOk, OwnersAt, QueuesOk, LedgerOk, BoundOk, LeavingOk, Drain, AcquireAll, SpawnAll, ReleaseAll, Reap,
        Release;
    Reachable(trace);
    var s := EndOf(Empty, trace);
    k := 0;
    if a.PoolTurn? {
      k := TurnMovesOn(s, a, p);
    } else if a.Claimed? {
      SpawnAllKeepsSlots(s, Taken(a.ready, |s.turn.slots|), s.turn.slots);
      ReleaseAllTouches(SpawnAll(s, Taken(a.ready, |s.turn.slots|), s.turn.slots),
        s.turn.slots[|Taken(a.ready, |s.turn.slots|)|..]);
      QueueStays(s, Next(s, a), p);
    } else if a.ClaimFailed? || a.Stop? {
      ReleaseAllTouches(s, Reserved(s.turn));
      QueueStays(s, Next(s, a), p);
    } else if a.Tick? || a.UnregisterDone? {
      ReapTouches(s);
      QueueStays(s, Next(s, a), p);
    } else if a.Register? || a.Rebind? || a.Unregister? || a.TickEnd? {
      NewQueueEmpty(s, a, p);
    } else if a.Ask? {
      AskMovesOn(s, a, p);
    } else {
      AttemptTouches(s, a);
      QueueStays(s, Next(s, a), p);
    }
  }

  lemma QueueStays(s: State, s': State, p: string)
    requires s'.queues == s.queues
    ensures MovesOn(s, s', p, 0, [])
  {
  }

  lemma NewQueueEmpty(s: State, a: Step, p: string)
    requires CountsOk(s) && Enabled(s, a) && (a.Register? || a.Rebind? || a.Unregister? || a.TickEnd?)
    ensures MovesOn(s, Next(s, a), p, 0, [])
  {
  }

  lemma AskMovesOn(s: State, a: Step, p: string)
    requires Enabled(s, a) && a.Ask?
    ensures MovesOn(s, Next(s, a), p, 0, if PoolOf(s, a.w) == p then [a.w] else [])
  {
    assert Queue(s, p)[0..] == Queue(s, p) && Queue(s, p) + [] == Queue(s, p);
  }

  lemma TurnMovesOn(s: State, a: Step, p: string) returns (k: nat)
    requires CountsOk(s) && QueuesOk(s) && BooksOk(s) && Enabled(s, a) && a.PoolTurn?
    ensures MovesOn(s, Next(s, a), p, k, []) && (k > 0 ==> s.turn.todo[0] == p)
  {
    hide CountsOk, QueuesOk, LedgerOk, BoundOk, LeavingOk, Drain, AcquireAll, Free, Waits;
    var head := s.turn.todo[0];
    assert head in s.capacity;
    PoolHasQueue(s, head);
    k := DrainMovesOn(s, head, p);
    var drained := Drain(s, head);
    AcquireAllAdds(drained, head, Free(drained, head));
    SameWaits(drained, Next(s, a));
  }

  lemma SameWaits(s: State, s': State)
    requires s'.waits == s.waits
    ensures forall w: nat :: Waits(s', w) <==> Waits(s, w)
  {
  }
}
