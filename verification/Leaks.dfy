/** Slots that no one can give back: exactly when a step of `Dispatch` strands one, and the
    exact limit on the waits of a body under which none ever does. */
module Leaks {
  import opened Base
  import opened Claims
  import opened Dispatch
  import opened Slots
  import opened Capacity

  // ------------------------------------------------------------------------
  // Who can still give a slot back
  // ------------------------------------------------------------------------

  // The reap knows the slot an attempt was dispatched on, and the runner the one its lease
  // service has, for as long as it runs.
  predicate Kept(s: State, l: nat) {
    && l < |s.slots| && s.slots[l].attempt.Some?
    && var a := s.slots[l].attempt.value;
       && a < |s.attempts|
       && ((a in s.live && s.attempts[a].first == l) || (!s.attempts[a].phase.Ended? && s.attempts[a].held == l))
  }

  // A wait that has not parked yet gives back the slot it was entered with, and one handed a
  // slot that is then cancelled gives back that one.
  predicate Asked(waits: seq<Wait>, l: nat) {
    exists w | 0 <= w < |waits| :: waits[w].stage == Asking && waits[w].lease == l
  }

  predicate Handed(waits: seq<Wait>, l: nat) {
    exists w | 0 <= w < |waits| :: waits[w].stage == Served(l)
  }

  // A slot that is out, was an attempt's, and that no one has.
  predicate Stray(s: State, l: nat) {
    IsOut(s, l) && s.slots[l].attempt.Some? && !Kept(s, l) && !Asked(s.waits, l) && !Handed(s.waits, l)
  }

  // Another wait has yet to give the slot back.
  predicate AskedBesides(waits: seq<Wait>, w: nat, l: nat) {
    exists x | 0 <= x < |waits| && x != w :: waits[x].stage == Asking && waits[x].lease == l
  }

  // The step strands the slot: a resumed wait overwrites a slot that is still out and that
  // no other wait is about to give back, or hands one to an attempt that is over; a wait is
  // cancelled before it parked, when no one else has its slot; or an attempt is cancelled
  // while it closes, on a slot it was re-admitted on.
  predicate Strands(s: State, a: Step, l: nat)
    requires Enabled(s, a)
  {
    match a
    case Receive(w) =>
      var t := s.attempts[s.waits[w].attempt];
      if t.phase.Ended? then l == s.waits[w].stage.slot
      else l == t.held && IsOut(s, l) && l != t.first && !Asked(s.waits, l)
    case Abandon(w) =>
      s.waits[w].stage == Asking && l == s.waits[w].lease && IsOut(s, l) && !Kept(s, l) && !AskedBesides(s.waits, w, l)
    case Cut(i) => l == s.attempts[i].held && OnReadmitted(s, i) && !Asked(s.waits, l)
    case _ => false
  }

  // The slot the attempt has now is out, and not the one the reap gives back.
  predicate OnReadmitted(s: State, a: nat)
    requires a < |s.attempts|
  {
    s.attempts[a].held != s.attempts[a].first && IsOut(s, s.attempts[a].held)
  }

  // A task that a body left running can still enter a wait with the slot its attempt names,
  // and so have it again.
  predicate Recovers(s: State, a: Step, l: nat)
    requires Enabled(s, a)
  {
    a.Enter? && l == s.attempts[a.a].held
  }

  // ------------------------------------------------------------------------
  // Every step
  // ------------------------------------------------------------------------

  // Nothing changed that matters to the slot.
  lemma StraySame(s: State, s': State, l: nat)
    requires l < |s.slots| ==> l < |s'.slots| && s'.slots[l] == s.slots[l]
    requires l >= |s.slots| ==> !Stray(s', l)
    requires |s'.attempts| == |s.attempts| && s'.live == s.live && s'.waits == s.waits
    requires forall a | 0 <= a < |s.attempts| ::
               && s'.attempts[a].first == s.attempts[a].first && s'.attempts[a].held == s.attempts[a].held
               && (s'.attempts[a].phase.Ended? <==> s.attempts[a].phase.Ended?)
    ensures Stray(s', l) <==> Stray(s, l)
  {
  }

  lemma ServeStray(s: State, p: string, w: nat, l: nat)
    requires Waits(s, w)
    ensures Stray(Serve(s, p, w), l) <==> Stray(s, l)
  {
    var s', n := Serve(s, p, w), |s.slots|;
    assert s'.waits[w].stage == Served(n);
    forall x | 0 <= x < |s.waits| && x != w ensures s'.waits[x] == s.waits[x] {
    }
    if Asked(s.waits, l) {
      var x :| 0 <= x < |s.waits| && s.waits[x].stage == Asking && s.waits[x].lease == l;
      assert s'.waits[x].stage == Asking;
    }
    if Handed(s.waits, l) {
      var x :| 0 <= x < |s.waits| && s.waits[x].stage == Served(l);
      assert s'.waits[x].stage == Served(l);
    }
  }

  lemma {:induction false} DrainStray(s: State, p: string, l: nat)
    requires QueuesOk(s) && p in s.queues
    ensures Stray(Drain(s, p), l) <==> Stray(s, l)
    decreases |Queue(s, p)|
  {
    hide QueuesOk, PlaceOk, Stray;
    var queue := Queue(s, p);
    if queue != [] && Free(s, p) > 0 {
      var popped := s.(queues := s.queues[p := queue[1..]]);
      StraySame(s, popped, l) by {
        NoSuchSlot(popped, l);
      }
      if !Waits(s, queue[0]) {
        PopKeepsQueues(s, p);
        DrainStray(popped, p, l);
      } else {
        ServeKeepsQueues(s, p);
        ServeStray(popped, p, queue[0], l);
        DrainStray(Serve(popped, p, queue[0]), p, l);
      }
    }
  }

  lemma NoSuchSlot(s: State, l: nat)
    ensures l >= |s.slots| ==> !Stray(s, l)
  {
  }

  lemma PoolTurnStray(s: State, a: Step, l: nat)
    requires Inv(s) && Enabled(s, a) && a.PoolTurn?
    ensures Stray(Next(s, a), l) <==> Stray(s, l)
  {
    hide CountsOk, OwnersAt, QueuesOk, BooksOk, Drain, AcquireAll, Free, Stray;
    var p := s.turn.todo[0];
    TurnHasQueue(s, p);
    DrainStray(s, p, l);
    var drained := Drain(s, p);
    AcquireAllAdds(drained, p, Free(drained, p));
    ReservedIsNot(drained, Next(s, a), l);
  }

  lemma TurnHasQueue(s: State, p: string)
    requires CountsOk(s) && BooksOk(s) && s.turn.Dispatching? && p in s.turn.todo
    ensures p in s.queues
  {
    var i :| 0 <= i < |s.turn.todo| && s.turn.todo[i] == p;
    assert s.turn.todo[i] in s.capacity;
  }

  // Slots reserved for a claim are no one's, and so not stray.
  lemma ReservedIsNot(s: State, s': State, l: nat)
    requires |s.slots| <= |s'.slots| && s'.slots[..|s.slots|] == s.slots
    requires forall m | |s.slots| <= m < |s'.slots| :: s'.slots[m].attempt == None
    requires s'.attempts == s.attempts && s'.live == s.live && s'.waits == s.waits
    ensures Stray(s', l) <==> Stray(s, l)
  {
    assert l < |s.slots| ==> s'.slots[..|s.slots|][l] == s.slots[l];
  }

  lemma SpawnStray(s: State, row: Row, reserved: seq<nat>, l: nat)
    requires OwnersAt(s, reserved) && reserved != []
    ensures Stray(Spawn(s, row, reserved[0]), l) <==> Stray(s, l)
  {
    var s', n := Spawn(s, row, reserved[0]), |s.attempts|;
    assert IsOut(s, reserved[0]) && s.slots[reserved[0]].attempt == None;
    if l < |s.slots| {
      assert SlotOk(s, l);
    }
  }

  lemma {:induction false} SpawnAllStray(s: State, rows: seq<Row>, slots: seq<nat>, l: nat)
    requires OwnersAt(s, slots) && |rows| <= |slots|
    ensures Stray(SpawnAll(s, rows, slots), l) <==> Stray(s, l)
    decreases |rows|
  {
    hide OwnersAt, Stray;
    if rows != [] {
      SpawnStray(s, rows[0], slots, l);
      SpawnOwners(s, rows[0], slots);
      SpawnAllStray(Spawn(s, rows[0], slots[0]), rows[1..], slots[1..], l);
    }
  }

  lemma {:induction false} ReleaseAllStray(s: State, ids: seq<nat>, l: nat)
    requires OwnersAt(s, ids)
    ensures Stray(ReleaseAll(s, ids), l) <==> Stray(s, l)
    decreases |ids|
  {
    hide OwnersAt, Stray;
    if ids != [] {
      UnreserveStray(s, ids, l);
      UnreserveOwners(s, ids);
      ReleaseAllStray(Release(s, ids[0]), ids[1..], l);
    }
  }

  lemma UnreserveStray(s: State, ids: seq<nat>, l: nat)
    requires OwnersAt(s, ids) && ids != []
    ensures Stray(Release(s, ids[0]), l) <==> Stray(s, l)
  {
    assert IsOut(s, ids[0]) && s.slots[ids[0]].attempt == None;
  }

  lemma ClaimStray(s: State, a: Step, l: nat)
    requires Inv(s) && Enabled(s, a) && (a.Claimed? || a.ClaimFailed? || a.Stop? || a.TickEnd?)
    ensures Stray(Next(s, a), l) <==> Stray(s, l)
  {
    hide CountsOk, OwnersAt, QueuesOk, BooksOk, SpawnAll, ReleaseAll, Stray;
    var slots, s' := Reserved(s.turn), Next(s, a);
    if a.Claimed? {
      var rows := Taken(a.ready, |slots|);
      SpawnAllStray(s, rows, slots, l);
      SpawnAllOwners(s, rows, slots);
      ReleaseAllStray(SpawnAll(s, rows, slots), slots[|rows|..], l);
      TurnStray(ReleaseAll(SpawnAll(s, rows, slots), slots[|rows|..]), s', l);
    } else {
      ReleaseAllStray(s, slots, l);
      NothingReleased(s);
      TurnStray(ReleaseAll(s, slots), s', l);
    }
  }

  lemma TurnStray(s: State, s': State, l: nat)
    requires s'.slots == s.slots && s'.attempts == s.attempts && s'.live == s.live && s'.waits == s.waits
    ensures Stray(s', l) <==> Stray(s, l)
  {
  }

  lemma ReapStray(s: State, reserved: seq<nat>, l: nat)
    requires OwnersAt(s, reserved)
    ensures Stray(Reap(s), l) <==> Stray(s, l)
  {
    var s', n := Reap(s), |s.attempts|;
    ReleaseEndedSlots(s, n);
    if Reaped(s, n, l) {
      ReapedIs(s, reserved, l);
    }
    if l < |s.slots| && s.slots[l].attempt.Some? {
      assert SlotOk(s, l);
      OverIsReaped(s, s.slots[l].attempt.value);
      assert AttemptOk(s, s.slots[l].attempt.value);
    }
  }

  lemma RegistryStray(s: State, a: Step, l: nat)
    requires Inv(s) && Enabled(s, a) && (a.Register? || a.Rebind? || a.Unregister? || a.UnregisterDone? || a.Tick?)
    ensures Stray(Next(s, a), l) <==> Stray(s, l)
  {
    hide CountsOk, OwnersAt, QueuesOk, BooksOk, Reap, Stray;
    if a.Tick? || a.UnregisterDone? {
      ReapStray(s, Reserved(s.turn), l);
      TurnStray(Reap(s), Next(s, a), l);
    } else {
      NoSuchSlot(Next(s, a), l);
      StraySame(s, Next(s, a), l);
    }
  }

  // ------------------------------------------------------------------------
  // The steps of an attempt
  // ------------------------------------------------------------------------

  // Only the stage of one wait changed, and it neither asks nor is handed anything, before
  // or after.
  lemma SameHolds(waits: seq<Wait>, w: nat, stage: Stage, l: nat)
    requires w < |waits| && waits[w].stage in {Open, Queued, Closed} && stage in {Open, Queued, Closed}
    ensures var waits' := waits[w := waits[w].(stage := stage)];
            (Asked(waits', l) <==> Asked(waits, l)) && (Handed(waits', l) <==> Handed(waits, l))
  {
    var waits' := waits[w := waits[w].(stage := stage)];
    if Asked(waits, l) {
      var x :| 0 <= x < |waits| && waits[x].stage == Asking && waits[x].lease == l;
      assert waits'[x] == waits[x];
    }
    if Asked(waits', l) {
      var x :| 0 <= x < |waits| && waits'[x].stage == Asking && waits'[x].lease == l;
      assert waits'[x] == waits[x];
    }
    if Handed(waits, l) {
      var x :| 0 <= x < |waits| && waits[x].stage == Served(l);
      assert waits'[x] == waits[x];
    }
    if Handed(waits', l) {
      var x :| 0 <= x < |waits| && waits'[x].stage == Served(l);
      assert waits'[x] == waits[x];
    }
  }

  // A wait that was asking is past it.
  lemma NoLongerAsks(waits: seq<Wait>, w: nat, stage: Stage, l: nat)
    requires w < |waits| && waits[w].stage == Asking && stage in {Open, Closed}
    ensures var waits' := waits[w := waits[w].(stage := stage)];
            (Asked(waits', l) <==> AskedBesides(waits, w, l)) && (Handed(waits', l) <==> Handed(waits, l))
    ensures Asked(waits, l) <==> AskedBesides(waits, w, l) || waits[w].lease == l
  {
    var waits' := waits[w := waits[w].(stage := stage)];
    if AskedBesides(waits, w, l) {
      var x :| 0 <= x < |waits| && x != w && waits[x].stage == Asking && waits[x].lease == l;
      assert waits'[x] == waits[x];
    }
    if Asked(waits', l) {
      var x :| 0 <= x < |waits| && waits'[x].stage == Asking && waits'[x].lease == l;
      assert x != w && waits'[x] == waits[x];
    }
    if Handed(waits, l) {
      var x :| 0 <= x < |waits| && waits[x].stage == Served(l);
      assert waits'[x] == waits[x];
    }
    if Handed(waits', l) {
      var x :| 0 <= x < |waits| && waits'[x].stage == Served(l);
      assert waits'[x] == waits[x];
    }
  }

  // A wait that was handed a slot has done with it.
  lemma NoLongerHanded(waits: seq<Wait>, w: nat, l: nat)
    requires w < |waits| && waits[w].stage.Served? && Unshared(waits)
    ensures var waits' := waits[w := waits[w].(stage := Closed)];
            (Asked(waits', l) <==> Asked(waits, l))
            && (Handed(waits', l) <==> Handed(waits, l) && waits[w].stage != Served(l))
    ensures waits[w].stage == Served(l) ==> !Asked(waits, l) && Handed(waits, l)
  {
    var waits' := waits[w := waits[w].(stage := Closed)];
    if Asked(waits, l) {
      var x :| 0 <= x < |waits| && waits[x].stage == Asking && waits[x].lease == l;
      assert waits'[x] == waits[x];
    }
    if Asked(waits', l) {
      var x :| 0 <= x < |waits| && waits'[x].stage == Asking && waits'[x].lease == l;
      assert waits'[x] == waits[x];
    }
    if Handed(waits, l) && waits[w].stage != Served(l) {
      var x :| 0 <= x < |waits| && waits[x].stage == Served(l);
      assert waits'[x] == waits[x];
    }
    if Handed(waits', l) {
      var x :| 0 <= x < |waits| && waits'[x].stage == Served(l);
      assert x != w && waits'[x] == waits[x];
    }
  }

  lemma QuietStray(s: State, a: Step, l: nat)
    requires Inv(s) && Enabled(s, a) && (a.Begin? || a.Close? || a.EndUnbegun?)
    ensures Stray(Next(s, a), l) <==> Stray(s, l)
  {
    hide CountsOk, QueuesOk, BooksOk, Asked, Handed, WaitOk, ReservedOk, SlotOk;
    assert AttemptOk(s, a.a);
    KeptByOne(s, Next(s, a), a.a, l);
  }

  // A change to one attempt, from what it kept to what it keeps.
  lemma KeptByOne(s: State, s': State, a: nat, l: nat)
    requires a < |s.attempts| == |s'.attempts| && s'.attempts == s.attempts[a := s'.attempts[a]]
    requires s'.live == s.live && |s'.slots| == |s.slots|
        && (l < |s.slots| ==> s'.slots[l].attempt == s.slots[l].attempt)
    ensures !IsFor(s, l, a) ==> (Kept(s', l) <==> Kept(s, l))
    ensures IsFor(s, l, a) ==>
              (Kept(s', l) <==>
                 || (a in s.live && s'.attempts[a].first == l)
                 || (!s'.attempts[a].phase.Ended? && s'.attempts[a].held == l))
  {
  }

  lemma AskStray(s: State, a: Step, l: nat)
    requires Enabled(s, a) && a.Ask?
    ensures Stray(Next(s, a), l) <==> Stray(s, l)
  {
    hide Stray;
    var t := SetWaiting(s, s.waits[a.w].attempt, false);
    NoSuchSlot(t, l);
    StraySame(s, t, l);
    StageStray(t, a.w, Queued, l);
    TurnStray(SetStage(t, a.w, Queued), Next(s, a), l);
  }

  lemma StageStray(s: State, w: nat, stage: Stage, l: nat)
    requires w < |s.waits| && s.waits[w].stage in {Open, Queued, Closed} && stage in {Open, Queued, Closed}
    ensures Stray(SetStage(s, w, stage), l) <==> Stray(s, l)
  {
    hide Asked, Handed;
    SameHolds(s.waits, w, stage, l);
  }

  lemma EnterStray(s: State, a: Step, l: nat)
    requires Inv(s) && Enabled(s, a) && a.Enter?
    ensures Stray(Next(s, a), l) <==> Stray(s, l) && !Recovers(s, a, l)
  {
    hide CountsOk, QueuesOk, BooksOk, WaitOk;
    var s' := Next(s, a);
    assert AttemptOk(s, a.a);
    assert s'.waits[|s.waits|].stage == Asking && s'.waits[|s.waits|].lease == s.attempts[a.a].held;
    if Asked(s.waits, l) {
      var x :| 0 <= x < |s.waits| && s.waits[x].stage == Asking && s.waits[x].lease == l;
      assert s'.waits[x] == s.waits[x];
    }
    if Handed(s.waits, l) {
      var x :| 0 <= x < |s.waits| && s.waits[x].stage == Served(l);
      assert s'.waits[x] == s.waits[x];
    }
  }

  lemma SuspendStray(s: State, a: Step, l: nat)
    requires Inv(s) && Enabled(s, a) && a.Suspend?
    ensures Stray(Next(s, a), l) <==> Stray(s, l)
  {
    hide Inv, Stray, Release;
    var v := s.waits[a.w];
    var t := SetWaiting(s, v.attempt, true);
    NoSuchSlot(t, l);
    StraySame(s, t, l);
    GivesBackStray(t, a.w, l);
  }

  // A wait that gives back the slot it was asking with.
  lemma GivesBackStray(s: State, w: nat, l: nat)
    requires w < |s.waits| && s.waits[w].stage == Asking
    ensures Stray(SetStage(Release(s, s.waits[w].lease), w, Open), l) <==> Stray(s, l)
  {
    hide Asked, Handed, AskedBesides;
    NoLongerAsks(s.waits, w, Open, l);
  }

  lemma AbandonStray(s: State, a: Step, l: nat)
    requires Inv(s) && Enabled(s, a) && a.Abandon?
    ensures Stray(Next(s, a), l) <==> Stray(s, l) || Strands(s, a, l)
  {
    hide Inv, Stray, Strands;
    if s.waits[a.w].stage == Asking {
      AbandonAsking(s, a, l);
    } else if s.waits[a.w].stage.Served? {
      AbandonServed(s, a, l);
    } else {
      AbandonOpen(s, a, l);
    }
  }

  lemma AbandonAsking(s: State, a: Step, l: nat)
    requires Inv(s) && Enabled(s, a) && a.Abandon? && s.waits[a.w].stage == Asking
    ensures Stray(Next(s, a), l) <==> Stray(s, l) || Strands(s, a, l)
  {
    hide CountsOk, QueuesOk, BooksOk, Asked, Handed, AskedBesides, OwnersAt;
    WaitIsOk(s, Reserved(s.turn), a.w);
    NoLongerAsks(s.waits, a.w, Closed, l);
    NotServedNow(s.waits, s.waits[a.w].lease);
  }

  lemma NotServedNow(waits: seq<Wait>, l: nat)
    requires forall x: nat | x < |waits| :: waits[x].stage != Served(l)
    ensures !Handed(waits, l)
  {
  }

  lemma AbandonServed(s: State, a: Step, l: nat)
    requires Inv(s) && Enabled(s, a) && a.Abandon? && s.waits[a.w].stage.Served?
    ensures Stray(Next(s, a), l) <==> Stray(s, l) || Strands(s, a, l)
  {
    hide CountsOk, QueuesOk, BooksOk, Asked, Handed, AskedBesides, WaitOk, AttemptOk, SlotOk, ReservedOk;
    NoLongerHanded(s.waits, a.w, l);
  }

  lemma AbandonOpen(s: State, a: Step, l: nat)
    requires Enabled(s, a) && a.Abandon? && s.waits[a.w].stage in {Open, Queued}
    ensures Stray(Next(s, a), l) <==> Stray(s, l) || Strands(s, a, l)
  {
    hide Stray;
    var t := if s.waits[a.w].stage.Open? then SetWaiting(s, s.waits[a.w].attempt, false) else s;
    NoSuchSlot(t, l);
    StraySame(s, t, l);
    StageStray(t, a.w, Closed, l);
  }

  lemma ReceiveStray(s: State, a: Step, l: nat)
    requires Inv(s) && Enabled(s, a) && a.Receive?
    ensures Stray(Next(s, a), l) <==> Stray(s, l) || Strands(s, a, l)
  {
    hide CountsOk, QueuesOk, BooksOk, Asked, Handed, ReservedOk, SlotOk, Kept;
    var v := s.waits[a.w];
    NoLongerHanded(s.waits, a.w, l);
    assert WaitOk(s, a.w) && AttemptOk(s, v.attempt);
    NotHanded(s, v.attempt, l);
    KeptByOne(s, Next(s, a), v.attempt, l);
    if IsFor(s, l, v.attempt) {
      KeptIs(s, v.attempt, l);
    }
  }

  lemma KeptIs(s: State, a: nat, l: nat)
    requires a < |s.attempts| && IsFor(s, l, a)
    ensures Kept(s, l) <==>
        (a in s.live && s.attempts[a].first == l) || (!s.attempts[a].phase.Ended? && s.attempts[a].held == l)
  {
  }

  lemma NotHanded(s: State, a: nat, l: nat)
    requires Inv(s) && a < |s.attempts|
    ensures l == s.attempts[a].held ==> !Handed(s.waits, l)
  {
    hide CountsOk, QueuesOk, BooksOk;
    AttemptIsOk(s, Reserved(s.turn), a);
  }

  lemma ReleaseIs(s: State, l: nat, m: nat)
    ensures |Release(s, l).slots| == |s.slots|
    ensures m < |s.slots| ==> Release(s, l).slots[m] == if m == l then s.slots[m].(released := true) else s.slots[m]
    ensures Release(s, l).attempts == s.attempts && Release(s, l).waits == s.waits && Release(s, l).live == s.live
  {
  }

  lemma EndStray(s: State, a: Step, l: nat)
    requires Inv(s) && Enabled(s, a) && a.End?
    ensures Stray(Next(s, a), l) <==> Stray(s, l)
  {
    hide CountsOk, QueuesOk, BooksOk, Asked, Handed, OwnersAt, Release, Kept;
    AttemptIsOk(s, Reserved(s.turn), a.a);
    var t, s' := s.attempts[a.a], Next(s, a);
    ReleaseIs(s, t.held, l);
    ReleaseIs(Release(s, t.held), t.first, l);
    KeptByOne(s, s', a.a, l);
    RunnerKeeps(s, a.a, l);
  }

  // What a running attempt keeps.
  lemma RunnerKeeps(s: State, a: nat, l: nat)
    requires Alive(s, a)
    ensures IsFor(s, l, a) ==> (Kept(s, l) <==> l == s.attempts[a].held || l == s.attempts[a].first)
  {
  }

  lemma CutStray(s: State, a: Step, l: nat)
    requires Inv(s) && Enabled(s, a) && a.Cut?
    ensures Stray(Next(s, a), l) <==> Stray(s, l) || Strands(s, a, l)
  {
    hide CountsOk, QueuesOk, BooksOk, Asked, Handed, OwnersAt, Kept;
    AttemptIsOk(s, Reserved(s.turn), a.a);
    NotHanded(s, a.a, l);
    KeptByOne(s, Next(s, a), a.a, l);
    RunnerKeeps(s, a.a, l);
  }

  // Exactly those steps strand a slot; a stray one stays stray unless a wait has it again.
  lemma StepStray(s: State, a: Step, l: nat)
    requires Inv(s) && Enabled(s, a)
    ensures Stray(Next(s, a), l) <==> (Stray(s, l) && !Recovers(s, a, l)) || Strands(s, a, l)
  {
    hide Inv, Enabled, Next, Stray;
    if a.PoolTurn? {
      PoolTurnStray(s, a, l);
    } else if a.Claimed? || a.ClaimFailed? || a.Stop? || a.TickEnd? {
      ClaimStray(s, a, l);
    } else if a.Register? || a.Rebind? || a.Unregister? || a.UnregisterDone? || a.Tick? {
      RegistryStray(s, a, l);
    } else if a.Enter? {
      EnterStray(s, a, l);
    } else if a.Suspend? {
      SuspendStray(s, a, l);
    } else if a.Abandon? {
      AbandonStray(s, a, l);
    } else if a.Receive? {
      ReceiveStray(s, a, l);
    } else if a.End? {
      EndStray(s, a, l);
    } else if a.Cut? {
      CutStray(s, a, l);
    } else if a.Ask? {
      AskStray(s, a, l);
    } else {
      QuietStray(s, a, l);
    }
  }

  // ------------------------------------------------------------------------
  // Whole runs
  // ------------------------------------------------------------------------

  // Some step of the run strands the slot, or it was stray before, and no wait has it again
  // since.
  predicate Strayed(s: State, trace: seq<Step>, l: nat, before: bool)
    requires IsRun(s, trace)
    decreases |trace|
  {
    if trace == [] then before
    else
      Strayed(Next(s, trace[0]), trace[1..], l, (before && !Recovers(s, trace[0], l)) || Strands(s, trace[0], l))
  }

  lemma {:induction false} StrayFrom(s: State, trace: seq<Step>, l: nat)
    requires Inv(s) && IsRun(s, trace)
    ensures Stray(EndOf(s, trace), l) <==> Strayed(s, trace, l, Stray(s, l))
    decreases |trace|
  {
    hide Inv, Enabled, Next, Stray, Strands, Recovers;
    if trace != [] {
      StepStray(s, trace[0], l);
      StepKeeps(s, trace[0]);
      StrayFrom(Next(s, trace[0]), trace[1..], l);
    }
  }

  // Whatever the interleaving, and however many waits a body has open: a slot ends up stray
  // exactly when some step of the run stranded it and no wait was entered with it since.
  lemma StrayExactly(trace: seq<Step>, l: nat)
    requires IsRun(Empty, trace)
    ensures Stray(EndOf(Empty, trace), l) <==> Strayed(Empty, trace, l, false)
  {
    RunKeeps(Empty, []);
    StrayFrom(Empty, trace, l);
  }

  predicate EverRecovers(s: State, trace: seq<Step>, l: nat)
    requires IsRun(s, trace)
    decreases |trace|
  {
    trace != [] && (Recovers(s, trace[0], l) || EverRecovers(Next(s, trace[0]), trace[1..], l))
  }

  lemma {:induction false} StaysStrayed(s: State, trace: seq<Step>, l: nat)
    requires IsRun(s, trace)
    ensures Strayed(s, trace, l, true) || EverRecovers(s, trace, l)
    decreases |trace|
  {
    hide Enabled, Next, Strands, Recovers;
    if trace != [] {
      StaysStrayed(Next(s, trace[0]), trace[1..], l);
    }
  }

  // And it is out in every continuation in which no task that a body left running enters a
  // wait with it: its pool is one slot short.
  lemma StrayForGood(trace: seq<Step>, more: seq<Step>, l: nat)
    requires IsRun(Empty, trace) && IsRun(EndOf(Empty, trace), more)
    ensures Stray(EndOf(Empty, trace), l) ==>
        IsOut(EndOf(EndOf(Empty, trace), more), l) || EverRecovers(EndOf(Empty, trace), more, l)
  {
    Reachable(trace);
    StrayFrom(EndOf(Empty, trace), more, l);
    StaysStrayed(EndOf(Empty, trace), more, l);
  }

  // ------------------------------------------------------------------------
  // How many waits, and for how long
  // ------------------------------------------------------------------------

  // How many waits of one body may be open at once, whether one may outlive the body or be
  // entered by a task that does, and whether an attempt may be cancelled while it closes on a
  // slot it was re-admitted on.
  datatype Limits = Limits(waits: nat, outlive: bool, cut: bool)

  const OneAtATime := Limits(1, false, false)

  function OpenWaits(s: State, a: nat): set<nat> {
    set w: nat | w < |s.waits| && s.waits[w].attempt == a && s.waits[w].stage != Closed
  }

  predicate Within(s: State, a: Step, lim: Limits)
    requires Enabled(s, a)
  {
    match a
    case Enter(i) => |OpenWaits(s, i)| < lim.waits && (lim.outlive || s.attempts[i].phase == Body)
    case Close(i) => lim.outlive || OpenWaits(s, i) == {}
    case Cut(i) => lim.cut || !OnReadmitted(s, i)
    case _ => true
  }

  predicate LimitedRun(s: State, trace: seq<Step>, lim: Limits)
    ensures LimitedRun(s, trace, lim) ==> IsRun(s, trace)
    decreases |trace|
  {
    trace == [] || (Enabled(s, trace[0]) && Within(s, trace[0], lim) && LimitedRun(Next(s, trace[0]), trace[1..], lim))
  }

  // A wait that is open is of a body that runs, was entered with the slot it has, and past
  // its first transaction that slot is back.
  predicate SoloWait(s: State, w: nat)
    requires w < |s.waits|
  {
    var v := s.waits[w];
    v.stage != Closed ==>
      && v.attempt < |s.attempts| && s.attempts[v.attempt].phase == Body && v.lease == s.attempts[v.attempt].held
      && (v.stage != Asking ==> IsFree(s, v.lease))
  }

  predicate Solo(s: State) {
    && (forall w: nat | w < |s.waits| :: SoloWait(s, w))
    && (forall w: nat, x: nat | w < x < |s.waits| && s.waits[w].stage != Closed && s.waits[x].stage != Closed ::
          s.waits[w].attempt != s.waits[x].attempt)
  }

  // So no step strands a slot.
  lemma SoloStrandsNone(s: State, a: Step, l: nat)
    requires Inv(s) && Solo(s) && Enabled(s, a) && Within(s, a, OneAtATime)
    ensures !Strands(s, a, l)
  {
    hide CountsOk, QueuesOk, BooksOk, ReservedOk, SlotOk, AttemptOk;
    if a.Receive? {
      assert SoloWait(s, a.w);
    } else if a.Abandon? {
      assert SoloWait(s, a.w) && WaitOk(s, a.w);
    }
  }

  // A change that leaves every open wait, its attempt and its slot as they were.
  lemma SoloSame(s: State, s': State)
    requires Solo(s) && s'.waits == s.waits && |s.attempts| <= |s'.attempts|
    requires forall a | 0 <= a < |s.attempts| && s.attempts[a].phase == Body ::
               s'.attempts[a].phase == Body && s'.attempts[a].held == s.attempts[a].held
    requires forall l: nat | IsFree(s, l) :: IsFree(s', l)
    ensures Solo(s')
  {
    forall w: nat | w < |s'.waits| ensures SoloWait(s', w) {
      assert SoloWait(s, w);
    }
  }

  lemma {:induction false} DrainSolo(s: State, p: string)
    requires Solo(s)
    ensures Solo(Drain(s, p)) && Drain(s, p).attempts == s.attempts && |Drain(s, p).waits| == |s.waits|
    ensures forall l: nat | IsFree(s, l) :: IsFree(Drain(s, p), l)
    decreases |Queue(s, p)|
  {
    hide Solo, IsFree;
    var queue := Queue(s, p);
    if queue != [] && Free(s, p) > 0 {
      var popped := s.(queues := s.queues[p := queue[1..]]);
      FreeAlike(s, popped);
      SoloSame(s, popped);
      if !Waits(s, queue[0]) {
        DrainSolo(popped, p);
      } else {
        ServeSolo(popped, p, queue[0]);
        DrainSolo(Serve(popped, p, queue[0]), p);
      }
    }
  }

  lemma FreeAlike(s: State, s': State)
    requires |s.slots| <= |s'.slots| && s'.slots[..|s.slots|] == s.slots
    ensures forall l: nat | IsFree(s, l) :: IsFree(s', l)
  {
    forall l: nat | IsFree(s, l) ensures IsFree(s', l) {
      assert s'.slots[..|s.slots|][l] == s.slots[l];
    }
  }

  lemma ServeSolo(s: State, p: string, w: nat)
    requires Solo(s) && Waits(s, w)
    ensures Solo(Serve(s, p, w)) && forall l: nat | IsFree(s, l) :: IsFree(Serve(s, p, w), l)
  {
    var s' := Serve(s, p, w);
    forall x: nat | x < |s'.waits| ensures SoloWait(s', x) {
      assert SoloWait(s, x);
    }
  }

  lemma PoolTurnSolo(s: State, a: Step)
    requires Solo(s) && Enabled(s, a) && a.PoolTurn?
    ensures Solo(Next(s, a)) && |Next(s, a).waits| == |s.waits|
  {
    hide Solo, Drain, AcquireAll, Free, IsFree;
    var p := s.turn.todo[0];
    DrainSolo(s, p);
    AcquireAllAdds(Drain(s, p), p, Free(Drain(s, p), p));
    FreeAlike(Drain(s, p), Next(s, a));
    SoloSame(Drain(s, p), Next(s, a));
  }

  lemma ClaimSolo(s: State, a: Step)
    requires Solo(s) && Enabled(s, a) && (a.Claimed? || a.ClaimFailed? || a.Stop? || a.TickEnd?)
    ensures Solo(Next(s, a)) && Next(s, a).waits == s.waits
  {
    hide Solo, SpawnAll, ReleaseAll;
    if a.Claimed? {
      var slots, rows := s.turn.slots, Taken(a.ready, |s.turn.slots|);
      SpawnAllStarts(s, rows, slots);
      SpawnAllKeepsSlots(s, rows, slots);
      var spawned := SpawnAll(s, rows, slots);
      ReleasedStay(spawned, slots[|rows|..]);
      forall l: nat | IsFree(s, l) ensures IsFree(Next(s, a), l) {
        assert spawned.slots[l].released == s.slots[l].released;
        assert IsFree(spawned, l);
      }
    } else {
      ReleasedStay(s, Reserved(s.turn));
      forall l: nat | IsFree(s, l) ensures IsFree(Next(s, a), l) {
        assert IsFree(ReleaseAll(s, Reserved(s.turn)), l);
      }
    }
    SoloSame(s, Next(s, a));
  }

  lemma {:induction false} ReleasedStay(s: State, ids: seq<nat>)
    ensures var s' := ReleaseAll(s, ids);
            && s'.attempts == s.attempts && s'.waits == s.waits && |s'.slots| == |s.slots|
            && forall l: nat | IsFree(s, l) :: IsFree(s', l)
    decreases |ids|
  {
    if ids != [] {
      ReleasedStay(Release(s, ids[0]), ids[1..]);
    }
  }

  lemma RegistrySolo(s: State, a: Step)
    requires Solo(s) && Enabled(s, a) && (a.Register? || a.Rebind? || a.Unregister?)
    ensures Solo(Next(s, a)) && Next(s, a).waits == s.waits
  {
    hide Solo;
    SoloSame(s, Next(s, a));
  }

  lemma ReapSolo(s: State, a: Step)
    requires Solo(s) && Enabled(s, a) && (a.UnregisterDone? || a.Tick?)
    ensures Solo(Next(s, a)) && Next(s, a).waits == s.waits
  {
    hide Solo, Reap;
    ReapTouches(s);
    ReapFrees(s);
    SoloSame(s, Next(s, a));
  }

  lemma ReapFrees(s: State)
    ensures forall l: nat | IsFree(s, l) :: IsFree(Reap(s), l)
  {
    hide Reaped;
    ReleaseEndedSlots(s, |s.attempts|);
  }

  lemma QuietSolo(s: State, a: Step)
    requires Solo(s) && Enabled(s, a) && (a.Begin? || a.Cut? || a.EndUnbegun?)
    ensures Solo(Next(s, a)) && Next(s, a).waits == s.waits
  {
    hide Solo;
    SoloSame(s, Next(s, a));
  }

  lemma EnterSolo(s: State, a: Step)
    requires Solo(s) && Enabled(s, a) && a.Enter? && Within(s, a, OneAtATime)
    ensures Solo(Next(s, a))
  {
    var s' := Next(s, a);
    forall w: nat | w < |s'.waits| ensures SoloWait(s', w) {
      assert w < |s.waits| ==> SoloWait(s, w);
    }
    forall w: nat | w < |s.waits| && s.waits[w].stage != Closed ensures s.waits[w].attempt != a.a {
      assert w in OpenWaits(s, s.waits[w].attempt);
    }
  }

  lemma OnlyOpen(s: State, w: nat, x: nat)
    requires Solo(s) && w < |s.waits| && x < |s.waits| && w != x
    ensures s.waits[w].stage != Closed && s.waits[x].stage != Closed ==> s.waits[w].attempt != s.waits[x].attempt
  {
    if w > x {
      assert s.waits[x].stage != Closed && s.waits[w].stage != Closed ==> s.waits[x].attempt != s.waits[w].attempt;
    }
  }

  // A wait that is open moves on, past its first transaction only once its slot is back.
  lemma StageSolo(s: State, w: nat, stage: Stage)
    requires Solo(s) && w < |s.waits| && s.waits[w].stage != Closed
    requires stage == Closed || IsFree(s, s.waits[w].lease)
    ensures Solo(SetStage(s, w, stage))
  {
    var s' := SetStage(s, w, stage);
    forall x: nat | x < |s'.waits| ensures SoloWait(s', x) {
      assert SoloWait(s, x);
    }
  }

  lemma FlagSolo(s: State, a: nat, waiting: bool)
    requires Solo(s)
    ensures Solo(SetWaiting(s, a, waiting))
  {
    hide Solo;
    SoloSame(s, SetWaiting(s, a, waiting));
  }

  lemma ReleaseSolo(s: State, l: nat)
    requires Solo(s)
    ensures Solo(Release(s, l)) && (l < |s.slots| ==> IsFree(Release(s, l), l))
    ensures Release(s, l).waits == s.waits && Release(s, l).attempts == s.attempts
  {
    hide Solo;
    SoloSame(s, Release(s, l));
  }

  lemma SuspendSolo(s: State, a: Step)
    requires Solo(s) && Enabled(s, a) && a.Suspend? && s.waits[a.w].lease < |s.slots|
    ensures Solo(Next(s, a))
  {
    hide Solo, Release;
    var v := s.waits[a.w];
    var raised := SetWaiting(s, v.attempt, true);
    FlagSolo(s, v.attempt, true);
    ReleaseSolo(raised, v.lease);
    StageSolo(Release(raised, v.lease), a.w, Open);
  }

  lemma AskSolo(s: State, a: Step)
    requires Solo(s) && Enabled(s, a) && a.Ask?
    ensures Solo(Next(s, a))
  {
    hide Solo;
    var v := s.waits[a.w];
    var lowered := SetWaiting(s, v.attempt, false);
    SoloAt(s, a.w);
    FlagSolo(s, v.attempt, false);
    StageSolo(lowered, a.w, Queued);
    SoloSame(SetStage(lowered, a.w, Queued), Next(s, a));
  }

  lemma SoloAt(s: State, w: nat)
    requires Solo(s) && w < |s.waits|
    ensures SoloWait(s, w)
  {
  }

  lemma AbandonSolo(s: State, a: Step)
    requires Solo(s) && Enabled(s, a) && a.Abandon?
    ensures Solo(Next(s, a))
  {
    hide Solo, Release;
    var v := s.waits[a.w];
    if v.stage.Open? {
      FlagSolo(s, v.attempt, false);
      StageSolo(SetWaiting(s, v.attempt, false), a.w, Closed);
    } else if v.stage.Served? {
      ReleaseSolo(s, v.stage.slot);
      StageSolo(Release(s, v.stage.slot), a.w, Closed);
    } else {
      StageSolo(s, a.w, Closed);
    }
  }

  lemma ReceiveSolo(s: State, a: Step)
    requires Solo(s) && Enabled(s, a) && a.Receive?
    ensures Solo(Next(s, a))
  {
    var s' := Next(s, a);
    forall w: nat | w < |s'.waits| ensures SoloWait(s', w) {
      assert SoloWait(s, w);
      if w != a.w {
        OnlyOpen(s, a.w, w);
      }
    }
  }

  lemma EndSolo(s: State, a: Step)
    requires Solo(s) && Enabled(s, a) && a.End?
    ensures Solo(Next(s, a))
  {
    hide Solo, Release;
    var t := s.attempts[a.a];
    ReleaseSolo(s, t.held);
    ReleaseSolo(Release(s, t.held), t.first);
    SoloSame(Release(Release(s, t.held), t.first), Next(s, a));
  }

  // A body that closes has no wait open.
  lemma CloseSolo(s: State, a: Step)
    requires Solo(s) && Enabled(s, a) && a.Close? && Within(s, a, OneAtATime)
    ensures Solo(Next(s, a))
  {
    var s' := Next(s, a);
    forall w: nat | w < |s'.waits| ensures SoloWait(s', w) {
      assert SoloWait(s, w);
      assert s.waits[w].stage != Closed ==> w in OpenWaits(s, s.waits[w].attempt);
    }
  }

  lemma LeaseInRange(s: State, a: Step)
    requires Inv(s) && Enabled(s, a) && a.Suspend?
    ensures s.waits[a.w].lease < |s.slots|
  {
    hide CountsOk, OwnersAt, QueuesOk, BooksOk;
    WaitIsOk(s, Reserved(s.turn), a.w);
  }

  lemma StepSolo(s: State, a: Step)
    requires Inv(s) && Solo(s) && Enabled(s, a) && Within(s, a, OneAtATime)
    ensures Solo(Next(s, a))
  {
    hide Inv, Solo, Enabled, Next, Within;
    if a.PoolTurn? {
      PoolTurnSolo(s, a);
    } else if a.Claimed? || a.ClaimFailed? || a.Stop? || a.TickEnd? {
      ClaimSolo(s, a);
    } else if a.Register? || a.Rebind? || a.Unregister? {
      RegistrySolo(s, a);
    } else if a.Tick? || a.UnregisterDone? {
      ReapSolo(s, a);
    } else if a.Enter? {
      EnterSolo(s, a);
    } else if a.Suspend? {
      LeaseInRange(s, a);
      SuspendSolo(s, a);
    } else if a.Abandon? {
      AbandonSolo(s, a);
    } else if a.Ask? {
      AskSolo(s, a);
    } else if a.Receive? {
      ReceiveSolo(s, a);
    } else if a.Close? {
      CloseSolo(s, a);
    } else if a.End? {
      EndSolo(s, a);
    } else {
      QuietSolo(s, a);
    }
  }

  lemma {:induction false} RunSolo(s: State, trace: seq<Step>, l: nat)
    requires Inv(s) && Solo(s) && LimitedRun(s, trace, OneAtATime)
    ensures Solo(EndOf(s, trace)) && !Strayed(s, trace, l, false)
    decreases |trace|
  {
    hide Inv, Solo, Enabled, Next, Within, Strands;
    if trace != [] {
      SoloStrandsNone(s, trace[0], l);
      StepKeeps(s, trace[0]);
      StepSolo(s, trace[0]);
      RunSolo(Next(s, trace[0]), trace[1..], l);
    }
  }

  // ------------------------------------------------------------------------
  // One wait at a time, within the body
  // ------------------------------------------------------------------------

  lemma SoloReachable(trace: seq<Step>)
    requires LimitedRun(Empty, trace, OneAtATime)
    ensures Inv(EndOf(Empty, trace)) && Solo(EndOf(Empty, trace))
  {
    hide Inv, Solo, IsRun, EndOf;
    EmptySolo();
    Reachable(trace);
    RunSolo(Empty, trace, 0);
  }

  lemma EmptySolo()
    ensures Inv(Empty) && Solo(Empty)
  {
  }

  // No slot leaks while a body waits once at a time: each slot that is out is reserved for
  // the claim in progress, or one that its attempt, or a wait of it, will give back.
  lemma SlotsAreAccounted(trace: seq<Step>, l: nat)
    requires LimitedRun(Empty, trace, OneAtATime)
    ensures var s := EndOf(Empty, trace);
            IsOut(s, l) ==> l in Reserved(s.turn) || Kept(s, l) || Asked(s.waits, l) || Handed(s.waits, l)
  {
    hide Kept, Asked, Handed, Strands;
    EmptySolo();
    RunSolo(Empty, trace, l);
    StrayExactly(trace, l);
    SlotsAreConserved(trace, "", l);
  }

  // The attempt of a slot someone has is live.
  lemma HolderLives(s: State, l: nat)
    requires Inv(s) && Solo(s) && l < |s.slots| && s.slots[l].attempt.Some?
    requires Kept(s, l) || Asked(s.waits, l) || Handed(s.waits, l)
    ensures s.slots[l].attempt.value in s.live
  {
    hide CountsOk, QueuesOk, BooksOk, ReservedOk, SlotOk;
    var a := s.slots[l].attempt.value;
    if Asked(s.waits, l) || Handed(s.waits, l) {
      var w :| 0 <= w < |s.waits|
          && ((s.waits[w].stage == Asking && s.waits[w].lease == l) || s.waits[w].stage == Served(l));
      assert SoloWait(s, w) && WaitOk(s, w);
    }
    assert AttemptOk(s, a);
  }

  // An attempt that is reaped has nothing out.
  lemma GoneHoldsNothing(trace: seq<Step>, a: nat, l: nat)
    requires LimitedRun(Empty, trace, OneAtATime)
    ensures var s := EndOf(Empty, trace);
            a !in s.live && IsFor(s, l, a) ==> IsFree(s, l)
  {
    hide Inv, Solo, Kept, Asked, Handed;
    SoloReachable(trace);
    var s := EndOf(Empty, trace);
    if a !in s.live && IsFor(s, l, a) && IsOut(s, l) {
      SlotsAreAccounted(trace, l);
      SlotsAreConserved(trace, "", l);
      HolderLives(s, l);
      assert false;
    }
  }

  // Once no attempt is live and no claim is in progress, no slot is out.
  lemma IdleHoldsNothing(trace: seq<Step>, p: string)
    requires LimitedRun(Empty, trace, OneAtATime)
    ensures var s := EndOf(Empty, trace);
            s.live == {} && !s.turn.Claiming? && p in s.capacity ==> p in s.leased && s.leased[p] == 0
  {
    hide Inv;
    var s := EndOf(Empty, trace);
    SlotsAreConserved(trace, p, 0);
    if s.live == {} && !s.turn.Claiming? && p in s.capacity {
      forall l: nat ensures !IsOut(s, l) {
        SlotsAreConserved(trace, p, l);
        if IsOut(s, l) {
          GoneHoldsNothing(trace, s.slots[l].attempt.value, l);
        }
      }
      assert forall l | l in Out(s, p) :: IsOut(s, l);
      assert Out(s, p) == {};
    }
  }

  // When an unregistration returns, every slot of the attempts it waited for is back.
  lemma UnregisteredHoldNothing(trace: seq<Step>, k: nat, a: nat, l: nat)
    requires LimitedRun(Empty, trace, OneAtATime) && Enabled(EndOf(Empty, trace), UnregisterDone(k))
    ensures var s := EndOf(Empty, trace);
            var s' := Next(s, UnregisterDone(k));
            a in s.leaving[k].waiting && IsFor(s', l, a) ==> IsFree(s', l)
  {
    hide Inv, Enabled, Next, Solo;
    var step := UnregisterDone(k);
    UnregisterIsComplete(trace, k, a);
    LimitedNext(Empty, trace, step, OneAtATime);
    GoneHoldsNothing(trace + [step], a, l);
  }

  // One step more of a run.
  lemma {:induction false} LimitedNext(s: State, trace: seq<Step>, a: Step, lim: Limits)
    requires LimitedRun(s, trace, lim) && Enabled(EndOf(s, trace), a) && Within(EndOf(s, trace), a, lim)
    ensures LimitedRun(s, trace + [a], lim) && EndOf(s, trace + [a]) == Next(EndOf(s, trace), a)
    decreases |trace|
  {
    hide Enabled, Next, Within;
    if trace == [] {
      assert [] + [a] == [a] && [a][1..] == [];
    } else {
      assert (trace + [a])[1..] == trace[1..] + [a];
      LimitedNext(Next(s, trace[0]), trace[1..], a, lim);
    }
  }
}
