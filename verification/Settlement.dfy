/** When a run ends. A running run has a pending row, or one of its returns was a list
    routed to two joins or more and to nothing else: then no branch's frame is on any row,
    the joins are not seen as partial, and nothing is left to settle the run. */
module Settlement {
  import opened Base
  import opened Json
  import opened Graphs
  import opened Rows
  import opened Routing
  import opened Store
  import opened Machine
  import opened Nesting
  import opened Tokens
  import opened Joins
  import Once
  import Runner

  // What every forward run keeps.
  ghost predicate Sound(s: State) {
    Inv(s) && Linear(s.db, s.returned) && Once.ExactlyOnce(s) && JoinsInv(s.db, s.returned)
  }

  lemma StepSound(s: State, a: Step)
    requires Sound(s) && ForwardStep(a) && Enabled(s, a)
    ensures Sound(Next(s, a))
  {
    hide Inv, Linear, Once.ExactlyOnce, JoinsInv, Apply, Enabled, Next;
    StepLinear(s, a);
    Once.StepOnce(s, a);
    StepJoins(s, a);
  }

  lemma {:induction false} RunSound(s: State, trace: seq<Step>)
    requires Sound(s) && ForwardRun(s, trace)
    ensures Sound(End(s, trace))
    decreases |trace|
  {
    hide Sound, Enabled, Next;
    if trace != [] {
      assert ForwardStep(trace[0]);
      StepSound(s, trace[0]);
      RunSound(Next(s, trace[0]), trace[1..]);
    }
  }

  // A branch of the fan-out goes to a node rather than straight to a join.
  predicate SendsToNode(r: Return) {
    exists i | 0 <= i < |r.joins| :: !r.joins[i]
  }

  // A list routed to joins only, and not all to the same one.
  predicate Scatters(r: Return) {
    && r.fanning && !SendsToNode(r)
    && exists i, j | 0 <= i < |r.hops| && 0 <= j < |r.hops| :: r.hops[i].target != r.hops[j].target
  }

  // ------------------------------------------------------------------------
  // What the store calls an incomplete join
  // ------------------------------------------------------------------------

  predicate Partial(s: State, p: Place) {
    && p in s.db.arrivals && p.fanout in s.returned
    && !AllArrived(s.db.arrivals, p.run, p.join, p.fanout, |s.returned[p.fanout].hops|)
  }

  lemma NamedFrame(s: State, id: nat, fanout: nat, k: nat)
    requires Inv(s) && JoinsInv(s.db, s.returned) && id < |s.db.tasks| && k < |s.db.tasks[id].branch|
    requires s.db.tasks[id].branch[k].fanout == fanout
    ensures fanout in s.returned && s.db.tasks[id].branch[k].count == |s.returned[fanout].hops|
        && SendsToNode(s.returned[fanout])
  {
    hide PlacesOk, Dispatched, OneDispatch, Prompt;
    FramesOk(s, id, k);
    RowTrodden(s.db, s.returned, id);
  }

  // The store knows the width of a fan-out exactly when one of its branches went to a node.
  lemma WidthKnown(s: State, p: Place)
    requires Sound(s) && p in s.db.arrivals
    ensures p.fanout in s.returned
    ensures p.fanout in Widths(s.db.tasks, p.run) <==> SendsToNode(s.returned[p.fanout])
    ensures p.fanout in Widths(s.db.tasks, p.run) ==> Widths(s.db.tasks, p.run)[p.fanout] == |s.returned[p.fanout].hops|
  {
    hide Linear, JoinsInv, Widths, Nested, RunsOk, LiveOk, Once.WrittenUpto;
    var tasks, f := s.db.tasks, p.fanout;
    assert PlaceOk(tasks, s.returned, p, s.db.arrivals[p]);
    WidthsMean(tasks, p.run, f);
    if f in Widths(tasks, p.run) {
      var id, k :| 0 <= id < |tasks| && tasks[id].run == p.run && 0 <= k < |tasks[id].branch|
        && tasks[id].branch[k].fanout == f && tasks[id].branch[k].count == Widths(tasks, p.run)[f];
      NamedFrame(s, id, f, k);
    }
    if SendsToNode(s.returned[f]) {
      var i :| 0 <= i < |s.returned[f].joins| && !s.returned[f].joins[i];
      var c := ChildOf(s, f, i);
      assert tasks[c].branch[|tasks[f].branch|].fanout == f;
      assert Names(tasks[c].branch, f);
    }
  }

  // The row a transition of a done row was written as.
  lemma ChildOf(s: State, id: nat, i: nat) returns (c: nat)
    requires Once.ExactlyOnce(s) && id < |s.db.tasks| && s.db.tasks[id].status == Done
    requires id in s.returned && i < |s.returned[id].joins| && !s.returned[id].joins[i]
    ensures |s.returned[id].joins| == |s.returned[id].hops| && Once.IsChild(s.db.tasks, s.returned, id, i, c)
  {
    assert Once.RowOnce(s.db.tasks, s.db.arrivals, s.returned, id);
    assert Once.HopWritten(s.db.tasks, s.db.arrivals, s.returned, id, i);
    c :| Once.IsChild(s.db.tasks, s.returned, id, i, c);
  }

  // The place a transition of a done row landed at.
  lemma PlaceOfHop(s: State, id: nat, i: nat) returns (p: Place)
    requires Once.ExactlyOnce(s) && id < |s.db.tasks| && s.db.tasks[id].status == Done
    requires id in s.returned && i < |s.returned[id].joins| && s.returned[id].joins[i]
    ensures |s.returned[id].joins| == |s.returned[id].hops|
    ensures Once.IsArrival(s.db.tasks, s.db.arrivals, s.returned, id, i, p)
  {
    assert Once.RowOnce(s.db.tasks, s.db.arrivals, s.returned, id);
    assert Once.HopWritten(s.db.tasks, s.db.arrivals, s.returned, id, i);
    p :| Once.IsArrival(s.db.tasks, s.db.arrivals, s.returned, id, i, p);
  }

  // The store finds a join of the run incomplete exactly when some but not all branches of
  // a fan-out are at a join, and at least one of them went to a node.
  lemma IncompleteMeans(s: State, run: string)
    requires Sound(s)
    ensures HasIncomplete(s.db, run) <==> exists p :: Partial(s, p) && p.run == run && SendsToNode(s.returned[p.fanout])
  {
    hide Sound, Widths, Indexes, AllArrived, SendsToNode;
    forall p | p in s.db.arrivals && p.run == run
      ensures p.fanout in s.returned && (Short(s.db, run, p) <==> Partial(s, p) && SendsToNode(s.returned[p.fanout]))
    {
      WidthKnown(s, p);
      SoundPlaces(s);
      CountIsAll(s.db, s.returned, run, p.join, p.fanout);
    }
  }

  lemma SoundPlaces(s: State)
    requires Sound(s)
    ensures PlacesOk(s.db.arrivals, s.db.tasks, s.returned) && Inv(s)
  {
  }

  // ------------------------------------------------------------------------
  // What a success leaves pending
  // ------------------------------------------------------------------------

  // Row id of s is done in s', its return written and nothing else changed of what is
  // written.
  ghost predicate Writes(s: State, s': State, id: nat) {
    && Sound(s) && Sound(s') && Held(s, id) && |s.db.tasks| <= |s'.db.tasks|
    && Runner.Added(s.db.tasks[id].run, id, s.db.tasks[id := s'.db.tasks[id]], s'.db.tasks)
    && s'.db.tasks[id].status == Done
    && s'.db.tasks[id].run == s.db.tasks[id].run && s'.db.tasks[id].branch == s.db.tasks[id].branch
    && s'.db.tasks[id].lineage == s.db.tasks[id].lineage && s'.db.tasks[id].node == s.db.tasks[id].node
    && id in s'.returned && s'.returned == s.returned[id := s'.returned[id]]
    && (forall p | p in s.db.arrivals :: p in s'.db.arrivals)
    && (forall p | p in s'.db.arrivals && p !in s.db.arrivals :: s'.db.arrivals[p].from == id)
  }

  lemma SuccessIsWriting(s: State, a: Step)
    requires Sound(s) && a.Succeed? && Enabled(s, a)
    ensures Writes(s, Next(s, a), a.id)
  {
    hide Runner.Written, Runner.SettleRun, Runner.Route, Runner.Reading, Jsonable, IsFanOut, Inv, Linear,
        Once.ExactlyOnce, JoinsInv;
    StepSound(s, a);
    var done := Finish(s.db, a.id, Done, Some(Jsonable(a.value)), Runner.Reading(s.db, a.id, a.g, a.value).value == []);
    Once.SuccessRoutes(s, a, done);
    var s' := Next(s, a);
    assert done.tasks == s.db.tasks[a.id := s'.db.tasks[a.id]];
    assert Once.KeepsWriting(done.tasks, done.arrivals, s'.db.tasks, s'.db.arrivals, |s'.db.tasks|);
    forall p | p in s'.db.arrivals && p !in s.db.arrivals ensures s'.db.arrivals[p].from == a.id {
      var from := s'.db.arrivals[p].from;
      assert from != a.id ==> Once.KeepsWriting(done.tasks, done.arrivals, s'.db.tasks, s'.db.arrivals, from);
    }
  }

  lemma HeldNotDone(s: State, id: nat)
    requires Sound(s) && Held(s, id)
    ensures Interrupted(s.db.tasks[id].status) && id !in s.returned
  {
    hide Nested, PlacesOk, Linear, Once.ExactlyOnce, JoinsInv;
  }

  lemma NewRowPends(s: State, s': State, id: nat, c: nat)
    requires Writes(s, s', id) && |s.db.tasks| <= c < |s'.db.tasks|
    ensures HasPending(s'.db.tasks, s.db.tasks[id].run)
  {
    hide Sound;
    assert Runner.Fresh(s.db.tasks[id].run, id, s'.db.tasks[c]);
  }

  // A transition to a node leaves a row pending.
  lemma NodeHopPends(s: State, s': State, id: nat)
    requires Writes(s, s', id) && SendsToNode(s'.returned[id])
    ensures HasPending(s'.db.tasks, s.db.tasks[id].run)
  {
    hide Inv, Linear, JoinsInv, Once.WrittenUpto, Once.Written;
    var i :| 0 <= i < |s'.returned[id].joins| && !s'.returned[id].joins[i];
    HeldNotDone(s, id);
    var c := ChildOf(s', id, i);
    assert Once.RowOnce(s.db.tasks, s.db.arrivals, s.returned, id);
    assert c < |s.db.tasks| ==>
        s'.db.tasks[c].lineage == s.db.tasks[c].lineage && !Once.IsTransition(s.db.tasks, id, c);
    NewRowPends(s, s', id, c);
  }

  // A branch that has arrived is on no stack that is carried, and its fan-out is done.
  lemma ArrivalApart(s: State, id: nat, p: Place)
    requires Sound(s) && Carries(s.db.tasks, p.run, id)
    ensures p in s.db.arrivals ==> p.fanout in s.returned && !Under(s.db.tasks[id].branch, p.fanout, p.index)
  {
    hide Once.ExactlyOnce, JoinsInv, Nested, RunsOk, LiveOk;
    assert p in s.db.arrivals ==> PlaceOk(s.db.tasks, s.returned, p, s.db.arrivals[p]);
  }

  lemma DispatchIsOk(s: State, c: nat)
    requires Sound(s)
    ensures c < |s.db.tasks| && s.db.tasks[c].lineage.reason == JoinReason ==>
              DispatchOk(s.db.tasks, s.db.arrivals, s.returned, s.db.tasks[c])
  {
    hide Inv, Linear, Once.ExactlyOnce, PayloadOk;
  }

  // The place of a branch this success lands is new.
  lemma LandsNew(s: State, s': State, id: nat, i: nat, p: Place)
    requires Writes(s, s', id) && i < |s'.returned[id].hops|
        && Once.IsArrival(s'.db.tasks, s'.db.arrivals, s'.returned, id, i, p)
    ensures p !in s.db.arrivals
    ensures s'.returned[id].fanning ==> p.fanout == id && p.index == i
    ensures p.run == s.db.tasks[id].run && p.join == s'.returned[id].hops[i].target
    ensures p.fanout in s'.returned && p.index < |s'.returned[p.fanout].hops|
    ensures !s'.returned[id].fanning ==> s.db.tasks[id].branch != [] && p.fanout == Top(s.db.tasks[id].branch).fanout
  {
    hide Once.ExactlyOnce, JoinsInv, Nested, RunsOk, LiveOk;
    HeldNotDone(s, id);
    ArrivalApart(s, id, p);
    assert PlaceOk(s'.db.tasks, s'.returned, p, s'.db.arrivals[p]);
  }

  // A join this success completes leaves the join's task pending.
  lemma FiredPends(s: State, s': State, id: nat, i: nat, p: Place)
    requires Writes(s, s', id) && i < |s'.returned[id].hops|
        && Once.IsArrival(s'.db.tasks, s'.db.arrivals, s'.returned, id, i, p)
    requires Fired(s'.db.tasks, p.run, p.join, p.fanout)
    ensures HasPending(s'.db.tasks, s.db.tasks[id].run)
  {
    hide Inv, Linear, Once.ExactlyOnce, PayloadOk;
    LandsNew(s, s', id, i, p);
    var c :| 0 <= c < |s'.db.tasks| && IsDispatch(s'.db.tasks[c], p.run, p.join, p.fanout);
    HeldNotDone(s, id);
    DispatchIsOk(s, c);
    assert p == Place(p.run, p.join, p.fanout, p.index);
    NewRowPends(s, s', id, c);
  }

  lemma PromptAt(s: State, p: Place)
    requires Sound(s) && p in s.db.arrivals && p.fanout in s.returned
    requires AllArrived(s.db.arrivals, p.run, p.join, p.fanout, |s.returned[p.fanout].hops|)
    ensures Fired(s.db.tasks, p.run, p.join, p.fanout)
  {
    hide Inv, Linear, Once.ExactlyOnce, AllArrived, Fired;
  }

  // A list routed to one join and nothing else completes it.
  lemma OneJoinPends(s: State, s': State, id: nat)
    requires Writes(s, s', id) && s'.returned[id].fanning && s'.returned[id].hops != []
    requires !SendsToNode(s'.returned[id]) && !Scatters(s'.returned[id])
    ensures HasPending(s'.db.tasks, s.db.tasks[id].run)
  {
    hide Inv, Linear, JoinsInv, Once.ExactlyOnce;
    var r, run := s'.returned[id], s.db.tasks[id].run;
    var join := r.hops[0].target;
    ReturnedLengths(s', id);
    forall i: nat | i < |r.hops| ensures Place(run, join, id, i) in s'.db.arrivals {
      var p := PlaceOfHop(s', id, i);
      LandsNew(s, s', id, i, p);
      assert r.hops[i].target == r.hops[0].target;
    }
    var p := PlaceOfHop(s', id, 0);
    LandsNew(s, s', id, 0, p);
    PromptAt(s', p);
    FiredPends(s, s', id, 0, p);
  }

  lemma ReturnedLengths(s: State, id: nat)
    requires Sound(s) && id in s.returned
    ensures id < |s.db.tasks| && s.db.tasks[id].status == Done
    ensures |s.returned[id].joins| == |s.returned[id].hops|
    ensures if s.returned[id].fanning then s.returned[id].hops != [] else |s.returned[id].hops| <= 1
  {
    hide Nested, PlacesOk, Linear, JoinsInv, Once.ExactlyOnce;
  }

  // One branch landing at a join it does not complete leaves the join incomplete.
  lemma LoneArrivalIsSeen(s: State, s': State, id: nat)
    requires Writes(s, s', id) && !s'.returned[id].fanning && s'.returned[id].hops != []
        && !SendsToNode(s'.returned[id])
    requires !HasPending(s'.db.tasks, s.db.tasks[id].run)
    ensures HasIncomplete(s'.db, s.db.tasks[id].run)
  {
    hide Inv, Linear, JoinsInv, Once.ExactlyOnce, AllArrived, SendsToNode, HasPending, Fired;
    ReturnedLengths(s', id);
    JoinHop(s'.returned[id], 0);
    var p := PlaceOfHop(s', id, 0);
    LandsNew(s, s', id, 0, p);
    if AllArrived(s'.db.arrivals, p.run, p.join, p.fanout, |s'.returned[p.fanout].hops|) {
      PromptAt(s', p);
      FiredPends(s, s', id, 0, p);
      assert false;
    }
    NamedFrame(s', id, p.fanout, |s'.db.tasks[id].branch| - 1);
    assert Partial(s', p);
    IncompleteMeans(s', p.run);
  }

  lemma JoinHop(r: Return, i: nat)
    requires !SendsToNode(r) && i < |r.joins|
    ensures r.joins[i]
  {
  }

  // So a return that leaves nothing pending and nothing incomplete either ended its branch
  // or was scattered.
  lemma NothingLeft(s: State, s': State, id: nat)
    requires Writes(s, s', id)
    requires !HasPending(s'.db.tasks, s.db.tasks[id].run) && !HasIncomplete(s'.db, s.db.tasks[id].run)
    ensures s'.returned[id].hops == [] || Scatters(s'.returned[id])
  {
    hide Sound, HasPending, HasIncomplete, Scatters, SendsToNode;
    var r := s'.returned[id];
    if r.hops != [] && !Scatters(r) {
      if SendsToNode(r) {
        NodeHopPends(s, s', id);
      } else if r.fanning {
        OneJoinPends(s, s', id);
      } else {
        LoneArrivalIsSeen(s, s', id);
      }
      assert false;
    }
  }

  // ------------------------------------------------------------------------
  // What a scattered return, or an ended branch, leaves
  // ------------------------------------------------------------------------

  // No row of the return is new: none was sent to a node, and no join was completed.
  lemma NoNewRow(s: State, s': State, id: nat)
    requires Writes(s, s', id) && (s'.returned[id].hops == [] || Scatters(s'.returned[id]))
    ensures |s'.db.tasks| == |s.db.tasks|
  {
    hide Inv, Linear, JoinsInv, Once.ExactlyOnce;
    if |s'.db.tasks| > |s.db.tasks| {
      var c := |s.db.tasks|;
      assert Runner.Fresh(s.db.tasks[id].run, id, s'.db.tasks[c]);
      if s'.db.tasks[c].lineage.reason == JoinReason {
        NoDispatch(s, s', id, c);
      } else {
        NothingToNode(s', id);
        NoTransition(s', id, c);
      }
      assert false;
    }
  }

  lemma NothingToNode(s: State, id: nat)
    requires Sound(s) && id in s.returned && (s.returned[id].hops == [] || Scatters(s.returned[id]))
    ensures !SendsToNode(s.returned[id])
  {
    hide Inv, Linear, JoinsInv, Once.ExactlyOnce;
    ReturnedLengths(s, id);
  }

  lemma NoTransition(s: State, id: nat, c: nat)
    requires Sound(s) && id in s.returned && !SendsToNode(s.returned[id])
    ensures !Once.IsTransition(s.db.tasks, id, c)
  {
    hide Inv, Linear, JoinsInv;
    ReturnedLengths(s, id);
    assert Once.RowOnce(s.db.tasks, s.db.arrivals, s.returned, id);
    assert Once.NothingElse(s.db.tasks, s.db.arrivals, s.returned, id, |s.returned[id].hops|);
  }

  // An arrival of the return, as one of its transitions.
  lemma HopOfArrival(s: State, id: nat, p: Place) returns (i: nat)
    requires Sound(s) && id in s.returned && p in s.db.arrivals && s.db.arrivals[p].from == id
    ensures id < |s.db.tasks| && i < |s.returned[id].hops| == |s.returned[id].joins|
    ensures s.returned[id].joins[i] && Once.IsArrival(s.db.tasks, s.db.arrivals, s.returned, id, i, p)
  {
    hide Inv, Linear, JoinsInv;
    ReturnedLengths(s, id);
    assert Once.RowOnce(s.db.tasks, s.db.arrivals, s.returned, id);
    i :| i < |s.returned[id].hops| && s.returned[id].joins[i]
        && Once.IsArrival(s.db.tasks, s.db.arrivals, s.returned, id, i, p);
  }

  // A new arrival of a scattered return is one of its own branches.
  lemma ScatteredArrival(s: State, s': State, id: nat, p: Place)
    requires Writes(s, s', id) && (s'.returned[id].hops == [] || Scatters(s'.returned[id]))
    requires p in s'.db.arrivals && p !in s.db.arrivals
    ensures p.fanout == id && Scatters(s'.returned[id])
  {
    hide Sound;
    var i := HopOfArrival(s', id, p);
    LandsNew(s, s', id, i, p);
  }

  lemma NoDispatch(s: State, s': State, id: nat, c: nat)
    requires Writes(s, s', id) && (s'.returned[id].hops == [] || Scatters(s'.returned[id]))
    requires |s.db.tasks| <= c < |s'.db.tasks|
    ensures s'.db.tasks[c].lineage.reason != JoinReason
  {
    hide Sound, Inv, Linear, Once.ExactlyOnce, PayloadOk, Scatters;
    if s'.db.tasks[c].lineage.reason == JoinReason {
      var t := s'.db.tasks[c];
      DispatchIsOk(s', c);
      var f := t.lineage.from.value;
      ReturnedLengths(s', f);
      if f == id {
        ScatteredNotFull(s, s', id, t.node);
        assert false;
      } else {
        WasFired(s, s', id, c, f);
        var d :| 0 <= d < |s.db.tasks| && IsDispatch(s.db.tasks[d], t.run, t.node, f);
        SameDispatchKept(s, s', id, d, c);
        assert false;
      }
    }
  }

  // A join complete after a return that completed none was dispatched before it.
  lemma WasFired(s: State, s': State, id: nat, c: nat, f: nat)
    requires Writes(s, s', id) && (s'.returned[id].hops == [] || Scatters(s'.returned[id]))
    requires c < |s'.db.tasks| && f != id && f in s'.returned && s'.returned[f].hops != []
    requires AllArrived(s'.db.arrivals, s'.db.tasks[c].run, s'.db.tasks[c].node, f, |s'.returned[f].hops|)
    ensures Fired(s.db.tasks, s'.db.tasks[c].run, s'.db.tasks[c].node, f)
  {
    hide Sound, Scatters, Runner.Added, Fired;
    var t := s'.db.tasks[c];
    assert s.returned[f] == s'.returned[f];
    forall i: nat | i < |s.returned[f].hops| ensures Place(t.run, t.node, f, i) in s.db.arrivals {
      assert Place(t.run, t.node, f, i) in s'.db.arrivals;
      if Place(t.run, t.node, f, i) !in s.db.arrivals {
        ScatteredArrival(s, s', id, Place(t.run, t.node, f, i));
      }
    }
    PromptAt(s, Place(t.run, t.node, f, 0));
  }

  lemma SameDispatchKept(s: State, s': State, id: nat, d: nat, c: nat)
    requires Writes(s, s', id) && d < |s.db.tasks| <= c < |s'.db.tasks|
    ensures !SameDispatch(s.db.tasks[d], s'.db.tasks[c])
  {
    hide Inv, Linear, Once.ExactlyOnce, PayloadOk, Dispatched, Prompt, Trodden, SameDispatch;
    assert !SameDispatch(s'.db.tasks[d], s'.db.tasks[c]);
    DispatchLike(s.db.tasks[d], s'.db.tasks[d], s'.db.tasks[c]);
  }

  lemma DispatchLike(a: Task, a': Task, t: Task)
    requires a'.run == a.run && a'.node == a.node && a'.lineage == a.lineage
    ensures SameDispatch(a, t) <==> SameDispatch(a', t)
  {
  }

  // No join gets all branches of a scattered return.
  lemma ScatteredNotFull(s: State, s': State, id: nat, join: string)
    requires Writes(s, s', id) && s'.returned[id].fanning && (s'.returned[id].hops == [] || Scatters(s'.returned[id]))
    ensures !AllArrived(s'.db.arrivals, s.db.tasks[id].run, join, id, |s'.returned[id].hops|)
  {
    hide Inv, Linear, JoinsInv, Once.ExactlyOnce;
    ReturnedLengths(s', id);
    var r, run := s'.returned[id], s.db.tasks[id].run;
    if AllArrived(s'.db.arrivals, run, join, id, |r.hops|) {
      forall i: nat | i < |r.hops| ensures r.hops[i].target == join {
        JoinHop(r, i);
        var p := PlaceOfHop(s', id, i);
        LandsNew(s, s', id, i, p);
        assert Place(run, join, id, i) in s'.db.arrivals;
        OneJoinEach(s', p, Place(run, join, id, i));
      }
      assert false;
    }
  }

  lemma OneJoinEach(s: State, p: Place, q: Place)
    requires Sound(s) && p in s.db.arrivals && q in s.db.arrivals && p.run == q.run && p.fanout == q.fanout
        && p.index == q.index
    ensures p == q
  {
    hide Inv, JoinsInv, Once.ExactlyOnce;
  }

  // The incomplete joins are the ones there were: the new arrivals are not seen.
  lemma ScatterUnseen(s: State, s': State, id: nat)
    requires Writes(s, s', id) && (s'.returned[id].hops == [] || Scatters(s'.returned[id]))
    ensures HasIncomplete(s'.db, s.db.tasks[id].run) <==> HasIncomplete(s.db, s.db.tasks[id].run)
  {
    hide Sound, HasIncomplete, SendsToNode, Runner.Added;
    var run := s.db.tasks[id].run;
    IncompleteMeans(s, run);
    IncompleteMeans(s', run);
    forall p | p in s.db.arrivals
      ensures p.fanout in s.returned && p.fanout != id && (Partial(s, p) <==> Partial(s', p))
    {
      WidthKnown(s, p);
      HeldNotDone(s, id);
      forall i: nat ensures Place(p.run, p.join, p.fanout, i) in s'.db.arrivals <==>
          Place(p.run, p.join, p.fanout, i) in s.db.arrivals {
        if Place(p.run, p.join, p.fanout, i) in s'.db.arrivals && Place(p.run, p.join, p.fanout, i) !in s.db.arrivals {
          ScatteredArrival(s, s', id, Place(p.run, p.join, p.fanout, i));
        }
      }
    }
    forall p | p in s'.db.arrivals && p !in s.db.arrivals
      ensures p.fanout in s'.returned && !SendsToNode(s'.returned[p.fanout])
    {
      ScatteredArrival(s, s', id, p);
    }
  }

  // ------------------------------------------------------------------------
  // The settlement of a success
  // ------------------------------------------------------------------------

  // No other row of the run is pending.
  predicate Alone(tasks: seq<Task>, run: string, id: nat) {
    forall b: nat | b < |tasks| && tasks[b].run == run && Pending(tasks[b].status) :: b == id
  }

  lemma PendingIsOthers(s: State, s': State, id: nat)
    requires Writes(s, s', id) && |s'.db.tasks| == |s.db.tasks|
    ensures HasPending(s'.db.tasks, s.db.tasks[id].run) <==> !Alone(s.db.tasks, s.db.tasks[id].run, id)
  {
    hide Sound;
    var run := s.db.tasks[id].run;
    assert forall b | 0 <= b < |s.db.tasks| && b != id :: s'.db.tasks[b] == s.db.tasks[b];
    if !Alone(s.db.tasks, run, id) {
      var b: nat :| b < |s.db.tasks| && s.db.tasks[b].run == run && Pending(s.db.tasks[b].status) && b != id;
      assert s'.db.tasks[b].run == run && Pending(s'.db.tasks[b].status);
    }
  }

  // What settling makes of a running run.
  lemma Settled(db: Tables, run: string, terminal: bool, now: nat)
    requires run in db.runs && db.runs[run].status == Running
    ensures var db' := Runner.SettleRun(db, run, terminal, now);
            && run in db'.runs
            && db'.runs[run].status ==
               (if HasPending(db.tasks, run) then Running
                else if HasIncomplete(db, run) then RunFailed
                else if terminal then Completed else Running)
  {
    hide HasPending, HasIncomplete, Runner.RunOutput;
  }

  lemma SameIncomplete(db: Tables, db': Tables, run: string)
    requires db'.tasks == db.tasks && db'.arrivals == db.arrivals
    ensures HasIncomplete(db', run) <==> HasIncomplete(db, run)
  {
    hide Widths, Indexes;
    assert forall p :: Short(db', run, p) <==> Short(db, run, p);
  }

  lemma SuccessSettles(s: State, a: Step)
    requires a.Succeed? && Enabled(s, a) && s.db.tasks[a.id].run in s.db.runs
    requires s.db.runs[s.db.tasks[a.id].run].status == Running
    ensures var run, s' := s.db.tasks[a.id].run, Next(s, a);
            && run in s'.db.runs && a.id in s'.returned
            && s'.db.runs[run].status ==
               (if HasPending(s'.db.tasks, run) then Running
                else if HasIncomplete(s'.db, run) then RunFailed
                else if s'.returned[a.id].hops == [] then Completed else Running)
  {
    hide HasPending, HasIncomplete, Runner.SettleRun, Runner.Route, Runner.Reading, Jsonable, IsFanOut;
    var written := Runner.Written(s.db, a.id, a.g, a.value, a.now);
    var hops := Runner.Reading(s.db, a.id, a.g, a.value).value;
    Settled(written, s.db.tasks[a.id].run, hops == [], a.now);
    SettleTouches(written, s.db.tasks[a.id].run, hops == [], a.now);
    SameIncomplete(written, Next(s, a).db, s.db.tasks[a.id].run);
  }

  // Exactly when the success of a running run's row completes the run, fails it, or
  // leaves it running with nothing pending.
  lemma SettlesExactly(s: State, a: Step)
    requires Sound(s) && a.Succeed? && Enabled(s, a) && s.db.tasks[a.id].run in s.db.runs
    requires s.db.runs[s.db.tasks[a.id].run].status == Running
    ensures var run, s' := s.db.tasks[a.id].run, Next(s, a);
            && run in s'.db.runs && a.id in s'.returned
            && var r, status := s'.returned[a.id], s'.db.runs[run].status;
               var last := Alone(s.db.tasks, run, a.id) && !HasIncomplete(s.db, run);
               && status in {Running, Completed, RunFailed}
               && (status == Completed <==> last && r.hops == [])
               && (status == Running && !HasPending(s'.db.tasks, run) <==> last && Scatters(r))
               && (status == RunFailed <==> !HasPending(s'.db.tasks, run) && HasIncomplete(s'.db, run))
  {
    hide Sound, Writes, Apply, Enabled, HasPending, HasIncomplete, Scatters, Alone, Next;
    var s' := Next(s, a);
    SucceedHeld(s, a);
    SuccessSettles(s, a);
    SuccessIsWriting(s, a);
    ScatteredReturns(s', a.id);
    if s'.returned[a.id].hops == [] || Scatters(s'.returned[a.id]) {
      NoNewRow(s, s', a.id);
      PendingIsOthers(s, s', a.id);
      ScatterUnseen(s, s', a.id);
    } else if !HasPending(s'.db.tasks, s.db.tasks[a.id].run) && !HasIncomplete(s'.db, s.db.tasks[a.id].run) {
      NothingLeft(s, s', a.id);
    }
  }

  lemma SucceedHeld(s: State, a: Step)
    requires a.Succeed? && Enabled(s, a)
    ensures Held(s, a.id)
  {
  }

  lemma ScatteredReturns(s: State, id: nat)
    ensures id in s.returned && Scatters(s.returned[id]) ==> s.returned[id].hops != []
  {
  }

  // ------------------------------------------------------------------------
  // Every run of the engine
  // ------------------------------------------------------------------------

  // A row that has left ready belongs to a run that has left queued.
  predicate Started(db: Tables) {
    forall id | 0 <= id < |db.tasks| && db.tasks[id].run in db.runs && db.tasks[id].status != Ready ::
      db.runs[db.tasks[id].run].status != Queued
  }

  predicate Active(db: Tables, run: string) {
    run in db.runs && db.runs[run].status in {Queued, Running}
  }

  predicate Scattered(s: State, run: string) {
    exists id :: id in s.returned && id < |s.db.tasks| && s.db.tasks[id].run == run && Scatters(s.returned[id])
  }

  predicate Covered(s: State) {
    forall run | run in s.db.runs && Active(s.db, run) :: HasPending(s.db.tasks, run) || Scattered(s, run)
  }

  predicate EngineInv(s: State) {
    Started(s.db) && Covered(s)
  }

  // Rows that stay pending, and returns that stay, cover what they covered.
  lemma StillCovered(s: State, s': State, run: string)
    requires HasPending(s.db.tasks, run) || Scattered(s, run)
    requires |s.db.tasks| <= |s'.db.tasks| && Extends(s.returned, s'.returned)
    requires forall id | 0 <= id < |s.db.tasks| ::
               s'.db.tasks[id].run == s.db.tasks[id].run
               && (s.db.tasks[id].run == run && Pending(s.db.tasks[id].status) ==> Pending(s'.db.tasks[id].status))
    ensures HasPending(s'.db.tasks, run) || Scattered(s', run)
  {
    hide Scatters;
    if HasPending(s.db.tasks, run) {
      var id :| 0 <= id < |s.db.tasks| && s.db.tasks[id].run == run && Pending(s.db.tasks[id].status);
      assert s'.db.tasks[id].run == run;
    }
  }

  lemma SubmitCovers(s: State, a: Step)
    requires EngineInv(s) && RunsOk(s.db) && Enabled(s, a) && a.Submit?
    ensures EngineInv(Next(s, a))
  {
    hide HasPending, Scattered, RunsOk, Runner.Priority;
    var s' := Next(s, a);
    forall run | Active(s'.db, run) ensures HasPending(s'.db.tasks, run) || Scattered(s', run) {
      if run == a.run {
        assert s'.db.tasks[|s.db.tasks|].run == run;
        PendingRow(s'.db.tasks, run, |s.db.tasks|);
      } else {
        StillCovered(s, s', run);
      }
    }
    RunsKnown(s.db);
  }

  lemma RunsKnown(db: Tables)
    requires RunsOk(db)
    ensures forall id | 0 <= id < |db.tasks| :: db.tasks[id].run in db.runs
  {
  }

  lemma PendingRow(tasks: seq<Task>, run: string, id: nat)
    requires id < |tasks| && tasks[id].run == run && Pending(tasks[id].status)
    ensures HasPending(tasks, run)
  {
  }

  lemma QuietCovers(s: State, a: Step)
    requires EngineInv(s) && Enabled(s, a)
    requires a.Claim? || a.Park? || a.Unpark? || a.Crash? || a.Drop?
    requires LiveOk(s.db.tasks, s.live)
    ensures EngineInv(Next(s, a))
  {
    hide HasPending, Scattered, Next, Apply, Enabled;
    if a.Claim? {
      ClaimIs(s, a);
    } else if a.Park? || a.Unpark? {
      ParkIs(s, a);
    } else {
      CrashIs(s, a);
    }
    var s' := Next(s, a);
    forall run | Active(s'.db, run) ensures HasPending(s'.db.tasks, run) || Scattered(s', run) {
      StillCovered(s, s', run);
    }
  }

  lemma RecoverCovers(s: State, a: Step)
    requires EngineInv(s) && Enabled(s, a) && a.Recover?
    ensures EngineInv(Next(s, a))
  {
    hide HasPending, Scattered;
    var s' := Next(s, a);
    forall run | Active(s'.db, run) ensures HasPending(s'.db.tasks, run) || Scattered(s', run) {
      StillCovered(s, s', run);
    }
  }

  lemma FailCovers(s: State, a: Step)
    requires EngineInv(s) && Inv(s) && Enabled(s, a) && a.Fail?
    ensures EngineInv(Next(s, a))
  {
    hide HasPending, Scattered, Nested, PlacesOk, ReturnsOk, RunsOk;
    var s', t := Next(s, a), s.db.tasks[a.id];
    RunsKnown(s.db);
    forall run | Active(s'.db, run) ensures HasPending(s'.db.tasks, run) || Scattered(s', run) {
      if run != t.run {
        StillCovered(s, s', run);
      } else if a.retryable && t.attempt < a.budget {
        PendingRow(s'.db.tasks, run, |s.db.tasks|);
      }
    }
  }

  lemma SuccessStarts(s: State, a: Step)
    requires EngineInv(s) && Sound(s) && Enabled(s, a) && a.Succeed?
    ensures Started(Next(s, a).db)
    ensures forall run | run in s.db.runs && run != s.db.tasks[a.id].run ::
              run in Next(s, a).db.runs && Next(s, a).db.runs[run] == s.db.runs[run]
    ensures forall run | Active(Next(s, a).db, run) :: Active(s.db, run)
    ensures s.db.tasks[a.id].run in s.db.runs && s.db.runs[s.db.tasks[a.id].run].status != Queued
  {
    hide HasPending, HasIncomplete, Runner.RunOutput, Runner.Route, Runner.Reading, Jsonable, IsFanOut, Sound, Covered;
    HeldNotDone(s, a.id);
    SuccessIsWriting(s, a);
    SoundPlaces(s);
    RunsKnown(s.db);
    var s' := Next(s, a);
    forall id | 0 <= id < |s'.db.tasks| && id != a.id
      ensures if id < |s.db.tasks| then s'.db.tasks[id] == s.db.tasks[id] else s'.db.tasks[id].status == Ready
    {
      assert id >= |s.db.tasks| ==> Runner.Fresh(s.db.tasks[a.id].run, a.id, s'.db.tasks[id]);
    }
  }

  lemma SuccessCovers(s: State, a: Step)
    requires EngineInv(s) && Sound(s) && Enabled(s, a) && a.Succeed?
    ensures EngineInv(Next(s, a))
  {
    hide Sound, Started, HasPending, HasIncomplete, Scatters, Apply, Enabled, Alone;
    SucceedHeld(s, a);
    var s', own := Next(s, a), s.db.tasks[a.id].run;
    SuccessStarts(s, a);
    SuccessIsWriting(s, a);
    HeldNotDone(s, a.id);
    forall run | Active(s'.db, run) ensures HasPending(s'.db.tasks, run) || Scattered(s', run) {
      if run == own {
        SettlesExactly(s, a);
      } else {
        StillCovered(s, s', run);
      }
    }
  }

  lemma StepCovers(s: State, a: Step)
    requires EngineInv(s) && Sound(s) && Enabled(s, a) && EngineStep(a)
    ensures EngineInv(Next(s, a))
  {
    hide EngineInv, Linear, Once.ExactlyOnce, JoinsInv, Apply, Enabled, Next, Nested, PlacesOk;
    if a.Succeed? {
      SuccessCovers(s, a);
    } else if a.Fail? {
      FailCovers(s, a);
    } else if a.Submit? {
      SubmitCovers(s, a);
    } else if a.Recover? {
      RecoverCovers(s, a);
    } else {
      QuietCovers(s, a);
    }
  }

  lemma {:induction false} RunCovers(s: State, trace: seq<Step>)
    requires EngineInv(s) && Sound(s) && EngineRun(s, trace)
    ensures EngineInv(End(s, trace)) && Sound(End(s, trace))
    decreases |trace|
  {
    hide EngineInv, Sound, Apply, Enabled;
    if trace != [] {
      assert EngineStep(trace[0]);
      StepCovers(s, trace[0]);
      StepSound(s, trace[0]);
      RunCovers(Next(s, trace[0]), trace[1..]);
    }
  }

  lemma EmptySound()
    ensures Sound(Empty) && EngineInv(Empty)
  {
  }

  // In every run of the engine, crashes and sweeps included, a run that is queued or
  // running has a pending row, unless one of its returns was scattered.
  lemma ActiveIsPending(trace: seq<Step>, run: string)
    requires EngineRun(Empty, trace)
    ensures var s := End(Empty, trace); Active(s.db, run) ==> HasPending(s.db.tasks, run) || Scattered(s, run)
  {
    hide Sound;
    EmptySound();
    RunCovers(Empty, trace);
  }

  // And the transaction that ends the last pending row of a run settles it: completed when
  // the branch ended and no join is partial, failed when one is, and left running only by
  // a scattered return.
  lemma LastRowSettles(trace: seq<Step>, a: Step)
    requires EngineRun(Empty, trace) && a.Succeed? && Enabled(End(Empty, trace), a)
    ensures var s := End(Empty, trace);
            var run, s' := s.db.tasks[a.id].run, Next(s, a);
            && run in s.db.runs && run in s'.db.runs && a.id in s'.returned
            && (s.db.runs[run].status == Running && !HasPending(s'.db.tasks, run) ==>
                  var r, status := s'.returned[a.id], s'.db.runs[run].status;
                  && (status == RunFailed <==> HasIncomplete(s'.db, run))
                  && (status == Completed <==> !HasIncomplete(s'.db, run) && r.hops == [])
                  && (status == Running <==> !HasIncomplete(s'.db, run) && Scatters(r)))
  {
    hide Sound, EngineInv, Apply, Enabled, HasPending, HasIncomplete, Scatters, End, Next;
    EmptySound();
    RunCovers(Empty, trace);
    var s := End(Empty, trace);
    LastRow(s, a);
  }

  lemma LastRow(s: State, a: Step)
    requires Sound(s) && EngineInv(s) && a.Succeed? && Enabled(s, a)
    ensures var run, s' := s.db.tasks[a.id].run, Next(s, a);
            && run in s.db.runs && run in s'.db.runs && a.id in s'.returned
            && (s.db.runs[run].status == Running && !HasPending(s'.db.tasks, run) ==>
                  var r, status := s'.returned[a.id], s'.db.runs[run].status;
                  && (status == RunFailed <==> HasIncomplete(s'.db, run))
                  && (status == Completed <==> !HasIncomplete(s'.db, run) && r.hops == [])
                  && (status == Running <==> !HasIncomplete(s'.db, run) && Scatters(r)))
  {
    hide Sound, EngineInv, Apply, Enabled, HasPending, HasIncomplete, Scatters, Alone;
    SuccessStarts(s, a);
    SuccessIsWriting(s, a);
    StepSound(s, a);
    SoundPlaces(Next(s, a));
    RunsKnown(Next(s, a).db);
    ScatteredReturns(Next(s, a), a.id);
    var run := s.db.tasks[a.id].run;
    if s.db.runs[run].status == Running {
      SuccessSettles(s, a);
      if !HasPending(Next(s, a).db.tasks, run) && !HasIncomplete(Next(s, a).db, run) {
        NothingLeft(s, Next(s, a), a.id);
      }
    }
  }

  // ------------------------------------------------------------------------
  // The return that is not settled
  // ------------------------------------------------------------------------

  // A start node that fans out to two joins.
  const Forked := Graph("w", map[
    "a" := Node("a", ["j", "k"], false, true, false, None, None, 0),
    "j" := Node("j", [], true, false, true, None, None, 1),
    "k" := Node("k", [], true, false, true, None, None, 1)], "a")

  const BothJoins := List([Transition("j", Null), Transition("k", Null)])

  const Submitting := Step.Submit(map["w" := Forked], "w", "r", JNull, 0)

  lemma ForkedRoutes(db: Tables)
    requires |db.tasks| == 1 && db.tasks[0].node == "a" && db.tasks[0].branch == []
    ensures Finalized(Forked) && IsFanOut(BothJoins)
    ensures Runner.Reading(db, 0, Forked, BothJoins) == Ok([Hop("j", JNull), Hop("k", JNull)])
  {
    assert Items(BothJoins)[0].Transition? && Items(BothJoins)[1].Transition?;
    assert Explicit(BothJoins).value == [Hop("j", JNull), Hop("k", JNull)];
    assert Forked.nodes["a"].edges[0] == "j" && Forked.nodes["a"].edges[1] == "k";
  }

  lemma ForkedSubmits() returns (s: State)
    ensures Enabled(Empty, Submitting) && s == Next(Empty, Submitting) && Sound(s)
    ensures |s.db.tasks| == 1 && s.db.tasks[0].node == "a" && s.db.tasks[0].branch == [] && s.db.tasks[0].run == "r"
    ensures s.db.tasks[0].status == Ready && s.live == {} && s.db.arrivals == map[]
        && s.db.runs == map["r" := Run("w", Queued, None, None)]
  {
    hide Sound;
    EmptySound();
    s := Next(Empty, Submitting);
    StepSound(Empty, Submitting);
  }

  lemma ForkedStarts() returns (s: State)
    ensures EngineRun(Empty, [Submitting, Claim(0)]) && s == End(Empty, [Submitting, Claim(0)])
    ensures |s.db.tasks| == 1 && s.db.tasks[0].node == "a" && s.db.tasks[0].branch == [] && s.db.tasks[0].run == "r"
    ensures s.live == {0} && s.db.arrivals == map[] && "r" in s.db.runs && s.db.runs["r"].status == Running
    ensures Sound(s)
  {
    hide Sound, HasPending, HasIncomplete;
    var s1 := ForkedSubmits();
    s := Next(s1, Claim(0));
    StepSound(s1, Claim(0));
    var trace := [Submitting, Claim(0)];
    assert trace[1..] == [Claim(0)] && trace[1..][1..] == [];
    assert IsRun(s, []) && IsRun(s1, [Claim(0)]);
  }

  lemma ForkedReturns(s: State)
    requires |s.db.tasks| == 1 && s.db.tasks[0].node == "a" && s.db.tasks[0].branch == [] && s.live == {0}
    ensures var a := Succeed(0, Forked, BothJoins, 0);
            Enabled(s, a) && 0 in Next(s, a).returned && Scatters(Next(s, a).returned[0])
  {
    hide Runner.Written, Runner.SettleRun, Runner.Reading, Interpret, Explicit, EdgesOk, NamesOk;
    ForkedRoutes(s.db);
    var r := ReturnedBy(s, 0, Forked, BothJoins);
    assert r.joins[0] && r.joins[1] && r.hops[0].target != r.hops[1].target;
  }

  // A run of the engine whose only row returned to two joins stays running with nothing
  // pending.
  lemma ScatteredStalls() returns (trace: seq<Step>)
    ensures EngineRun(Empty, trace)
    ensures var s := End(Empty, trace);
            "r" in s.db.runs && s.db.runs["r"].status == Running && !HasPending(s.db.tasks, "r") && Scattered(s, "r")
  {
    hide Sound, HasPending, HasIncomplete, Enabled, Next, Scatters, Apply, IsRun, End;
    var s := ForkedStarts();
    var a := Succeed(0, Forked, BothJoins, 0);
    ForkedReturns(s);
    NoneIncomplete(s.db, "r");
    SettlesExactly(s, a);
    SuccessIsWriting(s, a);
    trace := [Submitting, Claim(0)] + [a];
    Appended(Empty, [Submitting, Claim(0)], a);
  }

  lemma NoneIncomplete(db: Tables, run: string)
    requires db.arrivals == map[]
    ensures !HasIncomplete(db, run)
  {
  }

  lemma {:induction false} Appended(s: State, trace: seq<Step>, a: Step)
    requires IsRun(s, trace) && Enabled(End(s, trace), a)
    ensures IsRun(s, trace + [a]) && End(s, trace + [a]) == Next(End(s, trace), a)
    decreases |trace|
  {
    hide Enabled, Next;
    if trace == [] {
      assert [a][1..] == [];
      assert trace + [a] == [a];
    } else {
      assert (trace + [a])[1..] == trace[1..] + [a];
      Appended(Next(s, trace[0]), trace[1..], a);
    }
  }
}
