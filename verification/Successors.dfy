/** What a success hands on, read off the value the body returned
    (athanore/engine/routing.py, athanore/engine/runner.py). */
module Successors {
  import opened Base
  import opened Json
  import opened Graphs
  import opened Rows
  import opened Routing
  import opened Store
  import opened Machine
  import Nesting
  import Runner

  // The stack under which item i of a return runs: a list of routes pushes a frame for it.
  function StackFor(t: Task, id: nat, v: Value, i: nat, payload: Json): seq<Frame> {
    if (v.List? || v.Tuple?) && v.items != [] && Routed(v)
    then t.branch + [Frame(id, i, |v.items|, payload)] else t.branch
  }

  // The dispatch key of a node: its own priority, or else downstream first.
  function KeyOf(target: Node): (int, bool) {
    if target.priority.Some? then (target.priority.value, true) else (-(target.generation as int), false)
  }

  // The row of a successor: ready, a first attempt, with this payload, under this stack.
  function RowFor(t: Task, id: nat, target: Node, payload: Json, stack: seq<Frame>, now: nat): Task {
    Task(t.run, target.name, 1, Ready, payload, None, false, KeyOf(target).0, KeyOf(target).1, now, stack,
        Lineage(TransitionReason, Some(id), []))
  }

  // At a node that is no join a new row has the payload; at a join the arrival of the branch
  // has it as its value.
  predicate Handed(t: Task, id: nat, before: nat, target: Node, payload: Json, stack: seq<Frame>, now: nat,
                   db: Tables)
  {
    if !target.join then
      exists c :: before <= c < |db.tasks| && db.tasks[c] == RowFor(t, id, target, payload, stack, now)
    else
      && stack != []
      && var f := stack[|stack| - 1];
         var p := Place(t.run, target.name, f.fanout, f.index);
         p in db.arrivals && db.arrivals[p].value == payload && db.arrivals[p].key == f.key && db.arrivals[p].from == id
  }

  // Writing a transition hands it on.
  lemma OneHands(db: Tables, id: nat, g: Graph, hops: seq<Hop>, fanning: bool, i: nat, now: nat)
    requires id < |db.tasks| && i < |hops| && Runner.Routable(g, db.tasks[id].branch, hops, fanning) && NamesOk(g.nodes)
    ensures Handed(db.tasks[id], id, |db.tasks|, g.nodes[hops[i].target], hops[i].payload,
              ChildFrames(id, db.tasks[id].branch, hops[i], i, |hops|, fanning), now,
              Runner.RouteOne(db, id, g, hops, fanning, i, now))
  {
    hide Fired, Indexes, ArrivalsPayload, ArrivalSenders;
    var db' := Runner.RouteOne(db, id, g, hops, fanning, i, now);
    if !g.nodes[hops[i].target].join {
      assert db'.tasks[|db.tasks|] == RowFor(db.tasks[id], id, g.nodes[hops[i].target], hops[i].payload,
          ChildFrames(id, db.tasks[id].branch, hops[i], i, |hops|, fanning), now);
    }
  }

  // A later transition leaves it: rows are added only, and another branch arrives elsewhere.
  lemma StillHanded(
    db: Tables, id: nat, g: Graph, hops: seq<Hop>, fanning: bool, i: nat, j: nat, now: nat, t: Task, before: nat)
    requires id < |db.tasks| && i < j < |hops| && Runner.Routable(g, db.tasks[id].branch, hops, fanning) && fanning
    requires t.branch == db.tasks[id].branch && t.run == db.tasks[id].run
    requires Handed(t, id, before, g.nodes[hops[i].target], hops[i].payload,
               ChildFrames(id, t.branch, hops[i], i, |hops|, fanning), now, db)
    ensures Handed(t, id, before, g.nodes[hops[i].target], hops[i].payload,
              ChildFrames(id, t.branch, hops[i], i, |hops|, fanning), now,
              Runner.RouteOne(db, id, g, hops, fanning, j, now))
  {
    hide Fired, Indexes, ArrivalsPayload, ArrivalSenders, Runner.NewTask, RowFor, Jsonable;
    var db' := Runner.RouteOne(db, id, g, hops, fanning, j, now);
    RouteOneGrows(db, id, g, hops, fanning, j, now);
    if !g.nodes[hops[i].target].join {
      var c :| before <= c < |db.tasks| && db.tasks[c] == RowFor(t, id, g.nodes[hops[i].target], hops[i].payload,
          ChildFrames(id, t.branch, hops[i], i, |hops|, fanning), now);
      assert db'.tasks[c] == db.tasks[c];
    }
  }

  lemma RouteOneGrows(db: Tables, id: nat, g: Graph, hops: seq<Hop>, fanning: bool, j: nat, now: nat)
    requires id < |db.tasks| && j < |hops| && Runner.Routable(g, db.tasks[id].branch, hops, fanning)
    ensures db.tasks <= Runner.RouteOne(db, id, g, hops, fanning, j, now).tasks
  {
    hide Fired, Indexes, ArrivalsPayload, ArrivalSenders, Runner.NewTask, ChildFrames;
  }

  lemma {:induction false} RouteHands(
    db: Tables, id: nat, g: Graph, hops: seq<Hop>, fanning: bool, upto: nat, now: nat, i: nat)
    requires id < |db.tasks| && i < upto <= |hops| && Runner.Routable(g, db.tasks[id].branch, hops, fanning)
    requires NamesOk(g.nodes) && (!fanning ==> |hops| <= 1)
    ensures Handed(db.tasks[id], id, |db.tasks|, g.nodes[hops[i].target], hops[i].payload,
              ChildFrames(id, db.tasks[id].branch, hops[i], i, |hops|, fanning), now,
              Runner.Route(db, id, g, hops, fanning, upto, now))
  {
    hide Handed, Runner.RouteOne, ChildFrames;
    var before := Runner.Route(db, id, g, hops, fanning, upto - 1, now);
    if i == upto - 1 {
      OneHands(before, id, g, hops, fanning, i, now);
      HandedSince(db.tasks[id], id, |db.tasks|, |before.tasks|, g.nodes[hops[i].target], hops[i].payload,
        ChildFrames(id, db.tasks[id].branch, hops[i], i, |hops|, fanning), now,
        Runner.RouteOne(before, id, g, hops, fanning, i, now));
    } else {
      RouteHands(db, id, g, hops, fanning, upto - 1, now, i);
      StillHanded(before, id, g, hops, fanning, i, upto - 1, now, db.tasks[id], |db.tasks|);
    }
  }

  lemma HandedSince(
    t: Task, id: nat, before: nat, later: nat, target: Node, payload: Json, stack: seq<Frame>, now: nat, db: Tables)
    requires Handed(t, id, later, target, payload, stack, now, db) && before <= later
    ensures Handed(t, id, before, target, payload, stack, now, db)
  {
  }

  // Only these things of the row and of the tables matter.
  lemma HandedAlike(
    t: Task, t': Task, id: nat, before: nat, target: Node, payload: Json, stack: seq<Frame>, now: nat, db: Tables,
    db': Tables)
    requires Handed(t, id, before, target, payload, stack, now, db)
    requires t'.run == t.run && db'.tasks == db.tasks && db'.arrivals == db.arrivals
    ensures Handed(t', id, before, target, payload, stack, now, db')
  {
    if !target.join {
      var c :| before <= c < |db.tasks| && db.tasks[c] == RowFor(t, id, target, payload, stack, now);
      assert db'.tasks[c] == RowFor(t', id, target, payload, stack, now);
    }
  }

  // Every success has a row, at a node of the graph.
  predicate Ran(s: State, a: Step)
    requires a.Succeed?
  {
    a.id < |s.db.tasks| && s.db.tasks[a.id].node in a.g.nodes
  }

  function NodeOf(s: State, a: Step): Node
    requires a.Succeed? && Ran(s, a)
  {
    a.g.nodes[s.db.tasks[a.id].node]
  }

  // A success hands on each item of the value: to the item's target, with the JSON of the
  // item's payload, under a frame of its own if the return is a fan-out.
  lemma SuccessHandsOn(s: State, a: Step, i: nat, target: string, payload: Json)
    requires a.Succeed? && Enabled(s, a) && Ran(s, a)
    requires Sends(NodeOf(s, a), a.value, i, target, payload)
    ensures target in a.g.nodes
    ensures var t := s.db.tasks[a.id];
            Handed(t, a.id, |s.db.tasks|, a.g.nodes[target], payload, StackFor(t, a.id, a.value, i, payload), a.now,
              Next(s, a).db)
  {
    hide Handed, Runner.Written, Runner.SettleRun, Runner.Route, Jsonable, Sends, Routed;
    var t := s.db.tasks[a.id];
    var node := NodeOf(s, a);
    var hops := Interpret(node, a.value).value;
    ReadingIs(s, a);
    HopsMean(node, a.value, i, target, payload);
    HopCount(node, a.value);
    var done := Finish(s.db, a.id, Done, Some(Jsonable(a.value)), hops == []);
    RouteHands(done, a.id, a.g, hops, IsFanOut(a.value), |hops|, a.now, i);
    Nesting.SuccessWrites(s.db, a.id, a.g, a.value, a.now);
    StackIs(t, a.id, node, a.value, i, payload);
    HandedAlike(done.tasks[a.id], t, a.id, |s.db.tasks|, a.g.nodes[target], payload,
      StackFor(t, a.id, a.value, i, payload), a.now,
      Runner.Route(done, a.id, a.g, hops, IsFanOut(a.value), |hops|, a.now), Next(s, a).db);
  }

  lemma ReadingIs(s: State, a: Step)
    requires a.Succeed? && Enabled(s, a)
    ensures Ran(s, a) && Finalized(a.g)
    ensures var node := NodeOf(s, a);
            && Interpret(node, a.value).Ok?
            && Runner.Reading(s.db, a.id, a.g, a.value) == Interpret(node, a.value)
            && Runner.Success(s.db, a.id, a.g, a.value, a.now).Ok?
            && Next(s, a).db == Runner.Success(s.db, a.id, a.g, a.value, a.now).value
  {
    hide Runner.Written, Runner.SettleRun, Runner.Route, Jsonable, Interpret;
  }

  lemma StackIs(t: Task, id: nat, node: Node, v: Value, i: nat, payload: Json)
    requires Interpret(node, v).Ok? && i < |Interpret(node, v).value|
    requires Interpret(node, v).value[i].payload == payload
    ensures var hops := Interpret(node, v).value;
            ChildFrames(id, t.branch, hops[i], i, |hops|, IsFanOut(v)) == StackFor(t, id, v, i, payload)
  {
    hide Interpret, Jsonable, Routed;
    FanOutFrames(id, t.branch, node, v, i);
    HopsMean(node, v, i, Interpret(node, v).value[i].target, payload);
    HopCount(node, v);
  }

  // And what is on record as returned is what the value says, so every claim about the one
  // is a claim about the other.
  lemma ReturnedIs(s: State, a: Step, i: nat, target: string, payload: Json)
    requires a.Succeed? && Enabled(s, a)
    ensures Ran(s, a) && a.id in Next(s, a).returned
    ensures var r, node := Next(s, a).returned[a.id], NodeOf(s, a);
            && (Sends(node, a.value, i, target, payload) <==> i < |r.hops| && r.hops[i] == Hop(target, payload))
            && (r.fanning <==> (a.value.List? || a.value.Tuple?) && a.value.items != [] && Routed(a.value))
            && |r.joins| == |r.hops|
            && (i < |r.hops| ==> r.hops[i].target in a.g.nodes && r.joins[i] == a.g.nodes[r.hops[i].target].join)
  {
    hide Runner.Written, Runner.SettleRun, Runner.Route, Jsonable, Sends, Routed, Interpret;
    ReadingIs(s, a);
    var node := NodeOf(s, a);
    HopsMean(node, a.value, i, target, payload);
    TargetsResolve(a.g, s.db.tasks[a.id].node, a.value);
  }

  ghost predicate GoesTo(node: Node, v: Value, i: nat, target: string) {
    exists payload: Json :: Sends(node, v, i, target, payload)
  }

  // Its event names the targets in that order, and says whether the branch ended.
  lemma DoneIsTold(s: State, a: Step) returns (k: nat, targets: seq<string>)
    requires a.Succeed? && Enabled(s, a)
    ensures Ran(s, a) && |s.db.events| <= k < |Next(s, a).db.events|
    ensures Next(s, a).db.events[k] ==
        Event(Some(s.db.tasks[a.id].run), Some(a.id), TaskDone(targets, targets == []))
    ensures forall i: nat, target: string, payload: Json | Sends(NodeOf(s, a), a.value, i, target, payload) ::
              i < |targets| && targets[i] == target
    ensures forall i | 0 <= i < |targets| :: GoesTo(NodeOf(s, a), a.value, i, targets[i])
  {
    hide Runner.Route, Jsonable, Sends, Routed, Interpret, HasPending, HasIncomplete, Runner.RunOutput;
    ReadingIs(s, a);
    var node := NodeOf(s, a);
    var hops := Interpret(node, a.value).value;
    var done := Finish(s.db, a.id, Done, Some(Jsonable(a.value)), hops == []);
    RouteEvents(done, a.id, a.g, hops, IsFanOut(a.value), |hops|, a.now);
    k := |Runner.Written(s.db, a.id, a.g, a.value, a.now).events| - 1;
    targets := Runner.HopTargets(hops);
    forall i: nat, target: string, payload: Json | Sends(NodeOf(s, a), a.value, i, target, payload)
      ensures i < |targets| && targets[i] == target
    {
      HopsMean(node, a.value, i, target, payload);
    }
    forall i | 0 <= i < |targets| ensures GoesTo(node, a.value, i, targets[i]) {
      HopsMean(node, a.value, i, hops[i].target, hops[i].payload);
      assert Sends(node, a.value, i, targets[i], hops[i].payload);
    }
  }

  lemma {:induction false} RouteEvents(
    db: Tables, id: nat, g: Graph, hops: seq<Hop>, fanning: bool, upto: nat, now: nat)
    requires id < |db.tasks| && upto <= |hops| && Runner.Routable(g, db.tasks[id].branch, hops, fanning)
    ensures db.events <= Runner.Route(db, id, g, hops, fanning, upto, now).events
  {
    hide Runner.RouteOne;
    if upto > 0 {
      RouteEvents(db, id, g, hops, fanning, upto - 1, now);
      RouteOneEvents(Runner.Route(db, id, g, hops, fanning, upto - 1, now), id, g, hops, fanning, upto - 1, now);
    }
  }

  lemma RouteOneEvents(db: Tables, id: nat, g: Graph, hops: seq<Hop>, fanning: bool, i: nat, now: nat)
    requires id < |db.tasks| && i < |hops| && Runner.Routable(g, db.tasks[id].branch, hops, fanning)
    ensures db.events <= Runner.RouteOne(db, id, g, hops, fanning, i, now).events
  {
    hide Fired, Indexes, ArrivalsPayload, ArrivalSenders, Runner.NewTask, ChildFrames;
  }

  // ------------------------------------------------------------------------
  // Which returns are accepted
  // ------------------------------------------------------------------------

  // Every item goes along a declared edge; or the value is plain and there is no choice.
  predicate Allowed(node: Node, v: Value) {
    if Routed(v) then
      forall i | 0 <= i < |ItemsOf(v)| ::
        ItemsOf(v)[i].Transition? || ItemsOf(v)[i].EdgeRef? ==>
          (if ItemsOf(v)[i].Transition? then ItemsOf(v)[i].target else ItemsOf(v)[i].name) in node.edges
    else |node.edges| <= 1
  }

  lemma AllowedIs(node: Node, v: Value)
    ensures Interpret(node, v).Ok? <==> Allowed(node, v)
    ensures Interpret(node, v).Err? ==> Interpret(node, v).error == if Routed(v) then Undeclared else Ambiguous
  {
    hide Jsonable;
    if Routed(v) {
      RoutedIsExplicit(v);
      var hops := Explicit(v).value;
      assert forall i | 0 <= i < |hops| ::
          hops[i].target == if ItemsOf(v)[i].Transition? then ItemsOf(v)[i].target else ItemsOf(v)[i].name;
    } else {
      PlainIsImplicit(v);
    }
  }

  lemma RoutedIsExplicit(v: Value)
    requires Routed(v)
    ensures Explicit(v).Some? && |Explicit(v).value| == |ItemsOf(v)|
    ensures forall i | 0 <= i < |ItemsOf(v)| :: IsRoute(ItemsOf(v)[i]) && Explicit(v).value[i] == Coerce(ItemsOf(v)[i])
  {
    if v.List? || v.Tuple? {
      assert ItemsOf(v) == Items(v);
    } else {
      assert ItemsOf(v)[0] == v;
    }
  }

  lemma PlainIsImplicit(v: Value)
    requires !Routed(v)
    ensures Explicit(v).None?
  {
    if v.List? || v.Tuple? {
      assert ItemsOf(v) == Items(v);
    }
  }

  // Some item goes to a join.
  ghost predicate ReachesJoin(g: Graph, node: Node, v: Value) {
    exists i: nat, target: string, payload: Json ::
      Sends(node, v, i, target, payload) && target in g.nodes && g.nodes[target].join
  }

  // A success is recorded exactly when the node is there, the return is allowed and, if it
  // reaches a join, there is a frame to pop: its own or one of the row. Otherwise it is
  // refused with the first of these that fails.
  lemma SuccessAccepted(db: Tables, id: nat, g: Graph, v: Value, now: nat)
    requires id < |db.tasks| && EdgesOk(g.nodes)
    ensures var t, r := db.tasks[id], Runner.Success(db, id, g, v, now);
            && (r.Ok? <==>
                  && t.node in g.nodes && Allowed(g.nodes[t.node], v)
                  && (ReachesJoin(g, g.nodes[t.node], v) ==> StackFor(t, id, v, 0, JNull) != []))
            && (r.Err? ==>
                  r.error == (if t.node !in g.nodes then NoSuchNode
                              else if !Allowed(g.nodes[t.node], v) then if Routed(v) then Undeclared else Ambiguous
                              else JoinWithoutFrame))
  {
    hide Interpret, Allowed, Sends, Jsonable, Runner.SettleRun, Runner.Written, ReachesJoin, Routed, Runner.Routable;
    var t := db.tasks[id];
    if t.node in g.nodes {
      AllowedIs(g.nodes[t.node], v);
      if Interpret(g.nodes[t.node], v).Ok? {
        RoutableIs(g, t, id, v);
      }
    }
  }

  lemma RoutableIs(g: Graph, t: Task, id: nat, v: Value)
    requires t.node in g.nodes && EdgesOk(g.nodes) && Interpret(g.nodes[t.node], v).Ok?
    ensures Runner.Routable(g, t.branch, Interpret(g.nodes[t.node], v).value, IsFanOut(v)) <==>
            (ReachesJoin(g, g.nodes[t.node], v) ==> StackFor(t, id, v, 0, JNull) != [])
  {
    hide Interpret, Jsonable, Sends, Routed;
    var node := g.nodes[t.node];
    var hops := Interpret(node, v).value;
    TargetsResolve(g, t.node, v);
    HopsMean(node, v, 0, "", JNull);
    if ReachesJoin(g, node, v) {
      var i: nat, target: string, payload: Json :|
        Sends(node, v, i, target, payload) && target in g.nodes && g.nodes[target].join;
      HopsMean(node, v, i, target, payload);
      assert hops[i].target == target;
    } else {
      forall i | 0 <= i < |hops| ensures !g.nodes[hops[i].target].join {
        HopsMean(node, v, i, hops[i].target, hops[i].payload);
      }
    }
  }

  // ------------------------------------------------------------------------
  // What its events tell
  // ------------------------------------------------------------------------

  // Every row from n on is announced by an event from k on, with the reason of its lineage.
  ghost predicate Announced(db: Tables, n: nat, k: nat) {
    forall c: nat | n <= c < |db.tasks| :: AnnouncedRow(db, c, k)
  }

  ghost predicate AnnouncedRow(db: Tables, c: nat, k: nat)
    requires c < |db.tasks|
  {
    exists e :: k <= e < |db.events| &&
      db.events[e] == Event(Some(db.tasks[c].run), Some(c), TaskEnqueued(db.tasks[c].lineage.reason))
  }

  lemma OneAnnounces(db: Tables, id: nat, g: Graph, hops: seq<Hop>, fanning: bool, i: nat, now: nat, n: nat, k: nat)
    requires id < |db.tasks| && i < |hops| && Runner.Routable(g, db.tasks[id].branch, hops, fanning)
    requires Announced(db, n, k) && n <= |db.tasks| && k <= |db.events|
    ensures Announced(Runner.RouteOne(db, id, g, hops, fanning, i, now), n, k)
  {
    hide Fired, Indexes, ArrivalsPayload, ArrivalSenders, ChildFrames, Announced;
    var db' := Runner.RouteOne(db, id, g, hops, fanning, i, now);
    RouteOneEvents(db, id, g, hops, fanning, i, now);
    OneRowMore(db, id, g, hops, fanning, i, now);
    AnnouncedMore(db, db', n, k);
  }

  // At most one row more, and the event that announces it last.
  lemma OneRowMore(db: Tables, id: nat, g: Graph, hops: seq<Hop>, fanning: bool, i: nat, now: nat)
    requires id < |db.tasks| && i < |hops| && Runner.Routable(g, db.tasks[id].branch, hops, fanning)
    ensures var db' := Runner.RouteOne(db, id, g, hops, fanning, i, now);
            && db.tasks <= db'.tasks && |db'.tasks| <= |db.tasks| + 1
            && (|db'.tasks| > |db.tasks| ==>
                  && |db'.events| > |db.events|
                  && db'.events[|db'.events| - 1] ==
                     Event(Some(db'.tasks[|db.tasks|].run), Some(|db.tasks|),
                       TaskEnqueued(db'.tasks[|db.tasks|].lineage.reason)))
  {
    hide Fired, Indexes, ArrivalsPayload, ArrivalSenders, ChildFrames;
  }

  lemma AnnouncedMore(db: Tables, db': Tables, n: nat, k: nat)
    requires Announced(db, n, k) && n <= |db.tasks| && k <= |db.events|
    requires db.tasks <= db'.tasks && |db'.tasks| <= |db.tasks| + 1 && db.events <= db'.events
    requires |db'.tasks| > |db.tasks| ==>
               && |db'.events| > |db.events|
               && db'.events[|db'.events| - 1] == Event(Some(db'.tasks[|db.tasks|].run), Some(|db.tasks|),
                    TaskEnqueued(db'.tasks[|db.tasks|].lineage.reason))
    ensures Announced(db', n, k)
  {
    forall c: nat | n <= c < |db'.tasks| ensures AnnouncedRow(db', c, k) {
      if c < |db.tasks| {
        assert AnnouncedRow(db, c, k);
        var e :| k <= e < |db.events| &&
            db.events[e] == Event(Some(db.tasks[c].run), Some(c), TaskEnqueued(db.tasks[c].lineage.reason));
        assert db'.events[e] == db.events[e];
      } else {
        assert db'.events[|db'.events| - 1] ==
            Event(Some(db'.tasks[c].run), Some(c), TaskEnqueued(db'.tasks[c].lineage.reason));
      }
    }
  }

  lemma {:induction false} RouteAnnounces(
    db: Tables, id: nat, g: Graph, hops: seq<Hop>, fanning: bool, upto: nat, now: nat)
    requires id < |db.tasks| && upto <= |hops| && Runner.Routable(g, db.tasks[id].branch, hops, fanning)
    ensures Announced(Runner.Route(db, id, g, hops, fanning, upto, now), |db.tasks|, |db.events|)
  {
    hide Runner.RouteOne, Announced;
    if upto == 0 {
      NoneNew(db);
    } else {
      RouteAnnounces(db, id, g, hops, fanning, upto - 1, now);
      RouteEvents(db, id, g, hops, fanning, upto - 1, now);
      OneAnnounces(Runner.Route(db, id, g, hops, fanning, upto - 1, now), id, g, hops, fanning, upto - 1, now,
        |db.tasks|, |db.events|);
    }
  }

  lemma NoneNew(db: Tables)
    ensures Announced(db, |db.tasks|, |db.events|)
  {
  }

  // Each row a success adds, successor or join task, is announced as what it is.
  lemma RowsAreAnnounced(s: State, a: Step)
    requires a.Succeed? && Enabled(s, a)
    ensures Announced(Next(s, a).db, |s.db.tasks|, |s.db.events|)
  {
    hide Runner.Route, Jsonable, Interpret, Runner.SettleRun, Announced, Runner.HopTargets;
    ReadingIs(s, a);
    var hops := Interpret(NodeOf(s, a), a.value).value;
    var done := Finish(s.db, a.id, Done, Some(Jsonable(a.value)), hops == []);
    var routed := Runner.Route(done, a.id, a.g, hops, IsFanOut(a.value), |hops|, a.now);
    RouteAnnounces(done, a.id, a.g, hops, IsFanOut(a.value), |hops|, a.now);
    RouteEvents(done, a.id, a.g, hops, IsFanOut(a.value), |hops|, a.now);
    assert |s.db.tasks| <= |routed.tasks|;
    Nesting.SuccessWrites(s.db, a.id, a.g, a.value, a.now);
    SettleEvents(Runner.Written(s.db, a.id, a.g, a.value, a.now), s.db.tasks[a.id].run, hops == [], a.now);
    var written := Runner.Written(s.db, a.id, a.g, a.value, a.now);
    assert Next(s, a).db == Runner.SettleRun(written, s.db.tasks[a.id].run, hops == [], a.now);
    assert routed.events <= written.events <= Next(s, a).db.events;
    AnnouncedMore(routed, Next(s, a).db, |s.db.tasks|, |s.db.events|);
  }

  lemma SettleEvents(db: Tables, run: string, terminal: bool, now: nat)
    ensures db.events <= Runner.SettleRun(db, run, terminal, now).events
  {
    hide HasPending, HasIncomplete, Runner.RunOutput;
  }

  // A landing is told with its place, how many branches of the fan-out are in, of how many,
  // and whether the join was dispatched before. It adds a row exactly when it is in time and
  // the last: a first attempt at the join, ready, under the stack below the frame.
  lemma LandingIsTold(db: Tables, id: nat, target: Node, hop: Hop, frames: seq<Frame>, now: nat)
    requires id < |db.tasks| && frames != []
    ensures var db' := Runner.RecordArrival(db, id, target, hop, frames, now);
            var f, run := frames[|frames| - 1], db.tasks[id].run;
            var p := Place(run, target.name, f.fanout, f.index);
            var late := exists c :: 0 <= c < |db.tasks| && IsDispatch(db.tasks[c], run, target.name, f.fanout);
            var arrived := set q | q in db'.arrivals && q == Place(run, target.name, f.fanout, q.index) :: q.index;
            && db'.arrivals == db.arrivals[p := Arrival(f.key, hop.payload, id, late)]
            && |db'.events| > |db.events|
            && db'.events[|db.events|] == Event(Some(run), Some(id), JoinArrived(p, |arrived|, f.count, late))
            && (if late || |arrived| < f.count then db'.tasks == db.tasks
                else
                  && |db'.tasks| == |db.tasks| + 1
                  && var row := db'.tasks[|db.tasks|];
                     && db'.tasks == db.tasks + [row]
                     && row == Task(run, target.name, 1, Ready, row.payload, None, false, KeyOf(target).0,
                           KeyOf(target).1, now, frames[..|frames| - 1],
                           Lineage(JoinReason, Some(f.fanout), row.lineage.arrivals)))
  {
    hide ArrivalsPayload, ArrivalSenders;
  }
}
