/** Join tasks: one per join and fan-out, dispatched when every branch is in and not
    before, with what the branches sent in branch order. Kept by every step that does not
    overwrite a done row. */
module Joins {
  import opened Base
  import opened Json
  import opened Graphs
  import opened Rows
  import opened Routing
  import opened Store
  import opened Machine
  import opened Nesting
  import opened Tokens
  import Runner
  import Ops

  // A transition row `from` returned sends this value to the join.
  predicate SentBy(returned: map<nat, Return>, join: string, from: nat, value: Json) {
    && from in returned && |returned[from].hops| == |returned[from].joins|
    && exists j | 0 <= j < |returned[from].hops| ::
         returned[from].joins[j] && returned[from].hops[j] == Hop(join, value)
  }

  // An arrival has the value its sender returned.
  predicate PlacesSent(arrivals: map<Place, Arrival>, returned: map<nat, Return>) {
    forall p | p in arrivals :: SentBy(returned, p.join, arrivals[p].from, arrivals[p].value)
  }

  // The payload entry of branch `index`: its key, the row its value came from, and the
  // value that row returned.
  predicate EntryOf(returned: map<nat, Return>, join: string, e: Json, index: nat, key: Json, from: nat) {
    && e.JDict? && |e.entries| == 4
    && e.entries[0] == ("index", JInt(index)) && e.entries[1] == ("key", key)
    && e.entries[2].0 == "value" && e.entries[3] == ("from_task", JInt(from))
    && SentBy(returned, join, from, e.entries[2].1)
  }

  predicate PayloadOk(returned: map<nat, Return>, t: Task, hops: seq<Hop>) {
    && t.payload.JList? && |t.payload.items| == |hops| == |t.lineage.arrivals|
    && forall i | 0 <= i < |hops| ::
        EntryOf(returned, t.node, t.payload.items[i], i, hops[i].payload, t.lineage.arrivals[i])
  }

  // A join task runs under the stack of its fan-out, once all its branches are in, and
  // its payload has one entry for each of them, in order, under the key it was given and
  // with the value its sender returned.
  predicate DispatchOk(tasks: seq<Task>, arrivals: map<Place, Arrival>, returned: map<nat, Return>, t: Task) {
    && t.lineage.from.Some? && t.lineage.from.value < |tasks| && t.lineage.from.value in returned
    && var fanout := t.lineage.from.value;
    && returned[fanout].fanning && tasks[fanout].run == t.run && tasks[fanout].branch == t.branch
    && AllArrived(arrivals, t.run, t.node, fanout, |returned[fanout].hops|)
    && PayloadOk(returned, t, returned[fanout].hops)
  }

  predicate Dispatched(tasks: seq<Task>, arrivals: map<Place, Arrival>, returned: map<nat, Return>) {
    forall c | 0 <= c < |tasks| && tasks[c].lineage.reason == JoinReason ::
        DispatchOk(tasks, arrivals, returned, tasks[c])
  }

  predicate SameDispatch(a: Task, b: Task) {
    a.run == b.run && a.node == b.node && a.lineage.reason == b.lineage.reason == JoinReason
        && a.lineage.from == b.lineage.from
  }

  predicate OneDispatch(tasks: seq<Task>) {
    forall a, b | 0 <= a < b < |tasks| :: !SameDispatch(tasks[a], tasks[b])
  }

  // A join whose branches are all in is dispatched.
  predicate Prompt(tasks: seq<Task>, arrivals: map<Place, Arrival>, returned: map<nat, Return>) {
    forall p | p in arrivals && p.fanout in returned
      && AllArrived(arrivals, p.run, p.join, p.fanout, |returned[p.fanout].hops|) ::
          Fired(tasks, p.run, p.join, p.fanout)
  }

  // A row runs under branches that were sent to a node, not straight to a join.
  predicate TroddenStack(returned: map<nat, Return>, branch: seq<Frame>) {
    forall k | 0 <= k < |branch| ::
      branch[k].fanout in returned && branch[k].index < |returned[branch[k].fanout].joins|
      && !returned[branch[k].fanout].joins[branch[k].index]
  }

  predicate Trodden(tasks: seq<Task>, returned: map<nat, Return>) {
    forall id | 0 <= id < |tasks| :: TroddenStack(returned, tasks[id].branch)
  }

  predicate JoinsInv(db: Tables, returned: map<nat, Return>) {
    && Dispatched(db.tasks, db.arrivals, returned)
    && OneDispatch(db.tasks)
    && Prompt(db.tasks, db.arrivals, returned)
    && Trodden(db.tasks, returned)
    && PlacesSent(db.arrivals, returned)
  }

  // ------------------------------------------------------------------------
  // What all branches in means for the payload
  // ------------------------------------------------------------------------

  // With all n branches in and no other, the order of the arrivals is 0, 1, ..., n - 1.
  lemma FullOrder(arrivals: map<Place, Arrival>, run: string, join: string, fanout: nat, n: nat)
    requires AllArrived(arrivals, run, join, fanout, n)
    requires forall i | i in Indexes(arrivals, run, join, fanout) :: i < n
    ensures |Order(arrivals, run, join, fanout)| == n
    ensures forall i | 0 <= i < n :: Order(arrivals, run, join, fanout)[i] == i
  {
    var indexes := Indexes(arrivals, run, join, fanout);
    forall i: nat ensures i in indexes <==> 0 <= i < n {
      if i < n {
        assert Place(run, join, fanout, i) in arrivals;
      }
    }
    AscendingRange(indexes, 0, n);
  }

  lemma FullPayload(
    db: Tables, returned: map<nat, Return>, run: string, target: Node, fanout: nat, outer: seq<Frame>, now: nat)
    requires PlacesOk(db.arrivals, db.tasks, returned) && PlacesSent(db.arrivals, returned) && fanout in returned
    requires AllArrived(db.arrivals, run, target.name, fanout, |returned[fanout].hops|)
    ensures var t := Runner.JoinTask(db, run, target, fanout, outer, now);
            && PayloadOk(returned, t, returned[fanout].hops)
            && forall i | 0 <= i < |returned[fanout].hops| ::
                 t.payload.items[i] == Entry(i, db.arrivals[Place(run, target.name, fanout, i)])
  {
    var hops := returned[fanout].hops;
    IndexesBelow(db, returned, run, target.name, fanout);
    FullOrder(db.arrivals, run, target.name, fanout, |hops|);
    var t := Runner.JoinTask(db, run, target, fanout, outer, now);
    forall i | 0 <= i < |hops|
      ensures t.payload.items[i] == Entry(i, db.arrivals[Place(run, target.name, fanout, i)])
      ensures EntryOf(returned, t.node, t.payload.items[i], i, hops[i].payload, t.lineage.arrivals[i])
    {
      var p := Place(run, target.name, fanout, i);
      assert PlaceOk(db.tasks, returned, p, db.arrivals[p]);
    }
  }

  lemma SentKept(returned: map<nat, Return>, returned': map<nat, Return>, join: string, from: nat, value: Json)
    requires SentBy(returned, join, from, value) && Extends(returned, returned')
    ensures SentBy(returned', join, from, value)
  {
  }

  // ------------------------------------------------------------------------
  // Writing one transition
  // ------------------------------------------------------------------------

  // Rows added to the tables keep what was dispatched, when none is a join task.
  lemma RowsKeepJoins(db: Tables, returned: map<nat, Return>, db': Tables, returned': map<nat, Return>)
    requires JoinsInv(db, returned) && Extends(returned, returned') && db'.arrivals == db.arrivals
    requires |db.tasks| <= |db'.tasks|
    requires forall c | 0 <= c < |db.tasks| ::
               && db'.tasks[c].run == db.tasks[c].run && db'.tasks[c].node == db.tasks[c].node
               && db'.tasks[c].payload == db.tasks[c].payload && db'.tasks[c].branch == db.tasks[c].branch
               && db'.tasks[c].lineage == db.tasks[c].lineage
    requires forall c | |db.tasks| <= c < |db'.tasks| ::
               db'.tasks[c].lineage.reason != JoinReason && TroddenStack(returned', db'.tasks[c].branch)
    requires forall p | p in db.arrivals :: p.fanout in returned
    ensures JoinsInv(db', returned')
  {
    hide AllArrived, PayloadOk, SentBy;
    forall p | p in db'.arrivals ensures SentBy(returned', p.join, db'.arrivals[p].from, db'.arrivals[p].value) {
      SentKept(returned, returned', p.join, db.arrivals[p].from, db.arrivals[p].value);
    }
    forall c | 0 <= c < |db'.tasks| && db'.tasks[c].lineage.reason == JoinReason
      ensures DispatchOk(db'.tasks, db'.arrivals, returned', db'.tasks[c])
    {
      assert DispatchOk(db.tasks, db.arrivals, returned, db.tasks[c]);
      PayloadOnly(returned, returned', db.tasks[c], db'.tasks[c], returned[db.tasks[c].lineage.from.value].hops);
    }
    forall a, b | 0 <= a < b < |db'.tasks| ensures !SameDispatch(db'.tasks[a], db'.tasks[b]) {
      assert b < |db.tasks| ==> !SameDispatch(db.tasks[a], db.tasks[b]);
    }
    forall p | p in db'.arrivals && p.fanout in returned'
      && AllArrived(db'.arrivals, p.run, p.join, p.fanout, |returned'[p.fanout].hops|)
      ensures Fired(db'.tasks, p.run, p.join, p.fanout)
    {
      FiredKept(db.tasks, db'.tasks, p.run, p.join, p.fanout);
    }
    forall id | 0 <= id < |db'.tasks| ensures TroddenStack(returned', db'.tasks[id].branch) {
      assert id < |db.tasks| ==> TroddenStack(returned, db.tasks[id].branch);
    }
  }

  lemma PayloadOnly(returned: map<nat, Return>, returned': map<nat, Return>, t: Task, t': Task, hops: seq<Hop>)
    requires PayloadOk(returned, t, hops) && Extends(returned, returned')
    requires t'.payload == t.payload && t'.lineage == t.lineage && t'.node == t.node
    ensures PayloadOk(returned', t', hops)
  {
    hide SentBy;
    forall i | 0 <= i < |hops|
      ensures EntryOf(returned', t'.node, t'.payload.items[i], i, hops[i].payload, t'.lineage.arrivals[i])
    {
      assert EntryOf(returned, t.node, t.payload.items[i], i, hops[i].payload, t.lineage.arrivals[i]);
      SentKept(returned, returned', t.node, t.lineage.arrivals[i], t.payload.items[i].entries[2].1);
    }
  }

  lemma FiredKept(tasks: seq<Task>, tasks': seq<Task>, run: string, join: string, fanout: nat)
    requires Fired(tasks, run, join, fanout) && |tasks| <= |tasks'|
    requires forall c | 0 <= c < |tasks| ::
               tasks'[c].run == tasks[c].run && tasks'[c].node == tasks[c].node && tasks'[c].lineage == tasks[c].lineage
    ensures Fired(tasks', run, join, fanout)
  {
    var c :| 0 <= c < |tasks| && IsDispatch(tasks[c], run, join, fanout);
    assert IsDispatch(tasks'[c], run, join, fanout);
  }

  // An arrival that does not complete its join, or comes after the dispatch.
  lemma ArrivalKeepsJoins(db: Tables, returned: map<nat, Return>, p: Place, a: Arrival)
    requires JoinsInv(db, returned)
    requires p.fanout in returned && SentBy(returned, p.join, a.from, a.value)
    requires AllArrived(db.arrivals[p := a], p.run, p.join, p.fanout, |returned[p.fanout].hops|) ==>
               Fired(db.tasks, p.run, p.join, p.fanout)
    ensures JoinsInv(Arrive(db, p, a), returned)
  {
    hide PayloadOk, Fired, SentBy;
    var db' := Arrive(db, p, a);
    forall c | 0 <= c < |db'.tasks| && db'.tasks[c].lineage.reason == JoinReason
      ensures DispatchOk(db'.tasks, db'.arrivals, returned, db'.tasks[c])
    {
      assert DispatchOk(db.tasks, db.arrivals, returned, db.tasks[c]);
    }
    forall q | q in db'.arrivals && q.fanout in returned
      && AllArrived(db'.arrivals, q.run, q.join, q.fanout, |returned[q.fanout].hops|)
      ensures Fired(db'.tasks, q.run, q.join, q.fanout)
    {
      if !(q.run == p.run && q.join == p.join && q.fanout == p.fanout) {
        assert q in db.arrivals;
        forall i: nat | i < |returned[q.fanout].hops| ensures Place(q.run, q.join, q.fanout, i) in db.arrivals {
          assert Place(q.run, q.join, q.fanout, i) in db'.arrivals;
        }
      }
    }
  }

  // The arrival that completes its join, and the join's task.
  lemma DispatchKeepsJoins(db: Tables, returned: map<nat, Return>, p: Place, a: Arrival, row: Task, db': Tables)
    requires JoinsInv(db, returned) && p.fanout in returned && !Fired(db.tasks, p.run, p.join, p.fanout)
    requires db'.tasks == db.tasks + [row] && db'.arrivals == db.arrivals[p := a]
    requires IsDispatch(row, p.run, p.join, p.fanout) && DispatchOk(db.tasks, db'.arrivals, returned, row)
    requires SentBy(returned, p.join, a.from, a.value)
    requires TroddenStack(returned, row.branch)
    ensures JoinsInv(db', returned)
  {
    hide PayloadOk, SentBy;
    forall c | 0 <= c < |db'.tasks| && db'.tasks[c].lineage.reason == JoinReason
      ensures DispatchOk(db'.tasks, db'.arrivals, returned, db'.tasks[c])
    {
      if c < |db.tasks| {
        assert DispatchOk(db.tasks, db.arrivals, returned, db.tasks[c]);
      }
    }
    forall a, b | 0 <= a < b < |db'.tasks| ensures !SameDispatch(db'.tasks[a], db'.tasks[b]) {
      if b < |db.tasks| {
        assert !SameDispatch(db.tasks[a], db.tasks[b]);
      } else {
        assert !IsDispatch(db.tasks[a], p.run, p.join, p.fanout);
      }
    }
    forall q | q in db'.arrivals && q.fanout in returned
      && AllArrived(db'.arrivals, q.run, q.join, q.fanout, |returned[q.fanout].hops|)
      ensures Fired(db'.tasks, q.run, q.join, q.fanout)
    {
      if q.run == p.run && q.join == p.join && q.fanout == p.fanout {
        assert IsDispatch(db'.tasks[|db.tasks|], q.run, q.join, q.fanout);
      } else {
        forall i: nat | i < |returned[q.fanout].hops| ensures Place(q.run, q.join, q.fanout, i) in db.arrivals {
          assert Place(q.run, q.join, q.fanout, i) in db'.arrivals;
        }
        FiredKept(db.tasks, db'.tasks, q.run, q.join, q.fanout);
      }
    }
  }

  lemma RecordKeepsJoins(
    db: Tables, returned: map<nat, Return>, id: nat, target: Node, hop: Hop, x: seq<Frame>, now: nat)
    requires id < |db.tasks| && x != [] && JoinsInv(db, returned)
    requires PlacesOk(db.arrivals, db.tasks, returned) && StackOk(db.tasks, returned, |db.tasks|, db.tasks[id].run, x)
    requires TroddenStack(returned, Outer(x)) && SentBy(returned, target.name, id, hop.payload)
    ensures JoinsInv(Runner.RecordArrival(db, id, target, hop, x, now), returned)
  {
    hide JoinsInv, StackOk, PlacesOk, Indexes, Fired, AllArrived, PayloadOk, ArrivalsPayload, ArrivalSenders,
        TroddenStack, SentBy;
    hide PlacesSent;
    var run, top := db.tasks[id].run, Top(x);
    var p := PlaceOf(run, target.name, x);
    var arrived := Runner.WriteArrival(db, id, p, top, hop.payload);
    var a := arrived.arrivals[p];
    var db' := Runner.RecordArrival(db, id, target, hop, x, now);
    TopFrame(db, returned, run, x);
    WrittenArrivalOk(db, returned, id, target.name, hop.payload, x);
    CountIsAll(arrived, returned, run, target.name, top.fanout);
    if Fired(db.tasks, run, target.name, top.fanout)
        || |Indexes(arrived.arrivals, run, target.name, top.fanout)| < top.count {
      ArrivalKeepsJoins(db, returned, p, a);
      assert db'.tasks == db.tasks && db'.arrivals == Arrive(db, p, a).arrivals;
      SameRows(Arrive(db, p, a), db', returned);
    } else {
      ArrivedSent(db, returned, arrived, p);
      FullPayload(arrived, returned, run, target, top.fanout, Outer(x), now);
      var row := Runner.JoinTask(arrived, run, target, top.fanout, Outer(x), now);
      DispatchKeepsJoins(db, returned, p, a, row, db');
    }
  }

  lemma ArrivedSent(db: Tables, returned: map<nat, Return>, db': Tables, p: Place)
    requires JoinsInv(db, returned) && p in db'.arrivals && db'.arrivals == db.arrivals[p := db'.arrivals[p]]
    requires SentBy(returned, p.join, db'.arrivals[p].from, db'.arrivals[p].value)
    ensures PlacesSent(db'.arrivals, returned)
  {
    hide SentBy;
  }

  lemma TopFrame(db: Tables, returned: map<nat, Return>, run: string, x: seq<Frame>)
    requires StackOk(db.tasks, returned, |db.tasks|, run, x) && x != []
    ensures Top(x).fanout in returned && returned[Top(x).fanout].fanning
        && Top(x).count == |returned[Top(x).fanout].hops|
    ensures Top(x).fanout < |db.tasks| && db.tasks[Top(x).fanout].run == run
        && db.tasks[Top(x).fanout].branch == Outer(x)
  {
    assert FrameOk(db.tasks, returned, |db.tasks|, run, x, |x| - 1);
  }

  lemma SameRows(db: Tables, db': Tables, returned: map<nat, Return>)
    requires JoinsInv(db, returned) && db'.tasks == db.tasks && db'.arrivals == db.arrivals
    ensures JoinsInv(db', returned)
  {
  }

  lemma ArrivalsReturned(db: Tables, returned: map<nat, Return>)
    requires PlacesOk(db.arrivals, db.tasks, returned)
    ensures forall p | p in db.arrivals :: p.fanout in returned
  {
    forall p | p in db.arrivals ensures p.fanout in returned {
      assert PlaceOk(db.tasks, returned, p, db.arrivals[p]);
    }
  }

  lemma RouteOneJoins(
    db: Tables, returned: map<nat, Return>, id: nat, g: Graph, hops: seq<Hop>, fanning: bool, i: nat, now: nat)
    requires id < |db.tasks| && i < |hops| && Runner.Routable(g, db.tasks[id].branch, hops, fanning)
    requires db.tasks[id].status == Done && Recorded(returned, id, g, hops, fanning)
    requires Nested(db.tasks, returned) && PlacesOk(db.arrivals, db.tasks, returned) && JoinsInv(db, returned)
    requires NamesOk(g.nodes)
    ensures JoinsInv(Runner.RouteOne(db, id, g, hops, fanning, i, now), returned)
  {
    hide JoinsInv, Nested, PlacesOk, FrameOk, Runner.RecordArrival;
    var frames := ChildFrames(id, db.tasks[id].branch, hops[i], i, |hops|, fanning);
    var target := g.nodes[hops[i].target];
    ChildStackOk(db.tasks, returned, id, i, |db.tasks|);
    RowTrodden(db, returned, id);
    if target.join {
      assert returned[id].joins[i] && returned[id].hops[i] == Hop(target.name, hops[i].payload);
      RecordKeepsJoins(db, returned, id, target, hops[i], frames, now);
    } else {
      ArrivalsReturned(db, returned);
      RowsKeepJoins(db, returned, Runner.EnqueueTransition(db, id, target, hops[i], frames, now), returned);
    }
  }

  lemma RowTrodden(db: Tables, returned: map<nat, Return>, id: nat)
    requires JoinsInv(db, returned) && id < |db.tasks|
    ensures TroddenStack(returned, db.tasks[id].branch)
  {
  }

  lemma {:induction false} RouteJoins(
    db: Tables, returned: map<nat, Return>, id: nat, g: Graph, hops: seq<Hop>, fanning: bool, upto: nat, now: nat)
    requires id < |db.tasks| && upto <= |hops| && Runner.Routable(g, db.tasks[id].branch, hops, fanning)
    requires db.tasks[id].status == Done && Recorded(returned, id, g, hops, fanning)
    requires Nested(db.tasks, returned) && PlacesOk(db.arrivals, db.tasks, returned) && JoinsInv(db, returned)
    requires NamesOk(g.nodes)
    ensures JoinsInv(Runner.Route(db, id, g, hops, fanning, upto, now), returned)
  {
    hide JoinsInv, Nested, PlacesOk, Runner.RouteOne;
    if upto > 0 {
      RouteJoins(db, returned, id, g, hops, fanning, upto - 1, now);
      RouteKeeps(db, returned, id, g, hops, fanning, upto - 1, now);
      var before := Runner.Route(db, id, g, hops, fanning, upto - 1, now);
      assert before.tasks[id] == db.tasks[id];
      RouteOneJoins(before, returned, id, g, hops, fanning, upto - 1, now);
    }
  }

  // ------------------------------------------------------------------------
  // Every step
  // ------------------------------------------------------------------------

  lemma SuccessJoins(s: State, a: Step)
    requires Inv(s) && JoinsInv(s.db, s.returned) && a.Succeed? && Enabled(s, a)
    ensures JoinsInv(Next(s, a).db, Next(s, a).returned)
  {
    hide Runner.Written, Runner.SettleRun, Runner.Route, Runner.Reading, Jsonable, IsFanOut, FrameOk, StackOk,
        PlaceOk, JoinsInv;
    var hops := Runner.Reading(s.db, a.id, a.g, a.value).value;
    var returned := Next(s, a).returned;
    var done := Finish(s.db, a.id, Done, Some(Jsonable(a.value)), hops == []);
    assert Grows(s.db.tasks, done.tasks) && Extends(s.returned, returned);
    NestedKept(s.db.tasks, s.returned, done.tasks, returned);
    PlacesKept(s.db.arrivals, s.db.tasks, s.returned, done.tasks, returned);
    ArrivalsReturned(s.db, s.returned);
    RowsKeepJoins(s.db, s.returned, done, returned);
    RouteJoins(done, returned, a.id, a.g, hops, IsFanOut(a.value), |hops|, a.now);
    SuccessWrites(s.db, a.id, a.g, a.value, a.now);
    SameRows(Runner.Route(done, a.id, a.g, hops, IsFanOut(a.value), |hops|, a.now), Next(s, a).db, returned);
  }

  // What the other steps leave of the rows: the same, plus rows under a known stack.
  predicate AddsNoJoin(tasks: seq<Task>, tasks': seq<Task>) {
    && |tasks| <= |tasks'|
    && (forall c | 0 <= c < |tasks| ::
        tasks'[c] == tasks[c].(status := tasks'[c].status, result := tasks'[c].result, terminal := tasks'[c].terminal))
    && (forall c | |tasks| <= c < |tasks'| ::
          tasks'[c].lineage.reason != JoinReason
          && (tasks'[c].branch == [] || exists like | 0 <= like < |tasks| :: tasks[like].branch == tasks'[c].branch))
  }

  lemma AddedKeepJoins(s: State, db': Tables)
    requires Inv(s) && JoinsInv(s.db, s.returned) && AddsNoJoin(s.db.tasks, db'.tasks) && db'.arrivals == s.db.arrivals
    ensures JoinsInv(db', s.returned)
  {
    hide Nested, PlacesOk, ReturnsOk, JoinsInv, TroddenStack;
    ArrivalsReturned(s.db, s.returned);
    forall c | |s.db.tasks| <= c < |db'.tasks| ensures TroddenStack(s.returned, db'.tasks[c].branch) {
      if like :| 0 <= like < |s.db.tasks| && s.db.tasks[like].branch == db'.tasks[c].branch {
        RowTrodden(s.db, s.returned, like);
      } else {
        EmptyTrodden(s.returned);
      }
    }
    RowsKeepJoins(s.db, s.returned, db', s.returned);
  }

  lemma EmptyTrodden(returned: map<nat, Return>)
    ensures TroddenStack(returned, [])
  {
  }

  lemma FailJoins(s: State, a: Step)
    requires Inv(s) && JoinsInv(s.db, s.returned) && Enabled(s, a) && (a.Fail? || a.Submit?)
    ensures JoinsInv(Next(s, a).db, s.returned)
  {
    hide Inv, JoinsInv, Next, Apply, Enabled;
    if a.Submit? {
      SubmitIs(s, a);
    } else {
      FailIs(s, a);
    }
    AddedKeepJoins(s, Next(s, a).db);
  }

  lemma RerunJoins(s: State, a: Step)
    requires Inv(s) && JoinsInv(s.db, s.returned) && Enabled(s, a) && a.Rerun?
    ensures JoinsInv(Next(s, a).db, s.returned)
  {
    hide Inv, JoinsInv, Indexes, ArrivalsPayload, ArrivalSenders;
    AddedKeepJoins(s, Next(s, a).db);
  }

  lemma RetryJoins(s: State, a: Step)
    requires Inv(s) && JoinsInv(s.db, s.returned) && Enabled(s, a) && a.Retry?
    ensures JoinsInv(Next(s, a).db, s.returned)
  {
    hide Inv, JoinsInv;
    AddedKeepJoins(s, Next(s, a).db);
  }

  lemma MoveJoins(s: State, a: Step)
    requires Inv(s) && JoinsInv(s.db, s.returned) && Enabled(s, a) && a.Move?
    ensures JoinsInv(Next(s, a).db, s.returned)
  {
    hide Inv, JoinsInv, Ops.Move;
    MoveAdds(s.db, a.graphs, a.id, a.node, a.now);
    assert Next(s, a).db.tasks[|s.db.tasks|].branch == s.db.tasks[a.id].branch;
    AddedKeepJoins(s, Next(s, a).db);
  }

  lemma SetStatusJoins(s: State, a: Step)
    requires Inv(s) && JoinsInv(s.db, s.returned) && Enabled(s, a) && a.SetStatus?
    ensures JoinsInv(Next(s, a).db, s.returned)
  {
    hide Inv, JoinsInv;
    AddedKeepJoins(s, Next(s, a).db);
  }

  lemma RecoverJoins(s: State, a: Step)
    requires Inv(s) && JoinsInv(s.db, s.returned) && Enabled(s, a) && (a.Recover? || a.Cancel?)
    ensures JoinsInv(Next(s, a).db, s.returned)
  {
    hide Inv, JoinsInv, Next, Apply, Enabled;
    if a.Recover? {
      RecoverIs(s, a);
    } else {
      CancelIs(s, a);
    }
    AddedKeepJoins(s, Next(s, a).db);
  }

  lemma QuietJoins(s: State, a: Step)
    requires Inv(s) && JoinsInv(s.db, s.returned) && Enabled(s, a)
    requires a.Claim? || a.Park? || a.Unpark? || a.Crash? || a.Drop? || a.Pause? || a.Resume?
    ensures JoinsInv(Next(s, a).db, s.returned)
  {
    hide Inv, JoinsInv;
    AddedKeepJoins(s, Next(s, a).db);
  }

  lemma StepJoins(s: State, a: Step)
    requires Inv(s) && JoinsInv(s.db, s.returned) && Enabled(s, a)
    ensures JoinsInv(Next(s, a).db, Next(s, a).returned)
  {
    hide Inv, JoinsInv, Apply, Enabled;
    match a
    case Succeed(_, _, _, _) => SuccessJoins(s, a);
    case Fail(_, _, _, _) => FailJoins(s, a);
    case Submit(_, _, _, _, _) => FailJoins(s, a);
    case Rerun(_, _, _, _) => RerunJoins(s, a);
    case Retry(_, _) => RetryJoins(s, a);
    case Move(_, _, _, _) => MoveJoins(s, a);
    case SetStatus(_, _) => SetStatusJoins(s, a);
    case Cancel(_, _) => RecoverJoins(s, a);
    case Recover(_) => RecoverJoins(s, a);
    case _ => QuietJoins(s, a);
  }

  lemma {:induction false} RunJoins(s: State, trace: seq<Step>)
    requires Inv(s) && JoinsInv(s.db, s.returned) && KeepingRun(s, trace)
    ensures IsRun(s, trace) && JoinsInv(End(s, trace).db, End(s, trace).returned) && Inv(End(s, trace))
    decreases |trace|
  {
    hide Inv, JoinsInv, Apply, Enabled;
    if trace != [] {
      StepKeeps(s, trace[0]);
      StepJoins(s, trace[0]);
      RunJoins(Next(s, trace[0]), trace[1..]);
    }
  }

  lemma JoinsHold(trace: seq<Step>)
    requires KeepingRun(Empty, trace)
    ensures IsRun(Empty, trace) && Inv(End(Empty, trace)) && JoinsInv(End(Empty, trace).db, End(Empty, trace).returned)
  {
    RunJoins(Empty, trace);
  }

  // In every run that overwrites no done row, a join task runs outside its fan-out, on
  // the arrivals of all the fan-out's branches in branch order, each under the payload
  // its branch was given and with the value its sender returned to the join.
  lemma JoinTaskIsComplete(trace: seq<Step>, c: nat)
    requires KeepingRun(Empty, trace)
    ensures IsRun(Empty, trace)
    ensures var s := End(Empty, trace);
            c < |s.db.tasks| && s.db.tasks[c].lineage.reason == JoinReason ==>
              var t := s.db.tasks[c];
              && t.lineage.from.Some? && t.lineage.from.value < |s.db.tasks| && t.lineage.from.value in s.returned
              && t.branch == s.db.tasks[t.lineage.from.value].branch
              && AllArrived(s.db.arrivals, t.run, t.node, t.lineage.from.value, |s.returned[t.lineage.from.value].hops|)
              && PayloadOk(s.returned, t, s.returned[t.lineage.from.value].hops)
  {
    hide PayloadOk, AllArrived;
    JoinsHold(trace);
    var s := End(Empty, trace);
    if c < |s.db.tasks| && s.db.tasks[c].lineage.reason == JoinReason {
      assert DispatchOk(s.db.tasks, s.db.arrivals, s.returned, s.db.tasks[c]);
    }
  }

  // A join is dispatched exactly when all branches of the fan-out have arrived at it, and
  // then by one task.
  lemma DispatchedOnce(trace: seq<Step>, p: Place, a: nat, b: nat)
    requires KeepingRun(Empty, trace)
    ensures IsRun(Empty, trace)
    ensures var s := End(Empty, trace);
            p in s.db.arrivals ==>
              && p.fanout in s.returned
              && (Fired(s.db.tasks, p.run, p.join, p.fanout) <==>
                    AllArrived(s.db.arrivals, p.run, p.join, p.fanout, |s.returned[p.fanout].hops|))
    ensures var tasks := End(Empty, trace).db.tasks;
            a < |tasks| && b < |tasks| && SameDispatch(tasks[a], tasks[b]) ==> a == b
  {
    hide AllArrived, Fired, JoinsInv, Inv, End, SameDispatch;
    JoinsHold(trace);
    FiredExactly(End(Empty, trace), p);
    if a < |End(Empty, trace).db.tasks| && b < |End(Empty, trace).db.tasks| {
      DispatchIsOne(End(Empty, trace), a, b);
    }
  }

  lemma FiredExactly(s: State, p: Place)
    requires Inv(s) && JoinsInv(s.db, s.returned)
    ensures p in s.db.arrivals ==>
              && p.fanout in s.returned
              && (Fired(s.db.tasks, p.run, p.join, p.fanout) <==>
                    AllArrived(s.db.arrivals, p.run, p.join, p.fanout, |s.returned[p.fanout].hops|))
  {
    hide AllArrived, PayloadOk, SentBy, Nested, ReturnsOk, LiveOk, RunsOk;
    ArrivalsReturned(s.db, s.returned);
    if p in s.db.arrivals && Fired(s.db.tasks, p.run, p.join, p.fanout) {
      var c :| 0 <= c < |s.db.tasks| && IsDispatch(s.db.tasks[c], p.run, p.join, p.fanout);
      assert DispatchOk(s.db.tasks, s.db.arrivals, s.returned, s.db.tasks[c]);
    }
  }

  // Whatever happens between the landings: the step that dispatches a join is the one that
  // lands the last of its branches.
  lemma LastLandingDispatches(trace: seq<Step>, a: Step, p: Place)
    requires KeepingRun(Empty, trace) && IsRun(Empty, trace)
    requires Enabled(End(Empty, trace), a) && !OverwritesDone(End(Empty, trace), a)
    ensures var s, s' := End(Empty, trace), Next(End(Empty, trace), a);
            p in s'.db.arrivals ==>
              && p.fanout in s'.returned
              && var n := |s'.returned[p.fanout].hops|;
                 (Fired(s'.db.tasks, p.run, p.join, p.fanout) && !Fired(s.db.tasks, p.run, p.join, p.fanout) <==>
                    && AllArrived(s'.db.arrivals, p.run, p.join, p.fanout, n)
                    && !AllArrived(s.db.arrivals, p.run, p.join, p.fanout, n))
  {
    hide AllArrived, Fired, JoinsInv, Inv, End, Enabled, Next, Apply, OverwritesDone;
    JoinsHold(trace);
    var s, s' := End(Empty, trace), Next(End(Empty, trace), a);
    StepKeeps(s, a);
    StepJoins(s, a);
    FiredExactly(s', p);
    ReturnsKept(s, a);
    if p in s'.db.arrivals {
      FiredBefore(s, s', p);
    }
  }

  lemma ReturnsKept(s: State, a: Step)
    requires Inv(s) && Enabled(s, a)
    ensures Extends(s.returned, Next(s, a).returned)
  {
    hide Nested, PlacesOk, RunsOk, Runner.Written, Runner.Reading, ReturnOf, LiveAfter;
    assert a.Succeed? ==> Held(s, a.id);
  }

  lemma FiredBefore(s: State, s': State, p: Place)
    requires Inv(s) && JoinsInv(s.db, s.returned) && Inv(s') && Extends(s.returned, s'.returned) && p in s'.db.arrivals
    ensures p.fanout in s'.returned
    ensures Fired(s.db.tasks, p.run, p.join, p.fanout) <==>
              AllArrived(s.db.arrivals, p.run, p.join, p.fanout, |s'.returned[p.fanout].hops|)
  {
    hide PayloadOk, SentBy, Nested, ReturnsOk, LiveOk, RunsOk, Fired, OneDispatch, Prompt, Trodden, PlacesSent;
    assert PlaceOk(s'.db.tasks, s'.returned, p, s'.db.arrivals[p]);
    if AllArrived(s.db.arrivals, p.run, p.join, p.fanout, |s'.returned[p.fanout].hops|) {
      assert p in s.db.arrivals by {
        assert p == Place(p.run, p.join, p.fanout, p.index);
      }
      FiredAt(s, p);
    }
    if Fired(s.db.tasks, p.run, p.join, p.fanout) {
      FiredHasAll(s, p);
    }
  }

  lemma FiredAt(s: State, p: Place)
    requires Inv(s) && JoinsInv(s.db, s.returned) && p in s.db.arrivals
    ensures p.fanout in s.returned
    ensures AllArrived(s.db.arrivals, p.run, p.join, p.fanout, |s.returned[p.fanout].hops|) ==>
              Fired(s.db.tasks, p.run, p.join, p.fanout)
  {
    hide AllArrived, Fired, JoinsInv, Inv;
    FiredExactly(s, p);
  }

  lemma FiredHasAll(s: State, p: Place)
    requires JoinsInv(s.db, s.returned) && Fired(s.db.tasks, p.run, p.join, p.fanout)
    ensures p.fanout in s.returned
    ensures AllArrived(s.db.arrivals, p.run, p.join, p.fanout, |s.returned[p.fanout].hops|)
  {
    hide AllArrived, PayloadOk, SentBy, OneDispatch, Prompt, Trodden, PlacesSent;
    var c :| 0 <= c < |s.db.tasks| && IsDispatch(s.db.tasks[c], p.run, p.join, p.fanout);
    assert DispatchOk(s.db.tasks, s.db.arrivals, s.returned, s.db.tasks[c]);
  }

  lemma DispatchIsOne(s: State, a: nat, b: nat)
    requires JoinsInv(s.db, s.returned) && a < |s.db.tasks| && b < |s.db.tasks|
    ensures SameDispatch(s.db.tasks[a], s.db.tasks[b]) ==> a == b
  {
    hide Dispatched, Prompt, Trodden, PlacesSent;
    assert a < b ==> !SameDispatch(s.db.tasks[a], s.db.tasks[b]);
    assert b < a ==> !SameDispatch(s.db.tasks[b], s.db.tasks[a]);
  }

  // ------------------------------------------------------------------------
  // Confluence
  // ------------------------------------------------------------------------

  // The branches of one fan-out on their way to one join: who carries each, its frame,
  // and the transition that lands it.
  datatype Branches = Branches(run: string, fanout: nat, outer: seq<Frame>, senders: seq<nat>, frames: seq<Frame>,
      hops: seq<Hop>)

  predicate BranchesOk(tasks: seq<Task>, b: Branches) {
    && |b.senders| == |b.frames| == |b.hops|
    && (forall i | 0 <= i < |b.senders| :: b.senders[i] < |tasks| && tasks[b.senders[i]].run == b.run)
    && (forall i | 0 <= i < |b.frames| ::
          b.frames[i].fanout == b.fanout && b.frames[i].index == i && b.frames[i].count == |b.frames|)
  }

  predicate Distinct(order: seq<nat>, n: nat) {
    && (forall i | 0 <= i < |order| :: order[i] < n)
    && (forall i, j | 0 <= i < j < |order| :: order[i] != order[j])
  }

  // The tables once the named branches have landed, in that order.
  function LandAll(db: Tables, b: Branches, target: Node, order: seq<nat>, now: nat): (r: Tables)
    requires BranchesOk(db.tasks, b) && Distinct(order, |b.senders|)
    ensures db.tasks <= r.tasks
  {
    if order == [] then db
    else
      var last := |order| - 1;
      var i := order[last];
      var before := LandAll(db, b, target, order[..last], now);
      Runner.RecordArrival(before, b.senders[i], target, b.hops[i], b.outer + [b.frames[i]], now)
  }

  function LandingOf(b: Branches, i: nat): Arrival
    requires i < |b.senders| == |b.frames| == |b.hops|
  {
    Arrival(b.frames[i].key, b.hops[i].payload, b.senders[i], false)
  }

  // The arrivals once the branches in `landed` are in.
  predicate Landed(db: Tables, b: Branches, join: string, landed: set<nat>, arrivals: map<Place, Arrival>)
    requires |b.senders| == |b.frames| == |b.hops|
  {
    && (forall i | i in landed :: i < |b.senders|)
    && (forall p | p in arrivals ::
        p in db.arrivals || (p == Place(b.run, join, b.fanout, p.index) && p.index in landed))
    && (forall p | p in db.arrivals :: p in arrivals && arrivals[p] == db.arrivals[p])
    && (forall i | i in landed ::
          Place(b.run, join, b.fanout, i) in arrivals && arrivals[Place(b.run, join, b.fanout, i)] == LandingOf(b, i))
  }

  function Elements(order: seq<nat>): (s: set<nat>)
    ensures forall i: nat :: i in s <==> i in order
  {
    if order == [] then {} else Elements(order[..|order| - 1]) + {order[|order| - 1]}
  }

  lemma {:induction false} DistinctSize(order: seq<nat>, n: nat)
    requires Distinct(order, n)
    ensures |Elements(order)| == |order|
  {
    if order != [] {
      DistinctSize(order[..|order| - 1], n);
      assert order[|order| - 1] !in order[..|order| - 1];
    }
  }

  lemma AllLanded(order: seq<nat>, n: nat)
    requires Distinct(order, n) && |order| == n
    ensures Elements(order) == Below(n)
  {
    DistinctSize(order, n);
    Pigeonhole(Elements(order), n);
  }

  lemma LandedIndexes(db: Tables, b: Branches, join: string, landed: set<nat>, arrivals: map<Place, Arrival>)
    requires |b.senders| == |b.frames| == |b.hops| && Landed(db, b, join, landed, arrivals)
    requires Indexes(db.arrivals, b.run, join, b.fanout) == {}
    ensures Indexes(arrivals, b.run, join, b.fanout) == landed
  {
    forall i: nat ensures i in Indexes(arrivals, b.run, join, b.fanout) <==> i in landed {
      var p := Place(b.run, join, b.fanout, i);
      assert p in db.arrivals ==> i in Indexes(db.arrivals, b.run, join, b.fanout);
    }
  }

  // One branch lands on top of the ones that have.
  lemma LandOne(db: Tables, before: Tables, b: Branches, target: Node, landed: set<nat>, i: nat, now: nat)
    requires BranchesOk(db.tasks, b) && before.tasks == db.tasks
    requires Landed(db, b, target.name, landed, before.arrivals) && i < |b.senders| && i !in landed
    requires !Fired(db.tasks, b.run, target.name, b.fanout) && Indexes(db.arrivals, b.run, target.name, b.fanout) == {}
    ensures var r := Runner.RecordArrival(before, b.senders[i], target, b.hops[i], b.outer + [b.frames[i]], now);
            && Landed(db, b, target.name, landed + {i}, r.arrivals)
            && (r.tasks == if |landed| + 1 < |b.senders| then db.tasks
                           else db.tasks + [Runner.JoinTask(r, b.run, target, b.fanout, b.outer, now)])
  {
    hide Landed, Fired, Indexes, ArrivalsPayload, ArrivalSenders;
    var x := b.outer + [b.frames[i]];
    var r := Runner.RecordArrival(before, b.senders[i], target, b.hops[i], x, now);
    var p := Place(b.run, target.name, b.fanout, i);
    assert x[|x| - 1] == b.frames[i] && x[..|x| - 1] == b.outer;
    assert r.arrivals == before.arrivals[p := LandingOf(b, i)];
    LandedMore(db, b, target.name, landed, before.arrivals, i);
    LandedIndexes(db, b, target.name, landed + {i}, r.arrivals);
  }

  lemma LandedMore(db: Tables, b: Branches, join: string, landed: set<nat>, arrivals: map<Place, Arrival>, i: nat)
    requires |b.senders| == |b.frames| == |b.hops| && i < |b.senders|
    requires Landed(db, b, join, landed, arrivals) && Indexes(db.arrivals, b.run, join, b.fanout) == {}
    ensures Landed(db, b, join, landed + {i}, arrivals[Place(b.run, join, b.fanout, i) := LandingOf(b, i)])
  {
    hide LandingOf, Indexes;
    NotIn(db.arrivals, Place(b.run, join, b.fanout, i));
  }

  lemma NotIn(arrivals: map<Place, Arrival>, p: Place)
    requires p.index !in Indexes(arrivals, p.run, p.join, p.fanout)
    ensures p !in arrivals
  {
  }

  // Until the last branch lands nothing is dispatched; the landing of the last one is.
  lemma {:induction false} LandingsDispatch(db: Tables, b: Branches, target: Node, order: seq<nat>, now: nat)
    requires BranchesOk(db.tasks, b) && Distinct(order, |b.senders|)
    requires !Fired(db.tasks, b.run, target.name, b.fanout) && Indexes(db.arrivals, b.run, target.name, b.fanout) == {}
    ensures var r := LandAll(db, b, target, order, now);
            && Landed(db, b, target.name, Elements(order), r.arrivals)
            && (r.tasks ==
                if order == [] || |order| < |b.senders| then db.tasks
                else db.tasks + [Runner.JoinTask(r, b.run, target, b.fanout, b.outer, now)])
    decreases |order|
  {
    hide Landed, Fired, Indexes, Runner.RecordArrival, Runner.JoinTask;
    if order == [] {
      NoneLanded(db, b, target.name);
    } else {
      var last := |order| - 1;
      assert Distinct(order[..last], |b.senders|);
      LandingsDispatch(db, b, target, order[..last], now);
      DistinctSize(order[..last], |b.senders|);
      DistinctFits(order, |b.senders|);
      LandOne(db, LandAll(db, b, target, order[..last], now), b, target, Elements(order[..last]), order[last], now);
    }
  }

  lemma NoneLanded(db: Tables, b: Branches, join: string)
    requires |b.senders| == |b.frames| == |b.hops|
    ensures Landed(db, b, join, {}, db.arrivals)
  {
  }

  lemma DistinctFits(order: seq<nat>, n: nat)
    requires Distinct(order, n)
    ensures |order| <= n
  {
    DistinctSize(order, n);
    Pigeonhole(Elements(order), n);
  }

  // The tables two landings of one branch lead to differ in nothing else.
  lemma LandedSame(
    db: Tables, b: Branches, join: string, landed: set<nat>, arrivals: map<Place, Arrival>,
        arrivals': map<Place, Arrival>)
    requires |b.senders| == |b.frames| == |b.hops|
    requires Landed(db, b, join, landed, arrivals) && Landed(db, b, join, landed, arrivals')
    ensures arrivals == arrivals'
  {
    forall p | p in arrivals ensures p in arrivals' && arrivals'[p] == arrivals[p] {
    }
    forall p | p in arrivals' ensures p in arrivals {
    }
  }

  // Whatever order the branches land in, the same one task is dispatched, with the same
  // payload, stack and lineage, and the arrivals are the same.
  lemma Confluence(db: Tables, b: Branches, target: Node, order: seq<nat>, order': seq<nat>, now: nat)
    requires BranchesOk(db.tasks, b) && b.senders != []
    requires Distinct(order, |b.senders|) && Distinct(order', |b.senders|) && |order| == |order'| == |b.senders|
    requires !Fired(db.tasks, b.run, target.name, b.fanout) && Indexes(db.arrivals, b.run, target.name, b.fanout) == {}
    ensures var r, r' := LandAll(db, b, target, order, now), LandAll(db, b, target, order', now);
            && r.tasks == r'.tasks && r.arrivals == r'.arrivals
            && |r.tasks| == |db.tasks| + 1 && r.tasks[..|db.tasks|] == db.tasks
            && DispatchOf(b, r.tasks[|db.tasks|])
  {
    hide Fired, Indexes, Landed, Runner.RecordArrival;
    var r, r' := LandAll(db, b, target, order, now), LandAll(db, b, target, order', now);
    LandingsDispatch(db, b, target, order, now);
    LandingsDispatch(db, b, target, order', now);
    AllLanded(order, |b.senders|);
    AllLanded(order', |b.senders|);
    LandedSame(db, b, target.name, Below(|b.senders|), r.arrivals, r'.arrivals);
    LandedDispatch(db, b, target, r, now);
  }

  // What the dispatched task is, in terms of the branches alone.
  predicate DispatchOf(b: Branches, t: Task)
    requires |b.senders| == |b.frames| == |b.hops|
  {
    && t.run == b.run && t.branch == b.outer && t.lineage == Lineage(JoinReason, Some(b.fanout), b.senders)
    && t.payload.JList? && |t.payload.items| == |b.senders|
    && forall i | 0 <= i < |b.senders| :: t.payload.items[i] == Entry(i, LandingOf(b, i))
  }

  lemma LandedDispatch(db: Tables, b: Branches, target: Node, r: Tables, now: nat)
    requires BranchesOk(db.tasks, b) && Landed(db, b, target.name, Below(|b.senders|), r.arrivals)
    requires Indexes(db.arrivals, b.run, target.name, b.fanout) == {}
    ensures DispatchOf(b, Runner.JoinTask(r, b.run, target, b.fanout, b.outer, now))
  {
    hide Landed, Indexes;
    var n := |b.senders|;
    LandedIndexes(db, b, target.name, Below(n), r.arrivals);
    forall i: nat | i < n
      ensures Place(b.run, target.name, b.fanout, i) in r.arrivals
      ensures r.arrivals[Place(b.run, target.name, b.fanout, i)] == LandingOf(b, i)
    {
      LandedAt(db, b, target.name, Below(n), r.arrivals, i);
    }
    FullOrder(r.arrivals, b.run, target.name, b.fanout, n);
    var t := Runner.JoinTask(r, b.run, target, b.fanout, b.outer, now);
    assert t.lineage.arrivals == b.senders;
  }

  lemma LandedAt(db: Tables, b: Branches, join: string, landed: set<nat>, arrivals: map<Place, Arrival>, i: nat)
    requires |b.senders| == |b.frames| == |b.hops| && Landed(db, b, join, landed, arrivals) && i in landed
    ensures i < |b.senders| && Place(b.run, join, b.fanout, i) in arrivals
    ensures arrivals[Place(b.run, join, b.fanout, i)] == LandingOf(b, i)
  {
  }
}
