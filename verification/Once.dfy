/** Exactly-once routing: a row is done exactly when each transition it returned is
    written exactly once, as one successor row or one arrival, whatever crashes and
    sweeps come between. */
module Once {
  import opened Base
  import opened Json
  import opened Graphs
  import opened Rows
  import opened Routing
  import opened Store
  import opened Machine
  import opened Nesting
  import opened Tokens
  import Runner
  import Ops

  // The stack of transition i of row t.
  function StackOf(tasks: seq<Task>, returned: map<nat, Return>, t: nat, i: nat): seq<Frame>
    requires t < |tasks| && t in returned && i < |returned[t].hops|
  {
    ChildFrames(t, tasks[t].branch, returned[t].hops[i], i, |returned[t].hops|, returned[t].fanning)
  }

  predicate IsTransition(tasks: seq<Task>, t: nat, c: nat) {
    c < |tasks| && tasks[c].lineage == Lineage(TransitionReason, Some(t), [])
  }

  // Row c is what transition i of row t was written as.
  predicate IsChild(tasks: seq<Task>, returned: map<nat, Return>, t: nat, i: nat, c: nat)
    requires t < |tasks| && t in returned && i < |returned[t].hops|
  {
    && IsTransition(tasks, t, c)
    && tasks[c].run == tasks[t].run
    && tasks[c].node == returned[t].hops[i].target
    && tasks[c].payload == returned[t].hops[i].payload
    && tasks[c].branch == StackOf(tasks, returned, t, i)
  }

  // The arrival at p is what transition i of row t was written as.
  predicate IsArrival(
    tasks: seq<Task>, arrivals: map<Place, Arrival>, returned: map<nat, Return>, t: nat, i: nat, p: Place)
    requires t < |tasks| && t in returned && i < |returned[t].hops|
  {
    var x := StackOf(tasks, returned, t, i);
    && x != [] && p == PlaceOf(tasks[t].run, returned[t].hops[i].target, x)
    && p in arrivals && arrivals[p].from == t && arrivals[p].value == returned[t].hops[i].payload
  }

  ghost predicate HopWritten(
    tasks: seq<Task>, arrivals: map<Place, Arrival>, returned: map<nat, Return>, t: nat, i: nat)
    requires t < |tasks| && t in returned && i < |returned[t].hops| == |returned[t].joins|
  {
    if returned[t].joins[i] then exists p :: IsArrival(tasks, arrivals, returned, t, i, p)
    else exists c: nat :: IsChild(tasks, returned, t, i, c)
  }

  // Everything written under row t is one of its first `upto` transitions.
  ghost predicate NothingElse(
    tasks: seq<Task>, arrivals: map<Place, Arrival>, returned: map<nat, Return>, t: nat, upto: nat)
    requires t < |tasks| && t in returned && upto <= |returned[t].hops| == |returned[t].joins|
  {
    && (forall c: nat | IsTransition(tasks, t, c) ::
          exists i: nat | i < upto :: !returned[t].joins[i] && IsChild(tasks, returned, t, i, c))
    && (forall p | p in arrivals && arrivals[p].from == t ::
          exists i: nat | i < upto :: returned[t].joins[i] && IsArrival(tasks, arrivals, returned, t, i, p))
  }

  // No transition of row t is written as two rows.
  ghost predicate NoTwice(tasks: seq<Task>, returned: map<nat, Return>, t: nat)
    requires t < |tasks| && t in returned
  {
    forall i: nat, c: nat, d: nat | i < |returned[t].hops|
      && IsChild(tasks, returned, t, i, c) && IsChild(tasks, returned, t, i, d) :: c == d
  }

  ghost predicate WrittenUpto(
    tasks: seq<Task>, arrivals: map<Place, Arrival>, returned: map<nat, Return>, t: nat, upto: nat)
    requires t < |tasks| && t in returned && upto <= |returned[t].hops| == |returned[t].joins|
  {
    && (forall i: nat | i < upto :: HopWritten(tasks, arrivals, returned, t, i))
    && NothingElse(tasks, arrivals, returned, t, upto)
    && NoTwice(tasks, returned, t)
  }

  // Row t's return is written: each transition once, and nothing besides.
  ghost predicate Written(tasks: seq<Task>, arrivals: map<Place, Arrival>, returned: map<nat, Return>, t: nat) {
    && t < |tasks| && t in returned && |returned[t].hops| == |returned[t].joins|
    && WrittenUpto(tasks, arrivals, returned, t, |returned[t].hops|)
  }

  // Row t has written nothing.
  predicate Silent(tasks: seq<Task>, arrivals: map<Place, Arrival>, t: nat) {
    && (forall c: nat | c < |tasks| :: !IsTransition(tasks, t, c))
    && (forall p | p in arrivals :: arrivals[p].from != t)
  }

  // What is written comes from a row there is.
  predicate SendersKnown(tasks: seq<Task>, arrivals: map<Place, Arrival>) {
    && (forall c: nat | c < |tasks| && tasks[c].lineage.reason == TransitionReason ::
          tasks[c].lineage.from.Some? && tasks[c].lineage.from.value < |tasks|)
    && (forall p | p in arrivals :: arrivals[p].from < |tasks|)
  }

  ghost predicate RowOnce(tasks: seq<Task>, arrivals: map<Place, Arrival>, returned: map<nat, Return>, t: nat)
    requires t < |tasks|
  {
    if tasks[t].status == Done then Written(tasks, arrivals, returned, t) else Silent(tasks, arrivals, t)
  }

  ghost predicate ExactlyOnce(s: State) {
    && SendersKnown(s.db.tasks, s.db.arrivals)
    && forall t: nat | t < |s.db.tasks| :: RowOnce(s.db.tasks, s.db.arrivals, s.returned, t)
  }

  // ------------------------------------------------------------------------
  // What a change leaves written
  // ------------------------------------------------------------------------

  // Rows and arrivals are as they were, apart from additions not of row t.
  predicate KeepsWriting(
    tasks: seq<Task>, arrivals: map<Place, Arrival>, tasks': seq<Task>, arrivals': map<Place, Arrival>, t: nat) {
    && |tasks| <= |tasks'|
    && (forall c | 0 <= c < |tasks| ::
          && tasks'[c].run == tasks[c].run && tasks'[c].node == tasks[c].node && tasks'[c].payload == tasks[c].payload
          && tasks'[c].branch == tasks[c].branch && tasks'[c].lineage == tasks[c].lineage)
    && (forall c: nat | |tasks| <= c < |tasks'| :: !IsTransition(tasks', t, c))
    && (forall p | p in arrivals :: p in arrivals' && arrivals'[p] == arrivals[p])
    && (forall p | p in arrivals' && p !in arrivals :: arrivals'[p].from != t)
  }

  lemma ChildKept(
    tasks: seq<Task>, returned: map<nat, Return>, tasks': seq<Task>, returned': map<nat, Return>, t: nat, i: nat,
        c: nat)
    requires t < |tasks| <= |tasks'| && t in returned && t in returned' && returned'[t] == returned[t]
        && i < |returned[t].hops|
    requires forall c | 0 <= c < |tasks| ::
               && tasks'[c].run == tasks[c].run && tasks'[c].node == tasks[c].node
                   && tasks'[c].payload == tasks[c].payload
               && tasks'[c].branch == tasks[c].branch && tasks'[c].lineage == tasks[c].lineage
    ensures c < |tasks| ==> (IsChild(tasks', returned', t, i, c) <==> IsChild(tasks, returned, t, i, c))
  {
  }

  lemma WrittenKept(
    tasks: seq<Task>, arrivals: map<Place, Arrival>, returned: map<nat, Return>,
    tasks': seq<Task>, arrivals': map<Place, Arrival>, returned': map<nat, Return>, t: nat)
    requires Written(tasks, arrivals, returned, t) && KeepsWriting(tasks, arrivals, tasks', arrivals', t)
    requires t in returned' && returned'[t] == returned[t]
    ensures Written(tasks', arrivals', returned', t)
  {
    hide ChildFrames;
    var r := returned[t];
    forall i: nat | i < |r.hops| ensures HopWritten(tasks', arrivals', returned', t, i) {
      assert HopWritten(tasks, arrivals, returned, t, i);
      if r.joins[i] {
        var p :| IsArrival(tasks, arrivals, returned, t, i, p);
        assert IsArrival(tasks', arrivals', returned', t, i, p);
      } else {
        var c: nat :| IsChild(tasks, returned, t, i, c);
        ChildKept(tasks, returned, tasks', returned', t, i, c);
      }
    }
    forall c: nat | IsTransition(tasks', t, c)
      ensures exists i: nat | i < |r.hops| :: !r.joins[i] && IsChild(tasks', returned', t, i, c)
    {
      assert IsTransition(tasks, t, c);
      var i: nat :| i < |r.hops| && !r.joins[i] && IsChild(tasks, returned, t, i, c);
      ChildKept(tasks, returned, tasks', returned', t, i, c);
    }
    forall p | p in arrivals' && arrivals'[p].from == t
      ensures exists i: nat | i < |r.hops| :: r.joins[i] && IsArrival(tasks', arrivals', returned', t, i, p)
    {
      var i: nat :| i < |r.hops| && r.joins[i] && IsArrival(tasks, arrivals, returned, t, i, p);
      assert IsArrival(tasks', arrivals', returned', t, i, p);
    }
    forall i: nat, c: nat, d: nat | i < |r.hops|
      && IsChild(tasks', returned', t, i, c) && IsChild(tasks', returned', t, i, d)
      ensures c == d
    {
      assert IsTransition(tasks, t, c) && IsTransition(tasks, t, d);
      ChildKept(tasks, returned, tasks', returned', t, i, c);
      ChildKept(tasks, returned, tasks', returned', t, i, d);
    }
  }

  lemma SilentKept(
    tasks: seq<Task>, arrivals: map<Place, Arrival>, tasks': seq<Task>, arrivals': map<Place, Arrival>, t: nat)
    requires Silent(tasks, arrivals, t) && KeepsWriting(tasks, arrivals, tasks', arrivals', t)
    ensures Silent(tasks', arrivals', t)
  {
    forall c: nat | c < |tasks'| ensures !IsTransition(tasks', t, c) {
      assert c < |tasks| ==> !IsTransition(tasks, t, c);
    }
  }

  lemma KeepsTransitive(
    tasks: seq<Task>, arrivals: map<Place, Arrival>, tasks1: seq<Task>, arrivals1: map<Place, Arrival>,
    tasks2: seq<Task>, arrivals2: map<Place, Arrival>, t: nat)
    requires KeepsWriting(tasks, arrivals, tasks1, arrivals1, t)
        && KeepsWriting(tasks1, arrivals1, tasks2, arrivals2, t)
    ensures KeepsWriting(tasks, arrivals, tasks2, arrivals2, t)
  {
    forall c: nat | |tasks| <= c < |tasks2| ensures !IsTransition(tasks2, t, c) {
      assert c < |tasks1| ==> !IsTransition(tasks1, t, c);
    }
  }

  // ------------------------------------------------------------------------
  // Writing a return
  // ------------------------------------------------------------------------

  lemma StacksDiffer(tasks: seq<Task>, returned: map<nat, Return>, t: nat, i: nat, j: nat)
    requires t < |tasks| && t in returned && i < j < |returned[t].hops|
    requires !returned[t].fanning ==> |returned[t].hops| <= 1
    ensures StackOf(tasks, returned, t, i) != StackOf(tasks, returned, t, j)
  {
    var x, y, top := StackOf(tasks, returned, t, i), StackOf(tasks, returned, t, j), |tasks[t].branch|;
    assert x[top].index == i;
    assert y[top].index == j;
    assert x != y;
  }

  // The rows are as they were, and the new one, if any, is no transition of row t.
  predicate Appended(tasks: seq<Task>, tasks': seq<Task>, t: nat) {
    tasks' == tasks || (|tasks'| == |tasks| + 1 && tasks'[..|tasks|] == tasks && !IsTransition(tasks', t, |tasks|))
  }

  lemma ChildWritten(
    tasks: seq<Task>, arrivals: map<Place, Arrival>, returned: map<nat, Return>, t: nat, i: nat, tasks': seq<Task>)
    requires t < |tasks| && t in returned && i < |returned[t].hops| == |returned[t].joins|
    requires !returned[t].fanning ==> |returned[t].hops| <= 1
    requires WrittenUpto(tasks, arrivals, returned, t, i) && !returned[t].joins[i]
    requires |tasks'| == |tasks| + 1 && tasks'[..|tasks|] == tasks && IsChild(tasks', returned, t, i, |tasks|)
    ensures WrittenUpto(tasks', arrivals, returned, t, i + 1)
  {
    hide StackOf, IsTransition;
    var r := returned[t];
    assert forall c | 0 <= c < |tasks| :: tasks'[c] == tasks[c];
    OldHopsKept(tasks, arrivals, returned, t, i, tasks', arrivals);
    forall c: nat | IsTransition(tasks', t, c)
      ensures exists j: nat | j < i + 1 :: !r.joins[j] && IsChild(tasks', returned, t, j, c)
    {
      TransitionIndex(tasks', t, c);
      if c < |tasks| {
        OldTransition(tasks, tasks', t, c);
        var j: nat :| j < i && !r.joins[j] && IsChild(tasks, returned, t, j, c);
        SameChild(tasks, returned, t, j, tasks', c);
      }
    }
    forall q | q in arrivals && arrivals[q].from == t
      ensures exists j: nat | j < i + 1 :: r.joins[j] && IsArrival(tasks', arrivals, returned, t, j, q)
    {
      var j: nat :| j < i && r.joins[j] && IsArrival(tasks, arrivals, returned, t, j, q);
      SameStack(tasks, returned, t, j, tasks');
      assert IsArrival(tasks', arrivals, returned, t, j, q);
    }
    forall j: nat, c: nat, d: nat | j < |r.hops| && IsChild(tasks', returned, t, j, c)
        && IsChild(tasks', returned, t, j, d)
      ensures c == d
    {
      OneChild(tasks, arrivals, returned, t, i, tasks', j, c, d);
    }
  }

  lemma TransitionIndex(tasks: seq<Task>, t: nat, c: nat)
    requires IsTransition(tasks, t, c)
    ensures c < |tasks|
  {
  }

  lemma OldTransition(tasks: seq<Task>, tasks': seq<Task>, t: nat, c: nat)
    requires c < |tasks| <= |tasks'| && tasks'[c] == tasks[c]
    ensures IsTransition(tasks', t, c) <==> IsTransition(tasks, t, c)
  {
  }

  lemma SameChild(tasks: seq<Task>, returned: map<nat, Return>, t: nat, i: nat, tasks': seq<Task>, c: nat)
    requires t < |tasks| <= |tasks'| && t in returned && i < |returned[t].hops|
    requires tasks'[t] == tasks[t] && c < |tasks| && tasks'[c] == tasks[c]
    ensures IsChild(tasks', returned, t, i, c) <==> IsChild(tasks, returned, t, i, c)
  {
  }

  // What was written before a row or an arrival came in is still written.
  lemma OldHopsKept(
    tasks: seq<Task>, arrivals: map<Place, Arrival>, returned: map<nat, Return>, t: nat, i: nat,
    tasks': seq<Task>, arrivals': map<Place, Arrival>)
    requires t < |tasks| <= |tasks'| && t in returned && i <= |returned[t].hops| == |returned[t].joins|
    requires forall c | 0 <= c < |tasks| :: tasks'[c] == tasks[c]
    requires forall p | p in arrivals :: p in arrivals' && arrivals'[p] == arrivals[p]
    requires forall j: nat | j < i :: HopWritten(tasks, arrivals, returned, t, j)
    ensures forall j: nat | j < i :: HopWritten(tasks', arrivals', returned, t, j)
  {
    hide ChildFrames;
    forall j: nat | j < i ensures HopWritten(tasks', arrivals', returned, t, j) {
      assert HopWritten(tasks, arrivals, returned, t, j);
      if returned[t].joins[j] {
        var p :| IsArrival(tasks, arrivals, returned, t, j, p);
        assert IsArrival(tasks', arrivals', returned, t, j, p);
      } else {
        var c: nat :| IsChild(tasks, returned, t, j, c);
        SameChild(tasks, returned, t, j, tasks', c);
      }
    }
  }

  lemma OneChild(
    tasks: seq<Task>, arrivals: map<Place, Arrival>, returned: map<nat, Return>, t: nat, i: nat, tasks': seq<Task>,
    j: nat, c: nat, d: nat)
    requires t < |tasks| && t in returned && i < |returned[t].hops| == |returned[t].joins| && j < |returned[t].hops|
    requires !returned[t].fanning ==> |returned[t].hops| <= 1
    requires WrittenUpto(tasks, arrivals, returned, t, i)
    requires |tasks'| == |tasks| + 1 && tasks'[..|tasks|] == tasks && IsChild(tasks', returned, t, i, |tasks|)
    requires IsChild(tasks', returned, t, j, c) && IsChild(tasks', returned, t, j, d)
    ensures c == d
  {
    assert forall e | 0 <= e < |tasks| :: tasks'[e] == tasks[e];
    if c != d {
      var earlier := if c < |tasks| then c else d;
      SameChild(tasks, returned, t, j, tasks', earlier);
      if c < |tasks| && d < |tasks| {
        SameChild(tasks, returned, t, j, tasks', c);
        SameChild(tasks, returned, t, j, tasks', d);
      } else {
        assert IsTransition(tasks, t, earlier);
        var k: nat :| k < i && !returned[t].joins[k] && IsChild(tasks, returned, t, k, earlier);
        StacksDiffer(tasks, returned, t, k, i);
      }
    }
  }

  lemma ArrivalWritten(
    tasks: seq<Task>, arrivals: map<Place, Arrival>, returned: map<nat, Return>, t: nat, i: nat,
    tasks': seq<Task>, arrivals': map<Place, Arrival>, p: Place)
    requires t < |tasks| && t in returned && i < |returned[t].hops| == |returned[t].joins|
    requires WrittenUpto(tasks, arrivals, returned, t, i) && returned[t].joins[i]
    requires Appended(tasks, tasks', t)
    requires p !in arrivals && p in arrivals' && arrivals' == arrivals[p := arrivals'[p]]
    requires IsArrival(tasks', arrivals', returned, t, i, p)
    ensures WrittenUpto(tasks', arrivals', returned, t, i + 1)
  {
    hide StackOf;
    var r := returned[t];
    assert forall c | 0 <= c < |tasks| :: tasks'[c] == tasks[c];
    OldHopsKept(tasks, arrivals, returned, t, i, tasks', arrivals');
    forall c: nat | IsTransition(tasks', t, c)
      ensures exists j: nat | j < i + 1 :: !r.joins[j] && IsChild(tasks', returned, t, j, c)
    {
      assert IsTransition(tasks, t, c);
      var j: nat :| j < i && !r.joins[j] && IsChild(tasks, returned, t, j, c);
      SameChild(tasks, returned, t, j, tasks', c);
    }
    forall q | q in arrivals' && arrivals'[q].from == t
      ensures exists j: nat | j < i + 1 :: r.joins[j] && IsArrival(tasks', arrivals', returned, t, j, q)
    {
      if q != p {
        var j: nat :| j < i && r.joins[j] && IsArrival(tasks, arrivals, returned, t, j, q);
        SameStack(tasks, returned, t, j, tasks');
        assert IsArrival(tasks', arrivals', returned, t, j, q);
      }
    }
    forall j: nat, c: nat, d: nat | j < |r.hops| && IsChild(tasks', returned, t, j, c)
        && IsChild(tasks', returned, t, j, d)
      ensures c == d
    {
      assert IsTransition(tasks, t, c) && IsTransition(tasks, t, d);
      SameChild(tasks, returned, t, j, tasks', c);
      SameChild(tasks, returned, t, j, tasks', d);
    }
  }

  lemma SameStack(tasks: seq<Task>, returned: map<nat, Return>, t: nat, i: nat, tasks': seq<Task>)
    requires t < |tasks| <= |tasks'| && t in returned && i < |returned[t].hops| && tasks'[t] == tasks[t]
    ensures StackOf(tasks', returned, t, i) == StackOf(tasks, returned, t, i)
  {
  }

  // A join transition adds an arrival, and perhaps the join's task.
  lemma JoinWrites(
    db: Tables, returned: map<nat, Return>, id: nat, g: Graph, hops: seq<Hop>, fanning: bool, i: nat, now: nat)
    requires id < |db.tasks| && i < |hops| && Runner.Routable(g, db.tasks[id].branch, hops, fanning) && NamesOk(g.nodes)
    requires Recorded(returned, id, g, hops, fanning) && g.nodes[hops[i].target].join
    requires Linear(db, returned)
    requires Free(db, returned, db.tasks[id].run, ChildFrames(id, db.tasks[id].branch, hops[i], i, |hops|, fanning))
    requires WrittenUpto(db.tasks, db.arrivals, returned, id, i)
    ensures var db' := Runner.RouteOne(db, id, g, hops, fanning, i, now);
            && WrittenUpto(db'.tasks, db'.arrivals, returned, id, i + 1)
            && forall t: nat | t != id :: KeepsWriting(db.tasks, db.arrivals, db'.tasks, db'.arrivals, t)
  {
    hide WrittenUpto, Linear, Free, ArrivalsPayload, ArrivalSenders, Indexes, Fired;
    var run := db.tasks[id].run;
    var x := ChildFrames(id, db.tasks[id].branch, hops[i], i, |hops|, fanning);
    var target := g.nodes[hops[i].target];
    var p := PlaceOf(run, target.name, x);
    ArrivalIsNew(db, returned, run, target.name, x);
    var db' := Runner.RecordArrival(db, id, target, hops[i], x, now);
    assert db'.arrivals == db.arrivals[p := Arrival(Top(x).key, hops[i].payload, id, false)];
    assert x == StackOf(db'.tasks, returned, id, i);
    ArrivalWritten(db.tasks, db.arrivals, returned, id, i, db'.tasks, db'.arrivals, p);
  }

  // Any other transition adds the successor row.
  lemma TransitionWrites(
    db: Tables, returned: map<nat, Return>, id: nat, g: Graph, hops: seq<Hop>, fanning: bool, i: nat, now: nat)
    requires id < |db.tasks| && i < |hops| && Runner.Routable(g, db.tasks[id].branch, hops, fanning) && NamesOk(g.nodes)
    requires Recorded(returned, id, g, hops, fanning) && (!fanning ==> |hops| <= 1) && !g.nodes[hops[i].target].join
    requires WrittenUpto(db.tasks, db.arrivals, returned, id, i)
    ensures var db' := Runner.RouteOne(db, id, g, hops, fanning, i, now);
            && WrittenUpto(db'.tasks, db'.arrivals, returned, id, i + 1)
            && forall t: nat | t != id :: KeepsWriting(db.tasks, db.arrivals, db'.tasks, db'.arrivals, t)
  {
    hide WrittenUpto;
    var x := ChildFrames(id, db.tasks[id].branch, hops[i], i, |hops|, fanning);
    var db' := Runner.EnqueueTransition(db, id, g.nodes[hops[i].target], hops[i], x, now);
    assert x == StackOf(db'.tasks, returned, id, i);
    assert IsChild(db'.tasks, returned, id, i, |db.tasks|);
    ChildWritten(db.tasks, db.arrivals, returned, id, i, db'.tasks);
  }

  lemma RouteOneWrites(
    db: Tables, returned: map<nat, Return>, id: nat, g: Graph, hops: seq<Hop>, fanning: bool, i: nat, now: nat)
    requires id < |db.tasks| && i < |hops| && Runner.Routable(g, db.tasks[id].branch, hops, fanning) && NamesOk(g.nodes)
    requires Recorded(returned, id, g, hops, fanning) && (!fanning ==> |hops| <= 1)
    requires Linear(db, returned) && SendersKnown(db.tasks, db.arrivals)
    requires AllFree(db, returned, db.tasks[id].run, Children(db.tasks[id].branch, returned, id)[i..])
    requires WrittenUpto(db.tasks, db.arrivals, returned, id, i)
    ensures var db' := Runner.RouteOne(db, id, g, hops, fanning, i, now);
            && SendersKnown(db'.tasks, db'.arrivals)
            && WrittenUpto(db'.tasks, db'.arrivals, returned, id, i + 1)
            && forall t: nat | t != id :: KeepsWriting(db.tasks, db.arrivals, db'.tasks, db'.arrivals, t)
  {
    hide WrittenUpto, Linear, Free, SendersKnown, KeepsWriting, Runner.RouteOne;
    var xs := Children(db.tasks[id].branch, returned, id);
    assert xs[i..][0] == ChildFrames(id, db.tasks[id].branch, hops[i], i, |hops|, fanning);
    RouteOneSenders(db, id, g, hops, fanning, i, now);
    if g.nodes[hops[i].target].join {
      JoinWrites(db, returned, id, g, hops, fanning, i, now);
    } else {
      TransitionWrites(db, returned, id, g, hops, fanning, i, now);
    }
  }

  lemma RouteOneSenders(db: Tables, id: nat, g: Graph, hops: seq<Hop>, fanning: bool, i: nat, now: nat)
    requires id < |db.tasks| && i < |hops| && Runner.Routable(g, db.tasks[id].branch, hops, fanning)
    requires SendersKnown(db.tasks, db.arrivals)
    ensures var db' := Runner.RouteOne(db, id, g, hops, fanning, i, now);
            SendersKnown(db'.tasks, db'.arrivals)
  {
    hide ArrivalsPayload, ArrivalSenders, Indexes, Fired, ChildFrames;
  }

  lemma {:induction false} RouteWrites(
    db: Tables, returned: map<nat, Return>, id: nat, g: Graph, hops: seq<Hop>, fanning: bool, upto: nat, now: nat)
    requires id < |db.tasks| && upto <= |hops| && Runner.Routable(g, db.tasks[id].branch, hops, fanning)
        && NamesOk(g.nodes)
    requires db.tasks[id].status == Done && Recorded(returned, id, g, hops, fanning) && (!fanning ==> |hops| <= 1)
    requires Nested(db.tasks, returned) && PlacesOk(db.arrivals, db.tasks, returned) && Linear(db, returned)
    requires AllFree(db, returned, db.tasks[id].run, Children(db.tasks[id].branch, returned, id))
    requires SendersKnown(db.tasks, db.arrivals) && WrittenUpto(db.tasks, db.arrivals, returned, id, 0)
    ensures var db' := Runner.Route(db, id, g, hops, fanning, upto, now);
            && SendersKnown(db'.tasks, db'.arrivals)
            && WrittenUpto(db'.tasks, db'.arrivals, returned, id, upto)
            && forall t: nat | t != id :: KeepsWriting(db.tasks, db.arrivals, db'.tasks, db'.arrivals, t)
  {
    hide WrittenUpto, Linear, AllFree, Nested, PlacesOk, SendersKnown, Runner.RouteOne;
    if upto > 0 {
      RouteWrites(db, returned, id, g, hops, fanning, upto - 1, now);
      RoutePasses(db, returned, id, g, hops, fanning, upto - 1, now);
      var before := Runner.Route(db, id, g, hops, fanning, upto - 1, now);
      assert before.tasks[id] == db.tasks[id];
      RouteOneWrites(before, returned, id, g, hops, fanning, upto - 1, now);
      var db' := Runner.Route(db, id, g, hops, fanning, upto, now);
      forall t: nat | t != id ensures KeepsWriting(db.tasks, db.arrivals, db'.tasks, db'.arrivals, t) {
        KeepsTransitive(db.tasks, db.arrivals, before.tasks, before.arrivals, db'.tasks, db'.arrivals, t);
      }
    }
  }

  // ------------------------------------------------------------------------
  // Every forward step
  // ------------------------------------------------------------------------

  // Nothing is written that a return would write, and no row becomes or stops being done.
  predicate WritesNothing(db: Tables, db': Tables) {
    && |db.tasks| <= |db'.tasks| && db'.arrivals == db.arrivals
    && (forall c | 0 <= c < |db.tasks| ::
          && db'.tasks[c].run == db.tasks[c].run && db'.tasks[c].node == db.tasks[c].node
          && db'.tasks[c].payload == db.tasks[c].payload && db'.tasks[c].branch == db.tasks[c].branch
          && db'.tasks[c].lineage == db.tasks[c].lineage
          && (db'.tasks[c].status == Done <==> db.tasks[c].status == Done))
    && (forall c | |db.tasks| <= c < |db'.tasks| ::
          db'.tasks[c].status != Done && db'.tasks[c].lineage.reason != TransitionReason)
  }

  lemma UnknownSilent(tasks: seq<Task>, arrivals: map<Place, Arrival>, t: nat)
    requires SendersKnown(tasks, arrivals) && t >= |tasks|
    ensures Silent(tasks, arrivals, t)
  {
    forall c: nat | c < |tasks| ensures !IsTransition(tasks, t, c) {
    }
  }

  lemma RowKept(
    tasks: seq<Task>, arrivals: map<Place, Arrival>, returned: map<nat, Return>,
    tasks': seq<Task>, arrivals': map<Place, Arrival>, returned': map<nat, Return>, t: nat)
    requires t < |tasks| && RowOnce(tasks, arrivals, returned, t)
    requires KeepsWriting(tasks, arrivals, tasks', arrivals', t)
    requires tasks'[t].status == Done <==> tasks[t].status == Done
    requires t in returned ==> t in returned' && returned'[t] == returned[t]
    ensures RowOnce(tasks', arrivals', returned', t)
  {
    hide Written, Silent, KeepsWriting;
    if tasks[t].status == Done {
      assert t in returned by {
        assert Written(tasks, arrivals, returned, t);
        WrittenReturned(tasks, arrivals, returned, t);
      }
      WrittenKept(tasks, arrivals, returned, tasks', arrivals', returned', t);
    } else {
      SilentKept(tasks, arrivals, tasks', arrivals', t);
    }
  }

  lemma WrittenReturned(tasks: seq<Task>, arrivals: map<Place, Arrival>, returned: map<nat, Return>, t: nat)
    requires Written(tasks, arrivals, returned, t)
    ensures t in returned
  {
  }

  lemma QuietKeeps(s: State, db': Tables, live': set<nat>)
    requires ExactlyOnce(s) && WritesNothing(s.db, db')
    ensures ExactlyOnce(State(db', live', s.returned))
  {
    hide RowOnce;
    forall t: nat | t < |db'.tasks| ensures RowOnce(db'.tasks, db'.arrivals, s.returned, t) {
      assert KeepsWriting(s.db.tasks, s.db.arrivals, db'.tasks, db'.arrivals, t);
      if t < |s.db.tasks| {
        RowKept(s.db.tasks, s.db.arrivals, s.returned, db'.tasks, db'.arrivals, s.returned, t);
      } else {
        UnknownSilent(s.db.tasks, s.db.arrivals, t);
        SilentRow(s.db.tasks, s.db.arrivals, db'.tasks, db'.arrivals, s.returned, t);
      }
    }
  }

  // A row that is not done, under which nothing was written before it came in.
  lemma SilentRow(
    tasks: seq<Task>, arrivals: map<Place, Arrival>, tasks': seq<Task>, arrivals': map<Place, Arrival>,
    returned': map<nat, Return>, t: nat)
    requires Silent(tasks, arrivals, t) && KeepsWriting(tasks, arrivals, tasks', arrivals', t)
    requires t < |tasks'| && tasks'[t].status != Done
    ensures RowOnce(tasks', arrivals', returned', t)
  {
    SilentKept(tasks, arrivals, tasks', arrivals', t);
  }

  lemma HeldSilent(s: State, id: nat, done: Tables)
    requires Inv(s) && ExactlyOnce(s) && Held(s, id) && |done.tasks| == |s.db.tasks|
    requires done == Finish(s.db, id, Done, done.tasks[id].result, done.tasks[id].terminal)
    ensures SendersKnown(done.tasks, done.arrivals) && Silent(done.tasks, done.arrivals, id)
  {
    hide Nested, PlacesOk, ReturnsOk, RunsOk, Written;
    assert RowOnce(s.db.tasks, s.db.arrivals, s.returned, id);
    FinishKeepsWriting(s.db, done, id, id);
    SilentKept(s.db.tasks, s.db.arrivals, done.tasks, done.arrivals, id);
  }

  // The tables of a success: those of a done row, plus its transitions.
  lemma SuccessRoutes(s: State, a: Step, done: Tables)
    requires Inv(s) && Linear(s.db, s.returned) && ExactlyOnce(s) && a.Succeed? && Enabled(s, a)
    requires done == Finish(s.db, a.id, Done, Some(Jsonable(a.value)),
        Runner.Reading(s.db, a.id, a.g, a.value).value == [])
    ensures var s' := Next(s, a);
            && Runner.Added(s.db.tasks[a.id].run, a.id, done.tasks, s'.db.tasks)
            && SendersKnown(s'.db.tasks, s'.db.arrivals)
            && Written(s'.db.tasks, s'.db.arrivals, s'.returned, a.id)
            && forall t: nat | t != a.id :: KeepsWriting(done.tasks, done.arrivals, s'.db.tasks, s'.db.arrivals, t)
  {
    hide Runner.Written, Runner.SettleRun, Runner.Route, Runner.Reading, Jsonable, IsFanOut, AllFree, Nested,
        PlacesOk, Linear, KeepsWriting;
    var hops := Runner.Reading(s.db, a.id, a.g, a.value).value;
    var returned := Next(s, a).returned;
    SplitFrees(s, a.id, returned[a.id], done);
    HeldSilent(s, a.id, done);
    RouteWrites(done, returned, a.id, a.g, hops, IsFanOut(a.value), |hops|, a.now);
    SuccessWrites(s.db, a.id, a.g, a.value, a.now);
  }

  lemma SuccessOnce(s: State, a: Step)
    requires Inv(s) && Linear(s.db, s.returned) && ExactlyOnce(s) && a.Succeed? && Enabled(s, a)
    ensures ExactlyOnce(Next(s, a))
  {
    hide RowOnce, Inv, Linear, Written, KeepsWriting, Runner.SettleRun, Runner.Written, Runner.Reading, Jsonable,
        SendersKnown;
    var s' := Next(s, a);
    var done := Finish(s.db, a.id, Done, Some(Jsonable(a.value)), Runner.Reading(s.db, a.id, a.g, a.value).value == []);
    SuccessRoutes(s, a, done);
    HeldSilent(s, a.id, done);
    forall t: nat | t < |s'.db.tasks| ensures RowOnce(s'.db.tasks, s'.db.arrivals, s'.returned, t) {
      if t == a.id {
        RowIsWritten(s', t);
      } else {
        FinishKeepsWriting(s.db, done, t, a.id);
        if t < |s.db.tasks| {
          KeepsTransitive(s.db.tasks, s.db.arrivals, done.tasks, done.arrivals, s'.db.tasks, s'.db.arrivals, t);
          RowKept(s.db.tasks, s.db.arrivals, s.returned, s'.db.tasks, s'.db.arrivals, s'.returned, t);
        } else {
          UnknownSilent(done.tasks, done.arrivals, t);
          SilentRow(done.tasks, done.arrivals, s'.db.tasks, s'.db.arrivals, s'.returned, t);
        }
      }
    }
  }

  lemma RowIsWritten(s: State, t: nat)
    requires t < |s.db.tasks| && s.db.tasks[t].status == Done && Written(s.db.tasks, s.db.arrivals, s.returned, t)
    ensures RowOnce(s.db.tasks, s.db.arrivals, s.returned, t)
  {
  }

  lemma FinishKeepsWriting(db: Tables, done: Tables, t: nat, id: nat)
    requires id < |db.tasks| == |done.tasks|
    requires done == Finish(db, id, Done, done.tasks[id].result, done.tasks[id].terminal)
    ensures KeepsWriting(db.tasks, db.arrivals, done.tasks, done.arrivals, t)
  {
  }

  lemma AddingStepOnce(s: State, a: Step)
    requires Inv(s) && ExactlyOnce(s) && Enabled(s, a) && (a.Submit? || a.Fail?)
    ensures ExactlyOnce(Next(s, a))
  {
    hide Nested, PlacesOk, ReturnsOk, ExactlyOnce, Next, Apply, Enabled;
    if a.Submit? {
      SubmitIs(s, a);
    } else {
      FailIs(s, a);
    }
    QuietKeeps(s, Next(s, a).db, Next(s, a).live);
  }

  lemma RecoverOnce(s: State, a: Step)
    requires ExactlyOnce(s) && Enabled(s, a) && (a.Recover? || a.Cancel?)
    ensures ExactlyOnce(Next(s, a))
  {
    hide ExactlyOnce, Next, Apply, Enabled;
    if a.Recover? {
      RecoverIs(s, a);
    } else {
      CancelIs(s, a);
    }
    QuietKeeps(s, Next(s, a).db, Next(s, a).live);
  }

  lemma ClaimOnce(s: State, a: Step)
    requires ExactlyOnce(s) && Enabled(s, a)
    requires a.Claim? || a.Park? || a.Unpark? || a.Crash? || a.Drop? || a.Pause? || a.Resume?
    ensures ExactlyOnce(Next(s, a))
  {
    hide ExactlyOnce, Next, Apply, Enabled;
    if a.Claim? {
      ClaimIs(s, a);
    } else if a.Park? || a.Unpark? {
      ParkIs(s, a);
    } else if a.Crash? || a.Drop? {
      CrashIs(s, a);
    } else {
      PauseIs(s, a);
    }
    QuietKeeps(s, Next(s, a).db, Next(s, a).live);
  }

  lemma StepOnce(s: State, a: Step)
    requires Inv(s) && Linear(s.db, s.returned) && ExactlyOnce(s) && Enabled(s, a) && ForwardStep(a)
    ensures ExactlyOnce(Next(s, a))
  {
    hide Inv, Linear, Apply, Enabled, Next, ExactlyOnce;
    if a.Succeed? {
      SuccessOnce(s, a);
    } else if a.Submit? || a.Fail? {
      AddingStepOnce(s, a);
    } else if a.Recover? || a.Cancel? {
      RecoverOnce(s, a);
    } else {
      ClaimOnce(s, a);
    }
  }

  lemma {:induction false} RunOnce(s: State, trace: seq<Step>)
    requires Inv(s) && Linear(s.db, s.returned) && ExactlyOnce(s) && ForwardRun(s, trace)
    ensures ExactlyOnce(End(s, trace)) && Inv(End(s, trace))
    decreases |trace|
  {
    hide Inv, Linear, Apply, ExactlyOnce;
    if trace != [] {
      assert ForwardStep(trace[0]);
      StepLinear(s, trace[0]);
      StepOnce(s, trace[0]);
      RunOnce(Next(s, trace[0]), trace[1..]);
    }
  }

  // Whatever crashes, sweeps, pauses and cancellations come between, a done row has written
  // each transition it returned, once each and nothing else, and any other row nothing.
  lemma ExactlyOnceRouting(trace: seq<Step>, t: nat)
    requires ForwardRun(Empty, trace)
    ensures var s := End(Empty, trace);
            t < |s.db.tasks| ==>
              if s.db.tasks[t].status == Done then Written(s.db.tasks, s.db.arrivals, s.returned, t)
              else Silent(s.db.tasks, s.db.arrivals, t)
  {
    hide Written, Silent, End;
    EmptyOnce();
    RunOnce(Empty, trace);
    var s := End(Empty, trace);
    assert t < |s.db.tasks| ==> RowOnce(s.db.tasks, s.db.arrivals, s.returned, t);
  }

  lemma EmptyOnce()
    ensures Inv(Empty) && Linear(Empty.db, Empty.returned) && ExactlyOnce(Empty)
  {
  }

  // Something is written under a row if and only if the row is done and returned at least
  // one transition.
  lemma DoneIffWritten(trace: seq<Step>, t: nat)
    requires ForwardRun(Empty, trace)
    ensures var s := End(Empty, trace);
            t < |s.db.tasks| ==>
              (!Silent(s.db.tasks, s.db.arrivals, t) <==>
                 s.db.tasks[t].status == Done && t in s.returned && s.returned[t].hops != [])
  {
    hide Inv, Linear, Silent, End;
    EmptyOnce();
    RunOnce(Empty, trace);
    var s := End(Empty, trace);
    if t < |s.db.tasks| {
      assert RowOnce(s.db.tasks, s.db.arrivals, s.returned, t);
      if s.db.tasks[t].status == Done {
        WrittenSpeaks(s.db.tasks, s.db.arrivals, s.returned, t);
      }
    }
  }

  lemma WrittenSpeaks(tasks: seq<Task>, arrivals: map<Place, Arrival>, returned: map<nat, Return>, t: nat)
    requires Written(tasks, arrivals, returned, t)
    ensures !Silent(tasks, arrivals, t) <==> returned[t].hops != []
  {
    if returned[t].hops != [] {
      assert HopWritten(tasks, arrivals, returned, t, 0);
    }
  }

  // The sweep resets to ready exactly the interrupted rows of the workflows it names that
  // no attempt holds, changes nothing else of any row, and reports those rows in order.
  lemma SweepIsExact(db: Tables, names: set<string>, held: set<nat>, id: nat)
    requires id < |db.tasks|
    ensures var db' := Ops.Recover(db, names, held);
            && |db'.tasks| == |db.tasks| && db'.runs == db.runs && db'.arrivals == db.arrivals
            && (db'.tasks[id] != db.tasks[id] <==>
                  && Interrupted(db.tasks[id].status) && id !in held
                  && db.tasks[id].run in db.runs && db.runs[db.tasks[id].run].workflow in names)
            && (db'.tasks[id] != db.tasks[id] ==> db'.tasks[id] == db.tasks[id].(status := Ready))
            && (db'.events == db.events <==> forall i: nat | i < |db.tasks| :: !Ops.Swept(db, names, held, i))
            && (db'.events != db.events ==>
                  db'.events == db.events + [Event(None, None,
                      EngineRecovered(Ops.SweptIds(db, names, held, |db.tasks|)))])
  {
    var ids := Ops.SweptIds(db, names, held, |db.tasks|);
    if ids != [] {
      assert ids[0] in ids;
      assert |Ops.Recover(db, names, held).events| == |db.events| + 1;
    }
  }

  lemma SweptOnly(db: Tables, names: set<string>, held: set<nat>, ids: seq<nat>)
    requires forall id: nat | id in ids :: id < |db.tasks| && Ops.Swept(db, names, held, id)
    ensures ids == [] || exists id: nat :: id < |db.tasks| && Ops.Swept(db, names, held, id)
  {
    if ids != [] {
      assert ids[0] in ids;
    }
  }

  // After a crash the sweep of every workflow leaves nothing interrupted behind, and
  // sweeping again changes no row.
  lemma SweepAgain(db: Tables, names: set<string>, held: set<nat>)
    ensures var db' := Ops.Recover(db, names, held);
            && (forall id: nat | id < |db'.tasks| :: !Ops.Swept(db', names, held, id))
            && Ops.Recover(db', names, held) == db'
  {
    var db' := Ops.Recover(db, names, held);
    var ids := Ops.SweptIds(db', names, held, |db'.tasks|);
    assert forall id: nat | id < |db'.tasks| :: !Ops.Swept(db', names, held, id);
    SweptOnly(db', names, held, ids);
    assert Ops.Recover(db', names, held).tasks == db'.tasks;
  }
}
