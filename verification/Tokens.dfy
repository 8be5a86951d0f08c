/** Every branch of a fan-out is carried by one thing at a time.

    A branch (fanout, index) is carried by the pending row whose stack has it, until the
    row ends: its transition hands the branch to one successor, or to a join's arrivals.
    While a return is being written, the transitions still to come carry their branches. */
module Tokens {
  import opened Base
  import opened Json
  import opened Graphs
  import opened Rows
  import opened Routing
  import opened Store
  import opened Machine
  import opened Nesting
  import Runner

  // The branch is on the stack.
  predicate Under(branch: seq<Frame>, fanout: nat, index: nat) {
    exists k | 0 <= k < |branch| :: branch[k].fanout == fanout && branch[k].index == index
  }

  predicate NoneUnder(branch: seq<Frame>, fanout: nat, count: nat) {
    forall i: nat | i < count :: !Under(branch, fanout, i)
  }

  predicate AllArrived(arrivals: map<Place, Arrival>, run: string, join: string, fanout: nat, count: nat) {
    forall i: nat | i < count :: Place(run, join, fanout, i) in arrivals
  }

  function Top(x: seq<Frame>): Frame
    requires x != []
  {
    x[|x| - 1]
  }

  function Outer(x: seq<Frame>): seq<Frame>
    requires x != []
  {
    x[..|x| - 1]
  }

  // The place where a stack's innermost branch arrives at a join.
  function PlaceOf(run: string, join: string, x: seq<Frame>): Place
    requires x != []
  {
    Place(run, join, Top(x).fanout, Top(x).index)
  }

  // The two stacks part at different branches of one fan-out.
  predicate PartAt(x: seq<Frame>, y: seq<Frame>, k: nat) {
    && k < |x| && k < |y|
    && x[..k] == y[..k] && x[k].fanout == y[k].fanout && x[k].index != y[k].index
  }

  ghost predicate Part(x: seq<Frame>, y: seq<Frame>) {
    exists k: nat :: PartAt(x, y, k)
  }

  lemma PartSymmetric(x: seq<Frame>, y: seq<Frame>)
    requires Part(x, y)
    ensures Part(y, x)
  {
    var k: nat :| PartAt(x, y, k);
    assert PartAt(y, x, k);
  }

  lemma PartExtends(x: seq<Frame>, y: seq<Frame>, z: seq<Frame>)
    requires Part(x, y)
    ensures Part(x + z, y)
  {
    var k: nat :| PartAt(x, y, k);
    assert (x + z)[..k] == x[..k];
    assert PartAt(x + z, y, k);
  }

  // What x's innermost branch is, no stack parted from x is under.
  lemma PartNotUnder(
    tasks: seq<Task>, returned: map<nat, Return>, bound: nat, bound': nat, run: string, x: seq<Frame>, y: seq<Frame>)
    requires StackOk(tasks, returned, bound, run, x) && StackOk(tasks, returned, bound', run, y)
    requires x != [] && Part(x, y)
    ensures !Under(y, Top(x).fanout, Top(x).index)
  {
    var top := |x| - 1;
    var k: nat :| PartAt(x, y, k);
    forall m | 0 <= m < |y| ensures y[m].fanout != x[top].fanout || y[m].index != x[top].index {
      assert FrameOk(tasks, returned, bound, run, x, top);
      assert FrameOk(tasks, returned, bound', run, y, m);
      assert y[m].fanout == x[top].fanout ==> x[..top] == y[..m];
      assert k < top ==> x[..top][k] == x[k];
      assert k < m ==> y[..m][k] == y[k];
    }
  }

  // Closing x's innermost fan-out: what parted from x, and is on none of the fan-out's
  // other branches, parts from the stack outside it.
  lemma PartOutside(
    tasks: seq<Task>, returned: map<nat, Return>, bound: nat, bound': nat, run: string, x: seq<Frame>, y: seq<Frame>)
    requires StackOk(tasks, returned, bound, run, x) && StackOk(tasks, returned, bound', run, y)
    requires x != [] && Part(x, y)
    requires NoneUnder(y, Top(x).fanout, Top(x).count)
    ensures Part(Outer(x), y)
  {
    var top := |x| - 1;
    var k: nat :| PartAt(x, y, k);
    assert FrameOk(tasks, returned, bound, run, x, top);
    assert FrameOk(tasks, returned, bound', run, y, k);
    if k == top {
      assert Under(y, y[k].fanout, y[k].index);
    } else {
      assert x[..top][..k] == x[..k];
      assert PartAt(x[..top], y, k);
    }
  }

  // ------------------------------------------------------------------------
  // The linear invariant
  // ------------------------------------------------------------------------

  predicate Carries(tasks: seq<Task>, run: string, id: nat) {
    id < |tasks| && tasks[id].run == run && Pending(tasks[id].status)
  }

  // No two rows carry the same branch, or one a branch of the other's.
  ghost predicate Apart(tasks: seq<Task>) {
    forall a: nat, b: nat, run | a < b && Carries(tasks, run, a) && Carries(tasks, run, b) ::
      Part(tasks[a].branch, tasks[b].branch)
  }

  // No row carries a branch that has arrived.
  predicate Unspent(tasks: seq<Task>, arrivals: map<Place, Arrival>) {
    forall p, a: nat | p in arrivals && a < |tasks| && Carries(tasks, p.run, a) ::
      !Under(tasks[a].branch, p.fanout, p.index)
  }

  // A join task stands for all the branches of its fan-out, and each of them has arrived.
  predicate DispatchFull(arrivals: map<Place, Arrival>, returned: map<nat, Return>, t: Task) {
    && t.lineage.from.Some? && t.lineage.from.value in returned
    && AllArrived(arrivals, t.run, t.node, t.lineage.from.value, |returned[t.lineage.from.value].hops|)
  }

  predicate Full(tasks: seq<Task>, arrivals: map<Place, Arrival>, returned: map<nat, Return>) {
    forall c | 0 <= c < |tasks| && tasks[c].lineage.reason == JoinReason :: DispatchFull(arrivals, returned, tasks[c])
  }

  predicate OnTime(arrivals: map<Place, Arrival>) {
    forall p | p in arrivals :: !arrivals[p].late
  }

  // A branch has arrived at one join at most.
  predicate OneJoin(arrivals: map<Place, Arrival>) {
    forall p, q | p in arrivals && q in arrivals && p.run == q.run && p.fanout == q.fanout && p.index == q.index ::
        p == q
  }

  ghost predicate Linear(db: Tables, returned: map<nat, Return>) {
    && Apart(db.tasks)
    && Unspent(db.tasks, db.arrivals)
    && Full(db.tasks, db.arrivals, returned)
    && OnTime(db.arrivals)
    && OneJoin(db.arrivals)
  }

  // A stack about to be carried by a row of the run: it parts from what is carried, and
  // none of its branches has arrived.
  ghost predicate Free(db: Tables, returned: map<nat, Return>, run: string, x: seq<Frame>) {
    && StackOk(db.tasks, returned, |db.tasks|, run, x)
    && (forall a: nat | Carries(db.tasks, run, a) :: Part(x, db.tasks[a].branch))
    && (forall p | p in db.arrivals && p.run == run :: !Under(x, p.fanout, p.index))
  }

  // The stacks of the transitions still to be written.
  ghost predicate AllFree(db: Tables, returned: map<nat, Return>, run: string, xs: seq<seq<Frame>>) {
    && (forall j | 0 <= j < |xs| :: Free(db, returned, run, xs[j]))
    && (forall i, j | 0 <= i < j < |xs| :: Part(xs[i], xs[j]))
  }

  // ------------------------------------------------------------------------
  // Writing one transition
  // ------------------------------------------------------------------------

  // A fresh row takes over the stack it was written for.
  lemma RowCarries(db: Tables, returned: map<nat, Return>, row: Task, db': Tables)
    requires Linear(db, returned) && Free(db, returned, row.run, row.branch)
    requires db'.tasks == db.tasks + [row] && db'.arrivals == db.arrivals
    requires row.lineage.reason == JoinReason ==> DispatchFull(db.arrivals, returned, row)
    ensures Linear(db', returned)
  {
    hide Under, StackOk;
    forall a: nat, b: nat, run | a < b && Carries(db'.tasks, run, a) && Carries(db'.tasks, run, b)
      ensures Part(db'.tasks[a].branch, db'.tasks[b].branch)
    {
      if b < |db.tasks| {
        assert Carries(db.tasks, run, a) && Carries(db.tasks, run, b);
      } else {
        assert Carries(db.tasks, row.run, a);
        PartSymmetric(row.branch, db.tasks[a].branch);
      }
    }
    forall p, a: nat | p in db'.arrivals && a < |db'.tasks| && Carries(db'.tasks, p.run, a)
      ensures !Under(db'.tasks[a].branch, p.fanout, p.index)
    {
      assert a < |db.tasks| ==> Carries(db.tasks, p.run, a);
    }
  }

  // A stack that parts from the fresh row's stays free.
  lemma StaysFree(db: Tables, returned: map<nat, Return>, row: Task, db': Tables, x: seq<Frame>)
    requires Free(db, returned, row.run, x) && Part(x, row.branch)
    requires db'.tasks == db.tasks + [row] && db'.arrivals == db.arrivals
    ensures Free(db', returned, row.run, x)
  {
    StackKept(db.tasks, returned, db'.tasks, returned, |db.tasks|, |db'.tasks|, row.run, x);
    forall a: nat | Carries(db'.tasks, row.run, a) ensures Part(x, db'.tasks[a].branch) {
      assert a < |db.tasks| ==> Carries(db.tasks, row.run, a);
    }
  }

  // The arrival of a free stack's innermost branch: new, in time, and no longer carried.
  lemma ArrivalIsNew(db: Tables, returned: map<nat, Return>, run: string, join: string, x: seq<Frame>)
    requires Linear(db, returned) && Free(db, returned, run, x) && x != []
    ensures PlaceOf(run, join, x) !in db.arrivals
    ensures !Fired(db.tasks, run, join, Top(x).fanout)
  {
    var top := Top(x);
    assert Under(x, top.fanout, top.index);
    assert Place(run, join, top.fanout, top.index) !in db.arrivals;
    assert FrameOk(db.tasks, returned, |db.tasks|, run, x, |x| - 1);
    forall c | 0 <= c < |db.tasks| ensures !IsDispatch(db.tasks[c], run, join, top.fanout) {
      assert db.tasks[c].lineage.reason == JoinReason ==> DispatchFull(db.arrivals, returned, db.tasks[c]);
    }
  }

  lemma ArrivalSpends(db: Tables, returned: map<nat, Return>, run: string, join: string, x: seq<Frame>, a: Arrival)
    requires Linear(db, returned) && Nested(db.tasks, returned) && Free(db, returned, run, x) && x != [] && !a.late
    ensures Linear(Arrive(db, PlaceOf(run, join, x), a), returned)
  {
    var p := PlaceOf(run, join, x);
    var db' := Arrive(db, p, a);
    assert Under(x, p.fanout, p.index);
    forall q, b: nat | q in db'.arrivals && b < |db'.tasks| && Carries(db'.tasks, q.run, b)
      ensures !Under(db'.tasks[b].branch, q.fanout, q.index)
    {
      if q == p {
        assert Part(x, db.tasks[b].branch);
        PartNotUnder(db.tasks, returned, |db.tasks|, b, run, x, db.tasks[b].branch);
      }
    }
    forall c | 0 <= c < |db'.tasks| && db'.tasks[c].lineage.reason == JoinReason
      ensures DispatchFull(db'.arrivals, returned, db'.tasks[c])
    {
      assert DispatchFull(db.arrivals, returned, db.tasks[c]);
    }
  }

  lemma ArrivalLeavesFree(
    db: Tables, returned: map<nat, Return>, run: string, join: string, x: seq<Frame>, y: seq<Frame>, a: Arrival)
    requires Free(db, returned, run, x) && x != [] && Free(db, returned, run, y) && Part(x, y)
    ensures Free(Arrive(db, PlaceOf(run, join, x), a), returned, run, y)
  {
    PartNotUnder(db.tasks, returned, |db.tasks|, |db.tasks|, run, x, y);
  }

  lemma UnderOuter(x: seq<Frame>, fanout: nat, index: nat)
    requires x != [] && Under(Outer(x), fanout, index)
    ensures Under(x, fanout, index)
  {
    var k :| 0 <= k < |Outer(x)| && Outer(x)[k].fanout == fanout && Outer(x)[k].index == index;
    assert x[k] == Outer(x)[k];
  }

  // Once all branches have arrived the stack outside the fan-out is free.
  lemma OutsideIsFree(db: Tables, returned: map<nat, Return>, run: string, join: string, x: seq<Frame>, a: Arrival)
    requires Linear(db, returned) && Nested(db.tasks, returned) && Free(db, returned, run, x) && x != [] && !a.late
    requires AllArrived(Arrive(db, PlaceOf(run, join, x), a).arrivals, run, join, Top(x).fanout, Top(x).count)
    ensures Free(Arrive(db, PlaceOf(run, join, x), a), returned, run, Outer(x))
  {
    var top, outer := Top(x), Outer(x);
    var db' := Arrive(db, PlaceOf(run, join, x), a);
    ArrivalSpends(db, returned, run, join, x, a);
    StackPrefix(db.tasks, returned, |db.tasks|, run, x, |x| - 1);
    assert FrameOk(db.tasks, returned, |db.tasks|, run, x, |x| - 1);
    forall b: nat | Carries(db'.tasks, run, b) ensures Part(outer, db'.tasks[b].branch) {
      forall i: nat | i < top.count ensures !Under(db.tasks[b].branch, top.fanout, i) {
        assert Place(run, join, top.fanout, i) in db'.arrivals;
      }
      PartOutside(db.tasks, returned, |db.tasks|, b, run, x, db.tasks[b].branch);
    }
    assert StackOk(db.tasks, returned, top.fanout, run, db.tasks[top.fanout].branch);
    forall k | 0 <= k < |outer| ensures outer[k].fanout < top.fanout {
      assert FrameOk(db.tasks, returned, top.fanout, run, outer, k);
    }
    forall q | q in db'.arrivals && q.run == run ensures !Under(outer, q.fanout, q.index) {
      if Under(outer, q.fanout, q.index) {
        UnderOuter(x, q.fanout, q.index);
      }
    }
  }

  lemma OutsideParts(
    db: Tables, returned: map<nat, Return>, run: string, join: string, x: seq<Frame>, y: seq<Frame>, a: Arrival)
    requires Free(db, returned, run, x) && x != []
    requires AllArrived(Arrive(db, PlaceOf(run, join, x), a).arrivals, run, join, Top(x).fanout, Top(x).count)
    requires Free(Arrive(db, PlaceOf(run, join, x), a), returned, run, y)
    requires Part(x, y)
    ensures Part(y, Outer(x))
  {
    var db' := Arrive(db, PlaceOf(run, join, x), a);
    forall i: nat | i < Top(x).count ensures !Under(y, Top(x).fanout, i) {
      assert Place(run, join, Top(x).fanout, i) in db'.arrivals;
    }
    PartOutside(db.tasks, returned, |db.tasks|, |db.tasks|, run, x, y);
    PartSymmetric(Outer(x), y);
  }

  // ------------------------------------------------------------------------
  // The indices of a join
  // ------------------------------------------------------------------------

  lemma IndexesBelow(db: Tables, returned: map<nat, Return>, run: string, join: string, fanout: nat)
    requires PlacesOk(db.arrivals, db.tasks, returned) && fanout in returned
    ensures forall i | i in Indexes(db.arrivals, run, join, fanout) :: i < |returned[fanout].hops|
  {
    forall i | i in Indexes(db.arrivals, run, join, fanout) ensures i < |returned[fanout].hops| {
      var p := Place(run, join, fanout, i);
      assert p in db.arrivals && PlaceOk(db.tasks, returned, p, db.arrivals[p]);
    }
  }

  // As many arrivals as branches are all of them, and all of them are that many.
  lemma CountIsAll(db: Tables, returned: map<nat, Return>, run: string, join: string, fanout: nat)
    requires PlacesOk(db.arrivals, db.tasks, returned) && fanout in returned
    ensures |Indexes(db.arrivals, run, join, fanout)| <= |returned[fanout].hops|
    ensures |Indexes(db.arrivals, run, join, fanout)| == |returned[fanout].hops| <==>
      AllArrived(db.arrivals, run, join, fanout, |returned[fanout].hops|)
  {
    var indexes, n := Indexes(db.arrivals, run, join, fanout), |returned[fanout].hops|;
    IndexesBelow(db, returned, run, join, fanout);
    Pigeonhole(indexes, n);
    if |indexes| == n {
      forall i: nat | i < n ensures Place(run, join, fanout, i) in db.arrivals {
        assert i in indexes;
      }
    }
    if AllArrived(db.arrivals, run, join, fanout, n) {
      forall i | i in Below(n) ensures i in indexes {
        assert Place(run, join, fanout, i) in db.arrivals;
      }
      BelowSize(n);
      SubsetSize(Below(n), indexes);
    }
  }

  // ------------------------------------------------------------------------
  // Writing a return
  // ------------------------------------------------------------------------

  // The stacks of the children of a recorded return, in order.
  function Children(branch: seq<Frame>, returned: map<nat, Return>, id: nat): seq<seq<Frame>>
    requires id in returned
  {
    var r := returned[id];
    seq(|r.hops|, i requires 0 <= i < |r.hops| => ChildFrames(id, branch, r.hops[i], i, |r.hops|, r.fanning))
  }

  // The row is done and its stack is split: each child's stack is free.
  lemma SplitFrees(s: State, id: nat, r: Return, done: Tables)
    requires Inv(s) && Linear(s.db, s.returned) && Held(s, id)
    requires |r.joins| == |r.hops| && (!r.fanning ==> |r.hops| <= 1)
    requires |done.tasks| == |s.db.tasks| && done.arrivals == s.db.arrivals
    requires done.tasks == s.db.tasks[id := done.tasks[id]]
    requires done.tasks[id] == s.db.tasks[id].(status := Done, result := done.tasks[id].result,
        terminal := done.tasks[id].terminal)
    ensures var returned := s.returned[id := r];
            && Nested(done.tasks, returned) && PlacesOk(done.arrivals, done.tasks, returned)
            && Linear(done, returned)
            && AllFree(done, returned, s.db.tasks[id].run, Children(s.db.tasks[id].branch, returned, id))
  {
    hide FrameOk, PlaceOk, Under;
    var returned := s.returned[id := r];
    var run, branch := s.db.tasks[id].run, s.db.tasks[id].branch;
    assert id !in s.returned;
    NestedKept(s.db.tasks, s.returned, done.tasks, returned);
    PlacesKept(s.db.arrivals, s.db.tasks, s.returned, done.tasks, returned);
    SplitKeepsLinear(s, id, r, done);
    var xs := Children(branch, returned, id);
    forall j | 0 <= j < |xs| ensures Free(done, returned, run, xs[j]) {
      ChildFree(s, id, r, done, j);
    }
    forall i, j | 0 <= i < j < |xs| ensures Part(xs[i], xs[j]) {
      assert PartAt(xs[i], xs[j], |branch|);
    }
  }

  lemma SplitKeepsLinear(s: State, id: nat, r: Return, done: Tables)
    requires Inv(s) && Linear(s.db, s.returned) && Held(s, id)
    requires |done.tasks| == |s.db.tasks| && done.arrivals == s.db.arrivals
    requires done.tasks == s.db.tasks[id := done.tasks[id]]
    requires done.tasks[id] == s.db.tasks[id].(status := Done, result := done.tasks[id].result,
        terminal := done.tasks[id].terminal)
    ensures Linear(done, s.returned[id := r])
  {
    hide Under, Nested, PlacesOk;
    forall a: nat, b: nat, run | a < b && Carries(done.tasks, run, a) && Carries(done.tasks, run, b)
      ensures Part(done.tasks[a].branch, done.tasks[b].branch)
    {
      assert Carries(s.db.tasks, run, a) && Carries(s.db.tasks, run, b);
    }
    forall p, a: nat | p in done.arrivals && a < |done.tasks| && Carries(done.tasks, p.run, a)
      ensures !Under(done.tasks[a].branch, p.fanout, p.index)
    {
      assert Carries(s.db.tasks, p.run, a);
    }
    forall c | 0 <= c < |done.tasks| && done.tasks[c].lineage.reason == JoinReason
      ensures DispatchFull(done.arrivals, s.returned[id := r], done.tasks[c])
    {
      assert DispatchFull(s.db.arrivals, s.returned, s.db.tasks[c]);
    }
  }

  lemma ChildFree(s: State, id: nat, r: Return, done: Tables, j: nat)
    requires Inv(s) && Linear(s.db, s.returned) && Held(s, id) && j < |r.hops|
    requires |done.tasks| == |s.db.tasks| && done.arrivals == s.db.arrivals
    requires done.tasks == s.db.tasks[id := done.tasks[id]]
    requires done.tasks[id] == s.db.tasks[id].(status := Done, result := done.tasks[id].result,
        terminal := done.tasks[id].terminal)
    requires Nested(done.tasks, s.returned[id := r])
    ensures Free(done, s.returned[id := r], s.db.tasks[id].run,
                 ChildFrames(id, s.db.tasks[id].branch, r.hops[j], j, |r.hops|, r.fanning))
  {
    hide FrameOk, Nested;
    var returned := s.returned[id := r];
    var run, branch := s.db.tasks[id].run, s.db.tasks[id].branch;
    var x := ChildFrames(id, branch, r.hops[j], j, |r.hops|, r.fanning);
    ChildStackOk(done.tasks, returned, id, j, |done.tasks|);
    forall a: nat | Carries(done.tasks, run, a) ensures Part(x, done.tasks[a].branch) {
      assert Carries(s.db.tasks, run, a) && Carries(s.db.tasks, run, id);
      if id < a {
        assert Part(branch, s.db.tasks[a].branch);
      } else {
        PartSymmetric(s.db.tasks[a].branch, branch);
      }
      if r.fanning {
        PartExtends(branch, s.db.tasks[a].branch, x[|branch|..]);
      }
    }
    forall p | p in done.arrivals && p.run == run ensures !Under(x, p.fanout, p.index) {
      assert Carries(s.db.tasks, run, id) && !Under(branch, p.fanout, p.index);
      assert PlaceOk(s.db.tasks, s.returned, p, s.db.arrivals[p]);
      assert forall k | 0 <= k < |branch| :: x[k] == branch[k];
    }
  }

  // Writing one transition passes its branch on and leaves the later ones free.
  lemma TransitionPasses(
    db: Tables, returned: map<nat, Return>, id: nat, target: Node, hop: Hop, now: nat, xs: seq<seq<Frame>>)
    requires id < |db.tasks| && xs != []
    requires Linear(db, returned) && AllFree(db, returned, db.tasks[id].run, xs)
    ensures var db' := Runner.EnqueueTransition(db, id, target, hop, xs[0], now);
            Linear(db', returned) && AllFree(db', returned, db.tasks[id].run, xs[1..])
  {
    hide Linear, Free, StackOk;
    var run := db.tasks[id].run;
    var db' := Runner.EnqueueTransition(db, id, target, hop, xs[0], now);
    var row := db'.tasks[|db.tasks|];
    RowCarries(db, returned, row, db');
    forall j | 0 <= j < |xs[1..]| ensures Free(db', returned, run, xs[1..][j]) {
      PartSymmetric(xs[0], xs[j + 1]);
      StaysFree(db, returned, row, db', xs[j + 1]);
    }
  }

  // An arrival passes its branch to the join; the last one brings the outer stack back.
  lemma ArrivalPasses(
    db: Tables, returned: map<nat, Return>, id: nat, target: Node, hop: Hop, now: nat, xs: seq<seq<Frame>>)
    requires id < |db.tasks| && xs != [] && xs[0] != []
    requires Nested(db.tasks, returned) && PlacesOk(db.arrivals, db.tasks, returned)
    requires Linear(db, returned) && AllFree(db, returned, db.tasks[id].run, xs)
    ensures var db' := Runner.RecordArrival(db, id, target, hop, xs[0], now);
            Linear(db', returned) && AllFree(db', returned, db.tasks[id].run, xs[1..])
  {
    hide StackOk, Under, PlaceOk, Indexes, Fired, Part, ArrivalsPayload, ArrivalSenders;
    var run, x := db.tasks[id].run, xs[0];
    var p := PlaceOf(run, target.name, x);
    var arrived := Runner.WriteArrival(db, id, p, Top(x), hop.payload);
    var a := arrived.arrivals[p];
    ArrivalIsNew(db, returned, run, target.name, x);
    ArrivalSpends(db, returned, run, target.name, x, a);
    forall j | 0 <= j < |xs[1..]| ensures Free(arrived, returned, run, xs[1..][j]) {
      ArrivalLeavesFree(db, returned, run, target.name, x, xs[j + 1], a);
    }
    WrittenArrivalOk(db, returned, id, target.name, hop.payload, x);
    TopCount(db, returned, run, x);
    CountIsAll(arrived, returned, run, target.name, Top(x).fanout);
    var db' := Runner.RecordArrival(db, id, target, hop, x, now);
    if |Indexes(arrived.arrivals, run, target.name, Top(x).fanout)| >= Top(x).count {
      OutsideIsFree(db, returned, run, target.name, x, a);
      var row := Runner.JoinTask(arrived, run, target, Top(x).fanout, Outer(x), now);
      assert db'.tasks == arrived.tasks + [row];
      RowCarries(arrived, returned, row, db');
      forall j | 0 <= j < |xs[1..]| ensures Free(db', returned, run, xs[1..][j]) {
        OutsideParts(db, returned, run, target.name, x, xs[j + 1], a);
        StaysFree(arrived, returned, row, db', xs[j + 1]);
      }
    }
  }

  lemma TopCount(db: Tables, returned: map<nat, Return>, run: string, x: seq<Frame>)
    requires StackOk(db.tasks, returned, |db.tasks|, run, x) && x != []
    ensures Top(x).fanout in returned && Top(x).count == |returned[Top(x).fanout].hops|
  {
    assert FrameOk(db.tasks, returned, |db.tasks|, run, x, |x| - 1);
  }

  lemma {:induction false} RoutePasses(
    db: Tables, returned: map<nat, Return>, id: nat, g: Graph, hops: seq<Hop>, fanning: bool, upto: nat, now: nat)
    requires id < |db.tasks| && upto <= |hops| && Runner.Routable(g, db.tasks[id].branch, hops, fanning)
    requires db.tasks[id].status == Done && Recorded(returned, id, g, hops, fanning)
    requires Nested(db.tasks, returned) && PlacesOk(db.arrivals, db.tasks, returned) && Linear(db, returned)
    requires AllFree(db, returned, db.tasks[id].run, Children(db.tasks[id].branch, returned, id))
    ensures var db' := Runner.Route(db, id, g, hops, fanning, upto, now);
            && Nested(db'.tasks, returned) && PlacesOk(db'.arrivals, db'.tasks, returned) && Linear(db', returned)
            && AllFree(db', returned, db.tasks[id].run, Children(db.tasks[id].branch, returned, id)[upto..])
  {
    hide Linear, AllFree, Runner.RouteOne;
    var xs := Children(db.tasks[id].branch, returned, id);
    if upto == 0 {
      assert xs[0..] == xs;
    } else {
      RoutePasses(db, returned, id, g, hops, fanning, upto - 1, now);
      var before := Runner.Route(db, id, g, hops, fanning, upto - 1, now);
      assert before.tasks[id] == db.tasks[id];
      RouteOneKeeps(before, returned, id, g, hops, fanning, upto - 1, now);
      RouteOnePasses(before, returned, id, g, hops, fanning, upto - 1, now);
    }
  }

  lemma RouteOnePasses(
    db: Tables, returned: map<nat, Return>, id: nat, g: Graph, hops: seq<Hop>, fanning: bool, i: nat, now: nat)
    requires id < |db.tasks| && i < |hops| && Runner.Routable(g, db.tasks[id].branch, hops, fanning)
    requires db.tasks[id].status == Done && Recorded(returned, id, g, hops, fanning)
    requires Nested(db.tasks, returned) && PlacesOk(db.arrivals, db.tasks, returned) && Linear(db, returned)
    requires AllFree(db, returned, db.tasks[id].run, Children(db.tasks[id].branch, returned, id)[i..])
    ensures var db' := Runner.RouteOne(db, id, g, hops, fanning, i, now);
            Linear(db', returned)
                && AllFree(db', returned, db.tasks[id].run, Children(db.tasks[id].branch, returned, id)[i + 1..])
  {
    hide Linear, AllFree, Nested, PlacesOk, Runner.RecordArrival, Runner.EnqueueTransition;
    var xs := Children(db.tasks[id].branch, returned, id);
    assert xs[i..][1..] == xs[i + 1..];
    assert xs[i..][0] == ChildFrames(id, db.tasks[id].branch, hops[i], i, |hops|, fanning);
    var target := g.nodes[hops[i].target];
    if target.join {
      ArrivalPasses(db, returned, id, target, hops[i], now, xs[i..]);
    } else {
      TransitionPasses(db, returned, id, target, hops[i], now, xs[i..]);
    }
  }

  // ------------------------------------------------------------------------
  // Every forward step
  // ------------------------------------------------------------------------

  // No row takes up a branch it did not carry, and none is a new dispatch.
  predicate NoNewCarrier(tasks: seq<Task>, tasks': seq<Task>) {
    && |tasks| == |tasks'|
    && forall id | 0 <= id < |tasks| ::
         && tasks'[id].run == tasks[id].run && tasks'[id].branch == tasks[id].branch
         && tasks'[id].node == tasks[id].node && tasks'[id].lineage == tasks[id].lineage
         && (Pending(tasks'[id].status) ==> Pending(tasks[id].status))
  }

  lemma SameCarriersLinear(db: Tables, db': Tables, returned: map<nat, Return>)
    requires Linear(db, returned) && NoNewCarrier(db.tasks, db'.tasks) && db'.arrivals == db.arrivals
    ensures Linear(db', returned)
  {
    hide Under, Part;
    forall a: nat, b: nat, run | a < b && Carries(db'.tasks, run, a) && Carries(db'.tasks, run, b)
      ensures Part(db'.tasks[a].branch, db'.tasks[b].branch)
    {
      assert Carries(db.tasks, run, a) && Carries(db.tasks, run, b);
    }
    forall p, a: nat | p in db'.arrivals && a < |db'.tasks| && Carries(db'.tasks, p.run, a)
      ensures !Under(db'.tasks[a].branch, p.fanout, p.index)
    {
      assert Carries(db.tasks, p.run, a);
    }
    forall c | 0 <= c < |db'.tasks| && db'.tasks[c].lineage.reason == JoinReason
      ensures DispatchFull(db'.arrivals, returned, db'.tasks[c])
    {
      assert DispatchFull(db.arrivals, returned, db.tasks[c]);
    }
  }

  // A row that stops carrying its stack frees it.
  lemma StackFreed(s: State, id: nat, db': Tables)
    requires Inv(s) && Linear(s.db, s.returned) && id < |s.db.tasks| && Pending(s.db.tasks[id].status)
    requires NoNewCarrier(s.db.tasks, db'.tasks) && db'.arrivals == s.db.arrivals
    requires !Pending(db'.tasks[id].status) && Nested(db'.tasks, s.returned)
    ensures Free(db', s.returned, s.db.tasks[id].run, s.db.tasks[id].branch)
  {
    hide Under, FrameOk;
    var run, branch := s.db.tasks[id].run, s.db.tasks[id].branch;
    StackKept(db'.tasks, s.returned, db'.tasks, s.returned, id, |db'.tasks|, run, branch);
    assert Carries(s.db.tasks, run, id);
    forall a: nat | Carries(db'.tasks, run, a) ensures Part(branch, db'.tasks[a].branch) {
      assert Carries(s.db.tasks, run, a);
      if a < id {
        PartSymmetric(s.db.tasks[a].branch, branch);
      }
    }
  }

  lemma SuccessLinear(s: State, a: Step)
    requires Inv(s) && Linear(s.db, s.returned) && a.Succeed? && Enabled(s, a)
    ensures Linear(Next(s, a).db, Next(s, a).returned)
  {
    hide Runner.Written, Runner.SettleRun, Runner.Route, Runner.Reading, Jsonable, IsFanOut, AllFree, Nested, PlacesOk;
    var hops := Runner.Reading(s.db, a.id, a.g, a.value).value;
    var returned := Next(s, a).returned;
    var done := Finish(s.db, a.id, Done, Some(Jsonable(a.value)), hops == []);
    SplitFrees(s, a.id, returned[a.id], done);
    RoutePasses(done, returned, a.id, a.g, hops, IsFanOut(a.value), |hops|, a.now);
    SuccessWrites(s.db, a.id, a.g, a.value, a.now);
  }

  lemma FailureLinear(s: State, a: Step)
    requires Inv(s) && Linear(s.db, s.returned) && a.Fail? && Enabled(s, a)
    ensures Linear(Next(s, a).db, Next(s, a).returned)
  {
    hide Linear, Nested, PlacesOk, ReturnsOk, Free;
    var t := s.db.tasks[a.id];
    var failed := Finish(s.db, a.id, Failed, None, false);
    FailedRowKeeps(s, a.id);
    SameCarriersLinear(s.db, failed, s.returned);
    if a.retryable && t.attempt < a.budget {
      StackFreed(s, a.id, failed);
      RowCarries(failed, s.returned, Runner.RetryOf(t, a.id, RetryReason), Next(s, a).db);
    } else {
      SameCarriersLinear(failed, Next(s, a).db, s.returned);
    }
  }

  lemma SubmitLinear(s: State, a: Step)
    requires Inv(s) && Linear(s.db, s.returned) && a.Submit? && Enabled(s, a)
    ensures Linear(Next(s, a).db, s.returned)
  {
    hide Linear;
    var db' := Next(s, a).db;
    var row := db'.tasks[|s.db.tasks|];
    assert row.run !in s.db.runs && row.branch == [];
    assert PlacesRunsKnown(s) by { ArrivalRunsKnown(s); }
    RowCarries(s.db, s.returned, row, db');
  }

  predicate PlacesRunsKnown(s: State) {
    forall p | p in s.db.arrivals :: p.run in s.db.runs
  }

  lemma ArrivalRunsKnown(s: State)
    requires Inv(s)
    ensures PlacesRunsKnown(s)
  {
    forall p | p in s.db.arrivals ensures p.run in s.db.runs {
      assert PlaceOk(s.db.tasks, s.returned, p, s.db.arrivals[p]);
    }
  }

  lemma OtherStepLinear(s: State, a: Step)
    requires Linear(s.db, s.returned) && Enabled(s, a)
    requires a.Claim? || a.Park? || a.Unpark? || a.Crash? || a.Drop? || a.Pause? || a.Resume?
    ensures Linear(Next(s, a).db, s.returned)
  {
    hide Linear, Next, Apply, Enabled;
    if a.Claim? {
      ClaimIs(s, a);
    } else if a.Park? || a.Unpark? {
      ParkIs(s, a);
    } else if a.Crash? || a.Drop? {
      CrashIs(s, a);
    } else {
      PauseIs(s, a);
    }
    SameCarriersLinear(s.db, Next(s, a).db, s.returned);
  }

  lemma CancelLinear(s: State, a: Step)
    requires Linear(s.db, s.returned) && Enabled(s, a) && (a.Cancel? || a.Recover?)
    ensures Linear(Next(s, a).db, s.returned)
  {
    hide Linear, Next, Apply, Enabled;
    if a.Cancel? {
      CancelIs(s, a);
    } else {
      RecoverIs(s, a);
    }
    SameCarriersLinear(s.db, Next(s, a).db, s.returned);
  }

  lemma StepLinear(s: State, a: Step)
    requires Inv(s) && Linear(s.db, s.returned) && ForwardStep(a) && Enabled(s, a)
    ensures Inv(Next(s, a)) && Linear(Next(s, a).db, Next(s, a).returned)
  {
    hide Inv, Linear, Apply;
    StepKeeps(s, a);
    if a.Succeed? {
      SuccessLinear(s, a);
    } else if a.Fail? {
      FailureLinear(s, a);
    } else if a.Submit? {
      SubmitLinear(s, a);
    } else if a.Cancel? || a.Recover? {
      CancelLinear(s, a);
    } else {
      OtherStepLinear(s, a);
    }
  }

  lemma {:induction false} RunLinear(s: State, trace: seq<Step>)
    requires Inv(s) && Linear(s.db, s.returned) && ForwardRun(s, trace)
    ensures Inv(End(s, trace)) && Linear(End(s, trace).db, End(s, trace).returned)
    decreases |trace|
  {
    if trace != [] {
      assert ForwardStep(trace[0]);
      StepLinear(s, trace[0]);
      RunLinear(Next(s, trace[0]), trace[1..]);
    }
  }

  // In a run that sends no work down a branch again, no arrival is late, a branch arrives at one
  // join only, and no pending row carries a branch that arrived or one that another
  // pending row carries.
  lemma BranchesAreLinear(trace: seq<Step>)
    requires ForwardRun(Empty, trace)
    ensures var db := End(Empty, trace).db;
            && (forall p | p in db.arrivals :: !db.arrivals[p].late)
            && (forall p, q | p in db.arrivals && q in db.arrivals && p.run == q.run && p.fanout == q.fanout
                && p.index == q.index :: p == q)
            && (forall p, a: nat | p in db.arrivals && Carries(db.tasks, p.run, a) ::
                !Under(db.tasks[a].branch, p.fanout, p.index))
            && (forall a: nat, b: nat, run | a < b && Carries(db.tasks, run, a) && Carries(db.tasks, run, b) ::
                  Part(db.tasks[a].branch, db.tasks[b].branch))
  {
    RunLinear(Empty, trace);
  }
}
