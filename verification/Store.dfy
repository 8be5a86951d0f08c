/** What the repositories ask of the tables and how they change them
    (athanore/store/repos). */
module Store {
  import opened Base
  import opened Json
  import opened Rows

  // ------------------------------------------------------------------------
  // Join arrivals
  // ------------------------------------------------------------------------

  // The distinct branches of a fan-out that have arrived at a join.
  function Indexes(arrivals: map<Place, Arrival>, run: string, join: string, fanout: nat): set<nat> {
    set p | p in arrivals && p == Place(run, join, fanout, p.index) :: p.index
  }

  // The join task of this fan-out exists: the one durable record of a dispatch.
  predicate Fired(tasks: seq<Task>, run: string, join: string, fanout: nat) {
    exists id | 0 <= id < |tasks| :: IsDispatch(tasks[id], run, join, fanout)
  }

  predicate IsDispatch(t: Task, run: string, join: string, fanout: nat) {
    t.run == run && t.node == join && t.lineage.reason == JoinReason && t.lineage.from == Some(fanout)
  }

  function Least(s: set<nat>): (m: nat)
    requires s != {}
    ensures m in s && forall x | x in s :: m <= x
  {
    LeastExists(s);
    var m :| m in s && forall x | x in s :: m <= x;
    m
  }

  lemma LeastExists(s: set<nat>)
    requires s != {}
    ensures exists m :: m in s && forall x | x in s :: m <= x
  {
    var x :| x in s;
    LeastAtMost(s, x);
  }

  lemma {:induction false} LeastAtMost(s: set<nat>, x: nat)
    requires x in s
    ensures exists m :: m in s && forall x | x in s :: m <= x
  {
    if y :| y in s && y < x {
      LeastAtMost(s, y);
    }
  }

  // A set of branch indices in fan-out order.
  function Ascending(s: set<nat>): (r: seq<nat>)
    ensures |r| == |s|
    ensures forall i | 0 <= i < |r| :: r[i] in s
    decreases |s|
  {
    if s == {} then [] else [Least(s)] + Ascending(s - {Least(s)})
  }

  // Once all of lo..hi is in, the order is lo, lo + 1, ..., hi - 1.
  lemma {:induction false} AscendingRange(s: set<nat>, lo: nat, hi: nat)
    requires lo <= hi && forall i: nat :: i in s <==> lo <= i < hi
    ensures Ascending(s) == seq(hi - lo, i requires 0 <= i < hi - lo => lo + i)
    decreases hi - lo
  {
    if lo == hi {
      assert s == {};
    } else {
      assert lo in s;
      assert Least(s) == lo;
      AscendingRange(s - {lo}, lo + 1, hi);
    }
  }

  // One payload entry of a join task.
  function Entry(index: nat, a: Arrival): Json {
    JDict([("index", JInt(index)), ("key", a.key), ("value", a.value), ("from_task", JInt(a.from))])
  }

  predicate AllIn(arrivals: map<Place, Arrival>, run: string, join: string, fanout: nat, order: seq<nat>) {
    forall i | 0 <= i < |order| :: Place(run, join, fanout, order[i]) in arrivals
  }

  // The payload entries and the senders of the named arrivals, in the order given.
  function Entries(arrivals: map<Place, Arrival>, run: string, join: string, fanout: nat, order: seq<nat>): seq<Json>
    requires AllIn(arrivals, run, join, fanout, order)
  {
    seq(|order|, i requires 0 <= i < |order| && AllIn(arrivals, run, join, fanout, order) =>
      Entry(order[i], arrivals[Place(run, join, fanout, order[i])]))
  }

  function Senders(arrivals: map<Place, Arrival>, run: string, join: string, fanout: nat, order: seq<nat>): seq<nat>
    requires AllIn(arrivals, run, join, fanout, order)
  {
    seq(|order|, i requires 0 <= i < |order| && AllIn(arrivals, run, join, fanout, order) =>
      arrivals[Place(run, join, fanout, order[i])].from)
  }

  function Order(arrivals: map<Place, Arrival>, run: string, join: string, fanout: nat): (order: seq<nat>)
    ensures AllIn(arrivals, run, join, fanout, order)
  {
    Ascending(Indexes(arrivals, run, join, fanout))
  }

  function ArrivalsPayload(arrivals: map<Place, Arrival>, run: string, join: string, fanout: nat): Json {
    JList(Entries(arrivals, run, join, fanout, Order(arrivals, run, join, fanout)))
  }

  function ArrivalSenders(arrivals: map<Place, Arrival>, run: string, join: string, fanout: nat): seq<nat> {
    Senders(arrivals, run, join, fanout, Order(arrivals, run, join, fanout))
  }

  // ------------------------------------------------------------------------
  // Partial joins
  // ------------------------------------------------------------------------

  // The widths a stack of frames answers for, over those already known.
  function FrameWidths(known: map<nat, nat>, branch: seq<Frame>): map<nat, nat>
    decreases |branch|
  {
    if branch == [] then known else FrameWidths(known[branch[0].fanout := branch[0].count], branch[1..])
  }

  // Every fan-out of the run that some task row still answers for, and its width.
  function Widths(tasks: seq<Task>, run: string): map<nat, nat> {
    if tasks == [] then map[]
    else
      var known := Widths(tasks[..|tasks| - 1], run);
      var last := tasks[|tasks| - 1];
      if last.run == run then FrameWidths(known, last.branch) else known
  }

  // A fan-out of the run with arrivals at this place's join, but not all of them. One
  // whose width no row carries is skipped.
  predicate Short(db: Tables, run: string, p: Place) {
    && p in db.arrivals && p.run == run
    && p.fanout in Widths(db.tasks, run)
    && |Indexes(db.arrivals, run, p.join, p.fanout)| < Widths(db.tasks, run)[p.fanout]
  }

  predicate HasIncomplete(db: Tables, run: string) {
    exists p | p in db.arrivals :: Short(db, run, p)
  }

  predicate Names(branch: seq<Frame>, fanout: nat) {
    exists k | 0 <= k < |branch| :: branch[k].fanout == fanout
  }

  lemma {:induction false} FrameWidthsMean(known: map<nat, nat>, branch: seq<Frame>, f: nat)
    ensures f in FrameWidths(known, branch) <==> f in known || Names(branch, f)
    ensures f in FrameWidths(known, branch) ==>
      || (f in known && FrameWidths(known, branch)[f] == known[f])
      || (exists k :: 0 <= k < |branch| && branch[k].fanout == f && branch[k].count == FrameWidths(known, branch)[f])
    decreases |branch|
  {
    if branch != [] {
      var rest := branch[1..];
      FrameWidthsMean(known[branch[0].fanout := branch[0].count], rest, f);
      assert branch == [branch[0]] + rest;
      if Names(rest, f) {
        var k :| 0 <= k < |rest| && rest[k].fanout == f;
        assert branch[k + 1].fanout == f;
      }
      var w := FrameWidths(known, branch);
      if k :| f in w && 0 <= k < |rest| && rest[k].fanout == f && rest[k].count == w[f] {
        assert branch[k + 1].fanout == f && branch[k + 1].count == w[f];
      }
      if Names(branch, f) {
        var k :| 0 <= k < |branch| && branch[k].fanout == f;
        if k > 0 {
          assert rest[k - 1].fanout == f;
        }
      }
    }
  }

  // A width is known exactly when some row of the run has a frame of that fan-out,
  // and it is then the count of such a frame.
  lemma {:induction false} WidthsMean(tasks: seq<Task>, run: string, f: nat)
    ensures f in Widths(tasks, run) <==>
        exists id :: 0 <= id < |tasks| && tasks[id].run == run && Names(tasks[id].branch, f)
    ensures f in Widths(tasks, run) ==>
      exists id, k :: 0 <= id < |tasks| && tasks[id].run == run && 0 <= k < |tasks[id].branch|
        && tasks[id].branch[k].fanout == f && tasks[id].branch[k].count == Widths(tasks, run)[f]
    decreases |tasks|
  {
    if tasks != [] {
      var before := tasks[..|tasks| - 1];
      var last := tasks[|tasks| - 1];
      WidthsMean(before, run, f);
      FrameWidthsMean(Widths(before, run), last.branch, f);
      if f in Widths(before, run) {
        var id :| 0 <= id < |before| && before[id].run == run && Names(before[id].branch, f);
        assert tasks[id] == before[id];
        var id', k :| 0 <= id' < |before| && before[id'].run == run && 0 <= k < |before[id'].branch|
          && before[id'].branch[k].fanout == f && before[id'].branch[k].count == Widths(before, run)[f];
        assert tasks[id'] == before[id'];
      }
      if id :| 0 <= id < |tasks| && tasks[id].run == run && Names(tasks[id].branch, f) {
        if id < |before| {
          assert before[id] == tasks[id];
        }
      }
    }
  }

  // ------------------------------------------------------------------------
  // Row updates
  // ------------------------------------------------------------------------

  function Enqueue(db: Tables, row: Task): Tables {
    db.(tasks := db.tasks + [row])
  }

  function Emit(db: Tables, run: Option<string>, task: Option<nat>, name: Name): Tables {
    db.(events := db.events + [Event(run, task, name)])
  }

  function Finish(db: Tables, id: nat, status: TaskStatus, result: Option<Json>, terminal: bool): Tables
    requires id < |db.tasks|
  {
    db.(tasks := db.tasks[id := db.tasks[id].(status := status, result := result, terminal := terminal)])
  }

  function SetTask(db: Tables, id: nat, status: TaskStatus): Tables
    requires id < |db.tasks|
  {
    db.(tasks := db.tasks[id := db.tasks[id].(status := status)])
  }

  // A status, and `finished` when a stamp is given; None leaves the column alone.
  function SetRun(db: Tables, run: string, status: RunStatus, finished: Option<nat>): Tables
    requires run in db.runs
  {
    var row := db.runs[run].(status := status);
    db.(runs := db.runs[run := if finished.Some? then row.(finished := finished) else row])
  }

  function Arrive(db: Tables, p: Place, a: Arrival): Tables {
    db.(arrivals := db.arrivals[p := a])
  }
}
