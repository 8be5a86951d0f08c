/** The frozen graph and its finalization
    (athanore/graph/model.py, athanore/graph/builder.py, athanore/graph/validate.py). */
module Graphs {
  import opened Base

  // A node as the engine reads it. `payload` says whether the signature declares a
  // payload slot; `priority` and `retries` of None mean the server default.
  datatype Node = Node(
    name: string,
    edges: seq<string>,
    payload: bool,
    start: bool,
    join: bool,
    priority: Option<int>,
    retries: Option<int>,
    generation: nat)

  datatype Graph = Graph(name: string, nodes: map<string, Node>, start: string)

  // What GraphBuilder collected: the nodes it was given, each under its own name.
  datatype Builder = Builder(name: string, nodes: map<string, Node>)

  datatype GraphError = BadName | StartCount(n: nat) | BadEdge | JoinWithoutSlot | Unreachable

  // The character tests of the name pattern `[a-z][a-z0-9_]*`, matched in full.
  predicate NameOk(name: string) {
    && name != ""
    && 'a' <= name[0] <= 'z'
    && forall i | 0 < i < |name| :: 'a' <= name[i] <= 'z' || '0' <= name[i] <= '9' || name[i] == '_'
  }

  function Starts(nodes: map<string, Node>): set<string> {
    set n | n in nodes && nodes[n].start
  }

  predicate EdgesOk(nodes: map<string, Node>) {
    forall n | n in nodes :: forall i | 0 <= i < |nodes[n].edges| :: nodes[n].edges[i] in nodes
  }

  // Each node goes by the name it is kept under.
  predicate NamesOk(nodes: map<string, Node>) {
    forall n | n in nodes :: nodes[n].name == n
  }

  predicate JoinsOk(nodes: map<string, Node>) {
    forall n | n in nodes :: nodes[n].join ==> nodes[n].payload
  }

  // A walk of the graph from its start, as the names it passes through.
  predicate Walk(g: Graph, p: seq<string>)
  {
    && |p| > 0
    && p[0] == g.start
    && (forall i | 0 <= i < |p| :: p[i] in g.nodes)
    && (forall i | 0 <= i < |p| - 1 :: p[i + 1] in g.nodes[p[i]].edges)
  }

  ghost predicate WalkTo(g: Graph, n: string, steps: nat) {
    exists p :: Walk(g, p) && |p| == steps + 1 && p[steps] == n
  }

  ghost predicate Reachable(g: Graph, n: string) {
    exists steps: nat :: WalkTo(g, n, steps)
  }

  // `depth` is the length of a shortest walk to n.
  ghost predicate Depth(g: Graph, n: string, depth: nat) {
    && WalkTo(g, n, depth)
    && forall steps: nat :: WalkTo(g, n, steps) ==> depth <= steps
  }

  lemma WalkStep(g: Graph, n: string, e: string, steps: nat)
    requires EdgesOk(g.nodes)
    requires n in g.nodes && e in g.nodes[n].edges
    requires WalkTo(g, n, steps)
    ensures WalkTo(g, e, steps + 1)
  {
    var p :| Walk(g, p) && |p| == steps + 1 && p[steps] == n;
    var i :| 0 <= i < |g.nodes[n].edges| && g.nodes[n].edges[i] == e;
    assert Walk(g, p + [e]);
    assert (p + [e])[steps + 1] == e;
  }

  // Depths that start at 0 and grow by at most one along an edge bound every walk.
  ghost predicate Relaxed(g: Graph, depth: map<string, nat>) {
    && g.start in depth && depth[g.start] == 0
    && depth.Keys <= g.nodes.Keys
    && forall n, e | n in depth && e in g.nodes[n].edges :: e in depth && depth[e] <= depth[n] + 1
  }

  lemma {:induction false} RelaxedBounds(g: Graph, depth: map<string, nat>, p: seq<string>)
    requires Relaxed(g, depth) && Walk(g, p)
    ensures p[|p| - 1] in depth && depth[p[|p| - 1]] <= |p| - 1
  {
    if |p| > 1 {
      var q := p[..|p| - 1];
      assert Walk(g, q);
      RelaxedBounds(g, depth, q);
      assert p[|p| - 2 + 1] in g.nodes[p[|p| - 2]].edges;
    }
  }

  // The queue of the search: every name once, in the order of its depth, and the
  // last depth at most one more than that of the name being expanded.
  ghost predicate QueueOk(g: Graph, depth: map<string, nat>, queue: seq<string>, at: nat) {
    && depth.Keys <= g.nodes.Keys
    && (forall i | 0 <= i < |queue| :: queue[i] in depth)
    && (forall n | n in depth :: n in queue)
    && (forall i, j | 0 <= i < j < |queue| :: queue[i] != queue[j] && depth[queue[i]] <= depth[queue[j]])
    && (at < |queue| ==> forall j | 0 <= j < |queue| :: depth[queue[j]] <= depth[queue[at]] + 1)
  }

  // The edges of `name` before the k-th are in, and no deeper than they may be.
  ghost predicate Expanded(g: Graph, depth: map<string, nat>, name: string, k: nat)
    requires name in g.nodes
  {
    && name in depth
    && forall i | 0 <= i < k && i < |g.nodes[name].edges| ::
         g.nodes[name].edges[i] in depth && depth[g.nodes[name].edges[i]] <= depth[name] + 1
  }

  ghost predicate Searched(g: Graph, depth: map<string, nat>, queue: seq<string>, at: nat, k: nat) {
    && g.start in depth && depth[g.start] == 0
    && QueueOk(g, depth, queue, at)
    && (forall i | 0 <= i < at && i < |queue| :: Expanded(g, depth, queue[i], |g.nodes[queue[i]].edges|))
    && (at < |queue| ==> Expanded(g, depth, queue[at], k))
    && forall n | n in depth :: WalkTo(g, n, depth[n])
  }

  // Meeting an edge that is already in: its depth is at most one more.
  lemma EdgeKnown(g: Graph, depth: map<string, nat>, queue: seq<string>, at: nat, k: nat)
    requires at < |queue| && Searched(g, depth, queue, at, k)
    requires k < |g.nodes[queue[at]].edges| && g.nodes[queue[at]].edges[k] in depth
    ensures Searched(g, depth, queue, at, k + 1)
  {
    var edge := g.nodes[queue[at]].edges[k];
    var j :| 0 <= j < |queue| && queue[j] == edge;
  }

  // Meeting an edge for the first time: it goes in at the end of the queue.
  lemma EdgeFound(g: Graph, depth: map<string, nat>, queue: seq<string>, at: nat, k: nat)
    requires EdgesOk(g.nodes)
    requires at < |queue| && Searched(g, depth, queue, at, k)
    requires k < |g.nodes[queue[at]].edges| && g.nodes[queue[at]].edges[k] !in depth
    ensures var edge := g.nodes[queue[at]].edges[k];
            Searched(g, depth[edge := depth[queue[at]] + 1], queue + [edge], at, k + 1)
  {
    var name := queue[at];
    var edge := g.nodes[name].edges[k];
    WalkStep(g, name, edge, depth[name]);
    FoundQueue(g, depth, queue, at, edge);
    var depth' := depth[edge := depth[name] + 1];
    forall i | 0 <= i < at ensures Expanded(g, depth', (queue + [edge])[i], |g.nodes[(queue + [edge])[i]].edges|) {
      assert Expanded(g, depth, queue[i], |g.nodes[queue[i]].edges|);
    }
  }

  lemma FoundQueue(g: Graph, depth: map<string, nat>, queue: seq<string>, at: nat, edge: string)
    requires at < |queue| && QueueOk(g, depth, queue, at)
    requires edge in g.nodes && edge !in depth
    ensures QueueOk(g, depth[edge := depth[queue[at]] + 1], queue + [edge], at)
  {
    var queue' := queue + [edge];
    assert forall n | n in queue :: n in queue';
    assert queue'[|queue|] == edge;
  }

  lemma NameDone(g: Graph, depth: map<string, nat>, queue: seq<string>, at: nat)
    requires at < |queue| && queue[at] in g.nodes
    requires Searched(g, depth, queue, at, |g.nodes[queue[at]].edges|)
    ensures Searched(g, depth, queue, at + 1, 0)
  {
    assert at + 1 < |queue| ==> depth[queue[at]] <= depth[queue[at + 1]];
  }

  lemma SearchDone(g: Graph, depth: map<string, nat>, queue: seq<string>)
    requires Searched(g, depth, queue, |queue|, 0)
    ensures forall n :: n in depth <==> Reachable(g, n)
    ensures forall n | n in depth :: Depth(g, n, depth[n])
  {
    forall n, e | n in depth && e in g.nodes[n].edges ensures e in depth && depth[e] <= depth[n] + 1 {
      var i :| 0 <= i < |queue| && queue[i] == n;
      assert Expanded(g, depth, queue[i], |g.nodes[queue[i]].edges|);
    }
    forall n, steps: nat | WalkTo(g, n, steps) ensures n in depth && depth[n] <= steps {
      var p :| Walk(g, p) && |p| == steps + 1 && p[steps] == n;
      RelaxedBounds(g, depth, p);
    }
  }

  lemma {:induction false} QueueSize(queue: seq<string>, names: set<string>)
    requires forall i, j | 0 <= i < j < |queue| :: queue[i] != queue[j]
    requires forall i | 0 <= i < |queue| :: queue[i] in names
    ensures |queue| <= |names|
  {
    if queue != [] {
      var last := queue[|queue| - 1];
      QueueSize(queue[..|queue| - 1], names - {last});
    }
  }

  /** Breadth-first depths. The queue grows while it is walked, cycles included. */
  method Generations(g: Graph) returns (depth: map<string, nat>)
    requires g.start in g.nodes && EdgesOk(g.nodes)
    ensures forall n :: n in depth <==> Reachable(g, n)
    ensures forall n | n in depth :: Depth(g, n, depth[n])
  {
    depth := map[g.start := 0];
    var queue := [g.start];
    var at := 0;
    assert WalkTo(g, g.start, 0) by { assert Walk(g, [g.start]); }
    while at < |queue|
      invariant 0 <= at <= |queue|
      invariant Searched(g, depth, queue, at, 0)
      decreases |g.nodes| - at
    {
      var name := queue[at];
      var edges := g.nodes[name].edges;
      var k := 0;
      while k < |edges|
        invariant 0 <= k <= |edges| && at < |queue| && queue[at] == name
        invariant Searched(g, depth, queue, at, k)
      {
        if edges[k] !in depth {
          EdgeFound(g, depth, queue, at, k);
          depth := depth[edges[k] := depth[name] + 1];
          queue := queue + [edges[k]];
        } else {
          EdgeKnown(g, depth, queue, at, k);
        }
        k := k + 1;
      }
      NameDone(g, depth, queue, at);
      QueueSize(queue, g.nodes.Keys);
      at := at + 1;
    }
    SearchDone(g, depth, queue);
  }

  // The frozen graph: the builder's nodes, each with its depth filled in.
  ghost predicate Frozen(b: Builder, g: Graph) {
    && g.name == b.name
    && g.nodes.Keys == b.nodes.Keys
    && Starts(b.nodes) == {g.start}
    && forall n | n in b.nodes ::
         && g.nodes[n] == b.nodes[n].(generation := g.nodes[n].generation)
         && Depth(Graph(b.name, b.nodes, g.start), n, g.nodes[n].generation)
  }

  // What finalization asks of a builder, in terms of the graph alone.
  ghost predicate Sound(b: Builder) {
    && NameOk(b.name)
    && EdgesOk(b.nodes)
    && JoinsOk(b.nodes)
    && exists start :: Starts(b.nodes) == {start} && forall n | n in b.nodes ::
        Reachable(Graph(b.name, b.nodes, start), n)
  }

  /** Accepts exactly the sound graphs, and returns them with exact generations. */
  method Finalize(b: Builder) returns (r: Result<Graph, GraphError>)
    ensures r.Ok? <==> Sound(b)
    ensures r.Ok? ==> Frozen(b, r.value)
    ensures r == Err(BadName) <==> !NameOk(b.name)
    ensures r.Err? && r.error.StartCount? <==> NameOk(b.name) && |Starts(b.nodes)| != 1
    ensures r == Err(BadEdge) <==> NameOk(b.name) && |Starts(b.nodes)| == 1 && !EdgesOk(b.nodes)
    ensures r == Err(JoinWithoutSlot) <==>
      NameOk(b.name) && |Starts(b.nodes)| == 1 && EdgesOk(b.nodes) && !JoinsOk(b.nodes)
  {
    if !NameOk(b.name) { return Err(BadName); }
    var starts := Starts(b.nodes);
    if |starts| != 1 {
      assert forall s :: starts != {s};
      return Err(StartCount(|starts|));
    }
    var start :| start in starts;
    OnlyOne(starts, start);
    var graph := Graph(b.name, b.nodes, start);
    if !EdgesOk(b.nodes) { return Err(BadEdge); }
    if !JoinsOk(b.nodes) { return Err(JoinWithoutSlot); }
    var depth := Generations(graph);
    if n :| n in b.nodes && n !in depth {
      assert !Reachable(graph, n);
      assert forall s :: Starts(b.nodes) == {s} ==> s == start;
      return Err(Unreachable);
    }
    assert Starts(b.nodes) == {start} && forall n | n in b.nodes :: Reachable(graph, n);
    r := Ok(graph.(nodes := map n | n in b.nodes :: b.nodes[n].(generation := depth[n])));
  }

  lemma OnlyOne(s: set<string>, x: string)
    requires |s| == 1 && x in s
    ensures s == {x}
  {
    assert |s - {x}| == 0;
  }
}
