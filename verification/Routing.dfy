/** The return value is the routing (athanore/engine/routing.py), and the branch
    frames a fan-out pushes (athanore/engine/runner.py). */
module Routing {
  import opened Base
  import opened Json
  import opened Graphs
  import opened Rows

  datatype RoutingError = Undeclared | Ambiguous | JoinWithoutFrame | NoSuchNode

  // A transition once interpreted: its payload is already JSON.
  datatype Hop = Hop(target: string, payload: Json)

  predicate IsRoute(v: Value) {
    v.EdgeRef? || v.Transition?
  }

  function Items(v: Value): seq<Value>
    requires v.List? || v.Tuple?
  {
    v.items
  }

  predicate IsFanOut(v: Value) {
    (v.List? || v.Tuple?) && Items(v) != [] && forall i | 0 <= i < |Items(v)| :: IsRoute(Items(v)[i])
  }

  function Coerce(v: Value): Hop
    requires IsRoute(v)
  {
    if v.Transition? then Hop(v.target, Jsonable(v.payload)) else Hop(v.name, JNull)
  }

  // The routing the body asked for, if it asked for one.
  function Explicit(v: Value): Option<seq<Hop>> {
    if IsRoute(v) then Some([Coerce(v)])
    else if (v.List? || v.Tuple?) && Items(v) == [] then Some([])
    else if IsFanOut(v) then
      Some(seq(|Items(v)|, i requires 0 <= i < |Items(v)| && IsFanOut(v) => Coerce(Items(v)[i])))
    else None
  }

  // The routing a plain value implies.
  function Implicit(node: Node, v: Value): Result<seq<Hop>, RoutingError> {
    if |node.edges| == 0 then Ok([])
    else if |node.edges| == 1 then Ok([Hop(node.edges[0], Jsonable(v))])
    else Err(Ambiguous)
  }

  predicate Declared(node: Node, hops: seq<Hop>) {
    forall i | 0 <= i < |hops| :: hops[i].target in node.edges
  }

  function Interpret(node: Node, v: Value): Result<seq<Hop>, RoutingError> {
    var asked := Explicit(v);
    var hops := if asked.Some? then Ok(asked.value) else Implicit(node, v);
    if hops.Err? then hops
    else if !Declared(node, hops.value) then Err(Undeclared)
    else hops
  }

  /** The frames of the child at `index` of a return that made `count` transitions. */
  function ChildFrames(id: nat, branch: seq<Frame>, hop: Hop, index: nat, count: nat, fanning: bool): seq<Frame> {
    if fanning then branch + [Frame(id, index, count, Jsonable(Plain(hop.payload)))] else branch
  }

  // On a finalized graph every interpreted target is a node of the graph.
  lemma TargetsResolve(g: Graph, n: string, v: Value)
    requires EdgesOk(g.nodes) && n in g.nodes
    requires Interpret(g.nodes[n], v).Ok?
    ensures var hops := Interpret(g.nodes[n], v).value;
            forall i | 0 <= i < |hops| :: hops[i].target in g.nodes
  {
    var hops := Interpret(g.nodes[n], v).value;
    forall i | 0 <= i < |hops| ensures hops[i].target in g.nodes {
      var target := hops[i].target;
      var k :| 0 <= k < |g.nodes[n].edges| && g.nodes[n].edges[k] == target;
    }
  }

  // Only a fan-out makes more than one transition, and a fan-out makes one per item.
  lemma HopCount(node: Node, v: Value)
    requires Interpret(node, v).Ok?
    ensures IsFanOut(v) ==> |Interpret(node, v).value| == |Items(v)| >= 1
    ensures !IsFanOut(v) ==> |Interpret(node, v).value| <= 1
  {
  }

  // The items of a return: those of a list or a tuple, and otherwise the value alone.
  function ItemsOf(v: Value): seq<Value> {
    if v.List? || v.Tuple? then v.items else [v]
  }

  // A return that says where it goes, item by item; the empty list goes nowhere.
  predicate Routed(v: Value) {
    forall i | 0 <= i < |ItemsOf(v)| :: ItemsOf(v)[i].Transition? || ItemsOf(v)[i].EdgeRef?
  }

  // Item i of the return goes to this target with this payload. A plain value goes along
  // the only edge.
  predicate Sends(node: Node, v: Value, i: nat, target: string, payload: Json) {
    if Routed(v) then
      && i < |ItemsOf(v)|
      && match ItemsOf(v)[i]
         case Transition(to, p) => target == to && payload == Jsonable(p)
         case EdgeRef(name) => target == name && payload == JNull
         case _ => false
    else i == 0 && |node.edges| == 1 && target == node.edges[0] && payload == Jsonable(v)
  }

  // The transitions of an accepted return are exactly these, in this order.
  lemma HopsMean(node: Node, v: Value, i: nat, target: string, payload: Json)
    requires Interpret(node, v).Ok?
    ensures var hops := Interpret(node, v).value;
            Sends(node, v, i, target, payload) <==> i < |hops| && hops[i] == Hop(target, payload)
    ensures IsFanOut(v) <==> (v.List? || v.Tuple?) && v.items != [] && Routed(v)
  {
    hide Jsonable;
    if v.List? || v.Tuple? {
      assert ItemsOf(v) == Items(v);
    } else {
      assert ItemsOf(v)[0] == v && (IsRoute(v) ==> Routed(v));
    }
  }

  // Exactly the returns that are refused: a plain value where there is a choice to
  // make, and any transition along an edge the node did not declare.
  lemma RefusedReturns(node: Node, v: Value)
    ensures Interpret(node, v) == Err(Ambiguous) <==> Explicit(v).None? && |node.edges| >= 2
    ensures Interpret(node, v) == Err(Undeclared) <==>
      Explicit(v).Some? && !Declared(node, Explicit(v).value)
  {
  }

  // Branch i of a fan-out of n runs under a frame with index i and count n, and the
  // frame's key is the very payload the branch is given.
  lemma FanOutFrames(id: nat, branch: seq<Frame>, node: Node, v: Value, i: nat)
    requires Interpret(node, v).Ok? && i < |Interpret(node, v).value|
    ensures var hops := Interpret(node, v).value;
            var frames := ChildFrames(id, branch, hops[i], i, |hops|, IsFanOut(v));
            && (!IsFanOut(v) ==> frames == branch && i == 0)
            && (IsFanOut(v) ==>
                  && |frames| == |branch| + 1 && frames[..|branch|] == branch
                  && frames[|branch|] == Frame(id, i, |Items(v)|, hops[i].payload))
  {
    HopCount(node, v);
    JsonableOfPlain(Interpret(node, v).value[i].payload);
  }
}
