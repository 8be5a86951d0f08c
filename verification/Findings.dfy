/** Inputs on which the code falls short: a status written over a fan-out row, and a refused
    registration. */
module Findings {
  import opened Base
  import opened Json
  import opened Graphs
  import opened Rows
  import opened Routing
  import opened Store
  import opened Machine
  import opened Nesting
  import Runner
  import Settlement
  import Registration

  // ------------------------------------------------------------------------
  // A status written over a row that fanned out
  // ------------------------------------------------------------------------

  const StartNode := Node("a", ["b"], false, true, false, None, None, 0)
  const LeafNode := Node("b", [], true, false, false, None, None, 1)
  const OneBranch := Graph("w", map["a" := StartNode, "b" := LeafNode], "a")

  // A list of one transition, which is a fan-out of one.
  const Returned := List([Transition("b", Null)])

  const Submitting := Step.Submit(map["w" := OneBranch], "w", "r", JNull, 0)

  // A run that starts, fans out, and has its start row set back to ready.
  const Restarted: seq<Step> := [Submitting, Claim(0), Succeed(0, OneBranch, Returned, 0), SetStatus(0, Ready)]

  predicate Begun(s: State) {
    && |s.db.tasks| == 1 && s.db.tasks[0].node == "a" && s.db.tasks[0].branch == [] && s.db.tasks[0].run == "r"
    && s.live == {0} && s.db.arrivals == map[] && "r" in s.db.runs
  }

  lemma OneBranchIs(db: Tables)
    requires |db.tasks| == 1 && db.tasks[0].node == "a" && db.tasks[0].branch == []
    ensures Finalized(OneBranch) && IsFanOut(Returned)
    ensures Runner.Reading(db, 0, OneBranch, Returned) == Ok([Hop("b", JNull)])
  {
    assert Items(Returned)[0].Transition?;
    assert Explicit(Returned).value == [Hop("b", JNull)];
    assert StartNode.edges[0] == "b";
  }

  lemma Begins() returns (s: State)
    ensures KeepingRun(Empty, [Submitting, Claim(0)]) && IsRun(Empty, [Submitting, Claim(0)])
    ensures s == End(Empty, [Submitting, Claim(0)]) && Begun(s)
  {
    var start := Tables(map[], [Runner.NewTask("r", StartNode, JNull, 1, 0, [], Lineage(StartReason, None, []))],
        map[], []);
    OneBranchIs(start);
    var s1 := Next(Empty, Submitting);
    assert s1.db.tasks[0].status == Ready;
    s := Next(s1, Claim(0));
    var trace := [Submitting, Claim(0)];
    assert trace[1..] == [Claim(0)] && trace[1..][1..] == [];
    assert IsRun(s, []) && IsRun(s1, [Claim(0)]) && KeepingRun(s, []) && KeepingRun(s1, [Claim(0)]);
  }

  lemma FansOut(s: State)
    requires Begun(s)
    ensures var a := Succeed(0, OneBranch, Returned, 0);
            && Enabled(s, a) && "r" in Next(s, a).db.runs && |Next(s, a).db.tasks| == 2
            && Names(Next(s, a).db.tasks[1].branch, 0) && Next(s, a).db.tasks[0].run == "r"
  {
    hide Runner.Reading, Jsonable, IsFanOut, Runner.SettleRun;
    OneBranchIs(s.db);
    var done := Finish(s.db, 0, Done, Some(Jsonable(Returned)), false);
    var routed := Runner.RouteOne(done, 0, OneBranch, [Hop("b", JNull)], true, 0, 0);
    assert Runner.Route(done, 0, OneBranch, [Hop("b", JNull)], true, 1, 0) == routed;
    assert Returned.List? && routed.tasks[1].branch[0].fanout == 0;
    SettleTouches(Runner.Written(s.db, 0, OneBranch, Returned, 0), "r", false, 0);
  }

  lemma {:induction false} KeepingNext(s: State, trace: seq<Step>, a: Step)
    requires KeepingRun(s, trace) && IsRun(s, trace) && Enabled(End(s, trace), a) && !OverwritesDone(End(s, trace), a)
    ensures KeepingRun(s, trace + [a])
    decreases |trace|
  {
    hide Enabled, Next, OverwritesDone;
    if trace == [] {
      assert [] + [a] == [a] && [a][1..] == [];
    } else {
      assert (trace + [a])[1..] == trace[1..] + [a];
      KeepingNext(Next(s, trace[0]), trace[1..], a);
    }
  }

  lemma Resets(s: State)
    requires |s.db.tasks| == 2 && s.db.tasks[0].run == "r" && "r" in s.db.runs
    ensures Enabled(s, SetStatus(0, Ready))
  {
  }

  // After it the branch's stack names a row that is not done.
  lemma SettingStatusUnnests()
    ensures IsRun(Empty, Restarted) && !Nested(End(Empty, Restarted).db.tasks, End(Empty, Restarted).returned)
  {
    hide Enabled, Next, KeepingRun, IsRun, End, Nested, Names, Begun, Inv;
    var s := Begins();
    var trace, a := [Submitting, Claim(0)], Succeed(0, OneBranch, Returned, 0);
    FansOut(s);
    Settlement.Appended(Empty, trace, a);
    KeepingNext(Empty, trace, a);
    EmptyInv();
    RunKeeps(Empty, trace + [a]);
    var out := Next(s, a);
    Resets(out);
    Settlement.Appended(Empty, trace + [a], SetStatus(0, Ready));
    SettingStatusNests(out, SetStatus(0, Ready));
    NextReturned(out, SetStatus(0, Ready));
    assert trace + [a] + [SetStatus(0, Ready)] == Restarted;
  }

  lemma EmptyInv()
    ensures Inv(Empty)
  {
  }

  lemma NextReturned(s: State, a: Step)
    requires Enabled(s, a) && a.SetStatus?
    ensures Next(s, a).returned == s.returned
  {
  }

  // ------------------------------------------------------------------------
  // A refused registration
  // ------------------------------------------------------------------------

  /** A workflow registered with pool "p" and then, by mistake, with pool "q": the second
      registration is refused, and there is a pool "q". */
  method RefusedLeavesPool() returns (first: bool, second: bool, pools: set<string>)
    ensures first && !second && pools == {"p", "q"}
  {
    var host := new Registration.Host(1);
    var g := Graph("w", map["a" := StartNode, "b" := LeafNode], "a");
    var one := host.Register(g, Some(Registration.Pool("p", 1)));
    var two := host.Register(g, Some(Registration.Pool("q", 1)));
    assert "p" != "q" by {
      assert "p"[0] != "q"[0];
    }
    return one.Ok?, two.Ok?, host.registry.pools.Keys;
  }
}
