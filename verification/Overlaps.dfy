/** The limit of `Leaks` is exact: a run that leaks with two waits of one body open at once,
    one that leaks with a wait that outlives its body, and one that leaks with an attempt
    cancelled while it closes. */
module Overlaps {
  import opened Base
  import opened Claims
  import opened Dispatch
  import opened Slots
  import opened Capacity
  import opened Leaks

  // One pool of two slots, one workflow, and one attempt of it.
  function Stage1(leased: nat, slots: seq<Slot>, queue: seq<nat>, t: Attempt, waits: seq<Wait>, turn: Turn): State {
    State(map["p" := 2], map["p" := leased], slots, map["p" := queue], [t], waits, {0}, map[0 := 0], map["w" := "p"],
        turn, [])
  }

  const Out0 := Slot("p", false, Some(0))
  const Back0 := Slot("p", true, Some(0))
  const Spare := Slot("p", true, None)
  const Nobodys := Slot("p", false, None)
  const Registered := State(map["p" := 2], map["p" := 0], [], map["p" := []], [], [], {}, map[], map["w" := "p"],
      Between, [])

  function In(held: nat, waiting: bool, phase: Phase): Attempt {
    Attempt(0, "w", 0, held, waiting, phase, false)
  }

  // ------------------------------------------------------------------------
  // Following a run
  // ------------------------------------------------------------------------

  predicate Leads(s: State, a: Step, s': State, lim: Limits) {
    Enabled(s, a) && Within(s, a, lim) && Next(s, a) == s'
  }

  // The run so far, and one step more of it.
  lemma Go(trace: seq<Step>, a: Step, s': State, lim: Limits) returns (longer: seq<Step>)
    requires LimitedRun(Empty, trace, lim) && Leads(EndOf(Empty, trace), a, s', lim)
    ensures longer == trace + [a] && LimitedRun(Empty, longer, lim) && EndOf(Empty, longer) == s'
  {
    LimitedNext(Empty, trace, a, lim);
    longer := trace + [a];
  }

  lemma {:induction false} NoneEnded(s: State, upto: nat)
    requires upto <= |s.attempts| && forall a | a in s.live :: !Over(s, a)
    ensures ReleaseEnded(s, upto) == s
  {
    if upto > 0 {
      NoneEnded(s, upto - 1);
    }
  }

  // A tick with nothing to reap.
  lemma TickStarts(s: State, lim: Limits)
    requires s.turn == Between && "p" in s.capacity
    requires (forall a | a in s.live :: !Over(s, a)) && (forall t | t in s.entries :: !Over(s, s.entries[t]))
    ensures Leads(s, Tick(["p"]), s.(turn := Dispatching(["p"])), lim)
  {
    NoneEnded(s, |s.attempts|);
    var r := Reap(s);
    assert r.live == s.live && r.entries == s.entries;
  }

  lemma FirstTurn(lim: Limits)
    ensures Leads(Registered.(turn := Dispatching(["p"])), PoolTurn,
              Registered.(slots := [Nobodys, Nobodys], leased := map["p" := 2],
                  turn := Claiming("p", [0, 1], {"w"}, [])), lim)
  {
    var s := Registered.(turn := Dispatching(["p"]));
    assert Drain(s, "p") == s && Free(s, "p") == 2;
    assert WorkflowsOf(s, "p") == {"w"};
    var once := Acquire(s, "p", None);
    assert AcquireAll(s, "p", 2) == AcquireAll(once, "p", 1);
    assert AcquireAll(once, "p", 1) == AcquireAll(Acquire(once, "p", None), "p", 0);
    assert NewSlots(0, 2) == [0, 1];
    assert ["p"][1..] == [];
  }

  lemma FirstClaim(lim: Limits)
    ensures Leads(Registered.(slots := [Nobodys, Nobodys], leased := map["p" := 2],
        turn := Claiming("p", [0, 1], {"w"}, [])),
              Claimed([Row(0, "w")]), Stage1(1, [Out0, Spare], [], In(0, false, Loading), [], Dispatching([])), lim)
  {
    var s := Registered.(slots := [Nobodys, Nobodys], leased := map["p" := 2],
        turn := Claiming("p", [0, 1], {"w"}, []));
    var rows := [Row(0, "w")];
    var spawned := Spawn(s, rows[0], 0);
    assert rows[1..] == [] && [0, 1][1..] == [1];
    assert SpawnAll(s, rows, [0, 1]) == SpawnAll(spawned, [], [1]) == spawned;
    assert spawned == Stage1(2, [Out0, Nobodys], [], In(0, false, Loading), [], s.turn);
    var released := Release(spawned, 1);
    assert ReleaseAll(spawned, [1]) == ReleaseAll(released, []) == released;
    assert released == Stage1(1, [Out0, Spare], [], In(0, false, Loading), [], s.turn);
  }

  // A workflow is registered with its pool, and its first row claimed: its body runs.
  lemma BodyRuns(lim: Limits) returns (trace: seq<Step>)
    ensures trace == [Register("w", "p", 2), Tick(["p"]), PoolTurn, Claimed([Row(0, "w")]), TickEnd, Begin(0)]
    ensures LimitedRun(Empty, trace, lim)
    ensures EndOf(Empty, trace) == Stage1(1, [Out0, Spare], [], In(0, false, Body), [], Between)
  {
    hide *;
    RegisterLeads(lim);
    trace := Go([], Register("w", "p", 2), Registered, lim);
    RegisteredIdle();
    TickStarts(Registered, lim);
    trace := Go(trace, Tick(["p"]), Registered.(turn := Dispatching(["p"])), lim);
    FirstTurn(lim);
    trace := Go(trace, PoolTurn,
        Registered.(slots := [Nobodys, Nobodys], leased := map["p" := 2], turn := Claiming("p", [0, 1], {"w"}, [])),
        lim);
    FirstClaim(lim);
    trace := Go(trace, Claimed([Row(0, "w")]),
        Stage1(1, [Out0, Spare], [], In(0, false, Loading), [], Dispatching([])), lim);
    Plain(lim);
    trace := Go(trace, TickEnd, Stage1(1, [Out0, Spare], [], In(0, false, Loading), [], Between), lim);
    trace := Go(trace, Begin(0), Stage1(1, [Out0, Spare], [], In(0, false, Body), [], Between), lim);
  }

  lemma RegisterLeads(lim: Limits)
    ensures LimitedRun(Empty, [], lim) && Leads(EndOf(Empty, []), Register("w", "p", 2), Registered, lim)
  {
  }

  lemma RegisteredIdle()
    ensures Registered.turn == Between && "p" in Registered.capacity && Registered.live == {}
        && Registered.entries == map[]
  {
  }

  lemma Plain(lim: Limits)
    ensures Leads(Stage1(1, [Out0, Spare], [], In(0, false, Loading), [], Dispatching([])), TickEnd,
              Stage1(1, [Out0, Spare], [], In(0, false, Loading), [], Between), lim)
    ensures Leads(Stage1(1, [Out0, Spare], [], In(0, false, Loading), [], Between), Begin(0),
              Stage1(1, [Out0, Spare], [], In(0, false, Body), [], Between), lim)
  {
  }

  // ------------------------------------------------------------------------
  // Two waits at once
  // ------------------------------------------------------------------------

  function At(stage: Stage): Wait {
    Wait(0, 0, stage)
  }

  // The body before it parks, with what its waits are at; and parked, its slot back.
  function Ready(waits: seq<Wait>): State {
    Stage1(1, [Out0, Spare], [], In(0, false, Body), waits, Between)
  }

  function Parked(waiting: bool, queue: seq<nat>, waits: seq<Wait>, turn: Turn): State {
    Stage1(0, [Back0, Spare], queue, In(0, waiting, Body), waits, turn)
  }

  lemma ReadyIs()
    ensures Ready([]) == Stage1(1, [Out0, Spare], [], In(0, false, Body), [], Between)
  {
  }

  lemma EnterLeads(lim: Limits)
    ensures lim.waits >= 1 ==> Leads(Ready([]), Enter(0), Ready([At(Asking)]), lim)
    ensures lim.waits >= 2 ==> Leads(Ready([At(Asking)]), Enter(0), Ready([At(Asking), At(Asking)]), lim)
  {
    assert OpenWaits(Ready([]), 0) == {};
    assert OpenWaits(Ready([At(Asking)]), 0) == {0};
  }

  lemma FirstParks(lim: Limits)
    ensures Leads(Ready([At(Asking), At(Asking)]), Suspend(0), Parked(true, [], [At(Open), At(Asking)], Between), lim)
  {
  }

  lemma SecondParks(lim: Limits)
    ensures Leads(Parked(true, [], [At(Open), At(Asking)], Between), Suspend(1),
        Parked(true, [], [At(Open), At(Open)], Between), lim)
  {
  }

  lemma FirstAsks(lim: Limits)
    ensures Leads(Parked(true, [], [At(Open), At(Open)], Between), Ask(0),
        Parked(false, [0], [At(Queued), At(Open)], Between), lim)
  {
    assert [] + [0] == [0];
  }

  lemma SecondAsks(lim: Limits)
    ensures Leads(Parked(false, [0], [At(Queued), At(Open)], Between), Ask(1),
              Parked(false, [0, 1], [At(Queued), At(Queued)], Between), lim)
  {
    assert [0] + [1] == [0, 1];
  }

  // A tick finds nothing to reap.
  lemma ParkedRuns(queue: seq<nat>, waits: seq<Wait>)
    ensures var s := Parked(false, queue, waits, Between);
            && s.turn == Between && "p" in s.capacity && (forall a | a in s.live :: !Over(s, a))
            && (forall t | t in s.entries :: !Over(s, s.entries[t]))
            && s.(turn := Dispatching(["p"])) == Parked(false, queue, waits, Dispatching(["p"]))
  {
  }

  // Both are served, in one turn of the pool.
  function Resumed(leased: nat, held: nat, waits: seq<Wait>): State {
    Stage1(leased, [Back0, Spare, Out0, Out0], [], In(held, false, Body), waits, Dispatching([]))
  }

  // The drain with one waiter at the head, and what is left of it.
  lemma ServeHead(s: State, rest: seq<nat>, w: nat)
    requires Queue(s, "p") == [w] + rest && Waits(s, w) && Free(s, "p") > 0
    ensures Drain(s, "p") == Drain(Serve(s.(queues := s.queues["p" := rest]), "p", w), "p")
  {
    assert ([w] + rest)[1..] == rest;
  }

  lemma ServeBoth(lim: Limits)
    ensures Leads(Parked(false, [0, 1], [At(Queued), At(Queued)], Dispatching(["p"])), PoolTurn,
              Resumed(2, 0, [At(Served(2)), At(Served(3))]), lim)
  {
    hide Drain;
    var s := Parked(false, [0, 1], [At(Queued), At(Queued)], Dispatching(["p"]));
    var one := Stage1(1, [Back0, Spare, Out0], [1], In(0, false, Body), [At(Served(2)), At(Queued)], s.turn);
    var both := Resumed(2, 0, [At(Served(2)), At(Served(3))]).(turn := s.turn);
    ServeFirst();
    ServeSecond();
    assert ["p"][1..] == [];
    assert Drain(s, "p") == both;
  }

  lemma ServeFirst()
    ensures Drain(Parked(false, [0, 1], [At(Queued), At(Queued)], Dispatching(["p"])), "p") ==
              Drain(Stage1(1, [Back0, Spare, Out0], [1], In(0, false, Body), [At(Served(2)), At(Queued)],
                  Dispatching(["p"])), "p")
  {
    hide Drain;
    var s := Parked(false, [0, 1], [At(Queued), At(Queued)], Dispatching(["p"]));
    assert [0] + [1] == [0, 1];
    ServeHead(s, [1], 0);
    assert s.queues["p" := [1]] == map["p" := [1]];
    assert Serve(s.(queues := s.queues["p" := [1]]), "p", 0) ==
           Stage1(1, [Back0, Spare, Out0], [1], In(0, false, Body), [At(Served(2)), At(Queued)], Dispatching(["p"]));
  }

  lemma ServeSecond()
    ensures Drain(Stage1(1, [Back0, Spare, Out0], [1], In(0, false, Body), [At(Served(2)), At(Queued)],
        Dispatching(["p"])), "p") ==
              Resumed(2, 0, [At(Served(2)), At(Served(3))]).(turn := Dispatching(["p"]))
  {
    var s := Stage1(1, [Back0, Spare, Out0], [1], In(0, false, Body), [At(Served(2)), At(Queued)], Dispatching(["p"]));
    var both := Resumed(2, 0, [At(Served(2)), At(Served(3))]).(turn := Dispatching(["p"]));
    assert [1] + [] == [1];
    ServeHead(s, [], 1);
    assert s.queues["p" := []] == map["p" := []];
    assert Drain(both, "p") == both;
  }

  lemma ReceiveLeads(lim: Limits)
    ensures Leads(Resumed(2, 0, [At(Served(2)), At(Served(3))]), Receive(0),
        Resumed(2, 2, [At(Closed), At(Served(3))]), lim)
    ensures Leads(Resumed(2, 2, [At(Closed), At(Served(3))]), Receive(1), Resumed(2, 3, [At(Closed), At(Closed)]), lim)
  {
  }

  // Two questions gathered in one body: both pass the guard while neither has parked, both
  // are handed a slot, and the second overwrites the first, which no one gives back.
  lemma TwoWaitsLeak(lim: Limits) returns (trace: seq<Step>)
    requires lim.waits >= 2
    ensures trace == [Register("w", "p", 2), Tick(["p"]), PoolTurn, Claimed([Row(0, "w")]), TickEnd, Begin(0),
                      Enter(0), Enter(0), Suspend(0), Suspend(1), Ask(0), Ask(1), Tick(["p"]), PoolTurn, Receive(0),
                          Receive(1)]
    ensures LimitedRun(Empty, trace, lim) && Stray(EndOf(Empty, trace), 2)
  {
    hide *;
    trace := BodyRuns(lim);
    ReadyIs();
    EnterLeads(lim);
    trace := Go(trace, Enter(0), Ready([At(Asking)]), lim);
    trace := Go(trace, Enter(0), Ready([At(Asking), At(Asking)]), lim);
    FirstParks(lim);
    SecondParks(lim);
    trace := Go(trace, Suspend(0), Parked(true, [], [At(Open), At(Asking)], Between), lim);
    trace := Go(trace, Suspend(1), Parked(true, [], [At(Open), At(Open)], Between), lim);
    FirstAsks(lim);
    SecondAsks(lim);
    trace := Go(trace, Ask(0), Parked(false, [0], [At(Queued), At(Open)], Between), lim);
    trace := Go(trace, Ask(1), Parked(false, [0, 1], [At(Queued), At(Queued)], Between), lim);
    ParkedRuns([0, 1], [At(Queued), At(Queued)]);
    TickStarts(Parked(false, [0, 1], [At(Queued), At(Queued)], Between), lim);
    trace := Go(trace, Tick(["p"]), Parked(false, [0, 1], [At(Queued), At(Queued)], Dispatching(["p"])), lim);
    ServeBoth(lim);
    trace := Go(trace, PoolTurn, Resumed(2, 0, [At(Served(2)), At(Served(3))]), lim);
    ReceiveLeads(lim);
    trace := Go(trace, Receive(0), Resumed(2, 2, [At(Closed), At(Served(3))]), lim);
    trace := Go(trace, Receive(1), Resumed(2, 3, [At(Closed), At(Closed)]), lim);
    OverwrittenIsStray();
  }

  lemma OverwrittenIsStray()
    ensures Stray(Resumed(2, 3, [At(Closed), At(Closed)]), 2)
  {
  }

  // ------------------------------------------------------------------------
  // One wait
  // ------------------------------------------------------------------------

  function Lone(phase: Phase, leased: nat, slots: seq<Slot>, queue: seq<nat>, held: nat, stage: Stage, turn: Turn):
    State
  {
    Stage1(leased, slots, queue, In(held, false, phase), [At(stage)], turn)
  }

  lemma LoneWaitParks(lim: Limits)
    ensures Leads(Ready([At(Asking)]), Suspend(0), Parked(true, [], [At(Open)], Between), lim)
  {
  }

  lemma LoneWaitAsks(lim: Limits)
    ensures Leads(Parked(true, [], [At(Open)], Between), Ask(0), Parked(false, [0], [At(Queued)], Between), lim)
  {
    assert [] + [0] == [0];
  }

  // One question asked and answered, and the tick begun that serves it.
  lemma WaitAnswered(lim: Limits) returns (trace: seq<Step>)
    requires lim.waits >= 1
    ensures trace == [Register("w", "p", 2), Tick(["p"]), PoolTurn, Claimed([Row(0, "w")]), TickEnd, Begin(0),
                      Enter(0), Suspend(0), Ask(0), Tick(["p"])]
    ensures LimitedRun(Empty, trace, lim)
    ensures EndOf(Empty, trace) == Lone(Body, 0, [Back0, Spare], [0], 0, Queued, Dispatching(["p"]))
  {
    hide *;
    trace := BodyRuns(lim);
    ReadyIs();
    EnterLeads(lim);
    trace := Go(trace, Enter(0), Ready([At(Asking)]), lim);
    LoneWaitParks(lim);
    trace := Go(trace, Suspend(0), Parked(true, [], [At(Open)], Between), lim);
    LoneWaitAsks(lim);
    trace := Go(trace, Ask(0), Parked(false, [0], [At(Queued)], Between), lim);
    ParkedRuns([0], [At(Queued)]);
    TickStarts(Parked(false, [0], [At(Queued)], Between), lim);
    trace := Go(trace, Tick(["p"]), Parked(false, [0], [At(Queued)], Dispatching(["p"])), lim);
    LoneIs();
  }

  lemma LoneIs()
    ensures Parked(false, [0], [At(Queued)], Dispatching(["p"])) ==
            Lone(Body, 0, [Back0, Spare], [0], 0, Queued, Dispatching(["p"]))
  {
  }

  lemma ServeAlone(phase: Phase)
    ensures Drain(Lone(phase, 0, [Back0, Spare], [0], 0, Queued, Dispatching(["p"])), "p") ==
              Lone(phase, 1, [Back0, Spare, Out0], [], 0, Served(2), Dispatching(["p"]))
  {
    var s := Lone(phase, 0, [Back0, Spare], [0], 0, Queued, Dispatching(["p"]));
    var served := Lone(phase, 1, [Back0, Spare, Out0], [], 0, Served(2), Dispatching(["p"]));
    assert [0] + [] == [0] && s.queues["p" := []] == map["p" := []];
    ServeHead(s, [], 0);
    assert Serve(s.(queues := s.queues["p" := []]), "p", 0) == served;
    assert Drain(served, "p") == served;
  }

  lemma ReserveOne(phase: Phase)
    ensures var served := Lone(phase, 1, [Back0, Spare, Out0], [], 0, Served(2), Dispatching(["p"]));
            && AcquireAll(served, "p", 1) == Lone(phase, 2, [Back0, Spare, Out0, Nobodys], [], 0, Served(2),
                Dispatching(["p"]))
            && WorkflowsOf(served, "p") == {"w"} && Free(served, "p") == 1 && NewSlots(3, 1) == [3]
  {
    var served := Lone(phase, 1, [Back0, Spare, Out0], [], 0, Served(2), Dispatching(["p"]));
    var one := Acquire(served, "p", None);
    assert AcquireAll(served, "p", 1) == AcquireAll(one, "p", 0) == one;
  }

  // The waiter is served, and the slot left over reserved for a claim.
  function Claims1(phase: Phase, held: nat, stage: Stage): State {
    Lone(phase, 2, [Back0, Spare, Out0, Nobodys], [], held, stage, Claiming("p", [3], {"w"}, []))
  }

  lemma ServeLone(phase: Phase, lim: Limits)
    ensures Leads(Lone(phase, 0, [Back0, Spare], [0], 0, Queued, Dispatching(["p"])), PoolTurn,
        Claims1(phase, 0, Served(2)), lim)
  {
    hide Drain, AcquireAll, WorkflowsOf, NewSlots, Free;
    ServeAlone(phase);
    ReserveOne(phase);
    assert ["p"][1..] == [];
  }

  lemma ReceiveLone(phase: Phase, lim: Limits)
    ensures Leads(Claims1(phase, 0, Served(2)), Receive(0), Claims1(phase, 2, Closed), lim)
    ensures phase.Ended? ==> Stray(Claims1(phase, 2, Closed), 2)
  {
  }

  // ------------------------------------------------------------------------
  // A wait that outlives its body
  // ------------------------------------------------------------------------

  lemma BodyEnds(lim: Limits)
    requires lim.outlive
    ensures Leads(Lone(Body, 0, [Back0, Spare], [0], 0, Queued, Dispatching(["p"])), Close(0),
        Lone(Closing, 0, [Back0, Spare], [0], 0, Queued, Dispatching(["p"])), lim)
    ensures Leads(Lone(Closing, 0, [Back0, Spare], [0], 0, Queued, Dispatching(["p"])), End(0),
        Lone(Ended(true), 0, [Back0, Spare], [0], 0, Queued, Dispatching(["p"])), lim)
  {
  }

  // A question asked by a task the body left running: it is answered after the attempt is
  // over, and what it is handed is no one's to give back.
  lemma OutlivingLeaks(lim: Limits) returns (trace: seq<Step>)
    requires lim.waits >= 1 && lim.outlive
    ensures trace == [Register("w", "p", 2), Tick(["p"]), PoolTurn, Claimed([Row(0, "w")]), TickEnd, Begin(0),
                      Enter(0), Suspend(0), Ask(0), Tick(["p"]), Close(0), End(0), PoolTurn, Receive(0)]
    ensures LimitedRun(Empty, trace, lim) && Stray(EndOf(Empty, trace), 2)
  {
    hide *;
    trace := WaitAnswered(lim);
    BodyEnds(lim);
    trace := Go(trace, Close(0), Lone(Closing, 0, [Back0, Spare], [0], 0, Queued, Dispatching(["p"])), lim);
    trace := Go(trace, End(0), Lone(Ended(true), 0, [Back0, Spare], [0], 0, Queued, Dispatching(["p"])), lim);
    ServeLone(Ended(true), lim);
    trace := Go(trace, PoolTurn, Claims1(Ended(true), 0, Served(2)), lim);
    ReceiveLone(Ended(true), lim);
    trace := Go(trace, Receive(0), Claims1(Ended(true), 2, Closed), lim);
  }

  // ------------------------------------------------------------------------
  // An attempt cancelled while it closes
  // ------------------------------------------------------------------------

  // The attempt on the slot it was re-admitted on.
  function Back(phase: Phase, turn: Turn): State {
    Lone(phase, 1, [Back0, Spare, Out0, Spare], [], 2, Closed, turn)
  }

  // With nothing live, one slot is leased.
  const Idle := Back(Ended(true), Dispatching([])).(live := {}, entries := map[])

  lemma NoneClaimed(lim: Limits)
    ensures Leads(Claims1(Body, 2, Closed), Claimed([]), Back(Body, Dispatching([])), lim)
  {
    var s := Claims1(Body, 2, Closed);
    assert SpawnAll(s, [], [3]) == s && [3][0..] == [3];
    var released := Release(s, 3);
    assert ReleaseAll(s, [3]) == ReleaseAll(released, []) == released;
    assert released == Back(Body, s.turn);
  }

  lemma BodyCloses(lim: Limits)
    ensures Leads(Back(Body, Dispatching([])), TickEnd, Back(Body, Between), lim)
    ensures Leads(Back(Body, Between), Close(0), Back(Closing, Between), lim)
  {
    assert OpenWaits(Back(Body, Between), 0) == {};
  }

  lemma CutLeads(lim: Limits)
    requires lim.cut
    ensures Leads(Back(Closing, Between), Cut(0), Back(Ended(true), Between), lim)
  {
  }

  // The reap knows only the slot the attempt was dispatched on, which is back already.
  lemma CutReaped(lim: Limits)
    ensures Leads(Back(Ended(true), Between), Tick([]), Idle, lim)
    ensures Idle.live == {} && Idle.leased["p"] == 1 && Stray(Idle, 2)
  {
    var s := Back(Ended(true), Between);
    assert ReleaseEnded(s, 0) == s && ReleaseEnded(s, 1) == Release(s, 0) == s;
    assert Reap(s).live == {} && Reap(s).entries == map[];
  }

  // One question, asked and answered inside the body. The attempt is cancelled while it
  // closes its transcript: once it is reaped nothing is live, and its second slot is out.
  lemma CutWhileClosingLeaks(lim: Limits) returns (trace: seq<Step>)
    requires lim.waits >= 1 && lim.cut
    ensures trace == [Register("w", "p", 2), Tick(["p"]), PoolTurn, Claimed([Row(0, "w")]), TickEnd, Begin(0),
                      Enter(0), Suspend(0), Ask(0), Tick(["p"]), PoolTurn, Receive(0), Claimed([]), TickEnd, Close(0),
                      Cut(0), Tick([])]
    ensures LimitedRun(Empty, trace, lim) && Stray(EndOf(Empty, trace), 2)
    ensures EndOf(Empty, trace).live == {} && EndOf(Empty, trace) == Idle && Idle.leased["p"] == 1
  {
    hide *;
    trace := WaitAnswered(lim);
    ServeLone(Body, lim);
    trace := Go(trace, PoolTurn, Claims1(Body, 0, Served(2)), lim);
    ReceiveLone(Body, lim);
    trace := Go(trace, Receive(0), Claims1(Body, 2, Closed), lim);
    NoneClaimed(lim);
    trace := Go(trace, Claimed([]), Back(Body, Dispatching([])), lim);
    BodyCloses(lim);
    trace := Go(trace, TickEnd, Back(Body, Between), lim);
    trace := Go(trace, Close(0), Back(Closing, Between), lim);
    CutLeads(lim);
    trace := Go(trace, Cut(0), Back(Ended(true), Between), lim);
    CutReaped(lim);
    trace := Go(trace, Tick([]), Idle, lim);
  }

  // ------------------------------------------------------------------------
  // The exact limit
  // ------------------------------------------------------------------------

  ghost predicate LeakFree(lim: Limits) {
    forall trace: seq<Step>, l: nat | LimitedRun(Empty, trace, lim) :: !Stray(EndOf(Empty, trace), l)
  }

  // No wait at all, and so no attempt on a slot it was re-admitted on.
  predicate NeverWaited(s: State) {
    s.waits == [] && forall a | 0 <= a < |s.attempts| :: s.attempts[a].held == s.attempts[a].first
  }

  // With no wait it does not matter what a wait may do, nor a cancellation.
  lemma {:induction false} NoWaits(s: State, trace: seq<Step>, lim: Limits)
    requires lim.waits == 0 && NeverWaited(s) && LimitedRun(s, trace, lim)
    ensures LimitedRun(s, trace, OneAtATime)
    decreases |trace|
  {
    hide Enabled, Next, NeverWaited;
    if trace != [] {
      NoneEnters(s, trace[0], lim);
      NoWaits(Next(s, trace[0]), trace[1..], lim);
    }
  }

  lemma {:induction false} SpawnAllNever(s: State, rows: seq<Row>, slots: seq<nat>)
    requires NeverWaited(s) && |rows| <= |slots|
    ensures NeverWaited(SpawnAll(s, rows, slots))
    decreases |rows|
  {
    if rows != [] {
      SpawnAllNever(Spawn(s, rows[0], slots[0]), rows[1..], slots[1..]);
    }
  }

  lemma NoneEnters(s: State, a: Step, lim: Limits)
    requires lim.waits == 0 && NeverWaited(s) && Enabled(s, a) && Within(s, a, lim)
    ensures Within(s, a, OneAtATime) && NeverWaited(Next(s, a))
  {
    hide Next;
    assert !a.Enter?;
    if a.PoolTurn? || a.Claimed? || a.ClaimFailed? || a.Stop? || a.TickEnd? {
      TurnNever(s, a);
    } else {
      OthersNever(s, a);
    }
  }

  lemma TurnNever(s: State, a: Step)
    requires NeverWaited(s) && Enabled(s, a)
    requires a.PoolTurn? || a.Claimed? || a.ClaimFailed? || a.Stop? || a.TickEnd?
    ensures NeverWaited(Next(s, a))
  {
    hide Drain, AcquireAll, SpawnAll, ReleaseAll, Free;
    if a.PoolTurn? {
      DrainSolo(s, s.turn.todo[0]);
      var drained := Drain(s, s.turn.todo[0]);
      AcquireAllAdds(drained, s.turn.todo[0], Free(drained, s.turn.todo[0]));
    } else if a.Claimed? {
      var slots, rows := s.turn.slots, Taken(a.ready, |s.turn.slots|);
      SpawnAllNever(s, rows, slots);
      ReleasedStay(SpawnAll(s, rows, slots), slots[|rows|..]);
    } else {
      ReleasedStay(s, Reserved(s.turn));
    }
  }

  lemma OthersNever(s: State, a: Step)
    requires NeverWaited(s) && Enabled(s, a) && !a.Enter?
    requires !(a.PoolTurn? || a.Claimed? || a.ClaimFailed? || a.Stop? || a.TickEnd?)
    ensures NeverWaited(Next(s, a))
  {
    hide Reap, Release;
    ReapTouches(s);
    if a.End? {
      ReleaseTouches(s, s.attempts[a.a].held);
      ReleaseTouches(Release(s, s.attempts[a.a].held), s.attempts[a.a].first);
    }
  }

  // No slot ever leaks if and only if a body never waits, or waits for one question at a
  // time, ends no sooner than its wait, and is not cancelled while it closes on a slot it was
  // re-admitted on.
  lemma LimitIsExact(lim: Limits)
    ensures LeakFree(lim) <==> lim.waits == 0 || lim == OneAtATime
  {
    if lim.waits >= 2 {
      var trace := TwoWaitsLeak(lim);
      assert !LeakFree(lim);
    } else if lim.waits == 1 && lim.outlive {
      var trace := OutlivingLeaks(lim);
      assert !LeakFree(lim);
    } else if lim.waits == 1 && lim.cut {
      var trace := CutWhileClosingLeaks(lim);
      assert !LeakFree(lim);
    } else {
      forall trace: seq<Step>, l: nat | LimitedRun(Empty, trace, lim) ensures !Stray(EndOf(Empty, trace), l) {
        if lim.waits == 0 {
          NoWaits(Empty, trace, lim);
        }
        NoneStray(trace, l);
      }
    }
  }

  lemma NoneStray(trace: seq<Step>, l: nat)
    requires LimitedRun(Empty, trace, OneAtATime)
    ensures !Stray(EndOf(Empty, trace), l)
  {
    hide Stray, Strands;
    EmptySolo();
    RunSolo(Empty, trace, l);
    StrayExactly(trace, l);
  }
}
