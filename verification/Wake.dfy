/** The wake flag of the dispatch loop (athanore/engine/scheduler.py): no notified work waits
    for the timeout. */
module Wake {

  // Where the loop is: about to clear the flag, about to take the tick lock, in a tick, or
  // waiting for the flag.
  datatype Place = Clearing | Locking | Ticking | Waiting

  // `committed` counts commits; `notified` those some notify came after; `looked` those the
  // last tick began after. `rung` counts the notifies since the last clear.
  datatype State = State(flag: bool, place: Place, committed: nat, notified: nat, looked: nat, rung: nat)

  datatype Step = Commit | Notify | Clear | TickBegin | TickEnd | WakeUp | Timeout

  const Start := State(false, Clearing, 0, 0, 0, 0)

  predicate Enabled(s: State, a: Step) {
    match a
    case Commit => true
    case Notify => true
    case Clear => s.place == Clearing
    case TickBegin => s.place == Locking
    case TickEnd => s.place == Ticking
    case WakeUp => s.place == Waiting && s.flag
    case Timeout => s.place == Waiting
  }

  function Next(s: State, a: Step): State
    requires Enabled(s, a)
  {
    match a
    case Commit => s.(committed := s.committed + 1)
    case Notify => s.(flag := true, notified := s.committed, rung := s.rung + 1)
    case Clear => s.(flag := false, place := Locking, rung := 0)
    case TickBegin => s.(place := Ticking, looked := s.committed)
    case TickEnd => s.(place := Waiting)
    case WakeUp => s.(place := Clearing)
    case Timeout => s.(place := Clearing)
  }

  predicate IsRun(s: State, trace: seq<Step>)
    decreases |trace|
  {
    trace == [] || (Enabled(s, trace[0]) && IsRun(Next(s, trace[0]), trace[1..]))
  }

  function End(s: State, trace: seq<Step>): State
    requires IsRun(s, trace)
    decreases |trace|
  {
    if trace == [] then s else End(Next(s, trace[0]), trace[1..])
  }

  predicate Inv(s: State) {
    && s.notified <= s.committed && s.looked <= s.committed
    && (s.flag <==> s.rung > 0)
    && (!s.flag && (s.place == Ticking || s.place == Waiting) ==> s.notified <= s.looked)
  }

  lemma {:induction false} RunKeeps(s: State, trace: seq<Step>)
    requires Inv(s) && IsRun(s, trace)
    ensures Inv(End(s, trace))
    decreases |trace|
  {
    if trace != [] {
      RunKeeps(Next(s, trace[0]), trace[1..]);
    }
  }

  // A clear flag means no notify since the last clear; and the loop waits on a clear flag
  // only when every notified commit came before its last tick began.
  lemma BlockedSawAll(trace: seq<Step>)
    requires IsRun(Start, trace)
    ensures var s := End(Start, trace);
            && (!s.flag <==> s.rung == 0)
            && (s.place == Waiting && !s.flag ==> s.notified <= s.looked)
  {
    RunKeeps(Start, trace);
  }

  // The loop's own steps but for the timeout.
  predicate LoopStep(a: Step) {
    a in {Clear, TickBegin, TickEnd, WakeUp}
  }

  // The loop's own steps still to come before its next tick begins.
  function Distance(place: Place): nat {
    match place
    case Locking => 1
    case Clearing => 2
    case Waiting => 3
    case Ticking => 4
  }

  function LoopSteps(trace: seq<Step>): nat {
    if trace == [] then 0 else (if LoopStep(trace[0]) then 1 else 0) + LoopSteps(trace[1..])
  }

  // Work notified and not yet looked for is looked for by a tick that begins within the
  // loop's next four steps, whatever commits and notifies come between, and the loop is
  // never short of an enabled step of its own: no timeout is needed.
  lemma {:induction false} TickFollowsNotify(s: State, trace: seq<Step>)
    requires Inv(s) && IsRun(s, trace) && s.notified > s.looked
    requires forall i | 0 <= i < |trace| :: trace[i] != Timeout && trace[i] != TickBegin
    ensures var t := End(s, trace);
            && t.looked == s.looked && t.notified >= s.notified
            && LoopSteps(trace) + Distance(t.place) <= Distance(s.place)
            && exists a :: LoopStep(a) && Enabled(t, a)
    decreases |trace|
  {
    if trace == [] {
      var own := match s.place
        case Clearing => Clear
        case Locking => TickBegin
        case Ticking => TickEnd
        case Waiting => WakeUp;
      assert LoopStep(own) && Enabled(s, own);
    } else {
      assert trace[0] != Timeout && trace[0] != TickBegin;
      var rest := trace[1..];
      assert forall i | 0 <= i < |rest| :: rest[i] == trace[i + 1];
      TickFollowsNotify(Next(s, trace[0]), rest);
    }
  }
}
