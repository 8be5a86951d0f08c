/** Fan-in composes with re-opening (docs/v1/04-engine.md, Failure and operator semantics): an
    operator's retry of a row whose branch nothing else carries is as good as a forward step. */
module Reopening {
  import opened Rows
  import opened Machine
  import opened Nesting
  import opened Tokens
  import Delivery
  import Runner
  import Ops

  lemma RetryIs(s: State, a: Step)
    requires a.Retry? && Enabled(s, a)
    ensures a.id < |s.db.tasks| && !Pending(s.db.tasks[a.id].status)
    ensures Next(s, a).db.tasks == s.db.tasks + [Runner.RetryOf(s.db.tasks[a.id], a.id, ManualRetryReason)]
    ensures Next(s, a).db.arrivals == s.db.arrivals && Next(s, a).returned == s.returned
  {
    hide Ops.Lookup, Registered;
  }

  // A row's branch is free: no pending row carries it or one that closes over it, and none
  // of its branches has arrived.
  ghost predicate BranchFree(s: State, id: nat) {
    id < |s.db.tasks| && Free(s.db, s.returned, s.db.tasks[id].run, s.db.tasks[id].branch)
  }

  // An operator's retry keeps the branches linear if and only if the row's branch is free.
  lemma RetryKeepsLinear(s: State, a: Step)
    requires Inv(s) && Linear(s.db, s.returned) && a.Retry? && Enabled(s, a)
    ensures Linear(Next(s, a).db, Next(s, a).returned) <==> BranchFree(s, a.id)
  {
    hide Next, Apply, Enabled, Under, FrameOk, DispatchFull, PlacesOk;
    RetryIs(s, a);
    var t, db' := s.db.tasks[a.id], Next(s, a).db;
    var row := Runner.RetryOf(t, a.id, ManualRetryReason);
    if BranchFree(s, a.id) {
      RowCarries(s.db, s.returned, row, db');
    }
    if Linear(db', s.returned) {
      CarriedIsFree(s, row, db');
      StackKept(s.db.tasks, s.returned, s.db.tasks, s.returned, a.id, |s.db.tasks|, t.run, t.branch);
    }
  }

  // What a new row carries was free before it.
  lemma CarriedIsFree(s: State, row: Task, db': Tables)
    requires Linear(db', s.returned) && db'.tasks == s.db.tasks + [row] && db'.arrivals == s.db.arrivals
        && Pending(row.status)
    ensures forall a: nat | Carries(s.db.tasks, row.run, a) :: Part(row.branch, s.db.tasks[a].branch)
    ensures forall p | p in s.db.arrivals && p.run == row.run :: !Under(row.branch, p.fanout, p.index)
  {
    hide Under;
    var n := |s.db.tasks|;
    assert Carries(db'.tasks, row.run, n);
    forall a: nat | Carries(s.db.tasks, row.run, a) ensures Part(row.branch, s.db.tasks[a].branch) {
      assert Carries(db'.tasks, row.run, a);
      PartSymmetric(db'.tasks[a].branch, db'.tasks[n].branch);
    }
  }

  // The attempt that dead-letters leaves its branch free.
  lemma DeadLetterFrees(s: State, a: Step)
    requires Inv(s) && Linear(s.db, s.returned) && a.Fail? && Enabled(s, a)
    requires !(a.retryable && s.db.tasks[a.id].attempt < a.budget)
    ensures BranchFree(Next(s, a), a.id)
  {
    hide Next, Apply, Enabled, Linear, PlacesOk;
    FailIs(s, a);
    FailureKeeps(s, a);
    HeldPends(s, a.id);
    StackFreed(s, a.id, Next(s, a).db);
  }

  lemma HeldPends(s: State, id: nat)
    requires Inv(s) && Held(s, id)
    ensures Pending(s.db.tasks[id].status)
  {
    hide Nested, PlacesOk, ReturnsOk, RunsOk;
  }

  // ------------------------------------------------------------------------
  // Runs
  // ------------------------------------------------------------------------

  ghost predicate Composes(s: State, a: Step) {
    ForwardStep(a) || (a.Retry? && BranchFree(s, a.id))
  }

  ghost predicate ComposingRun(s: State, trace: seq<Step>)
    ensures ComposingRun(s, trace) ==> IsRun(s, trace)
    decreases |trace|
  {
    trace == [] || (Enabled(s, trace[0]) && Composes(s, trace[0]) && ComposingRun(Next(s, trace[0]), trace[1..]))
  }

  lemma StepComposes(s: State, a: Step)
    requires Inv(s) && Linear(s.db, s.returned) && Delivery.Delivered(s.db.tasks, s.db.arrivals)
    requires Enabled(s, a) && Composes(s, a)
    ensures Inv(Next(s, a)) && Linear(Next(s, a).db, Next(s, a).returned)
    ensures Delivery.Delivered(Next(s, a).db.tasks, Next(s, a).db.arrivals)
  {
    hide Inv, Linear, Delivery.Delivered, Next, Apply, Enabled, BranchFree;
    if ForwardStep(a) {
      StepLinear(s, a);
      Delivery.StepDelivers(s, a);
    } else {
      RetryKeepsLinear(s, a);
      StepKeeps(s, a);
      RetryIs(s, a);
      Delivery.RowsDeliver(s.db, Next(s, a).db);
    }
  }

  lemma {:induction false} RunComposes(s: State, trace: seq<Step>)
    requires Inv(s) && Linear(s.db, s.returned) && Delivery.Delivered(s.db.tasks, s.db.arrivals)
        && ComposingRun(s, trace)
    ensures Inv(End(s, trace)) && Linear(End(s, trace).db, End(s, trace).returned)
    ensures Delivery.Delivered(End(s, trace).db.tasks, End(s, trace).db.arrivals)
    decreases |trace|
  {
    hide Inv, Linear, Delivery.Delivered, Next, Apply, Enabled, Composes;
    if trace != [] {
      StepComposes(s, trace[0]);
      RunComposes(Next(s, trace[0]), trace[1..]);
    }
  }

  // Through any crashes, sweeps, dead letters and such retries: no arrival is late, a branch
  // arrives at one join only and no pending row carries it then, and every join task has the
  // payload of the arrivals there are.
  lemma RetriesCompose(trace: seq<Step>, c: nat)
    requires ComposingRun(Empty, trace)
    ensures var s := End(Empty, trace);
            && (forall p | p in s.db.arrivals :: !s.db.arrivals[p].late)
            && (forall p, q | p in s.db.arrivals && q in s.db.arrivals && p.run == q.run && p.fanout == q.fanout
                && p.index == q.index ::
                  p == q)
            && (forall p, a: nat | p in s.db.arrivals && Carries(s.db.tasks, p.run, a) ::
                  !Under(s.db.tasks[a].branch, p.fanout, p.index))
            && (c < |s.db.tasks| && s.db.tasks[c].lineage.reason == JoinReason ==>
                Delivery.Gives(s.db.arrivals, s.db.tasks[c]))
  {
    hide Inv, Delivery.Gives, Under, ComposingRun, End;
    Delivery.EmptyDelivers();
    RunComposes(Empty, trace);
  }
}
