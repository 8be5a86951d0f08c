/** Chains of automatic retries: bounded by the budget, faithful to the first attempt, and
    closed once. Kept by every forward step, so by crashes and sweeps however many. */
module Retries {
  import opened Base
  import opened Json
  import opened Rows
  import opened Routing
  import opened Machine
  import opened Nesting
  import opened Results
  import Runner

  // The retry budget of each node of each run, which a run with a fixed graph keeps to.
  type Budgets = (string, string) -> int

  // Every failure is recorded under the budget of its node.
  predicate Budgeted(s: State, a: Step, budget: Budgets) {
    a.Fail? && a.id < |s.db.tasks| ==> a.budget == budget(s.db.tasks[a.id].run, s.db.tasks[a.id].node)
  }

  predicate BudgetedRun(s: State, trace: seq<Step>, budget: Budgets)
    decreases |trace|
  {
    trace == [] ||
    (Enabled(s, trace[0]) && ForwardStep(trace[0]) && Budgeted(s, trace[0], budget)
        && BudgetedRun(Next(s, trace[0]), trace[1..], budget))
  }

  // Row c is the automatic retry of row p.
  predicate RetryOf(tasks: seq<Task>, p: nat, c: nat) {
    c < |tasks| && tasks[c].lineage == Lineage(RetryReason, Some(p), [])
  }

  predicate SameWork(a: Task, b: Task) {
    && a.run == b.run && a.node == b.node && a.payload == b.payload && a.branch == b.branch
    && a.priority == b.priority && a.explicit == b.explicit && a.created == b.created
  }

  // An automatic retry does the work of a failed row before it, one attempt later and
  // within the budget.
  predicate RetryOk(tasks: seq<Task>, budget: Budgets, c: nat)
    requires c < |tasks|
  {
    var t := tasks[c];
    t.lineage.reason == RetryReason ==>
      && t.lineage.from.Some? && t.lineage.arrivals == []
      && var p := t.lineage.from.value;
         && p < c && tasks[p].status == Failed && SameWork(tasks[p], t)
         && t.attempt == tasks[p].attempt + 1 <= budget(t.run, t.node)
  }

  predicate OneRetry(tasks: seq<Task>) {
    forall c: nat, d: nat | c < d < |tasks| && tasks[c].lineage.reason == RetryReason
        && tasks[d].lineage.reason == RetryReason ::
      tasks[c].lineage.from != tasks[d].lineage.from
  }

  ghost predicate Retried(tasks: seq<Task>, p: nat) {
    exists c: nat :: RetryOf(tasks, p, c)
  }

  ghost predicate ChainsOk(tasks: seq<Task>, budget: Budgets) {
    && (forall c: nat | c < |tasks| :: RetryOk(tasks, budget, c))
    && OneRetry(tasks)
    && (forall p: nat | p < |tasks| && tasks[p].status == Failed :: Retried(tasks, p))
  }

  // A step under which rows keep their work, no row leaves or takes on failed, and no new
  // row is an automatic retry.
  predicate KeepsChains(tasks: seq<Task>, tasks': seq<Task>) {
    && |tasks| <= |tasks'|
    && (forall c | 0 <= c < |tasks| ::
          && SameWork(tasks[c], tasks'[c]) && tasks'[c].attempt == tasks[c].attempt
              && tasks'[c].lineage == tasks[c].lineage
          && (tasks'[c].status == Failed <==> tasks[c].status == Failed))
    && (forall c | |tasks| <= c < |tasks'| :: tasks'[c].lineage.reason != RetryReason && tasks'[c].status != Failed)
  }

  lemma ChainsKept(tasks: seq<Task>, tasks': seq<Task>, budget: Budgets)
    requires ChainsOk(tasks, budget) && KeepsChains(tasks, tasks')
    ensures ChainsOk(tasks', budget)
  {
    forall c: nat | c < |tasks'| ensures RetryOk(tasks', budget, c) {
      assert c < |tasks| ==> RetryOk(tasks, budget, c);
    }
    forall p: nat | p < |tasks'| && tasks'[p].status == Failed ensures Retried(tasks', p) {
      assert Retried(tasks, p);
      var c: nat :| RetryOf(tasks, p, c);
      assert RetryOf(tasks', p, c);
    }
  }

  lemma RetryKeepsChains(db: Tables, id: nat, budget: Budgets, now: nat)
    requires id < |db.tasks| && ChainsOk(db.tasks, budget)
    requires db.tasks[id].status != Failed
    requires db.tasks[id].attempt < budget(db.tasks[id].run, db.tasks[id].node)
    ensures ChainsOk(Runner.Failure(db, id, true, budget(db.tasks[id].run, db.tasks[id].node), now).tasks, budget)
  {
    var tasks, t := db.tasks, db.tasks[id];
    var tasks' := Runner.Failure(db, id, true, budget(t.run, t.node), now).tasks;
    var n := |tasks|;
    assert tasks' == tasks[id := t.(status := Failed, result := None, terminal := false)]
                     + [Runner.RetryOf(t, id, RetryReason)];
    forall c: nat | c < |tasks'| ensures RetryOk(tasks', budget, c) {
      assert c < n ==> RetryOk(tasks, budget, c);
    }
    forall c: nat | c < n && tasks[c].lineage.reason == RetryReason ensures tasks[c].lineage.from != Some(id) {
      assert RetryOk(tasks, budget, c);
    }
    assert OneRetry(tasks');
    forall p: nat | p < |tasks'| && tasks'[p].status == Failed ensures Retried(tasks', p) {
      if p == id {
        assert RetryOf(tasks', p, n);
      } else {
        assert Retried(tasks, p);
        var c: nat :| RetryOf(tasks, p, c);
        assert RetryOf(tasks', p, c);
      }
    }
  }

  lemma FailChains(s: State, a: Step, budget: Budgets)
    requires Inv(s) && ChainsOk(s.db.tasks, budget) && a.Fail? && Enabled(s, a) && Budgeted(s, a, budget)
    ensures ChainsOk(Next(s, a).db.tasks, budget)
  {
    hide Nested, PlacesOk, ReturnsOk, RunsOk, ChainsOk;
    var t := s.db.tasks[a.id];
    if a.retryable && t.attempt < a.budget {
      RetryKeepsChains(s.db, a.id, budget, a.now);
    } else {
      ChainsKept(s.db.tasks, Next(s, a).db.tasks, budget);
    }
  }

  lemma SuccessChains(s: State, a: Step, budget: Budgets)
    requires Inv(s) && ChainsOk(s.db.tasks, budget) && a.Succeed? && Enabled(s, a)
    ensures ChainsOk(Next(s, a).db.tasks, budget)
  {
    hide Runner.Written, Runner.SettleRun, Runner.Route, Runner.Reading, Jsonable, IsFanOut, ChainsOk, Nested,
        PlacesOk, ReturnsOk, RunsOk;
    SuccessWrites(s.db, a.id, a.g, a.value, a.now);
    var tasks, tasks' := s.db.tasks, Next(s, a).db.tasks;
    forall c | 0 <= c < |tasks'| && c != a.id
      ensures if c < |tasks| then tasks'[c] == tasks[c]
              else tasks'[c].lineage.reason != RetryReason && tasks'[c].status == Ready
    {
      assert c >= |tasks| ==> Runner.Fresh(tasks[a.id].run, a.id, tasks'[c]);
    }
    assert Interrupted(tasks[a.id].status);
    ChainsKept(tasks, tasks', budget);
  }

  lemma SubmitChains(s: State, a: Step, budget: Budgets)
    requires ChainsOk(s.db.tasks, budget) && Enabled(s, a) && (a.Submit? || a.Recover? || a.Cancel?)
    ensures ChainsOk(Next(s, a).db.tasks, budget)
  {
    hide ChainsOk, Runner.Priority, Next, Apply, Enabled;
    if a.Submit? {
      SubmitIs(s, a);
    } else if a.Recover? {
      RecoverIs(s, a);
    } else {
      CancelIs(s, a);
    }
    ChainsKept(s.db.tasks, Next(s, a).db.tasks, budget);
  }

  lemma QuietChains(s: State, a: Step, budget: Budgets)
    requires ChainsOk(s.db.tasks, budget) && Enabled(s, a)
    requires a.Claim? || a.Park? || a.Unpark? || a.Crash? || a.Drop? || a.Pause? || a.Resume?
    ensures ChainsOk(Next(s, a).db.tasks, budget)
  {
    hide ChainsOk, Next, Apply, Enabled;
    if a.Claim? {
      ClaimIs(s, a);
    } else if a.Park? || a.Unpark? {
      ParkIs(s, a);
    } else if a.Crash? || a.Drop? {
      CrashIs(s, a);
    } else {
      PauseIs(s, a);
    }
    ChainsKept(s.db.tasks, Next(s, a).db.tasks, budget);
  }

  lemma StepChains(s: State, a: Step, budget: Budgets)
    requires Inv(s) && ChainsOk(s.db.tasks, budget) && Enabled(s, a) && ForwardStep(a) && Budgeted(s, a, budget)
    ensures ChainsOk(Next(s, a).db.tasks, budget)
  {
    hide Inv, ChainsOk, Apply, Enabled, Next, Budgeted;
    if a.Succeed? {
      SuccessChains(s, a, budget);
    } else if a.Fail? {
      FailChains(s, a, budget);
    } else if a.Submit? || a.Recover? || a.Cancel? {
      SubmitChains(s, a, budget);
    } else {
      QuietChains(s, a, budget);
    }
  }

  lemma {:induction false} RunChains(s: State, trace: seq<Step>, budget: Budgets)
    requires Inv(s) && ChainsOk(s.db.tasks, budget) && BudgetedRun(s, trace, budget)
    ensures KeepingRun(s, trace) && IsRun(s, trace)
    ensures Inv(End(s, trace)) && ChainsOk(End(s, trace).db.tasks, budget)
    decreases |trace|
  {
    hide Inv, ChainsOk, Enabled, Next, Budgeted;
    if trace != [] {
      StepKeeps(s, trace[0]);
      StepChains(s, trace[0], budget);
      RunChains(Next(s, trace[0]), trace[1..], budget);
    }
  }

  // ------------------------------------------------------------------------
  // Chains
  // ------------------------------------------------------------------------

  // Each row of the chain is the automatic retry of the one before.
  predicate Chain(tasks: seq<Task>, chain: seq<nat>) {
    && chain != [] && chain[0] < |tasks|
    && forall i | 0 <= i < |chain| - 1 :: RetryOf(tasks, chain[i], chain[i + 1])
  }

  lemma {:induction false} ChainFaithful(tasks: seq<Task>, budget: Budgets, chain: seq<nat>, i: nat)
    requires ChainsOk(tasks, budget) && Chain(tasks, chain) && i < |chain|
    ensures chain[i] < |tasks| && SameWork(tasks[chain[0]], tasks[chain[i]])
    ensures tasks[chain[i]].attempt == tasks[chain[0]].attempt + i
    ensures i > 0 ==> tasks[chain[i]].attempt <= budget(tasks[chain[i]].run, tasks[chain[i]].node)
    ensures i + 1 < |chain| ==> tasks[chain[i]].status == Failed
  {
    if i > 0 {
      ChainFaithful(tasks, budget, chain, i - 1);
      assert RetryOf(tasks, chain[i - 1], chain[i - 1 + 1]);
      assert RetryOk(tasks, budget, chain[i]);
    }
    if i + 1 < |chain| {
      assert RetryOf(tasks, chain[i], chain[i + 1]);
      assert RetryOk(tasks, budget, chain[i + 1]);
    }
  }

  // A chain goes on from a failed row, and from no other.
  lemma {:induction false} ChainToEnd(tasks: seq<Task>, budget: Budgets, chain: seq<nat>) returns (whole: seq<nat>)
    requires ChainsOk(tasks, budget) && Chain(tasks, chain)
    ensures Chain(tasks, whole) && chain <= whole
    ensures whole[|whole| - 1] < |tasks| && tasks[whole[|whole| - 1]].status != Failed
    decreases |tasks| - chain[|chain| - 1]
  {
    var last := |chain| - 1;
    ChainFaithful(tasks, budget, chain, last);
    if tasks[chain[last]].status == Failed {
      assert Retried(tasks, chain[last]);
      var c: nat :| RetryOf(tasks, chain[last], c);
      assert RetryOk(tasks, budget, c);
      var longer := chain + [c];
      forall i | 0 <= i < |longer| - 1 ensures RetryOf(tasks, longer[i], longer[i + 1]) {
        assert i < last ==> RetryOf(tasks, chain[i], chain[i + 1]);
      }
      whole := ChainToEnd(tasks, budget, longer);
    } else {
      whole := chain;
    }
  }

  // Two chains from one row are one chain as far as both go.
  lemma {:induction false} ChainUnique(tasks: seq<Task>, budget: Budgets, a: seq<nat>, b: seq<nat>, i: nat)
    requires ChainsOk(tasks, budget) && Chain(tasks, a) && Chain(tasks, b) && a[0] == b[0] && i < |a| && i < |b|
    ensures a[i] == b[i]
  {
    if i > 0 {
      ChainUnique(tasks, budget, a, b, i - 1);
      assert RetryOf(tasks, a[i - 1], a[i - 1 + 1]) && RetryOf(tasks, b[i - 1], b[i - 1 + 1]);
    }
  }

  lemma EmptyChains(budget: Budgets)
    ensures Inv(Empty) && ChainsOk(Empty.db.tasks, budget)
  {
  }

  // Whatever crashes and sweeps come between: a chain of automatic retries that starts at
  // a first attempt has at most max(1, budget) rows, numbered 1, 2, ..., all of the same
  // work, and every one but the last has failed.
  lemma RetriesAreBounded(trace: seq<Step>, budget: Budgets, chain: seq<nat>, i: nat)
    requires BudgetedRun(Empty, trace, budget)
    ensures IsRun(Empty, trace)
    ensures var tasks := End(Empty, trace).db.tasks;
            Chain(tasks, chain) && tasks[chain[0]].attempt == 1 && i < |chain| ==>
              var first := tasks[chain[0]];
              && (|chain| <= 1 || |chain| <= budget(first.run, first.node))
              && chain[i] < |tasks| && SameWork(first, tasks[chain[i]]) && tasks[chain[i]].attempt == i + 1
              && (i + 1 < |chain| ==> tasks[chain[i]].status == Failed)
  {
    hide ChainsOk;
    EmptyChains(budget);
    RunChains(Empty, trace, budget);
    var tasks := End(Empty, trace).db.tasks;
    if Chain(tasks, chain) && i < |chain| {
      ChainFaithful(tasks, budget, chain, i);
      ChainFaithful(tasks, budget, chain, |chain| - 1);
    }
  }

  // And every row begins one chain that runs to a row that has not failed: it is pending,
  // or it closed the chain, and no other chain from the row closes elsewhere.
  lemma ChainsClose(trace: seq<Step>, budget: Budgets, id: nat) returns (chain: seq<nat>)
    requires BudgetedRun(Empty, trace, budget)
    ensures IsRun(Empty, trace)
    ensures var tasks := End(Empty, trace).db.tasks;
            id < |tasks| ==>
              && Chain(tasks, chain) && chain[0] == id && chain[|chain| - 1] < |tasks|
              && tasks[chain[|chain| - 1]].status != Failed
              && forall other | Chain(tasks, other) && other[0] == id :: other <= chain
  {
    hide ChainsOk, BudgetedRun;
    EmptyChains(budget);
    RunChains(Empty, trace, budget);
    var tasks := End(Empty, trace).db.tasks;
    chain := [];
    if id < |tasks| {
      chain := ChainToEnd(tasks, budget, [id]);
      ChainFaithful(tasks, budget, chain, |chain| - 1);
      forall other | Chain(tasks, other) && other[0] == id ensures other <= chain {
        ChainIsPrefix(tasks, budget, chain, other);
      }
    }
  }

  lemma ChainIsPrefix(tasks: seq<Task>, budget: Budgets, whole: seq<nat>, other: seq<nat>)
    requires ChainsOk(tasks, budget) && Chain(tasks, whole) && Chain(tasks, other) && whole[0] == other[0]
    requires whole[|whole| - 1] < |tasks| && tasks[whole[|whole| - 1]].status != Failed
    ensures other <= whole
  {
    hide ChainsOk;
    var n := |whole| - 1;
    if |other| > |whole| {
      ChainUnique(tasks, budget, whole, other, n);
      ChainFaithful(tasks, budget, other, n);
    }
    forall i | 0 <= i < |other| && i < |whole| ensures other[i] == whole[i] {
      ChainUnique(tasks, budget, whole, other, i);
    }
  }

  // Without an operator no row is ever cancelled.
  predicate NoneCancelled(tasks: seq<Task>) {
    forall c | 0 <= c < |tasks| :: tasks[c].status != TaskStatus.Cancelled
  }

  lemma SuccessUncancelled(s: State, a: Step)
    requires NoneCancelled(s.db.tasks) && a.Succeed? && Enabled(s, a)
    ensures NoneCancelled(Next(s, a).db.tasks)
  {
    hide Runner.Written, Runner.SettleRun, Runner.Route, Runner.Reading, Jsonable, IsFanOut;
    SuccessWrites(s.db, a.id, a.g, a.value, a.now);
    var tasks, tasks' := s.db.tasks, Next(s, a).db.tasks;
    forall c | 0 <= c < |tasks'| && c != a.id ensures tasks'[c].status != TaskStatus.Cancelled {
      assert c >= |tasks| ==> Runner.Fresh(tasks[a.id].run, a.id, tasks'[c]);
      assert c < |tasks| ==> tasks'[c] == tasks[c];
    }
  }

  lemma OtherUncancelled(s: State, a: Step)
    requires NoneCancelled(s.db.tasks) && EngineStep(a) && !a.Succeed? && Enabled(s, a)
    ensures NoneCancelled(Next(s, a).db.tasks)
  {
    hide Runner.Priority;
  }

  lemma {:induction false} RunUncancelled(s: State, trace: seq<Step>)
    requires NoneCancelled(s.db.tasks) && EngineRun(s, trace)
    ensures NoneCancelled(End(s, trace).db.tasks)
    decreases |trace|
  {
    hide NoneCancelled, Enabled, Next;
    if trace != [] {
      assert EngineStep(trace[0]);
      if trace[0].Succeed? {
        SuccessUncancelled(s, trace[0]);
      } else {
        OtherUncancelled(s, trace[0]);
      }
      RunUncancelled(Next(s, trace[0]), trace[1..]);
    }
  }

  // Without an operator, a chain that has run to its end closes as done or as one dead
  // letter.
  lemma ChainsCloseOnce(trace: seq<Step>, budget: Budgets, id: nat) returns (chain: seq<nat>)
    requires BudgetedRun(Empty, trace, budget) && EngineRun(Empty, trace)
    ensures var tasks := End(Empty, trace).db.tasks;
            id < |tasks| ==>
              && Chain(tasks, chain) && chain[0] == id && chain[|chain| - 1] < |tasks|
              && (Pending(tasks[chain[|chain| - 1]].status) || tasks[chain[|chain| - 1]].status in {Done, DeadLetter})
              && forall i | 0 <= i < |chain| - 1 :: chain[i] < |tasks| && tasks[chain[i]].status == Failed
  {
    hide ChainsOk, BudgetedRun;
    chain := ChainsClose(trace, budget, id);
    EmptyChains(budget);
    RunChains(Empty, trace, budget);
    RunUncancelled(Empty, trace);
    var tasks := End(Empty, trace).db.tasks;
    if id < |tasks| {
      forall i | 0 <= i < |chain| - 1 ensures chain[i] < |tasks| && tasks[chain[i]].status == Failed {
        ChainFaithful(tasks, budget, chain, i);
      }
    }
  }

  // ------------------------------------------------------------------------
  // Why a chain closes
  // ------------------------------------------------------------------------

  // A failed row had an error worth retrying and an attempt left; a dead letter had not.
  predicate ClosedBy(tasks: seq<Task>, budget: Budgets, id: nat, last: Option<Step>) {
    id < |tasks| ==>
      var t := tasks[id];
      t.status in {Failed, TaskStatus.DeadLetter} ==>
        && last.Some? && last.value.Fail?
        && (t.status == Failed <==> last.value.retryable && t.attempt < budget(t.run, t.node))
  }

  // Rows keep their numbers, and none becomes failed or a dead letter.
  predicate KeepsClosed(tasks: seq<Task>, tasks': seq<Task>) {
    && |tasks| <= |tasks'|
    && (forall c | 0 <= c < |tasks| ::
          && tasks'[c].run == tasks[c].run && tasks'[c].node == tasks[c].node
          && tasks'[c].attempt == tasks[c].attempt
          && (tasks'[c].status in {Failed, TaskStatus.DeadLetter} ==> tasks'[c].status == tasks[c].status))
    && (forall c | |tasks| <= c < |tasks'| :: tasks'[c].status == Ready)
  }

  lemma ClosedKept(tasks: seq<Task>, tasks': seq<Task>, budget: Budgets, id: nat, last: Option<Step>)
    requires ClosedBy(tasks, budget, id, last) && KeepsClosed(tasks, tasks')
    ensures ClosedBy(tasks', budget, id, last)
  {
  }

  lemma FailCloses(s: State, a: Step, budget: Budgets, id: nat, last: Option<Step>)
    requires a.Fail? && Enabled(s, a) && Budgeted(s, a, budget) && ClosedBy(s.db.tasks, budget, id, last)
    ensures ClosedBy(Next(s, a).db.tasks, budget, id, if a.id == id then Some(a) else last)
  {
    hide Runner.Failure, Enabled, Apply, Next;
    FailIs(s, a);
    Runner.FailureIs(s.db, a.id, a.retryable, a.budget, a.now);
  }

  lemma SuccessCloses(s: State, a: Step, budget: Budgets, id: nat, last: Option<Step>)
    requires a.Succeed? && Enabled(s, a) && ClosedBy(s.db.tasks, budget, id, last)
    ensures ClosedBy(Next(s, a).db.tasks, budget, id, if a.id == id then Some(a) else last)
  {
    hide Runner.Written, Runner.SettleRun, Runner.Route, Runner.Reading, Jsonable, IsFanOut;
    SuccessWrites(s.db, a.id, a.g, a.value, a.now);
    if |s.db.tasks| <= id < |Next(s, a).db.tasks| {
      assert Runner.Fresh(s.db.tasks[a.id].run, a.id, Next(s, a).db.tasks[id]);
    }
  }

  lemma QuietCloses(s: State, a: Step)
    requires Enabled(s, a) && ForwardStep(a) && !a.Succeed? && !a.Fail?
    ensures KeepsClosed(s.db.tasks, Next(s, a).db.tasks)
  {
    hide Runner.Priority, Next, Apply, Enabled;
    if a.Submit? {
      SubmitIs(s, a);
    } else if a.Recover? {
      RecoverIs(s, a);
    } else if a.Cancel? {
      CancelIs(s, a);
    } else if a.Claim? {
      ClaimIs(s, a);
    } else if a.Park? || a.Unpark? {
      ParkIs(s, a);
    } else if a.Crash? || a.Drop? {
      CrashIs(s, a);
    } else {
      PauseIs(s, a);
    }
  }

  lemma {:induction false} RunCloses(s: State, trace: seq<Step>, budget: Budgets, id: nat, last: Option<Step>)
    requires BudgetedRun(s, trace, budget) && IsRun(s, trace) && ClosedBy(s.db.tasks, budget, id, last)
    ensures ClosedBy(End(s, trace).db.tasks, budget, id, LastOutcome(trace, id, last))
    decreases |trace|
  {
    hide ClosedBy, KeepsClosed, Enabled, Next, Budgeted, ForwardStep;
    if trace != [] {
      if trace[0].Succeed? {
        SuccessCloses(s, trace[0], budget, id, last);
      } else if trace[0].Fail? {
        FailCloses(s, trace[0], budget, id, last);
      } else {
        QuietCloses(s, trace[0]);
        ClosedKept(s.db.tasks, Next(s, trace[0]).db.tasks, budget, id, last);
      }
      RunCloses(Next(s, trace[0]), trace[1..], budget, id, if Records(trace[0], id) then Some(trace[0]) else last);
    }
  }

  // In every forward run: a chain that began with a first attempt goes on exactly as long as
  // errors are worth retrying and the budget is not used up. It ends in a dead letter only at
  // an error that is not, or with max(1, budget) rows.
  lemma ChainsCloseForCause(trace: seq<Step>, budget: Budgets, id: nat) returns (chain: seq<nat>)
    requires BudgetedRun(Empty, trace, budget)
    ensures IsRun(Empty, trace)
    ensures var tasks := End(Empty, trace).db.tasks;
            id < |tasks| && tasks[id].attempt == 1 ==>
              && Chain(tasks, chain) && chain[0] == id && chain[|chain| - 1] < |tasks|
              && var last := chain[|chain| - 1];
                 tasks[last].status == TaskStatus.DeadLetter ==>
                   var cause := LastOutcome(trace, last, None);
                   && cause.Some? && cause.value.Fail?
                   && (cause.value.retryable ==>
                         var most := budget(tasks[id].run, tasks[id].node);
                         |chain| == if most > 1 then most else 1)
  {
    hide ChainsOk, BudgetedRun, ClosedBy;
    chain := ChainsClose(trace, budget, id);
    var tasks := End(Empty, trace).db.tasks;
    if id < |tasks| && tasks[id].attempt == 1 {
      var last := chain[|chain| - 1];
      NoneClosed(budget, last);
      RunCloses(Empty, trace, budget, last, None);
      RetriesAreBounded(trace, budget, chain, |chain| - 1);
      if tasks[last].status == TaskStatus.DeadLetter {
        ClosedNow(tasks, budget, last, LastOutcome(trace, last, None));
      }
    }
  }

  lemma NoneClosed(budget: Budgets, id: nat)
    ensures ClosedBy(Empty.db.tasks, budget, id, None)
  {
  }

  lemma ClosedNow(tasks: seq<Task>, budget: Budgets, id: nat, last: Option<Step>)
    requires id < |tasks| && ClosedBy(tasks, budget, id, last) && tasks[id].status == TaskStatus.DeadLetter
    ensures last.Some? && last.value.Fail?
    ensures last.value.retryable ==> tasks[id].attempt >= budget(tasks[id].run, tasks[id].node)
  {
  }
}
