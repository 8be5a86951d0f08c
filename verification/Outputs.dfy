/** The output of a run: the results of its terminal rows in branch order, whichever finished
    first (athanore/engine/runner.py, athanore/store/repos/tasks.py). */
module Outputs {
  import opened Json
  import opened Rows
  import Runner

  // The paths part at k, where the first has ended or has the lower index.
  predicate PartsAt(a: seq<Frame>, b: seq<Frame>, k: nat) {
    && k <= |a| && k < |b| && (forall i | 0 <= i < k :: a[i].index == b[i].index)
    && (k == |a| || a[k].index < b[k].index)
  }

  // One branch comes before another: outermost index first, a branch before those within it.
  predicate Before(a: seq<Frame>, b: seq<Frame>) {
    exists k | 0 <= k < |b| :: PartsAt(a, b, k)
  }

  lemma {:induction false} PathMeans(a: seq<Frame>, b: seq<Frame>)
    ensures Runner.PathBefore(a, b) <==> Before(a, b)
  {
    if a == [] && b != [] {
      assert PartsAt(a, b, 0);
    } else if a != [] && b != [] {
      PathMeans(a[1..], b[1..]);
      if a[0].index < b[0].index {
        assert PartsAt(a, b, 0);
      } else if k :| a[0].index == b[0].index && 0 <= k < |b[1..]| && PartsAt(a[1..], b[1..], k) {
        forall i | 0 <= i < k + 1 ensures a[i].index == b[i].index {
          assert i > 0 ==> a[1..][i - 1] == a[i] && b[1..][i - 1] == b[i];
        }
        assert PartsAt(a, b, k + 1);
      }
      if k :| 0 <= k < |b| && PartsAt(a, b, k) && k > 0 {
        assert a[0].index == b[0].index;
        assert PartsAt(a[1..], b[1..], k - 1);
      }
    }
  }

  // The path of a branch comes no later than another's.
  predicate NotAfter(a: seq<Frame>, b: seq<Frame>) {
    !Runner.PathBefore(b, a)
  }

  lemma {:induction false} BeforeIsNotAfter(a: seq<Frame>, b: seq<Frame>)
    requires Runner.PathBefore(a, b)
    ensures NotAfter(a, b)
  {
    if a != [] && a[0].index == b[0].index {
      BeforeIsNotAfter(a[1..], b[1..]);
    }
  }

  // In branch order, the id breaking ties.
  predicate InOrder(tasks: seq<Task>, a: nat, b: nat)
    requires a < |tasks| && b < |tasks|
  {
    Before(tasks[a].branch, tasks[b].branch) || (!Before(tasks[b].branch, tasks[a].branch) && a < b)
  }

  lemma InOrderIs(tasks: seq<Task>, a: nat, b: nat)
    requires a < |tasks| && b < |tasks|
    ensures InOrder(tasks, a, b) <==>
            Runner.PathBefore(tasks[a].branch, tasks[b].branch)
            || (NotAfter(tasks[a].branch, tasks[b].branch) && a < b)
  {
    hide Before;
    PathMeans(tasks[a].branch, tasks[b].branch);
    PathMeans(tasks[b].branch, tasks[a].branch);
  }

  predicate Ordered(tasks: seq<Task>, order: seq<nat>) {
    && (forall i | 0 <= i < |order| :: order[i] < |tasks|)
    && (forall i, j | 0 <= i < j < |order| :: InOrder(tasks, order[i], order[j]))
  }

  // An id later than those in the order goes where its branch says, after its equals.
  lemma {:induction false} InsertOrdered(tasks: seq<Task>, order: seq<nat>, id: nat)
    requires Ordered(tasks, order) && id < |tasks| && forall i | 0 <= i < |order| :: order[i] < id
    ensures Ordered(tasks, Runner.Insert(tasks, order, id))
    ensures forall x: nat :: x in Runner.Insert(tasks, order, id) <==> x in order || x == id
    decreases |order|
  {
    hide InOrder;
    var result := Runner.Insert(tasks, order, id);
    if order == [] || Runner.PathBefore(tasks[id].branch, tasks[order[0]].branch) {
      forall j | 0 <= j < |order| ensures InOrder(tasks, id, order[j]) {
        InOrderIs(tasks, id, order[j]);
        if j > 0 {
          InOrderIs(tasks, order[0], order[j]);
          assert InOrder(tasks, order[0], order[j]);
          PathChain(tasks[id].branch, tasks[order[0]].branch, tasks[order[j]].branch);
        }
      }
    } else {
      var rest := order[1..];
      assert forall i | 0 <= i < |rest| :: rest[i] == order[i + 1];
      InsertOrdered(tasks, rest, id);
      var inserted := Runner.Insert(tasks, rest, id);
      forall j | 0 <= j < |inserted| ensures InOrder(tasks, order[0], inserted[j]) {
        if inserted[j] != id {
          assert inserted[j] in rest;
          var k :| 0 <= k < |rest| && rest[k] == inserted[j];
          assert InOrder(tasks, order[0], order[k + 1]);
        } else {
          InOrderIs(tasks, order[0], id);
        }
      }
      assert result == [order[0]] + inserted;
    }
  }

  // What comes before a path comes before whatever is not before that path.
  lemma {:induction false} PathChain(a: seq<Frame>, b: seq<Frame>, c: seq<Frame>)
    requires Runner.PathBefore(a, b) && (Runner.PathBefore(b, c) || NotAfter(b, c))
    ensures Runner.PathBefore(a, c)
  {
    if a != [] && c != [] && a[0].index == b[0].index == c[0].index {
      PathChain(a[1..], b[1..], c[1..]);
    } else if Runner.PathBefore(b, c) {
      BeforeIsNotAfter(b, c);
    }
  }

  // The order has exactly the terminal rows of the run, each once, by branch and then by id:
  // it is one and the same whichever of them finished first.
  lemma {:induction false} TerminalsOrdered(tasks: seq<Task>, run: string, upto: nat)
    requires upto <= |tasks|
    ensures var order := Runner.Terminals(tasks, run, upto);
            && Ordered(tasks, order)
            && forall id: nat :: id in order <==> id < upto && tasks[id].run == run && tasks[id].terminal
  {
    hide InOrder, Runner.Insert;
    if upto > 0 {
      TerminalsOrdered(tasks, run, upto - 1);
      var before := Runner.Terminals(tasks, run, upto - 1);
      forall i | 0 <= i < |before| ensures before[i] < upto - 1 {
        assert before[i] in before;
      }
      InsertOrdered(tasks, before, upto - 1);
    }
  }

  // No two rows are each in order before the other, so the order is the only one there is.
  lemma OrderIsStrict(tasks: seq<Task>, a: nat, b: nat)
    requires a < |tasks| && b < |tasks| && InOrder(tasks, a, b)
    ensures a != b && !InOrder(tasks, b, a)
  {
    hide InOrder;
    InOrderIs(tasks, a, b);
    InOrderIs(tasks, b, a);
    if Runner.PathBefore(tasks[a].branch, tasks[b].branch) {
      BeforeIsNotAfter(tasks[a].branch, tasks[b].branch);
    }
    PathIrreflexive(tasks[a].branch);
  }

  lemma {:induction false} PathIrreflexive(a: seq<Frame>)
    ensures !Runner.PathBefore(a, a)
  {
    if a != [] {
      PathIrreflexive(a[1..]);
    }
  }

  // The output: nothing for no terminal row, the one result of one, else all of them in
  // branch order.
  lemma OutputIsInOrder(tasks: seq<Task>, run: string)
    ensures var order, output := Runner.Terminals(tasks, run, |tasks|), Runner.RunOutput(tasks, run);
            && Ordered(tasks, order)
            && (forall id: nat :: id in order <==> id < |tasks| && tasks[id].run == run && tasks[id].terminal)
            && (|order| == 1 ==> output == Runner.ResultOf(tasks[order[0]]))
            && (|order| != 1 ==>
                  && output.JList? && |output.items| == |order|
                  && forall i | 0 <= i < |order| :: output.items[i] == Runner.ResultOf(tasks[order[i]]))
  {
    TerminalsOrdered(tasks, run, |tasks|);
  }
}
