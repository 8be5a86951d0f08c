/** The attempts a process is running, in the two views the scheduler keeps of them
    (athanore/engine/scheduler.py). */
module Ledgers {
  import opened Pools

  /** One spawned attempt: its task, the slot it was dispatched on, its workflow. */
  class Attempt {
    const taskId: nat
    const workflow: string
    const lease: Lease
    var done: bool
    var cancelled: bool

    constructor (taskId: nat, workflow: string, lease: Lease)
      ensures this.taskId == taskId && this.workflow == workflow && this.lease == lease && !done && !cancelled
    {
      this.taskId := taskId;
      this.workflow := workflow;
      this.lease := lease;
      done := false;
      cancelled := false;
    }
  }

  // The attempts that have not ended, in the order given.
  function Running(live: seq<Attempt>): (r: seq<Attempt>)
    reads live
    ensures forall a | a in r :: a in live && !a.done
    ensures forall a | a in live && !a.done :: a in r
  {
    if live == [] then []
    else
      var before, last := Running(live[..|live| - 1]), live[|live| - 1];
      if last.done then before else before + [last]
  }

  predicate Distinct(live: seq<Attempt>) {
    forall i, j | 0 <= i < j < |live| :: live[i] != live[j]
  }

  // What the two views are asked about.
  datatype Entry = Entry(taskId: nat, workflow: string, done: bool)

  function EntryOf(a: Attempt): Entry
    reads a
  {
    Entry(a.taskId, a.workflow, a.done)
  }

  function Entries(live: seq<Attempt>): seq<Entry>
    reads live
  {
    seq(|live|, i requires 0 <= i < |live| reads live => EntryOf(live[i]))
  }

  // The task ids of the running attempts of a workflow, in spawn order, each once.
  function TasksOf(entries: seq<Entry>, workflow: string): (ids: seq<nat>)
    ensures forall id: nat :: id in ids <==> Entry(id, workflow, false) in entries
    ensures forall i, j | 0 <= i < j < |ids| :: ids[i] != ids[j]
  {
    if entries == [] then []
    else
      var before, last := TasksOf(entries[..|entries| - 1], workflow), entries[|entries| - 1];
      if last.workflow == workflow && !last.done && last.taskId !in before then before + [last.taskId] else before
  }

  // One more attempt listed, if it is of the workflow, running, and its task not listed yet.
  lemma TasksNext(entries: seq<Entry>, workflow: string, i: nat)
    requires i < |entries|
    ensures var before, e := TasksOf(entries[..i], workflow), entries[i];
            TasksOf(entries[..i + 1], workflow) ==
              if e.workflow == workflow && !e.done && e.taskId !in before then before + [e.taskId] else before
  {
    assert entries[..i + 1][..i] == entries[..i];
  }

  lemma NoTasks(workflow: string)
    ensures TasksOf([], workflow) == []
  {
  }

  // A running attempt's task is listed under its workflow.
  lemma RunningIsListed(live: seq<Attempt>, a: Attempt)
    requires a in live && !a.done
    ensures a.taskId in TasksOf(Entries(live), a.workflow)
  {
    var i :| 0 <= i < |live| && live[i] == a;
    assert Entries(live)[i] == Entry(a.taskId, a.workflow, false);
  }

  class Ledger {
    // Every attempt, in spawn order: what the reap walks.
    var live: seq<Attempt>
    // One attempt per task: what an operation cancels.
    var attempts: map<nat, Attempt>

    // Every entry of the second view is an attempt of the first, of that task.
    ghost predicate Valid()
      reads this
    {
      && Distinct(live)
      && (forall id | id in attempts :: attempts[id] in live && attempts[id].taskId == id)
    }

    constructor ()
      ensures Valid() && live == [] && attempts == map[]
    {
      live := [];
      attempts := map[];
    }

    /** Runs one attempt. One that is still running its task keeps the id. */
    method Spawn(taskId: nat, workflow: string, lease: Lease) returns (a: Attempt)
      requires Valid()
      modifies this
      ensures Valid() && fresh(a) && a.taskId == taskId && a.workflow == workflow && a.lease == lease && !a.done
      ensures live == old(live) + [a]
      ensures attempts ==
          if taskId in old(attempts) && !old(attempts[taskId].done) then old(attempts) else old(attempts)[taskId := a]
    {
      a := new Attempt(taskId, workflow, lease);
      live := live + [a];
      if taskId !in attempts || attempts[taskId].done {
        attempts := attempts[taskId := a];
      }
    }

    /** `attempts_of`. */
    method AttemptsOf(workflow: string) returns (ids: seq<nat>)
      ensures ids == TasksOf(Entries(live), workflow)
    {
      hide TasksOf;
      ids := [];
      ghost var entries := Entries(live);
      NoTasks(workflow);
      for i := 0 to |live|
        invariant ids == TasksOf(entries[..i], workflow)
      {
        var a := live[i];
        TasksNext(entries, workflow, i);
        if a.workflow == workflow && !a.done && a.taskId !in ids {
          ids := ids + [a.taskId];
        }
      }
      assert entries[..|live|] == entries;
    }

    /** Asks one attempt to stop. */
    method CancelOne(a: Attempt)
      requires a in live
      modifies a`cancelled
      ensures a.cancelled && Entries(live) == old(Entries(live))
    {
      a.cancelled := true;
    }

    // One attempt of the list: cancelled and listed if it is the workflow's and runs.
    method CancelAt(workflow: string, i: nat, listed: seq<nat>) returns (ids: seq<nat>)
      requires i < |live|
      modifies {live[i]}
      ensures var a := live[i];
              var hit := a.workflow == workflow && !a.done;
              && a.done == old(a.done) && a.cancelled == (old(a.cancelled) || hit)
              && ids == if hit && a.taskId !in listed then listed + [a.taskId] else listed
      ensures Entries(live) == old(Entries(live))
    {
      hide Entries;
      var a := live[i];
      ids := listed;
      if a.workflow == workflow && !a.done {
        CancelOne(a);
        if a.taskId !in ids {
          ids := ids + [a.taskId];
        }
      }
    }

    /** `cancel_attempts_of`: every running attempt of the workflow, the second attempt of a
        row included. */
    method CancelAttemptsOf(workflow: string) returns (ids: seq<nat>)
      requires Distinct(live)
      modifies live
      ensures Entries(live) == old(Entries(live)) && ids == TasksOf(Entries(live), workflow)
      ensures forall a | a in live :: a.cancelled == (old(a.cancelled) || (a.workflow == workflow && !a.done))
    {
      hide TasksOf, Entries, Distinct;
      ids := [];
      ghost var entries := Entries(live);
      NoTasks(workflow);
      EntriesMean(live);
      for i := 0 to |live|
        invariant Entries(live) == entries && ids == TasksOf(entries[..i], workflow)
        invariant forall j | 0 <= j < i ::
            live[j].cancelled == (old(live[j].cancelled) || (live[j].workflow == workflow && !live[j].done))
        invariant forall j | i <= j < |live| :: live[j].cancelled == old(live[j].cancelled)
      {
        TasksNext(entries, workflow, i);
        EntryAt(live, i);
        OnlyAt(live, i);
        ids := CancelAt(workflow, i, ids);
      }
      assert entries[..|live|] == entries;
      forall a | a in live ensures a.cancelled == (old(a.cancelled) || (a.workflow == workflow && !a.done)) {
        var j :| 0 <= j < |live| && live[j] == a;
      }
    }

    lemma OnlyAt(live: seq<Attempt>, i: nat)
      requires Distinct(live) && i < |live|
      ensures forall j | 0 <= j < |live| && j != i :: live[j] != live[i]
    {
    }

    lemma EntryAt(live: seq<Attempt>, i: nat)
      requires i < |live|
      ensures |Entries(live)| == |live| && Entries(live)[i] == EntryOf(live[i])
    {
    }

    lemma EntriesMean(live: seq<Attempt>)
      ensures |Entries(live)| == |live| && forall i | 0 <= i < |live| :: Entries(live)[i] == EntryOf(live[i])
    {
    }

    /** `cancel_attempts`: the attempt each id names, if it is running. */
    method CancelAttempts(taskIds: seq<nat>) returns (cancelled: seq<nat>)
      requires Valid()
      modifies live
      ensures Valid() && forall a | a in live :: a.done == old(a.done)
      ensures forall a | a in live ::
                a.cancelled == (old(a.cancelled)
                    || (a.taskId in taskIds && !a.done && a.taskId in attempts && attempts[a.taskId] == a))
      ensures forall id: nat :: id in cancelled <==> id in taskIds && id in attempts && !attempts[id].done
    {
      cancelled := [];
      for i := 0 to |taskIds|
        invariant Valid() && forall a | a in live :: a.done == old(a.done)
        invariant forall a | a in live ::
            a.cancelled == (old(a.cancelled)
                || (a.taskId in taskIds[..i] && !a.done && a.taskId in attempts && attempts[a.taskId] == a))
        invariant forall id: nat :: id in cancelled <==> id in taskIds[..i] && id in attempts && !attempts[id].done
      {
        var id := taskIds[i];
        assert taskIds[..i + 1] == taskIds[..i] + [id];
        if id in attempts && !attempts[id].done {
          assert attempts[id] in live;
          attempts[id].cancelled := true;
          cancelled := cancelled + [id];
        }
      }
      assert taskIds[..|taskIds|] == taskIds;
    }

    // The leases of these attempts, as their pools know them.
    ghost predicate AllKnown(all: seq<Attempt>)
      reads all, set a | a in all :: a.lease.pool, set a, l | a in all && l in a.lease.pool.issued :: l
    {
      forall a | a in all :: a.lease.pool.Valid() && a.lease in a.lease.pool.issued
    }

    /** Gives back the slot of one attempt; every pool stays consistent. */
    method GiveBack(a: Attempt, ghost all: seq<Attempt>)
      requires a in all && AllKnown(all)
      modifies a.lease`released, a.lease.pool`leased
      ensures AllKnown(all) && a.lease.released
    {
      a.lease.Release();
    }

    /** Drops one attempt from both views. */
    method Drop(a: Attempt, i: nat)
      requires Valid() && i < |live| && live[i] == a
      modifies this
      ensures Valid() && live == old(live)[..i] + old(live)[i + 1..]
      ensures attempts ==
          if a.taskId in old(attempts) && old(attempts)[a.taskId] == a then old(attempts) - {a.taskId}
          else old(attempts)
    {
      live := live[..i] + live[i + 1..];
      if a.taskId in attempts && attempts[a.taskId] == a {
        attempts := attempts - {a.taskId};
      }
    }

    // The second view without the ended attempts among these.
    ghost predicate Without(entries: map<nat, Attempt>, ended: seq<Attempt>)
      reads this, ended
    {
      && (forall id :: id in attempts <==> id in entries && !(entries[id] in ended && entries[id].done))
      && (forall id | id in attempts :: attempts[id] == entries[id])
    }

    // The reap of `all`, after its first i attempts, with `kept` of them still running.
    ghost predicate Reaping(all: seq<Attempt>, entries: map<nat, Attempt>, i: nat, kept: nat)
      reads this, live, all
    {
      && Valid() && i <= |all| && kept <= |live|
      && live[..kept] == Running(all[..i]) && live[kept..] == all[i..]
      && Without(entries, all[..i])
      && forall id | id in entries :: entries[id] in all && entries[id].taskId == id
    }

    method ReapNext(all: seq<Attempt>, ghost entries: map<nat, Attempt>, i: nat, kept: nat) returns (more: nat)
      requires Reaping(all, entries, i, kept) && i < |all| && (all[i].done ==> all[i].lease.released)
      modifies this
      ensures Reaping(all, entries, i + 1, more)
    {
      var a := all[i];
      assert all[..i + 1][..i] == all[..i] && live[kept] == all[i..][0] == a;
      assert all[i..][1..] == all[i + 1..];
      more := kept + 1;
      if a.done {
        Drop(a, kept);
        more := kept;
        assert live[..kept] == old(live)[..kept] && live[kept..] == old(live)[kept + 1..];
      } else {
        assert live[..kept + 1] == live[..kept] + [a];
      }
    }

    lemma ReapStarts()
      requires Valid()
      ensures Reaping(live, attempts, 0, 0)
    {
    }

    lemma ReapEnds(all: seq<Attempt>, entries: map<nat, Attempt>, kept: nat)
      requires Reaping(all, entries, |all|, kept)
      ensures Valid() && live == Running(all) && Without(entries, all)
    {
      assert all[..|all|] == all && live == live[..kept];
    }

    /** Drops the attempts that have ended, each from both views and no other with it, and
        gives their slots back. */
    method Reap()
      requires Valid() && AllKnown(live)
      modifies this, set a | a in live :: a.lease, set a | a in live :: a.lease.pool
      ensures Valid() && AllKnown(old(live))
      ensures live == Running(old(live))
      ensures Without(old(attempts), old(live))
      ensures forall a | a in old(live) && a.done :: a.lease.released
    {
      hide Reaping, AllKnown, Without, Running;
      var all := live;
      ghost var entries := attempts;
      var kept: nat := 0;
      ReapStarts();
      for i: nat := 0 to |all|
        invariant Reaping(all, entries, i, kept) && AllKnown(all)
        invariant forall j | 0 <= j < i :: all[j].done ==> all[j].lease.released
      {
        if all[i].done {
          GiveBack(all[i], all);
        }
        kept := ReapNext(all, entries, i, kept);
      }
      ReapEnds(all, entries, kept);
    }
  }
}
