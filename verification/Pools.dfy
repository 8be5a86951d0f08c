/** Pool slots: leases, the re-admit queue, and the drain that serves it
    (athanore/engine/pools.py). */
module Pools {
  import opened Base

  /** One slot of a pool, held for one stretch of work. */
  class Lease {
    const pool: PoolState
    var taskId: Option<nat>
    var released: bool

    constructor (pool: PoolState, taskId: Option<nat>)
      ensures this.pool == pool && this.taskId == taskId && !released
    {
      this.pool := pool;
      this.taskId := taskId;
      released := false;
    }

    /** Gives the slot back. A second release does nothing. */
    method Release()
      requires pool.Valid() && this in pool.issued
      modifies this`released, pool`leased
      ensures pool.Valid() && released
      ensures pool.Outstanding() == old(pool.Outstanding()) - {this}
      ensures pool.leased == old(pool.leased) - (if old(released) then 0 else 1)
    {
      if released {
        return;
      }
      ghost var before := pool.Outstanding();
      assert this in before;
      released := true;
      pool.leased := pool.leased - 1;
      assert pool.Outstanding() == before - {this};
    }
  }

  /** What a waiter awaits: a lease, unless it was cancelled first. */
  class Promise {
    var lease: Option<Lease>
    var cancelled: bool

    constructor ()
      ensures lease.None? && !cancelled
    {
      lease := None;
      cancelled := false;
    }

    predicate Done()
      reads this
    {
      lease.Some? || cancelled
    }
  }

  datatype Waiter = Waiter(taskId: nat, promise: Promise)

  // How many of the waiters a drain takes off the queue: it stops at the last free slot,
  // and waiters already done cost none.
  function Cut(done: seq<bool>, free: nat): (k: nat)
    ensures k <= |done|
  {
    if done == [] || free == 0 then 0 else 1 + Cut(done[1..], if done[0] then free else free - 1)
  }

  // The waiters among the first k that are not done.
  function Live(done: seq<bool>, k: nat): nat
    requires k <= |done|
  {
    if k == 0 then 0 else Live(done, k - 1) + (if done[k - 1] then 0 else 1)
  }

  lemma {:induction false} LiveSplit(done: seq<bool>, k: nat)
    requires 0 < k <= |done|
    ensures Live(done, k) == (if done[0] then 0 else 1) + Live(done[1..], k - 1)
    decreases k
  {
    if k > 1 {
      LiveSplit(done, k - 1);
      assert done[1..][k - 2] == done[k - 1];
    }
  }

  lemma {:induction false} LiveGrows(done: seq<bool>, j: nat, k: nat)
    requires j <= k <= |done|
    ensures Live(done, j) <= Live(done, k) <= Live(done, j) + (k - j)
    decreases k - j
  {
    if j < k {
      LiveGrows(done, j, k - 1);
    }
  }

  // What one waiter makes of the cut.
  lemma CutNext(dones: seq<bool>, free: nat, k: nat, left: nat)
    requires k < |dones| && left > 0 && Cut(dones, free) == k + Cut(dones[k..], left)
    ensures Cut(dones, free) == k + 1 + Cut(dones[k + 1..], if dones[k] then left else left - 1)
    ensures Live(dones, k + 1) == Live(dones, k) + (if dones[k] then 0 else 1)
  {
    assert dones[k..][1..] == dones[k + 1..];
  }

  // The drain serves exactly the first min(free, live) waiters that are not done: every
  // one before the cut, and if any is left behind it, no slot is.
  lemma {:induction false} DrainIsPrefix(done: seq<bool>, free: nat)
    ensures var k := Cut(done, free);
            && Live(done, k) <= free
            && (k < |done| ==> Live(done, k) == free)
            && Live(done, k) == (if Live(done, |done|) <= free then Live(done, |done|) else free)
    decreases |done|
  {
    if done != [] && free > 0 {
      var rest, left := done[1..], if done[0] then free else free - 1;
      DrainIsPrefix(rest, left);
      LiveSplit(done, Cut(done, free));
      LiveSplit(done, |done|);
    } else {
      LiveGrows(done, 0, |done|);
    }
  }

  /** The live half of a pool: what is leased, and who waits for a slot. */
  class PoolState {
    const name: string
    const capacity: nat
    var leased: nat
    var readmit: seq<Waiter>
    // Every lease of this pool there has been.
    ghost var issued: set<Lease>

    ghost function Outstanding(): set<Lease>
      reads this, issued
    {
      set l | l in issued && !l.released
    }

    // As many slots are leased as leases are out, and no more than there are.
    ghost predicate Valid()
      reads this, issued
    {
      && (forall l | l in issued :: l.pool == this)
      && leased == |Outstanding()|
      && leased <= capacity
    }

    constructor (name: string, capacity: nat)
      ensures Valid() && this.name == name && this.capacity == capacity
      ensures leased == 0 && readmit == [] && issued == {}
    {
      this.name := name;
      this.capacity := capacity;
      leased := 0;
      readmit := [];
      issued := {};
      new;
      assert Outstanding() == {};
    }

    function Free(): nat
      reads this
    {
      if capacity > leased then capacity - leased else 0
    }

    /** Takes a slot if there is one, and never waits. */
    method TryAcquire(taskId: Option<nat>) returns (lease: Option<Lease>)
      requires Valid()
      modifies this`leased, this`issued
      ensures Valid()
      ensures lease.Some? <==> old(Free()) > 0
      ensures lease.Some? ==> fresh(lease.value) && lease.value.taskId == taskId && !lease.value.released
      ensures issued == old(issued) + (if lease.Some? then {lease.value} else {})
      ensures Outstanding() == old(Outstanding()) + (if lease.Some? then {lease.value} else {})
      ensures leased == old(leased) + (if lease.Some? then 1 else 0)
    {
      if Free() <= 0 {
        return None;
      }
      ghost var before := Outstanding();
      leased := leased + 1;
      var l := new Lease(this, taskId);
      issued := issued + {l};
      assert l !in before;
      assert forall x | x in before :: x in issued && !x.released;
      assert Outstanding() == before + {l};
      return Some(l);
    }

    /** Joins the re-admit queue; the place is taken by the call. */
    method RequestReadmit(taskId: nat) returns (promise: Promise)
      requires Valid()
      modifies this`readmit
      ensures Valid() && fresh(promise) && !promise.Done()
      ensures readmit == old(readmit) + [Waiter(taskId, promise)]
    {
      promise := new Promise();
      readmit := readmit + [Waiter(taskId, promise)];
      assert Outstanding() == old(Outstanding());
    }

    // Which of the waiters are done already.
    ghost function Dones(): seq<bool>
      reads this, set i | 0 <= i < |readmit| :: readmit[i].promise
    {
      seq(|readmit|, i requires 0 <= i < |readmit| reads this, set j | 0 <= j < |readmit| :: readmit[j].promise =>
        readmit[i].promise.Done())
    }

    ghost predicate QueueDistinct()
      reads this
    {
      forall i, j | 0 <= i < j < |readmit| :: readmit[i].promise != readmit[j].promise
    }

    // The first k of the waiters are served: each one that was not done has a lease of its
    // own for its task.
    ghost predicate ServedUpto(queue: seq<Waiter>, dones: seq<bool>, k: nat, handed: seq<Lease>)
      requires k <= |queue| == |dones|
      reads this, set i | 0 <= i < |queue| :: queue[i].promise, set l | l in handed
    {
      && (forall i | 0 <= i < k && !dones[i] ::
            && queue[i].promise.lease.Some? && queue[i].promise.lease.value in handed
            && queue[i].promise.lease.value.taskId == Some(queue[i].taskId))
      && (forall i, j | 0 <= i < j < k && !dones[i] && !dones[j] :: queue[i].promise.lease != queue[j].promise.lease)
      && (forall l | l in handed :: l in issued && !l.released)
    }

    // One waiter off the queue: a lease if it still wants one.
    method ServeOne(waiter: Waiter) returns (handed: seq<Lease>)
      requires Valid() && Free() > 0
      modifies this`leased, this`issued, waiter.promise
      ensures Valid()
      ensures old(waiter.promise.Done()) ==> handed == [] && issued == old(issued) && leased == old(leased)
      ensures old(waiter.promise.Done()) ==> waiter.promise.lease == old(waiter.promise.lease)
      ensures !old(waiter.promise.Done()) ==>
                && |handed| == 1 && fresh(handed[0]) && handed[0].taskId == Some(waiter.taskId) && !handed[0].released
                && issued == old(issued) + {handed[0]} && leased == old(leased) + 1
                && waiter.promise.lease == Some(handed[0])
    {
      if waiter.promise.Done() {
        return [];
      }
      var lease := TryAcquire(Some(waiter.taskId));
      waiter.promise.lease := lease;
      handed := [lease.value];
      assert Outstanding() == old(Outstanding()) + {lease.value};
    }

    // The drain of `queue` with `free` slots, after its first k waiters.
    ghost predicate Draining(queue: seq<Waiter>, dones: seq<bool>, free: nat, k: nat, handed: seq<Lease>)
      reads this, issued, set i | 0 <= i < |queue| :: queue[i].promise, set l | l in handed
    {
      && Valid() && k <= |queue| == |dones| && readmit == queue[k..]
      && (forall i, j | 0 <= i < j < |queue| :: queue[i].promise != queue[j].promise)
      && Cut(dones, free) == k + Cut(dones[k..], Free())
      && |handed| == Live(dones, k)
      && ServedUpto(queue, dones, k, handed)
      && (forall i | k <= i < |queue| :: queue[i].promise.Done() == dones[i])
    }

    method DrainOne(ghost queue: seq<Waiter>, ghost dones: seq<bool>, ghost free: nat, ghost k: nat, handed: seq<Lease>)
      returns (longer: seq<Lease>)
      requires Draining(queue, dones, free, k, handed) && readmit != [] && Free() > 0
      modifies this`leased, this`issued, this`readmit, readmit[0].promise
      ensures Draining(queue, dones, free, k + 1, longer)
      ensures leased - |longer| == old(leased) - |handed|
      ensures forall l | l in longer :: l in handed || fresh(l)
      ensures old(issued) <= issued
    {
      hide Cut, Live;
      CutNext(dones, free, k, Free());
      assert readmit[0] == queue[k];
      var waiter := readmit[0];
      readmit := readmit[1..];
      assert Outstanding() == old(Outstanding());
      var more := ServeOne(waiter);
      longer := handed + more;
    }

    /** Hands a lease to each waiter that is not done, oldest first, while slots remain. */
    method DrainReadmits() returns (handed: seq<Lease>)
      requires Valid() && QueueDistinct()
      modifies this`leased, this`issued, this`readmit, set i | 0 <= i < |readmit| :: readmit[i].promise
      ensures Valid() && QueueDistinct()
      ensures var k := Cut(old(Dones()), old(Free()));
              && readmit == old(readmit)[k..]
              && |handed| == Live(old(Dones()), k) && leased == old(leased) + |handed|
              && ServedUpto(old(readmit), old(Dones()), k, handed)
              && (forall i | k <= i < |old(readmit)| :: old(readmit)[i].promise.Done() == old(Dones())[i])
      ensures old(issued) <= issued && forall l | l in handed :: fresh(l)
    {
      ghost var queue, dones, free := readmit, Dones(), Free();
      ghost var k := 0;
      handed := [];
      while readmit != [] && Free() > 0
        invariant Draining(queue, dones, free, k, handed)
        invariant leased == old(leased) + |handed| && old(issued) <= issued
        invariant forall l | l in handed :: fresh(l)
        decreases |readmit|
      {
        handed := DrainOne(queue, dones, free, k, handed);
        k := k + 1;
      }
    }
  }
}
