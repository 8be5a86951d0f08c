/** One pool's turn of a tick (athanore/engine/scheduler.py): re-admit, reserve, claim, spawn,
    and give the surplus back. */
module Turns {
  import opened Base
  import opened Claims
  import opened Pools
  import opened Ledgers

  // Slots just taken from the pool, each its own.
  ghost predicate Fresh(pool: PoolState, leases: seq<Lease>)
    reads pool, leases
  {
    && (forall i | 0 <= i < |leases| :: leases[i] in pool.issued && !leases[i].released)
    && (forall i, j | 0 <= i < j < |leases| :: leases[i] != leases[j])
  }

  /** Takes every slot that is free. */
  method Reserve(pool: PoolState) returns (leases: seq<Lease>)
    requires pool.Valid()
    modifies pool`leased, pool`issued
    ensures pool.Valid() && Fresh(pool, leases) && forall l: Lease | l in leases :: fresh(l)
    ensures fresh(set l | l in leases)
    ensures |leases| == old(pool.Free()) && pool.leased == old(pool.leased) + |leases|
    ensures old(pool.issued) <= pool.issued
  {
    leases := [];
    ghost var free := pool.Free();
    while pool.Free() > 0
      invariant pool.Valid() && Fresh(pool, leases) && forall l | l in leases :: fresh(l)
      invariant pool.Free() + |leases| == free && pool.leased == old(pool.leased) + |leases|
      invariant old(pool.issued) <= pool.issued
      decreases pool.Free()
    {
      var lease := pool.TryAcquire(None);
      leases := leases + [lease.value];
    }
  }

  /** Gives these slots back. */
  method GiveBack(pool: PoolState, leases: seq<Lease>)
    requires pool.Valid() && Fresh(pool, leases) && |leases| <= pool.leased
    modifies pool`leased, set l | l in leases
    ensures pool.Valid() && pool.leased == old(pool.leased) - |leases|
    ensures forall i | 0 <= i < |leases| :: leases[i].released
  {
    for i := 0 to |leases|
      invariant pool.Valid() && pool.leased == old(pool.leased) - i
      invariant forall j | 0 <= j < i :: leases[j].released
      invariant forall j | i <= j < |leases| :: leases[j] in pool.issued && !leases[j].released
    {
      assert leases[i].pool == pool;
      leases[i].Release();
    }
  }

  // The attempts a claim started: one for each row, in order, on a slot of its own.
  ghost predicate Started(attempts: seq<Attempt>, rows: seq<Row>, leases: seq<Lease>)
    requires |rows| <= |leases|
    reads attempts
  {
    && |attempts| == |rows|
    && forall i | 0 <= i < |rows| ::
         && attempts[i].taskId == rows[i].task && attempts[i].workflow == rows[i].workflow
         && attempts[i].lease == leases[i] && !attempts[i].done
  }

  lemma StartsNext(attempts: seq<Attempt>, a: Attempt, rows: seq<Row>, leases: seq<Lease>, i: nat)
    requires i < |rows| <= |leases| && Started(attempts, rows[..i], leases)
    requires a.taskId == rows[i].task && a.workflow == rows[i].workflow && a.lease == leases[i] && !a.done
    ensures Started(attempts + [a], rows[..i + 1], leases)
  {
  }

  /** One attempt for each row, on the lease beside it. */
  method SpawnAll(ledger: Ledger, rows: seq<Row>, leases: seq<Lease>) returns (ghost spawned: seq<Attempt>)
    requires ledger.Valid() && |rows| <= |leases|
    modifies ledger
    ensures ledger.Valid() && ledger.live == old(ledger.live) + spawned && Started(spawned, rows, leases)
    ensures forall a | a in spawned :: fresh(a)
  {
    hide Started;
    spawned := [];
    NoneStarted(leases);
    for i := 0 to |rows|
      invariant ledger.Valid() && ledger.live == old(ledger.live) + spawned
      invariant Started(spawned, rows[..i], leases) && forall a | a in spawned :: fresh(a)
    {
      var a := ledger.Spawn(rows[i].task, rows[i].workflow, leases[i]);
      StartsNext(spawned, a, rows, leases, i);
      spawned := spawned + [a];
    }
    assert rows[..|rows|] == rows;
  }

  lemma NoneStarted(leases: seq<Lease>)
    ensures Started([], [], leases)
  {
  }

  // The attempts after the first n are one for each claimed row, each on a slot of its own
  // that is out.
  ghost predicate Claimed(pool: PoolState, live: seq<Attempt>, n: nat, claimed: seq<Row>)
    reads pool, live, set a | a in live :: a.lease
  {
    && |live| == n + |claimed|
    && (forall i | 0 <= i < |claimed| ::
          && live[n + i].taskId == claimed[i].task && live[n + i].workflow == claimed[i].workflow && !live[n + i].done
          && live[n + i].lease in pool.issued && !live[n + i].lease.released)
    && forall a, b | n <= a < b < |live| :: live[a].lease != live[b].lease
  }

  // What a claim leaves: the attempts it started are the last, on leases that are out.
  lemma ClaimsAre(
    pool: PoolState, live: seq<Attempt>, before: seq<Attempt>, spawned: seq<Attempt>, claimed: seq<Row>,
        leases: seq<Lease>)
    requires live == before + spawned && |claimed| <= |leases| && Started(spawned, claimed, leases)
    requires forall i | 0 <= i < |claimed| :: leases[i] in pool.issued && !leases[i].released
    requires forall i, j | 0 <= i < j < |leases| :: leases[i] != leases[j]
    ensures Claimed(pool, live, |before|, claimed)
    ensures forall a | |before| <= a < |live| :: live[a].lease in leases
  {
    var n := |before|;
    forall a | n <= a < |live| ensures live[a] == spawned[a - n] && live[a].lease == leases[a - n] {
    }
    forall i | 0 <= i < |claimed| ensures live[n + i] == spawned[i] {
    }
  }

  /** Reserve, claim, spawn, and give back what is left over; all of it when the claim
      raises. The slot of each new attempt is new, so no older attempt has it. */
  method ClaimFree(pool: PoolState, ledger: Ledger, ready: Option<seq<Row>>) returns (claimed: seq<Row>)
    requires pool.Valid() && ledger.Valid()
    modifies pool`leased, pool`issued, ledger
    ensures pool.Valid() && ledger.Valid() && old(pool.issued) <= pool.issued
    ensures claimed == if ready.Some? then Taken(ready.value, old(pool.Free())) else []
    ensures pool.leased == old(pool.leased) + |claimed|
    ensures old(ledger.live) <= ledger.live && Claimed(pool, ledger.live, |old(ledger.live)|, claimed)
    ensures forall a | |old(ledger.live)| <= a < |ledger.live| :: fresh(ledger.live[a].lease)
  {
    hide Claimed;
    claimed := [];
    var leases := Reserve(pool);
    ghost var all := set l | l in leases;
    if ready.None? {
      GiveBack(pool, leases);
      NoneClaimed(pool, ledger.live);
      return;
    }
    claimed := Taken(ready.value, |leases|);
    ghost var before := ledger.live;
    ghost var spawned := SpawnAll(ledger, claimed, leases);
    var surplus := leases[|claimed|..];
    assert forall i | 0 <= i < |surplus| :: surplus[i] == leases[|claimed| + i];
    assert (set l | l in surplus) <= all;
    GiveBack(pool, surplus);
    ClaimsAre(pool, ledger.live, before, spawned, claimed, leases);
  }

  /** The turn. `ready` is what the store has for the pool's workflows, or None when the
      claim raises. Says what the waiters were handed and which rows claimed. */
  method DispatchPool(pool: PoolState, ledger: Ledger, workflows: set<string>, ready: Option<seq<Row>>)
    returns (handed: seq<Lease>, claimed: seq<Row>)
    requires pool.Valid() && pool.QueueDistinct() && ledger.Valid()
    modifies pool`leased, pool`issued, pool`readmit, set i | 0 <= i < |pool.readmit| :: pool.readmit[i].promise, ledger
    ensures pool.Valid() && ledger.Valid()
    ensures |handed| == Live(old(pool.Dones()), Cut(old(pool.Dones()), old(pool.Free()))) <= old(pool.Free())
    ensures pool.readmit == old(pool.readmit)[Cut(old(pool.Dones()), old(pool.Free()))..]
    ensures pool.ServedUpto(old(pool.readmit), old(pool.Dones()), Cut(old(pool.Dones()), old(pool.Free())), handed)
    ensures claimed == if |handed| < old(pool.Free()) && workflows != {} && ready.Some?
                       then Taken(ready.value, old(pool.Free()) - |handed|) else []
    ensures claimed != [] ==> pool.readmit == []
    ensures pool.leased == old(pool.leased) + |handed| + |claimed|
    ensures old(ledger.live) <= ledger.live && Claimed(pool, ledger.live, |old(ledger.live)|, claimed)
    ensures forall l | l in handed :: fresh(l)
    ensures forall a | |old(ledger.live)| <= a < |ledger.live| ::
              fresh(ledger.live[a].lease) && ledger.live[a].lease !in handed
  {
    hide Cut, Live, Taken, Claimed;
    DrainIsPrefix(old(pool.Dones()), old(pool.Free()));
    handed := pool.DrainReadmits();
    claimed := [];
    NoneClaimed(pool, ledger.live);
    if pool.Free() <= 0 || workflows == {} {
      return;
    }
    claimed := ClaimFree(pool, ledger, ready);
  }

  lemma NoneClaimed(pool: PoolState, live: seq<Attempt>)
    ensures Claimed(pool, live, |live|, [])
  {
  }
}
