/** Which workflow runs on which pool, and the changes a serving engine makes to it
    (athanore/engine/pools.py, athanore/engine/__init__.py). */
module Registration {
  import opened Base
  import opened Graphs
  import opened Pools
  import opened Ledgers

  datatype RegistryError = ValueError | KeyError

  // A pool as a host declares it.
  datatype Pool = Pool(name: string, capacity: nat)

  class PoolRegistry {
    var pools: map<string, PoolState>
    var bindings: map<string, string>

    // Pools and workflows share one namespace, and a binding is to a pool there is.
    ghost predicate Valid()
      reads this
    {
      && pools.Keys !! bindings.Keys
      && (forall n | n in pools :: pools[n].name == n)
      && (forall w | w in bindings :: bindings[w] in pools)
    }

    constructor ()
      ensures Valid() && pools == map[] && bindings == map[]
    {
      pools := map[];
      bindings := map[];
    }

    method Add(pool: Pool) returns (r: Result<PoolState, RegistryError>)
      requires Valid()
      modifies this`pools
      ensures Valid()
      ensures r.Ok? <==> pool.name !in old(pools) && pool.name !in bindings
      ensures r.Ok? ==> pools == old(pools)[pool.name := r.value] && fresh(r.value)
      ensures r.Ok? ==> r.value.capacity == pool.capacity && r.value.leased == 0 && r.value.readmit == []
      ensures r.Err? ==> pools == old(pools) && r.error == ValueError
    {
      if pool.name in pools { return Err(ValueError); }
      if pool.name in bindings { return Err(ValueError); }
      var state := new PoolState(pool.name, pool.capacity);
      pools := pools[pool.name := state];
      return Ok(state);
    }

    method Bind(workflow: string, poolName: string) returns (r: Result<PoolState, RegistryError>)
      requires Valid()
      modifies this`bindings
      ensures Valid()
      ensures r.Ok? <==>
        && workflow !in pools && poolName in pools
        && (workflow in old(bindings) ==> old(bindings)[workflow] == poolName)
      ensures r.Ok? ==> bindings == old(bindings)[workflow := poolName] && r.value == pools[poolName]
      ensures r.Err? ==> bindings == old(bindings) && r.error == ValueError
    {
      if workflow in pools { return Err(ValueError); }
      if poolName !in pools { return Err(ValueError); }
      if workflow in bindings && bindings[workflow] != poolName { return Err(ValueError); }
      bindings := bindings[workflow := poolName];
      return Ok(pools[poolName]);
    }

    method Unbind(workflow: string) returns (r: Result<(), RegistryError>)
      requires Valid()
      modifies this`bindings
      ensures Valid()
      ensures r.Ok? <==> workflow in old(bindings)
      ensures bindings == old(bindings) - {workflow}
      ensures r.Err? ==> r.error == KeyError
    {
      if workflow !in bindings { return Err(KeyError); }
      bindings := bindings - {workflow};
      return Ok(());
    }

    method Rebind(workflow: string, poolName: string) returns (r: Result<PoolState, RegistryError>)
      requires Valid()
      modifies this`bindings
      ensures Valid()
      ensures r.Ok? <==> workflow in old(bindings) && poolName in pools
      ensures r.Ok? ==> bindings == old(bindings)[workflow := poolName] && r.value == pools[poolName]
      ensures r.Err? ==> bindings == old(bindings) && r.error == KeyError
    {
      if workflow !in bindings { return Err(KeyError); }
      if poolName !in pools { return Err(KeyError); }
      bindings := bindings[workflow := poolName];
      return Ok(pools[poolName]);
    }

    function WorkflowsOf(poolName: string): set<string>
      reads this
    {
      set w | w in bindings && bindings[w] == poolName
    }

    // The pools partition the bound workflows: each is one pool's, and one only.
    lemma WorkflowsPartition(workflow: string, a: string, b: string)
      requires Valid()
      ensures workflow in bindings <==> exists n | n in pools :: workflow in WorkflowsOf(n)
      ensures a != b ==> WorkflowsOf(a) !! WorkflowsOf(b)
    {
      if workflow in bindings {
        assert bindings[workflow] in pools && workflow in WorkflowsOf(bindings[workflow]);
      }
    }
  }

  const DEFAULT_POOL := "default"

  class Host {
    const registry: PoolRegistry
    const ledger: Ledger
    const workers: nat
    var graphs: map<string, Graph>

    // Every registered workflow is bound, and no other is.
    ghost predicate Valid()
      reads this, registry
    {
      && registry.Valid()
      && graphs.Keys == registry.bindings.Keys
      && forall n | n in graphs :: graphs[n].name == n
    }

    constructor (workers: nat)
      ensures Valid() && graphs == map[] && this.workers == workers
      ensures fresh(registry) && registry.pools == map[] && registry.bindings == map[]
    {
      this.workers := workers;
      registry := new PoolRegistry();
      ledger := new Ledger();
      graphs := map[];
    }

    // The pool a registration asks for: the one named, or the default one.
    function PoolOf(pool: Option<Pool>): Pool {
      if pool.Some? then pool.value else Pool(DEFAULT_POOL, workers)
    }

    /** Runs a workflow on a pool, made if it is not there. A refusal leaves the workflows
        and their bindings as they were; the pool it made stays. */
    method Register(graph: Graph, pool: Option<Pool>) returns (r: Result<(), RegistryError>)
      requires Valid()
      modifies this`graphs, registry
      ensures Valid()
      ensures var name, p := graph.name, PoolOf(pool);
              r.Ok? <==>
                && (name in old(graphs) ==> old(graphs)[name] == graph)
                && name !in old(registry.pools) && name != p.name && p.name !in old(registry.bindings)
                && (name in old(registry.bindings) ==> old(registry.bindings)[name] == p.name)
      ensures r.Ok? ==> graphs == old(graphs)[graph.name := graph]
      ensures r.Ok? ==> registry.bindings == old(registry.bindings)[graph.name := PoolOf(pool).name]
      ensures r.Err? ==> graphs == old(graphs) && registry.bindings == old(registry.bindings) && r.error == ValueError
      ensures forall n | n in old(registry.pools) :: n in registry.pools && registry.pools[n] == old(registry.pools)[n]
      ensures var name, p := graph.name, PoolOf(pool).name;
              registry.pools.Keys == old(registry.pools).Keys +
                (if (name in old(graphs) ==> old(graphs)[name] == graph) && p !in old(registry.bindings) then {p}
                    else {})
    {
      var name, p := graph.name, PoolOf(pool);
      if name in graphs && graphs[name] != graph { return Err(ValueError); }
      if p.name !in registry.pools {
        var added := registry.Add(p);
        if added.Err? { return Err(added.error); }
      }
      var bound := registry.Bind(name, p.name);
      if bound.Err? { return Err(bound.error); }
      graphs := graphs[name := graph];
      return Ok(());
    }

    /** Swaps a workflow's graph, and its pool if one is named and nothing of it is running.
        A refusal leaves everything as it was. */
    method Replace(graph: Graph, poolName: Option<string>) returns (r: Result<(), RegistryError>)
      requires Valid()
      modifies this`graphs, registry`bindings
      ensures Valid()
      ensures r.Ok? <==>
        && graph.name in old(graphs)
        && (poolName.Some? && poolName.value != old(registry.bindings)[graph.name] ==>
              poolName.value in registry.pools && TasksOf(Entries(ledger.live), graph.name) == [])
      ensures r == Err(KeyError) <==>
        graph.name !in old(graphs)
        || (poolName.Some? && poolName.value != old(registry.bindings)[graph.name] && poolName.value !in registry.pools)
      ensures r.Ok? ==> graphs == old(graphs)[graph.name := graph]
      ensures r.Ok? && poolName.Some? ==> registry.bindings == old(registry.bindings)[graph.name := poolName.value]
      ensures r.Ok? && poolName.None? ==> registry.bindings == old(registry.bindings)
      ensures r.Err? ==> graphs == old(graphs) && registry.bindings == old(registry.bindings)
    {
      hide TasksOf, Entries;
      var name := graph.name;
      if name !in graphs { return Err(KeyError); }
      if poolName.Some? && poolName.value != registry.bindings[name] {
        if poolName.value !in registry.pools { return Err(KeyError); }
        var live := ledger.AttemptsOf(name);
        if live != [] { return Err(ValueError); }
        var moved := registry.Rebind(name, poolName.value);
      }
      graphs := graphs[name := graph];
      return Ok(());
    }

    // With no task of it listed, no attempt of the workflow is running: the slots it may
    // hold are none, so a move strands nothing.
    lemma NoneRunning(workflow: string)
      requires TasksOf(Entries(ledger.live), workflow) == []
      ensures forall a | a in ledger.live && !a.done :: a.workflow != workflow
    {
      forall a | a in ledger.live && !a.done ensures a.workflow != workflow {
        RunningIsListed(ledger.live, a);
      }
    }

    /** The part of `unregister` that runs between ticks: the name is unbound, every running
        attempt of it cancelled, the graph dropped. Says which tasks to wait for. */
    method Unregister(name: string) returns (r: Result<seq<nat>, RegistryError>)
      requires Valid() && ledger.Valid()
      modifies this`graphs, registry`bindings, ledger.live
      ensures Valid() && ledger.Valid()
      ensures r.Ok? <==> name in old(graphs)
      ensures r.Err? ==> r.error == KeyError && graphs == old(graphs) && registry.bindings == old(registry.bindings)
      ensures r.Ok? ==> graphs == old(graphs) - {name} && registry.bindings == old(registry.bindings) - {name}
      ensures r.Ok? ==> forall a | a in ledger.live && a.workflow == name && !a.done ::
          a.cancelled && a.taskId in r.value
      ensures r.Ok? ==> forall a | a in ledger.live && a.workflow != name :: a.cancelled == old(a.cancelled)
    {
      hide TasksOf, Entries;
      if name !in graphs { return Err(KeyError); }
      var unbound := registry.Unbind(name);
      var ids := ledger.CancelAttemptsOf(name);
      forall a | a in ledger.live && a.workflow == name && !a.done ensures a.taskId in ids {
        RunningIsListed(ledger.live, a);
      }
      graphs := graphs - {name};
      return Ok(ids);
    }
  }
}
