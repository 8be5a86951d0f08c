/** The unit of work: a private copy of the tables and an outbox, made visible in one
    step (athanore/store/uow.py). */
module Transactions {
  import opened Base
  import opened Json
  import opened Rows
  import Store

  /** The database. One transaction at a time holds the writer lock. */
  class Database {
    var tables: Tables

    constructor ()
      ensures tables == Tables(map[], [], map[], [])
    {
      tables := Tables(map[], [], map[], []);
    }

    /** The exit of a block that raised nothing: rows and outbox become visible together. */
    method Commit(uow: UnitOfWork)
      requires uow.Base() == tables.events
      modifies this
      ensures tables == uow.Seen()
    {
      tables := Tables(uow.runs, uow.tasks, uow.arrivals, uow.base + uow.outbox);
    }
  }

  /** A transaction: a private copy of the rows, and the events it will publish. */
  class UnitOfWork {
    var runs: map<string, Run>
    var tasks: seq<Task>
    var arrivals: map<Place, Arrival>
    var outbox: seq<Event>
    const base: seq<Event>

    constructor (database: Database)
      ensures Seen() == database.tables && Base() == database.tables.events
    {
      runs := database.tables.runs;
      tasks := database.tables.tasks;
      arrivals := database.tables.arrivals;
      outbox := [];
      base := database.tables.events;
    }

    function Base(): seq<Event> {
      base
    }

    // The tables as a reader inside the transaction sees them.
    function Seen(): Tables
      reads this
    {
      Tables(runs, tasks, arrivals, base + outbox)
    }

    method Emit(run: Option<string>, task: Option<nat>, name: Name)
      modifies this
      ensures Seen() == Store.Emit(old(Seen()), run, task, name)
    {
      outbox := outbox + [Event(run, task, name)];
    }

    method Enqueue(row: Task) returns (id: nat)
      modifies this
      ensures Seen() == Store.Enqueue(old(Seen()), row) && id == old(|tasks|)
    {
      id := |tasks|;
      tasks := tasks + [row];
    }

    method Finish(id: nat, status: TaskStatus, result: Option<Json>, terminal: bool)
      requires id < |tasks|
      modifies this
      ensures Seen() == Store.Finish(old(Seen()), id, status, result, terminal)
    {
      tasks := tasks[id := tasks[id].(status := status, result := result, terminal := terminal)];
    }

    method SetTask(id: nat, status: TaskStatus)
      requires id < |tasks|
      modifies this
      ensures Seen() == Store.SetTask(old(Seen()), id, status)
    {
      tasks := tasks[id := tasks[id].(status := status)];
    }

    method SetRun(run: string, status: RunStatus, finished: Option<nat>)
      requires run in runs
      modifies this
      ensures Seen() == Store.SetRun(old(Seen()), run, status, finished)
    {
      runs := runs[run := runs[run].(status := status)];
      if finished.Some? {
        runs := runs[run := runs[run].(finished := finished)];
      }
    }

    method UpdateRun(run: string, row: Run)
      modifies this
      ensures Seen() == old(Seen()).(runs := old(runs)[run := row])
    {
      runs := runs[run := row];
    }

    /** Upserts the arrival; says how many branches are in, and whether it came late. */
    method Arrive(p: Place, key: Json, value: Json, from: nat) returns (arrived: nat, late: bool)
      modifies this
      ensures late == Store.Fired(old(tasks), p.run, p.join, p.fanout)
      ensures Seen() == Store.Arrive(old(Seen()), p, Arrival(key, value, from, late))
      ensures arrived == |Store.Indexes(arrivals, p.run, p.join, p.fanout)|
    {
      late := Store.Fired(tasks, p.run, p.join, p.fanout);
      arrivals := arrivals[p := Arrival(key, value, from, late)];
      arrived := |Store.Indexes(arrivals, p.run, p.join, p.fanout)|;
    }
  }
}
