/** What a claim asks of the store, and gets (athanore/store/repos/tasks.py). */
module Claims {

  // A row the store has ready, and its workflow.
  datatype Row = Row(task: nat, workflow: string)

  // What the store gives of the ready rows: as many as there are slots for.
  function Taken(ready: seq<Row>, limit: nat): seq<Row> {
    if |ready| <= limit then ready else ready[..limit]
  }
}
