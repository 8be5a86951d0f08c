/** Pausing and resuming a run (athanore/engine/ops.py): a paused run starts no work, whatever
    else happens, until it is resumed or cancelled. */
module Pausing {
  import opened Base
  import opened Rows
  import opened Store
  import opened Machine
  import opened Lifecycle
  import opened Interventions
  import Runner
  import Ops

  predicate IsPaused(db: Tables, run: string) {
    run in db.runs && db.runs[run].status == Paused
  }

  // The rows of a run that could be claimed now.
  predicate Startable(db: Tables, run: string, id: nat) {
    id < |db.tasks| && db.tasks[id].run == run && Claimable(db, id)
  }

  // A run can be paused while it is queued or running, and then none of its rows can be
  // claimed. Every other run is as it was.
  lemma PauseStops(s: State, run: string)
    ensures Enabled(s, Pause(run)) <==> run in s.db.runs && s.db.runs[run].status in {Queued, Running}
    ensures Enabled(s, Pause(run)) ==>
              var db' := Next(s, Pause(run)).db;
              && OnlyStatus(s.db, db', run, Paused, RunPausedEvent)
              && forall other: string, id: nat ::
                   Startable(db', other, id) <==> other != run && Startable(s.db, other, id)
  {
  }

  // It can be resumed only then, and exactly its ready rows can be claimed again.
  lemma ResumeStarts(s: State, run: string)
    ensures Enabled(s, Resume(run)) <==> IsPaused(s.db, run)
    ensures Enabled(s, Resume(run)) ==>
              var db' := Next(s, Resume(run)).db;
              && OnlyStatus(s.db, db', run, Running, RunResumed)
              && forall other: string, id: nat ::
                   Startable(db', other, id) <==>
                     if other == run then
                       id < |s.db.tasks| && s.db.tasks[id].run == run && s.db.tasks[id].status == Ready
                     else Startable(s.db, other, id)
  {
  }

  // ------------------------------------------------------------------------
  // Until it is resumed
  // ------------------------------------------------------------------------

  // The verbs that end a pause.
  predicate Unpauses(a: Step, run: string) {
    (a.Resume? || a.Cancel?) && a.run == run
  }

  // Its row is as it was.
  predicate StaysAs(s: State, a: Step, run: string)
    requires Enabled(s, a) && run in s.db.runs
  {
    run in Next(s, a).db.runs && Next(s, a).db.runs[run] == s.db.runs[run]
  }

  lemma EngineLeavesPaused(s: State, a: Step, run: string)
    requires IsPaused(s.db, run) && Enabled(s, a)
    requires a.Submit? || a.Claim? || a.Park? || a.Unpark? || a.Fail? || a.Crash? || a.Drop? || a.Recover?
    ensures StaysAs(s, a, run)
  {
    hide Runner.Priority;
  }

  lemma SuccessLeavesPaused(s: State, a: Step, run: string)
    requires IsPaused(s.db, run) && Enabled(s, a) && a.Succeed?
    ensures StaysAs(s, a, run)
  {
    hide Runner.Reading, Runner.RunOutput, HasPending, HasIncomplete, Runner.Route;
  }

  lemma CancelLeavesPaused(s: State, a: Step, run: string)
    requires IsPaused(s.db, run) && Enabled(s, a) && (a.Cancel? || a.Pause? || a.Resume?) && !Unpauses(a, run)
    ensures StaysAs(s, a, run)
  {
    hide Ops.Cancel;
    if a.Cancel? {
      CancelTasksRuns(s.db, a.run, a.now);
    }
  }

  lemma RerunLeavesPaused(s: State, a: Step, run: string)
    requires IsPaused(s.db, run) && Enabled(s, a) && a.Rerun?
    ensures StaysAs(s, a, run)
  {
    hide Ops.Reopen, Ops.RerunRow;
    var target := Ops.Lookup(a.graphs, s.db.runs[a.run].workflow, a.node).value;
    ReopenRuns(Ops.EnqueueRow(s.db, Ops.RerunRow(s.db, a.run, target, a.now).value), a.run);
  }

  lemma RetryLeavesPaused(s: State, a: Step, run: string)
    requires IsPaused(s.db, run) && Enabled(s, a) && a.Retry?
    ensures StaysAs(s, a, run)
  {
    hide Ops.Reopen;
    ReopenRuns(Ops.EnqueueRow(s.db, Runner.RetryOf(s.db.tasks[a.id], a.id, ManualRetryReason)), s.db.tasks[a.id].run);
  }

  lemma MoveLeavesPaused(s: State, a: Step, run: string)
    requires IsPaused(s.db, run) && Enabled(s, a) && a.Move?
    ensures StaysAs(s, a, run)
  {
    hide Ops.Move;
    MoveReopens(s, a);
  }

  lemma SetStatusLeavesPaused(s: State, a: Step, run: string)
    requires IsPaused(s.db, run) && Enabled(s, a) && a.SetStatus?
    ensures StaysAs(s, a, run)
  {
    hide Ops.Reopen;
    var t := s.db.tasks[a.id];
    if a.status == Ready {
      ReopenRuns(Emit(SetTask(s.db, a.id, a.status), Some(t.run), Some(a.id), TaskStatusSet(a.status)), t.run);
    }
  }

  // Only a resumption and a cancellation of the run itself touch a paused run.
  lemma StepLeavesPaused(s: State, a: Step, run: string)
    requires IsPaused(s.db, run) && Enabled(s, a) && !Unpauses(a, run)
    ensures run in Next(s, a).db.runs && Next(s, a).db.runs[run] == s.db.runs[run]
  {
    hide Enabled, Apply, Next;
    assert StaysAs(s, a, run) by {
      hide StaysAs;
      match a
      case Succeed(_, _, _, _) => SuccessLeavesPaused(s, a, run);
      case Rerun(_, _, _, _) => RerunLeavesPaused(s, a, run);
      case Retry(_, _) => RetryLeavesPaused(s, a, run);
      case Move(_, _, _, _) => MoveLeavesPaused(s, a, run);
      case SetStatus(_, _) => SetStatusLeavesPaused(s, a, run);
      case _ =>
        if a.Cancel? || a.Pause? || a.Resume? {
          CancelLeavesPaused(s, a, run);
        } else {
          EngineLeavesPaused(s, a, run);
        }
    }
  }

  // Some step of a run of the machine claims a row of this run.
  predicate EverClaims(s: State, trace: seq<Step>, run: string)
    requires IsRun(s, trace)
    decreases |trace|
  {
    trace != []
    && ((trace[0].Claim? && Startable(s.db, run, trace[0].id)) || EverClaims(Next(s, trace[0]), trace[1..], run))
  }

  // From a pause on, whatever the engine and the operator do, no row of the run is claimed
  // and none can be, until a resumption or a cancellation of it.
  lemma {:induction false} PauseHolds(s: State, trace: seq<Step>, run: string, id: nat)
    requires IsPaused(s.db, run) && IsRun(s, trace)
    requires forall i | 0 <= i < |trace| :: !Unpauses(trace[i], run)
    ensures IsPaused(End(s, trace).db, run) && !EverClaims(s, trace, run)
    ensures !Startable(End(s, trace).db, run, id)
    decreases |trace|
  {
    hide Enabled, Apply, Next;
    if trace != [] {
      StepLeavesPaused(s, trace[0], run);
      assert forall i | 0 <= i < |trace| - 1 :: trace[1..][i] == trace[i + 1];
      PauseHolds(Next(s, trace[0]), trace[1..], run, id);
    }
  }
}
