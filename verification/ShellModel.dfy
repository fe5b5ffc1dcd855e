/**
 The shell's main-actor object: the stretches of its own code between two awaits that change its fields.
 Each matches one step of the lifecycle machine and keeps its invariant. The remaining steps of the machine
 are the core's, inside the blocking calls, and the executor's, when it resumes a job or a run.
 */
module ShellModel {
  import opened Prelude
  import opened WalletEvents
  import opened ShellLifecycle

  class Model {
    var startRequested: bool
    /** The chained lifecycle tasks and event-loop tasks, oldest first. */
    var jobs: seq<Job>
    var runs: seq<Run>
    /** The core behind the blocking calls: whether the node runs, and its event queue. */
    var running: bool
    var queue: seq<Event>
    ghost var history: History

    ghost function Current(): Shell
      reads this
    {
      Shell(startRequested, running, jobs, runs, queue, history)
    }

    ghost predicate Valid()
      reads this
    {
      Inv(Current())
    }

    /** A stopped node over whatever events an earlier process left behind. */
    constructor (stored: seq<Event>)
      ensures Valid() && Initial(Current()) && queue == stored
    {
      startRequested, running, jobs, runs, queue := false, false, [], [], stored;
      history := History(None, false, false, false, 0, 0, 0, 0);
    }

    method StartNode()
      requires Valid()
      modifies this
      ensures Valid() && Current() == Apply(old(Current()), RequestStart)
      ensures startRequested
      ensures jobs == old(jobs) + if old(startRequested) then [] else [Job(StartJob, Queued)]
    {
      StepKeepsInv(Current(), RequestStart);
      history := history.(lastRequest := Some(StartJob));
      if startRequested {
        return;
      }
      startRequested := true;
      jobs := jobs + [Job(StartJob, Queued)];
    }

    method StopNode()
      requires Valid()
      modifies this
      ensures Valid() && Current() == Apply(old(Current()), RequestStop)
      ensures !startRequested
      ensures jobs == old(jobs) + if old(startRequested) then [Job(StopJob, Queued)] else []
    {
      StepKeepsInv(Current(), RequestStop);
      history := history.(lastRequest := Some(StopJob));
      if !startRequested {
        return;
      }
      startRequested := false;
      jobs := jobs + [Job(StopJob, Queued)];
    }

    method ScheduleEventLoop()
      modifies this`runs
      ensures runs == old(runs) + [Waiting]
    {
      runs := runs + [Waiting];
    }

    /** `runStart` after its blocking call: re-reads the world it returned into, and may stop the node again. */
    method ResumeStartJob(i: nat, backgrounded: bool)
      requires Valid() && Enabled(Current(), ResumeStart(i, backgrounded))
      modifies this
      ensures Valid() && Current() == Apply(old(Current()), ResumeStart(i, backgrounded))
    {
      StepKeepsInv(Current(), ResumeStart(i, backgrounded));
      Recheck(i, backgrounded);
    }

    method Recheck(i: nat, backgrounded: bool)
      requires Enabled(Current(), ResumeStart(i, backgrounded))
      modifies this
      ensures Current() == Apply(old(Current()), ResumeStart(i, backgrounded))
      ensures startRequested ==> old(startRequested) && !backgrounded
    {
      if jobs[i].phase.outcome == Failed {
        startRequested := false;
        history := history.(startFailed := true);
        FinishJob(i);
        return;
      }
      ScheduleEventLoop();
      if !startRequested || backgrounded {
        history := history.(sawBackground := history.sawBackground || startRequested);
        startRequested := false;
        jobs := jobs[i := jobs[i].(phase := CallingStop)];
        return;
      }
      FinishJob(i);
    }

    method FinishJob(i: nat)
      requires i < |jobs|
      modifies this`jobs, this`history
      ensures jobs == old(jobs)[i := old(jobs)[i].(phase := Finished)]
      ensures history == old(history).(jobsDone := old(history).jobsDone + 1)
    {
      jobs := jobs[i := jobs[i].(phase := Finished)];
      history := history.(jobsDone := history.jobsDone + 1);
    }

    /** The loop body after `nextEvent` returned: reduce, ack whatever is at the front, leave on the terminal event. */
    method FinishEvent(r: nat)
      requires Valid() && Enabled(Current(), Ack(r))
      modifies this
      ensures Valid() && Current() == Apply(old(Current()), Ack(r))
      ensures runs == old(runs)[r := if old(runs)[r] == Handling(NodeStopped) then Exited else Polling]
      ensures queue == if old(queue) == [] then [] else old(queue)[1..]
    {
      StepKeepsInv(Current(), Ack(r));
      AckAndLoop(r);
    }

    method AckAndLoop(r: nat)
      requires Enabled(Current(), Ack(r))
      modifies this
      ensures Current() == Apply(old(Current()), Ack(r))
    {
      var handled := runs[r].event;
      if queue != [] {
        queue := queue[1..];
      }
      if handled == NodeStopped {
        runs := runs[r := Exited];
        history := history.(runsDone := history.runsDone + 1);
      } else {
        runs := runs[r := Polling];
      }
    }
  }
}
