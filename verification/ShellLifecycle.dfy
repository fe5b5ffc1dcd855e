/**
 The shell around the wallet core: a chain of start and stop jobs, each awaiting the one before it, and
 a chain of event-loop runs that consume the core's event queue. Requests arrive at any moment, so every
 await is a step of its own.
 */
module ShellLifecycle {
  import opened Prelude
  import opened WalletEvents

  datatype Kind = StartJob | StopJob
  datatype Outcome = Started | AlreadyRunning | Failed

  datatype Phase =
    | Queued                        // awaiting the previous job
    | CallingStart                  // inside the blocking start, the core not entered yet
    | NodeUp                        // the node runs, stale terminal events not purged yet
    | Purged                        // purged, NodeStarted not pushed yet
    | StartReturned(outcome: Outcome)  // the call is back, the job has not resumed yet
    | CallingStop                   // inside the blocking stop, the core not entered yet
    | NodeDown                      // the node is down, the terminal event not pushed yet
    | Finished

  datatype Job = Job(kind: Kind, phase: Phase)

  datatype Run =
    | Waiting                       // awaiting the previous run's exit
    | Polling                       // inside nextEvent
    | Handling(event: Event)        // between nextEvent and its ack
    | Exited

  datatype Shell = Shell(
    requested: bool,
    running: bool,
    jobs: seq<Job>,
    runs: seq<Run>,
    queue: seq<Event>,
    history: History)

  /** What has happened so far; no step reads it. */
  datatype History = History(
    lastRequest: Option<Kind>,
    startFailed: bool,
    sawBackground: bool,
    everPurged: bool,
    ups: nat,
    downs: nat,
    jobsDone: nat,
    runsDone: nat)

  datatype Step =
    | RequestStart
    | RequestStop
    | BeginJob(i: nat)
    | CoreStart(i: nat, succeeds: bool)
    | PurgeStale(i: nat)
    | AnnounceStart(i: nat)
    | ResumeStart(i: nat, backgrounded: bool)
    | CoreStop(i: nat)
    | AnnounceStop(i: nat)
    | Emit(event: Event)
    | BeginRun(r: nat)
    | Deliver(r: nat)
    | Ack(r: nat)

  predicate Initial(s: Shell) {
    && !s.requested && !s.running && s.jobs == [] && s.runs == []
    && s.history == History(None, false, false, false, 0, 0, 0, 0)
  }

  // ----- Steps --------------------------------------------------------------------------

  predicate InPhase(s: Shell, i: nat, phase: Phase) {
    i < |s.jobs| && s.jobs[i].phase == phase
  }

  predicate Enabled(s: Shell, step: Step) {
    match step
    case RequestStart => true
    case RequestStop => true
    case BeginJob(i) => InPhase(s, i, Queued) && (i == 0 || s.jobs[i - 1].phase == Finished)
    case CoreStart(i, _) => InPhase(s, i, CallingStart)
    case PurgeStale(i) => InPhase(s, i, NodeUp)
    case AnnounceStart(i) => InPhase(s, i, Purged)
    case ResumeStart(i, _) => i < |s.jobs| && s.jobs[i].phase.StartReturned?
    case CoreStop(i) => InPhase(s, i, CallingStop)
    case AnnounceStop(i) => InPhase(s, i, NodeDown)
    case Emit(event) => event != NodeStopped
    case BeginRun(r) => r < |s.runs| && s.runs[r] == Waiting && (r == 0 || s.runs[r - 1] == Exited)
    case Deliver(r) => r < |s.runs| && s.runs[r] == Polling && s.queue != []
    case Ack(r) => r < |s.runs| && s.runs[r].Handling?
  }

  function SetPhase(s: Shell, i: nat, phase: Phase): Shell
    requires i < |s.jobs|
  {
    s.(jobs := s.jobs[i := s.jobs[i].(phase := phase)],
       history := if phase == Finished then s.history.(jobsDone := s.history.jobsDone + 1) else s.history)
  }

  function Enqueue(s: Shell, kind: Kind): Shell {
    s.(jobs := s.jobs + [Job(kind, Queued)])
  }

  function Tail(queue: seq<Event>): seq<Event> {
    if queue == [] then [] else queue[1..]
  }

  /** The job a step works on, if it works on one. */
  function JobOf(step: Step): Option<nat> {
    match step
    case BeginJob(i) => Some(i)
    case CoreStart(i, _) => Some(i)
    case PurgeStale(i) => Some(i)
    case AnnounceStart(i) => Some(i)
    case ResumeStart(i, _) => Some(i)
    case CoreStop(i) => Some(i)
    case AnnounceStop(i) => Some(i)
    case _ => None
  }

  /** The phase a job step leads to. */
  function NextPhase(s: Shell, step: Step): Phase
    requires Enabled(s, step) && JobOf(step).Some?
  {
    match step
    case BeginJob(i) => if s.jobs[i].kind == StartJob then CallingStart else CallingStop
    case CoreStart(_, succeeds) =>
      if s.running then StartReturned(AlreadyRunning) else if succeeds then NodeUp else StartReturned(Failed)
    case PurgeStale(_) => Purged
    case AnnounceStart(_) => StartReturned(Started)
    case ResumeStart(i, backgrounded) =>
      if s.jobs[i].phase.outcome != Failed && (!s.requested || backgrounded) then CallingStop else Finished
    case CoreStop(_) => if s.running then NodeDown else Finished
    case AnnounceStop(_) => Finished
  }

  /** What a job step does besides moving its own job on. */
  function SideEffects(s: Shell, step: Step): (t: Shell)
    requires Enabled(s, step) && JobOf(step).Some?
    ensures t.jobs == s.jobs && t.history.jobsDone == s.history.jobsDone
  {
    match step
    case BeginJob(_) => s
    case CoreStart(_, succeeds) =>
      if s.running || !succeeds then s
      else s.(running := true, history := s.history.(ups := s.history.ups + 1))
    case PurgeStale(_) =>
      s.(queue := WithoutStopped(s.queue), history := s.history.(everPurged := true))
    case AnnounceStart(_) => s.(queue := s.queue + [NodeStarted])
    case ResumeStart(i, backgrounded) =>
      if s.jobs[i].phase.outcome == Failed then
        s.(requested := false, history := s.history.(startFailed := true))
      else
        var s := s.(runs := s.runs + [Waiting]);
        if s.requested && backgrounded then
          s.(requested := false, history := s.history.(sawBackground := true))
        else s
    case CoreStop(_) => s.(running := false)
    case AnnounceStop(_) =>
      s.(queue := s.queue + [NodeStopped], history := s.history.(downs := s.history.downs + 1))
  }

  function Apply(s: Shell, step: Step): Shell
    requires Enabled(s, step)
  {
    if JobOf(step).Some? then SetPhase(SideEffects(s, step), JobOf(step).value, NextPhase(s, step))
    else ApplyOther(s, step)
  }

  /** Requests, emitted events and the steps of event-loop runs. */
  function ApplyOther(s: Shell, step: Step): Shell
    requires Enabled(s, step) && JobOf(step).None?
  {
    match step
    case RequestStart =>
      var s := s.(history := s.history.(lastRequest := Some(StartJob)));
      if s.requested then s else Enqueue(s.(requested := true), StartJob)
    case RequestStop =>
      var s := s.(history := s.history.(lastRequest := Some(StopJob)));
      if !s.requested then s else Enqueue(s.(requested := false), StopJob)
    case Emit(event) => s.(queue := s.queue + [event])
    case BeginRun(r) => s.(runs := s.runs[r := Polling])
    case Deliver(r) => s.(runs := s.runs[r := Handling(s.queue[0])])
    case Ack(r) =>
      var handled := s.runs[r].event;
      var s := s.(queue := Tail(s.queue));
      if handled == NodeStopped then
        s.(runs := s.runs[r := Exited], history := s.history.(runsDone := s.history.runsDone + 1))
      else s.(runs := s.runs[r := Polling])
  }

  ghost predicate ValidRun(s: Shell, steps: seq<Step>)
    decreases |steps|
  {
    steps == [] || (Enabled(s, steps[0]) && ValidRun(Apply(s, steps[0]), steps[1..]))
  }

  function After(s: Shell, steps: seq<Step>): Shell
    requires ValidRun(s, steps)
    decreases |steps|
  {
    if steps == [] then s else After(Apply(s, steps[0]), steps[1..])
  }

  // ----- Invariants ---------------------------------------------------------------------

  predicate IsStopPhase(phase: Phase) {
    phase.Queued? || phase.CallingStop? || phase.NodeDown? || phase.Finished?
  }

  /** Finished jobs first, at most one job under way, the rest queued. */
  ghost predicate JobsSerialized(s: Shell) {
    && s.history.jobsDone <= |s.jobs|
    && (forall i :: 0 <= i < s.history.jobsDone ==> s.jobs[i].phase == Finished)
    && (forall i :: s.history.jobsDone <= i < |s.jobs| ==> s.jobs[i].phase != Finished)
    && (forall i :: s.history.jobsDone < i < |s.jobs| ==> s.jobs[i].phase == Queued)
    && (forall i :: 0 <= i < |s.jobs| && s.jobs[i].kind == StopJob ==>
          IsStopPhase(s.jobs[i].phase))
  }

  /** The phase of the job under way, `Finished` when there is none. */
  function Active(s: Shell): Phase {
    if s.history.jobsDone < |s.jobs| then s.jobs[s.history.jobsDone].phase else Finished
  }

  /** What the last job of the chain already settles about the node and the flag. */
  ghost predicate LastJobSettles(s: Shell) {
    if s.jobs == [] then !s.requested && !s.running
    else
      var last := s.jobs[|s.jobs| - 1];
      match last.phase
      case Queued => last.kind == StopJob ==> !s.requested
      case CallingStart => true
      case NodeUp => true
      case Purged => true
      case StartReturned(outcome) => true
      case CallingStop => !s.requested
      case NodeDown => !s.requested && !s.running
      case Finished => s.running == s.requested
  }

  /** The node is up exactly in the phases that say so. */
  ghost predicate NodeMatchesPhase(s: Shell) {
    match Active(s)
    case NodeUp => s.running
    case Purged => s.running
    case StartReturned(outcome) => s.running <==> outcome != Failed
    case NodeDown => !s.running
    case _ => true
  }

  ghost predicate FlagFollowsRequests(s: Shell) {
    !s.history.startFailed && !s.history.sawBackground ==>
      (s.requested <==> s.history.lastRequest == Some(StartJob))
  }

  ghost predicate LifecycleInv(s: Shell) {
    JobsSerialized(s) && LastJobSettles(s) && NodeMatchesPhase(s) && FlagFollowsRequests(s)
  }

  /** Exited runs first, at most one run consuming, the rest waiting. */
  ghost predicate RunsSerialized(s: Shell) {
    && s.history.runsDone <= |s.runs|
    && (forall r :: 0 <= r < s.history.runsDone ==> s.runs[r] == Exited)
    && (forall r :: s.history.runsDone <= r < |s.runs| ==> s.runs[r] != Exited)
    && (forall r :: s.history.runsDone < r < |s.runs| ==> s.runs[r] == Waiting)
  }

  function Bit(b: bool): nat {
    if b then 1 else 0
  }

  ghost predicate HoldsTerminal(s: Shell) {
    s.history.runsDone < |s.runs| && s.runs[s.history.runsDone] == Handling(NodeStopped)
  }

  /** The queued events beyond the one the consuming run is about to pop with its terminal event. */
  ghost function Unclaimed(s: Shell): seq<Event> {
    if HoldsTerminal(s) then Tail(s.queue) else s.queue
  }

  function Terminals(queue: seq<Event>): nat {
    multiset(queue)[NodeStopped]
  }

  lemma TerminalsOfAppend(queue: seq<Event>, e: Event)
    ensures Terminals(queue + [e]) == Terminals(queue) + Bit(e == NodeStopped)
    ensures Terminals(Tail(queue + [e])) <= Terminals(Tail(queue)) + Bit(e == NodeStopped)
  {
    if queue == [] {
      assert queue + [e] == [e];
    } else {
      assert Tail(queue + [e]) == Tail(queue) + [e];
    }
  }

  lemma TerminalsOfTail(queue: seq<Event>)
    ensures Terminals(queue) == Terminals(Tail(queue)) + Bit(queue != [] && queue[0] == NodeStopped)
  {
    if queue != [] {
      assert queue == [queue[0]] + queue[1..];
    }
  }

  lemma TerminalsAfterPurge(queue: seq<Event>)
    ensures Terminals(WithoutStopped(queue)) == 0 && Terminals(Tail(WithoutStopped(queue))) == 0
  {
    assert NodeStopped !in multiset(WithoutStopped(queue));
    TerminalsOfTail(WithoutStopped(queue));
  }

  ghost predicate Unresumed(s: Shell) {
    Active(s) == NodeUp || Active(s) == Purged || Active(s) == StartReturned(Started)
  }

  /** Each terminal event ends at most one run; each effective start schedules one. */
  ghost predicate RunsBalance(s: Shell) {
    && s.history.ups == s.history.downs + Bit(s.running) + Bit(Active(s) == NodeDown)
    && |s.runs| + Bit(Unresumed(s)) >= s.history.ups
    && (s.history.everPurged ==>
          s.history.runsDone + Bit(HoldsTerminal(s)) + Terminals(Unclaimed(s)) <= s.history.downs)
    && (!s.history.everPurged ==>
          && s.runs == [] && s.history.downs == 0
          && (s.running ==> Active(s) == NodeUp)
          && Active(s) != Purged && Active(s) != NodeDown)
  }

  ghost predicate Inv(s: Shell) {
    LifecycleInv(s) && RunsSerialized(s) && RunsBalance(s)
  }

  lemma SetPhaseKeepsSerialized(s: Shell, phase: Phase)
    requires JobsSerialized(s) && s.history.jobsDone < |s.jobs|
    requires s.jobs[s.history.jobsDone].kind == StopJob ==> IsStopPhase(phase)
    ensures JobsSerialized(SetPhase(s, s.history.jobsDone, phase))
  {
  }

  lemma StopJobsStop(s: Shell, step: Step)
    requires JobsSerialized(s) && Enabled(s, step) && JobOf(step).Some?
    requires s.jobs[JobOf(step).value].kind == StopJob
    ensures IsStopPhase(NextPhase(s, step))
  {
    assert IsStopPhase(s.jobs[JobOf(step).value].phase);
  }

  lemma StepKeepsJobsSerialized(s: Shell, step: Step)
    requires JobsSerialized(s) && Enabled(s, step)
    ensures JobsSerialized(Apply(s, step))
  {
    if JobOf(step).Some? {
      if s.jobs[s.history.jobsDone].kind == StopJob {
        StopJobsStop(s, step);
      }
      SetPhaseKeepsSerialized(SideEffects(s, step), NextPhase(s, step));
    }
  }

  lemma StepKeepsSettled(s: Shell, step: Step)
    requires LifecycleInv(s) && Enabled(s, step)
    ensures LastJobSettles(Apply(s, step))
  {
    if JobOf(step).Some? {
      var i := s.history.jobsDone;
      assert i < |s.jobs| - 1 ==> s.jobs[|s.jobs| - 1].phase == Queued;
    }
  }

  lemma StepKeepsNodeMatch(s: Shell, step: Step)
    requires LifecycleInv(s) && Enabled(s, step)
    ensures NodeMatchesPhase(Apply(s, step))
  {
  }

  lemma StepKeepsLifecycle(s: Shell, step: Step)
    requires LifecycleInv(s) && Enabled(s, step)
    ensures LifecycleInv(Apply(s, step))
  {
    StepKeepsJobsSerialized(s, step);
    StepKeepsSettled(s, step);
    StepKeepsNodeMatch(s, step);
  }

  lemma StepKeepsRunsSerialized(s: Shell, step: Step)
    requires RunsSerialized(s) && Enabled(s, step)
    ensures RunsSerialized(Apply(s, step))
  {
    if JobOf(step).Some? {
      var t := SideEffects(s, step);
      assert t.runs == s.runs || t.runs == s.runs + [Waiting];
      assert RunsSerialized(t);
    } else {
      RunStepKeepsRunsSerialized(s, step);
    }
  }

  lemma RunStepKeepsRunsSerialized(s: Shell, step: Step)
    requires RunsSerialized(s) && Enabled(s, step) && JobOf(step).None?
    ensures RunsSerialized(ApplyOther(s, step))
  {
  }

  /** After a job step, the active phase is the step's own, or that of a job not begun. */
  lemma ActiveAfter(s: Shell, step: Step)
    requires JobsSerialized(s) && Enabled(s, step) && JobOf(step).Some?
    ensures NextPhase(s, step) != Finished ==> Active(Apply(s, step)) == NextPhase(s, step)
    ensures NextPhase(s, step) == Finished ==> Active(Apply(s, step)) == Queued || Active(Apply(s, step)) == Finished
    ensures Active(s) == s.jobs[JobOf(step).value].phase
  {
  }

  lemma StartStepKeepsBalance(s: Shell, step: Step)
    requires Inv(s) && Enabled(s, step)
    requires step.BeginJob? || step.CoreStart? || step.PurgeStale? || step.AnnounceStart?
    ensures RunsBalance(Apply(s, step))
  {
    ActiveAfter(s, step);
    if step.PurgeStale? {
      TerminalsAfterPurge(s.queue);
    } else if step.AnnounceStart? {
      TerminalsOfAppend(s.queue, NodeStarted);
    }
  }

  lemma ResumeKeepsBalance(s: Shell, step: Step)
    requires Inv(s) && Enabled(s, step) && step.ResumeStart?
    ensures RunsBalance(Apply(s, step))
  {
    ActiveAfter(s, step);
  }

  lemma StopStepKeepsBalance(s: Shell, step: Step)
    requires Inv(s) && Enabled(s, step)
    requires step.CoreStop? || step.AnnounceStop?
    ensures RunsBalance(Apply(s, step))
  {
    ActiveAfter(s, step);
    if step.AnnounceStop? {
      TerminalsOfAppend(s.queue, NodeStopped);
    }
  }

  lemma RequestKeepsBalance(s: Shell, step: Step)
    requires Inv(s) && Enabled(s, step)
    requires step.RequestStart? || step.RequestStop? || step.Emit?
    ensures RunsBalance(Apply(s, step))
  {
    assert Active(Apply(s, step)) == Active(s) || (Active(s) == Finished && Active(Apply(s, step)) == Queued);
    if step.Emit? {
      TerminalsOfAppend(s.queue, step.event);
    }
  }

  lemma RunStepKeepsBalance(s: Shell, step: Step)
    requires Inv(s) && Enabled(s, step)
    requires step.BeginRun? || step.Deliver?
    ensures RunsBalance(Apply(s, step))
  {
    assert step.r == s.history.runsDone;
    TerminalsOfTail(s.queue);
  }

  lemma AckKeepsBalance(s: Shell, step: Step)
    requires Inv(s) && Enabled(s, step) && step.Ack?
    ensures RunsBalance(Apply(s, step))
  {
    assert step.r == s.history.runsDone;
    TerminalsOfTail(s.queue);
  }

  lemma StepKeepsInv(s: Shell, step: Step)
    requires Inv(s) && Enabled(s, step)
    ensures Inv(Apply(s, step))
  {
    StepKeepsLifecycle(s, step);
    StepKeepsRunsSerialized(s, step);
    match step
    case ResumeStart(_, _) => ResumeKeepsBalance(s, step);
    case CoreStop(_) => StopStepKeepsBalance(s, step);
    case AnnounceStop(_) => StopStepKeepsBalance(s, step);
    case RequestStart => RequestKeepsBalance(s, step);
    case RequestStop => RequestKeepsBalance(s, step);
    case Emit(_) => RequestKeepsBalance(s, step);
    case BeginRun(_) => RunStepKeepsBalance(s, step);
    case Deliver(_) => RunStepKeepsBalance(s, step);
    case Ack(_) => AckKeepsBalance(s, step);
    case _ => StartStepKeepsBalance(s, step);
  }

  lemma {:induction false} RunKeepsInv(s: Shell, steps: seq<Step>)
    requires Inv(s) && ValidRun(s, steps)
    ensures Inv(After(s, steps))
    decreases |steps|
  {
    if steps != [] {
      StepKeepsInv(s, steps[0]);
      RunKeepsInv(Apply(s, steps[0]), steps[1..]);
    }
  }

  // ----- Theorems -----------------------------------------------------------------------

  /** A lifecycle call of the shell is under way in this job. */
  predicate InFlight(job: Job) {
    job.phase != Queued && job.phase != Finished
  }

  predicate Drained(s: Shell) {
    forall i :: 0 <= i < |s.jobs| ==> s.jobs[i].phase == Finished
  }

  /** The run is between `nextEvent` and its ack, or about to take the next event. */
  predicate Consuming(run: Run) {
    run.Polling? || run.Handling?
  }

  /**
   In every interleaving: at most one lifecycle call is in flight; once the chain drains the node runs
   exactly when the flag is set; and without a failed start or a background re-check that is what was
   last requested.
   */
  lemma LifecycleTheorem(s: Shell, steps: seq<Step>)
    requires Initial(s) && ValidRun(s, steps)
    ensures var t := After(s, steps);
            && (forall i, j :: 0 <= i < j < |t.jobs| ==> !(InFlight(t.jobs[i]) && InFlight(t.jobs[j])))
            && (Drained(t) ==> t.running == t.requested)
            && (Drained(t) && !t.history.startFailed && !t.history.sawBackground ==>
                  (t.running <==> t.history.lastRequest == Some(StartJob)))
  {
    RunKeepsInv(s, steps);
    var t := After(s, steps);
    if Drained(t) && t.jobs != [] {
      assert t.jobs[|t.jobs| - 1].phase == Finished;
    }
  }

  /**
   In every interleaving: at most one run consumes the queue, and a running node whose start job has
   resumed has a scheduled run that has not exited.
   */
  lemma EventLoopTheorem(s: Shell, steps: seq<Step>)
    requires Initial(s) && ValidRun(s, steps)
    ensures var t := After(s, steps);
            && (forall i, j :: 0 <= i < j < |t.runs| ==> !(Consuming(t.runs[i]) && Consuming(t.runs[j])))
            && (t.running && !Unresumed(t) ==> exists r :: 0 <= r < |t.runs| && t.runs[r] != Exited)
  {
    RunKeepsInv(s, steps);
    var t := After(s, steps);
    if t.running && !Unresumed(t) {
      assert t.history.runsDone < |t.runs|;
      assert t.runs[t.history.runsDone] != Exited;
    }
  }

  // ----- What was asked for -------------------------------------------------------------

  /** What the step decides about the flag: requests set it, and a start that failed or came back hidden clears it. */
  function Decision(s: Shell, step: Step): Option<bool>
    requires Enabled(s, step)
  {
    match step
    case RequestStart => Some(true)
    case RequestStop => Some(false)
    case ResumeStart(i, backgrounded) =>
      if backgrounded || s.jobs[i].phase == StartReturned(Failed) then Some(false) else None
    case _ => None
  }

  ghost function LastDecision(before: bool, s: Shell, steps: seq<Step>): bool
    requires ValidRun(s, steps)
    decreases |steps|
  {
    if steps == [] then before
    else
      var decided := Decision(s, steps[0]);
      LastDecision(if decided.Some? then decided.value else before, Apply(s, steps[0]), steps[1..])
  }

  lemma {:induction false} FlagIsLastDecision(s: Shell, steps: seq<Step>)
    requires ValidRun(s, steps)
    ensures After(s, steps).requested == LastDecision(s.requested, s, steps)
    decreases |steps|
  {
    if steps != [] {
      FlagIsLastDecision(Apply(s, steps[0]), steps[1..]);
    }
  }

  /** In every interleaving, once the chain drains the node runs exactly if the last decision of the run says so. */
  lemma DrainedFollowsLastDecision(s: Shell, steps: seq<Step>)
    requires Initial(s) && ValidRun(s, steps)
    ensures Drained(After(s, steps)) ==> (After(s, steps).running <==> LastDecision(false, s, steps))
  {
    FlagIsLastDecision(s, steps);
    LifecycleTheorem(s, steps);
  }

  // ----- When a run ends ----------------------------------------------------------------

  /**
   Run `r` acknowledges an event that was `NodeStopped` when the queue delivered it; `held` is what it was
   delivered before and has not acknowledged yet.
   */
  ghost predicate AcksTerminal(s: Shell, steps: seq<Step>, r: nat, held: Option<Event>)
    requires ValidRun(s, steps)
    decreases |steps|
  {
    steps != [] &&
    match steps[0]
    case Deliver(q) =>
      AcksTerminal(Apply(s, steps[0]), steps[1..], r, if q == r then Some(s.queue[0]) else held)
    case Ack(q) =>
      || (q == r && held == Some(NodeStopped))
      || AcksTerminal(Apply(s, steps[0]), steps[1..], r, if q == r then None else held)
    case _ => AcksTerminal(Apply(s, steps[0]), steps[1..], r, held)
  }

  predicate HasExited(s: Shell, r: nat) {
    r < |s.runs| && s.runs[r] == Exited
  }

  /** What run `r` has been delivered and not acknowledged. */
  function Held(s: Shell, r: nat): Option<Event> {
    if r < |s.runs| && s.runs[r].Handling? then Some(s.runs[r].event) else None
  }

  lemma StepOfRun(s: Shell, step: Step, r: nat)
    requires Enabled(s, step)
    ensures HasExited(Apply(s, step), r) <==> HasExited(s, r) || (step == Ack(r) && Held(s, r) == Some(NodeStopped))
    ensures Held(Apply(s, step), r) ==
            if step == Deliver(r) then Some(s.queue[0]) else if step == Ack(r) then None else Held(s, r)
  {
    if JobOf(step).Some? {
      assert SideEffects(s, step).runs == s.runs || SideEffects(s, step).runs == s.runs + [Waiting];
    }
  }

  lemma {:induction false} ExitsIffAcksTerminal(s: Shell, steps: seq<Step>, r: nat)
    requires ValidRun(s, steps)
    ensures HasExited(After(s, steps), r) <==> HasExited(s, r) || AcksTerminal(s, steps, r, Held(s, r))
    decreases |steps|
  {
    if steps != [] {
      StepOfRun(s, steps[0], r);
      ExitsIffAcksTerminal(Apply(s, steps[0]), steps[1..], r);
    }
  }

  /** The acknowledgements that end a run. */
  ghost function TerminalAcks(s: Shell, steps: seq<Step>): nat
    requires ValidRun(s, steps)
    decreases |steps|
  {
    if steps == [] then 0
    else
      TerminalAcks(Apply(s, steps[0]), steps[1..])
      + Bit(steps[0].Ack? && Held(s, steps[0].r) == Some(NodeStopped))
  }

  lemma {:induction false} ExitsAreCounted(s: Shell, steps: seq<Step>)
    requires ValidRun(s, steps)
    ensures After(s, steps).history.runsDone == s.history.runsDone + TerminalAcks(s, steps)
    decreases |steps|
  {
    if steps != [] {
      ExitsAreCounted(Apply(s, steps[0]), steps[1..]);
    }
  }

  /**
   Over every run of the shell: an event-loop run has exited exactly when it acknowledged a `NodeStopped` that the
   queue had delivered to it, and as many have exited as there were such acknowledgements, oldest first.
   */
  lemma RunsEndOnTheTerminalEvent(s: Shell, steps: seq<Step>)
    requires Initial(s) && ValidRun(s, steps)
    ensures var t := After(s, steps);
            && (forall r: nat :: HasExited(t, r) <==> AcksTerminal(s, steps, r, None))
            && (forall r: nat :: HasExited(t, r) <==> r < TerminalAcks(s, steps))
  {
    RunKeepsInv(s, steps);
    ExitsAreCounted(s, steps);
    forall r: nat ensures HasExited(After(s, steps), r) <==> AcksTerminal(s, steps, r, None) {
      ExitsIffAcksTerminal(s, steps, r);
    }
  }

  /** The consuming run always has a step to take once the queue holds an event. */
  lemma LoopProgress(s: Shell)
    requires Inv(s) && s.history.runsDone < |s.runs| && s.queue != []
    ensures var r := s.history.runsDone;
            match s.runs[r]
            case Waiting => Enabled(s, BeginRun(r)) && Apply(s, BeginRun(r)).runs == s.runs[r := Polling]
            case Polling => Enabled(s, Deliver(r)) && Apply(s, Deliver(r)).runs == s.runs[r := Handling(s.queue[0])]
            case Handling(_) => Enabled(s, Ack(r)) && Apply(s, Ack(r)).queue == s.queue[1..]
            case Exited => false
  {
    assert s.runs[s.history.runsDone] != Exited;
  }

  /** The terminal event hands over to the next run; any other event takes the same run back to the queue. */
  lemma AckHandsOver(s: Shell, r: nat)
    requires Inv(s) && Held(s, r).Some?
    ensures Enabled(s, Ack(r))
    ensures Held(s, r) != Some(NodeStopped) ==> Apply(s, Ack(r)).runs == s.runs[r := Polling]
    ensures Held(s, r) == Some(NodeStopped) ==>
              && Apply(s, Ack(r)).runs == s.runs[r := Exited]
              && (r + 1 < |s.runs| ==> s.runs[r + 1] == Waiting && Enabled(Apply(s, Ack(r)), BeginRun(r + 1)))
  {
    assert r == s.history.runsDone;
  }

  // ----- The queue of the shell ---------------------------------------------------------

  /** What the step puts into the queue. */
  function Enqueued(step: Step): seq<Event> {
    match step
    case AnnounceStart(_) => [NodeStarted]
    case AnnounceStop(_) => [NodeStopped]
    case Emit(event) => [event]
    case _ => []
  }

  ghost function AllEnqueued(s: Shell, steps: seq<Step>): seq<Event>
    requires ValidRun(s, steps)
    decreases |steps|
  {
    if steps == [] then [] else Enqueued(steps[0]) + AllEnqueued(Apply(s, steps[0]), steps[1..])
  }

  /** What the step takes off the front of the queue. */
  function Popped(s: Shell, step: Step): seq<Event> {
    if step.Ack? && s.queue != [] then [s.queue[0]] else []
  }

  /** What acknowledgements popped. */
  ghost function AllPopped(s: Shell, steps: seq<Step>): seq<Event>
    requires ValidRun(s, steps)
    decreases |steps|
  {
    if steps == [] then [] else Popped(s, steps[0]) + AllPopped(Apply(s, steps[0]), steps[1..])
  }

  lemma QueueOfStep(s: Shell, step: Step)
    requires Enabled(s, step) && !step.PurgeStale?
    ensures s.queue + Enqueued(step) == Popped(s, step) + Apply(s, step).queue
  {
    if step.Ack? && s.queue != [] {
      assert s.queue == [s.queue[0]] + s.queue[1..];
    }
  }

  /** One step: what it pops and what is left are what was there and what it put in, up to terminal events. */
  lemma StepConserves(s: Shell, step: Step)
    requires Enabled(s, step)
    ensures WithoutStopped(s.queue) + WithoutStopped(Enqueued(step)) ==
            WithoutStopped(Popped(s, step)) + WithoutStopped(Apply(s, step).queue)
  {
    if step.PurgeStale? {
      PurgingTwice(s.queue);
    } else {
      QueueOfStep(s, step);
      WithoutStoppedConcat(s.queue, Enqueued(step));
      WithoutStoppedConcat(Popped(s, step), Apply(s, step).queue);
    }
  }

  /**
   Over every run of the shell no event but a terminal one is lost, doubled or reordered: what was queued at the
   start and put in since is what acknowledgements popped followed by what is queued.
   */
  lemma {:induction false} QueueConserves(s: Shell, steps: seq<Step>)
    requires ValidRun(s, steps)
    ensures WithoutStopped(s.queue) + WithoutStopped(AllEnqueued(s, steps)) ==
            WithoutStopped(AllPopped(s, steps)) + WithoutStopped(After(s, steps).queue)
    decreases |steps|
  {
    if steps != [] {
      var next, rest := Apply(s, steps[0]), steps[1..];
      QueueConserves(next, rest);
      StepConserves(s, steps[0]);
      WithoutStoppedConcat(Enqueued(steps[0]), AllEnqueued(next, rest));
      WithoutStoppedConcat(Popped(s, steps[0]), AllPopped(next, rest));
      ShiftAcross(WithoutStopped(s.queue), WithoutStopped(Enqueued(steps[0])), WithoutStopped(AllEnqueued(next, rest)),
                  WithoutStopped(Popped(s, steps[0])), WithoutStopped(next.queue),
                  WithoutStopped(AllPopped(next, rest)), WithoutStopped(After(next, rest).queue));
    }
  }

  lemma ShiftAcross<T>(q: seq<T>, e: seq<T>, es: seq<T>, p: seq<T>, next: seq<T>, ps: seq<T>, end: seq<T>)
    requires q + e == p + next && next + es == ps + end
    ensures q + (e + es) == (p + ps) + end
  {
    assert q + (e + es) == (q + e) + es;
    assert (p + next) + es == p + (next + es);
    assert p + (ps + end) == (p + ps) + end;
  }

  // ----- Progress -----------------------------------------------------------------------

  function Remaining(phase: Phase): nat {
    match phase
    case Queued => 7
    case CallingStart => 6
    case NodeUp => 5
    case Purged => 4
    case StartReturned(_) => 3
    case CallingStop => 2
    case NodeDown => 1
    case Finished => 0
  }

  /** Job steps still needed to drain the chain, at most. */
  function Work(jobs: seq<Job>): nat {
    if jobs == [] then 0 else Remaining(jobs[0].phase) + Work(jobs[1..])
  }

  lemma {:induction false} WorkOfUpdate(jobs: seq<Job>, i: nat, job: Job)
    requires i < |jobs|
    ensures Work(jobs[i := job]) + Remaining(jobs[i].phase) == Work(jobs) + Remaining(job.phase)
    decreases |jobs|
  {
    if i == 0 {
      assert jobs[i := job][1..] == jobs[1..];
    } else {
      assert jobs[i := job][1..] == jobs[1..][i - 1 := job];
      WorkOfUpdate(jobs[1..], i - 1, job);
    }
  }

  lemma JobStepShrinksWork(s: Shell, step: Step)
    requires JobsSerialized(s) && Enabled(s, step) && JobOf(step).Some?
    ensures Work(Apply(s, step).jobs) < Work(s.jobs)
  {
    var i := JobOf(step).value;
    WorkOfUpdate(s.jobs, i, s.jobs[i].(phase := NextPhase(s, step)));
    assert Remaining(NextPhase(s, step)) < Remaining(s.jobs[i].phase);
  }

  /** A step the active job can take. */
  function NextStep(s: Shell): Step {
    var i := s.history.jobsDone;
    match Active(s)
    case Queued => BeginJob(i)
    case CallingStart => CoreStart(i, true)
    case NodeUp => PurgeStale(i)
    case Purged => AnnounceStart(i)
    case StartReturned(_) => ResumeStart(i, false)
    case CallingStop => CoreStop(i)
    case NodeDown => AnnounceStop(i)
    case Finished => RequestStop
  }

  /** The chain never deadlocks, and every job step brings it closer to drained. */
  lemma ChainProgress(s: Shell)
    requires Inv(s) && !Drained(s)
    ensures JobOf(NextStep(s)).Some? && Enabled(s, NextStep(s))
    ensures forall step :: JobOf(step).Some? && Enabled(s, step) ==> Work(Apply(s, step).jobs) < Work(s.jobs)
  {
    assert s.history.jobsDone < |s.jobs|;
    forall step | JobOf(step).Some? && Enabled(s, step) ensures Work(Apply(s, step).jobs) < Work(s.jobs) {
      JobStepShrinksWork(s, step);
    }
  }
}
