/**
 The wake-up protocol of the event queue: pushers append under the lock and notify afterwards, the one
 consumer peeks and then waits on a notifier that stores at most one permit.
 */
module EventWakeup {
  import opened WalletEvents

  datatype Consumer =
    | Away          // not inside `next`
    | Peeking       // about to look at the front
    | AboutToWait   // saw an empty queue, not waiting yet
    | Blocked       // registered with the notifier

  datatype World = World(queue: seq<Event>, permit: bool, unnotified: nat, consumer: Consumer)

  datatype Step =
    | Append(event: Event)
    | Notify
    | CallNext
    | Peek
    | Await
    | Ack
    | Purge

  predicate Enabled(w: World, step: Step) {
    match step
    case Append(_) => true
    case Notify => w.unnotified > 0
    case CallNext => w.consumer == Away
    case Peek => w.consumer == Peeking
    case Await => w.consumer == AboutToWait
    case Ack => true
    case Purge => true
  }

  function Apply(w: World, step: Step): World
    requires Enabled(w, step)
  {
    match step
    case Append(e) => w.(queue := w.queue + [e], unnotified := w.unnotified + 1)
    case Notify =>
      var w := w.(unnotified := w.unnotified - 1);
      if w.consumer == Blocked then w.(consumer := Peeking) else w.(permit := true)
    case CallNext => w.(consumer := Peeking)
    case Peek => w.(consumer := if w.queue == [] then AboutToWait else Away)
    case Await => if w.permit then w.(permit := false, consumer := Peeking) else w.(consumer := Blocked)
    case Ack => if w.queue == [] then w else w.(queue := w.queue[1..])
    case Purge => w.(queue := WithoutStopped(w.queue))
  }

  ghost predicate ValidRun(w: World, steps: seq<Step>)
    decreases |steps|
  {
    steps == [] || (Enabled(w, steps[0]) && ValidRun(Apply(w, steps[0]), steps[1..]))
  }

  function After(w: World, steps: seq<Step>): World
    requires ValidRun(w, steps)
    decreases |steps|
  {
    if steps == [] then w else After(Apply(w, steps[0]), steps[1..])
  }

  /** A consumer past its last look at the queue has a wake-up stored or still coming, unless it missed nothing. */
  ghost predicate WakeupStored(w: World) {
    && (w.consumer == AboutToWait && w.queue != [] ==> w.permit || w.unnotified > 0)
    && (w.consumer == Blocked ==> !w.permit && (w.queue != [] ==> w.unnotified > 0))
  }

  lemma {:induction false} RunKeepsWakeup(w: World, steps: seq<Step>)
    requires WakeupStored(w) && ValidRun(w, steps)
    ensures WakeupStored(After(w, steps))
    decreases |steps|
  {
    if steps != [] {
      RunKeepsWakeup(Apply(w, steps[0]), steps[1..]);
    }
  }

  /** `next` returns exactly when it sees an event; it blocks exactly when it saw none and no permit is stored. */
  lemma NextReturnsOnAnEvent(w: World)
    ensures Enabled(w, Peek) ==> Apply(w, Peek).consumer == if w.queue != [] then Away else AboutToWait
    ensures Enabled(w, Await) ==> Apply(w, Await).consumer == if w.permit then Peeking else Blocked
    ensures Enabled(w, CallNext) ==> Apply(w, CallNext).consumer == Peeking
  {
  }

  /** Only a push, an ack and a purge touch the queue, each at its own end or on terminal events alone. */
  lemma QueueChangesOnlyBy(w: World, step: Step)
    requires Enabled(w, step)
    ensures Apply(w, step).queue == match step
                                    case Append(e) => w.queue + [e]
                                    case Ack => if w.queue == [] then [] else w.queue[1..]
                                    case Purge => WithoutStopped(w.queue)
                                    case _ => w.queue
  {
  }

  /** While an event is queued, the consumer or a pusher has a step that takes the consumer to its event. */
  lemma ConsumerGetsThere(w: World)
    requires WakeupStored(w) && w.queue != []
    ensures match w.consumer
            case Away => Enabled(w, CallNext)
            case Peeking => Enabled(w, Peek) && Apply(w, Peek).consumer == Away
            case AboutToWait => Enabled(w, Await) && (w.permit ==> Apply(w, Await).consumer == Peeking)
            case Blocked => Enabled(w, Notify) && Apply(w, Notify).consumer == Peeking
  {
  }

  /**
   No lost wake-up: in every interleaving of many pushers, acks and purges with one consumer, a blocked
   consumer faces an empty queue or a pusher that has not notified yet.
   */
  lemma NoLostWakeup(stored: seq<Event>, steps: seq<Step>)
    requires ValidRun(World(stored, false, 0, Away), steps)
    ensures var w := After(World(stored, false, 0, Away), steps);
            w.consumer == Blocked ==> w.queue == [] || w.unnotified > 0
  {
    RunKeepsWakeup(World(stored, false, 0, Away), steps);
  }
}
