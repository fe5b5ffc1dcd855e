/**
 The persisted handle-then-ack event queue: what it delivers, what survives a crash, and the wallet calls
 that start, stop and acknowledge over it.
 */
module EventQueue {
  import opened Prelude
  import opened WalletEvents

  // ----- The journal of a queue ---------------------------------------------------------

  /** One pushed event, and whether a purge removed it before it was acknowledged. */
  datatype Entry = Entry(event: Event, purged: bool)

  /** An acknowledged event: the number of its push, and how many purges had removed something by then. */
  datatype Acked = Acked(event: Event, id: nat, epoch: nat)

  /** A front event handed out after `position` acknowledgements, by the number of its push. */
  datatype Delivery = Delivery(position: nat, epoch: nat, event: Event, id: nat)

  datatype Journal = Journal(
    queue: seq<Event>,
    disk: seq<Event>,
    pushed: seq<Entry>,
    acked: seq<Acked>,
    deliveries: seq<Delivery>,
    epoch: nat)

  datatype Op = Push(event: Event) | Deliver | Ack | Purge | Crash

  /** Marks the queued terminal events purged: the first `skip` live entries are already acknowledged. */
  function MarkPurged(pushed: seq<Entry>, skip: nat): seq<Entry> {
    if pushed == [] then []
    else if pushed[0].purged then [pushed[0]] + MarkPurged(pushed[1..], skip)
    else if skip > 0 then [pushed[0]] + MarkPurged(pushed[1..], skip - 1)
    else [Entry(pushed[0].event, pushed[0].event == NodeStopped)] + MarkPurged(pushed[1..], 0)
  }

  /** The number of the `n`-th push that no purge has removed; past the end when there is none. */
  function LiveAt(pushed: seq<Entry>, n: nat): (id: nat)
    ensures id <= |pushed|
  {
    if pushed == [] then 0
    else if pushed[0].purged then 1 + LiveAt(pushed[1..], n)
    else if n == 0 then 0
    else 1 + LiveAt(pushed[1..], n - 1)
  }

  /** The number of the push at the front of the queue. */
  function FrontId(j: Journal): nat {
    LiveAt(j.pushed, |j.acked|)
  }

  function Do(j: Journal, op: Op): Journal {
    match op
    case Push(e) =>
      j.(queue := j.queue + [e], disk := j.queue + [e], pushed := j.pushed + [Entry(e, false)])
    case Deliver =>
      if j.queue == [] then j
      else j.(deliveries := j.deliveries + [Delivery(|j.acked|, j.epoch, j.queue[0], FrontId(j))])
    case Ack =>
      if j.queue == [] then j
      else j.(queue := j.queue[1..], disk := j.queue[1..],
              acked := j.acked + [Acked(j.queue[0], FrontId(j), j.epoch)])
    case Purge =>
      var kept := WithoutStopped(j.queue);
      if |kept| == |j.queue| then j
      else j.(queue := kept, disk := kept, pushed := MarkPurged(j.pushed, |j.acked|), epoch := j.epoch + 1)
    case Crash => j.(queue := j.disk)
  }

  function DoAll(j: Journal, ops: seq<Op>): Journal
    decreases |ops|
  {
    if ops == [] then j else Do(DoAll(j, ops[..|ops| - 1]), ops[|ops| - 1])
  }

  /** A queue just loaded: what the disk held counts as pushed. */
  function Loaded(disk: seq<Event>): Journal {
    Journal(disk, disk, seq(|disk|, i requires 0 <= i < |disk| => Entry(disk[i], false)), [], [], 0)
  }

  // ----- Conservation -------------------------------------------------------------------

  /** The pushed events that no purge removed, in order. */
  function Live(pushed: seq<Entry>): seq<Event> {
    if pushed == [] then []
    else (if pushed[0].purged then [] else [pushed[0].event]) + Live(pushed[1..])
  }

  function AckedEvents(acked: seq<Acked>): seq<Event> {
    seq(|acked|, i requires 0 <= i < |acked| => acked[i].event)
  }

  /** Pushed minus purged is acknowledged followed by queued; only terminal events are ever purged. */
  ghost predicate Conserved(j: Journal) {
    && j.disk == j.queue
    && Live(j.pushed) == AckedEvents(j.acked) + j.queue
    && forall i :: 0 <= i < |j.pushed| && j.pushed[i].purged ==> j.pushed[i].event == NodeStopped
  }

  lemma {:induction false} LiveSnoc(pushed: seq<Entry>, e: Event)
    ensures Live(pushed + [Entry(e, false)]) == Live(pushed) + [e]
    decreases |pushed|
  {
    if pushed == [] {
      assert pushed + [Entry(e, false)] == [Entry(e, false)];
    } else {
      assert (pushed + [Entry(e, false)])[1..] == pushed[1..] + [Entry(e, false)];
      LiveSnoc(pushed[1..], e);
    }
  }

  /** One live entry at the head, nothing acknowledged yet. */
  lemma {:induction false} LiveOfMarkedHead(pushed: seq<Entry>)
    requires pushed != [] && !pushed[0].purged
    requires Live(MarkPurged(pushed[1..], 0)) == Live(pushed[1..])[..0] + WithoutStopped(Live(pushed[1..])[0..])
    ensures Live(MarkPurged(pushed, 0)) == Live(pushed)[..0] + WithoutStopped(Live(pushed)[0..])
  {
    var rest, live := Live(pushed[1..]), Live(pushed);
    assert MarkPurged(pushed, 0)[1..] == MarkPurged(pushed[1..], 0);
    assert rest[0..] == rest && live[0..] == live && live[1..] == rest;
  }

  lemma {:induction false} LiveOfMarked(pushed: seq<Entry>, skip: nat)
    requires skip <= |Live(pushed)|
    ensures Live(MarkPurged(pushed, skip)) == Live(pushed)[..skip] + WithoutStopped(Live(pushed)[skip..])
    decreases |pushed|
  {
    if pushed != [] {
      var rest := pushed[1..];
      var marked := MarkPurged(pushed, skip);
      if pushed[0].purged {
        LiveOfMarked(rest, skip);
        assert marked[1..] == MarkPurged(rest, skip);
        assert Live(pushed) == Live(rest) && Live(marked) == Live(MarkPurged(rest, skip));
      } else if skip > 0 {
        var live := Live(pushed);
        assert live == [pushed[0].event] + Live(rest);
        LiveOfMarked(rest, skip - 1);
        assert marked[1..] == MarkPurged(rest, skip - 1);
        assert live[..skip] == [pushed[0].event] + Live(rest)[..skip - 1];
        assert live[skip..] == Live(rest)[skip - 1..];
      } else {
        LiveOfMarked(rest, 0);
        LiveOfMarkedHead(pushed);
      }
    }
  }

  lemma {:induction false} MarkedStayTerminal(pushed: seq<Entry>, skip: nat)
    requires forall i :: 0 <= i < |pushed| && pushed[i].purged ==> pushed[i].event == NodeStopped
    ensures var marked := MarkPurged(pushed, skip);
            && |marked| == |pushed|
            && (forall i :: 0 <= i < |pushed| ==> marked[i].event == pushed[i].event)
            && (forall i :: 0 <= i < |pushed| && marked[i].purged ==> marked[i].event == NodeStopped)
    decreases |pushed|
  {
    if pushed != [] {
      MarkedStayTerminal(pushed[1..], if pushed[0].purged then skip else if skip > 0 then skip - 1 else 0);
    }
  }

  lemma PurgeConserves(j: Journal)
    requires Conserved(j)
    ensures Conserved(Do(j, Purge))
  {
    var n := |j.acked|;
    var live := Live(j.pushed);
    assert live[..n] == AckedEvents(j.acked) && live[n..] == j.queue;
    LiveOfMarked(j.pushed, n);
    MarkedStayTerminal(j.pushed, n);
  }

  lemma OpConserves(j: Journal, op: Op)
    requires Conserved(j)
    ensures Conserved(Do(j, op))
  {
    match op
    case Push(e) => LiveSnoc(j.pushed, e);
    case Ack =>
      if j.queue != [] {
        assert AckedEvents(j.acked + [Acked(j.queue[0], FrontId(j), j.epoch)]) == AckedEvents(j.acked) + [j.queue[0]];
        assert j.queue == [j.queue[0]] + j.queue[1..];
      }
    case Purge => PurgeConserves(j);
    case _ =>
  }

  lemma {:induction false} LoadedConserves(disk: seq<Event>)
    ensures Conserved(Loaded(disk))
    decreases |disk|
  {
    var entries := Loaded(disk).pushed;
    if disk != [] {
      LoadedConserves(disk[1..]);
      assert entries[1..] == Loaded(disk[1..]).pushed;
    }
    assert Live(entries) == disk;
    assert AckedEvents([]) == [];
  }

  /** Over every run of pushes, acks, purges and crashes nothing is lost, reordered or invented. */
  lemma {:induction false} RunConserves(disk: seq<Event>, ops: seq<Op>)
    ensures Conserved(DoAll(Loaded(disk), ops))
    decreases |ops|
  {
    if ops == [] {
      LoadedConserves(disk);
    } else {
      RunConserves(disk, ops[..|ops| - 1]);
      OpConserves(DoAll(Loaded(disk), ops[..|ops| - 1]), ops[|ops| - 1]);
    }
  }

  /** The pushed events, in order. */
  function Pushes(ops: seq<Op>): seq<Event> {
    if ops == [] then []
    else Pushes(ops[..|ops| - 1]) + if ops[|ops| - 1].Push? then [ops[|ops| - 1].event] else []
  }

  function EventsOf(pushed: seq<Entry>): seq<Event> {
    seq(|pushed|, i requires 0 <= i < |pushed| => pushed[i].event)
  }

  /** The journal's pushes are what the disk held at the start and then every event pushed, in that order. */
  lemma {:induction false} EveryPushIsRecorded(disk: seq<Event>, ops: seq<Op>)
    ensures EventsOf(DoAll(Loaded(disk), ops).pushed) == disk + Pushes(ops)
    decreases |ops|
  {
    if ops == [] {
      assert EventsOf(Loaded(disk).pushed) == disk;
    } else {
      var front, op := ops[..|ops| - 1], ops[|ops| - 1];
      var j := DoAll(Loaded(disk), front);
      EveryPushIsRecorded(disk, front);
      if op.Purge? {
        RunConserves(disk, front);
        MarkedStayTerminal(j.pushed, |j.acked|);
      }
      assert EventsOf(Do(j, op).pushed) == EventsOf(j.pushed) + if op.Push? then [op.event] else [];
    }
  }

  /** A crash at any point reloads exactly the queue that was in memory. */
  lemma CrashLosesNothing(disk: seq<Event>, ops: seq<Op>)
    ensures Do(DoAll(Loaded(disk), ops), Crash) == DoAll(Loaded(disk), ops)
  {
    RunConserves(disk, ops);
  }

  // ----- Deliveries ---------------------------------------------------------------------

  lemma {:induction false} LiveAtIsLive(pushed: seq<Entry>, n: nat)
    ensures n < |Live(pushed)| <==> LiveAt(pushed, n) < |pushed|
    ensures n < |Live(pushed)| ==> pushed[LiveAt(pushed, n)] == Entry(Live(pushed)[n], false)
    decreases |pushed|
  {
    if pushed != [] {
      if pushed[0].purged {
        LiveAtIsLive(pushed[1..], n);
      } else if n > 0 {
        LiveAtIsLive(pushed[1..], n - 1);
      }
    }
  }

  lemma {:induction false} LiveAtSnoc(pushed: seq<Entry>, e: Entry, n: nat)
    requires LiveAt(pushed, n) < |pushed|
    ensures LiveAt(pushed + [e], n) == LiveAt(pushed, n)
    decreases |pushed|
  {
    assert (pushed + [e])[1..] == pushed[1..] + [e];
    if pushed[0].purged {
      LiveAtSnoc(pushed[1..], e, n);
    } else if n > 0 {
      LiveAtSnoc(pushed[1..], e, n - 1);
    }
  }

  /** A purge leaves the front push where it is, or marks it purged when it is a terminal event. */
  lemma {:induction false} LiveAtMarked(pushed: seq<Entry>, n: nat)
    requires LiveAt(pushed, n) < |pushed|
    ensures |MarkPurged(pushed, n)| == |pushed|
    ensures var id := LiveAt(pushed, n);
            && (pushed[id].event != NodeStopped ==> LiveAt(MarkPurged(pushed, n), n) == id)
            && (pushed[id].event == NodeStopped && !pushed[id].purged ==> MarkPurged(pushed, n)[id].purged)
    decreases |pushed|
  {
    if pushed[0].purged {
      assert MarkPurged(pushed, n)[1..] == MarkPurged(pushed[1..], n);
      LiveAtMarked(pushed[1..], n);
    } else if n > 0 {
      assert MarkPurged(pushed, n)[1..] == MarkPurged(pushed[1..], n - 1);
      LiveAtMarked(pushed[1..], n - 1);
    } else {
      MarkedStaysMarked(pushed, 0);
    }
  }

  lemma {:induction false} MarkedStaysMarked(pushed: seq<Entry>, skip: nat)
    ensures var marked := MarkPurged(pushed, skip);
            |marked| == |pushed| && forall i :: 0 <= i < |pushed| && pushed[i].purged ==> marked[i].purged
    decreases |pushed|
  {
    if pushed != [] {
      MarkedStaysMarked(pushed[1..], if pushed[0].purged then skip else if skip > 0 then skip - 1 else 0);
    }
  }

  /** No purge since the delivery can have removed the delivered event. */
  predicate Untouched(d: Delivery, epoch: nat) {
    d.event != NodeStopped || d.epoch == epoch
  }

  /** The ack removes the delivered push exactly when it was untouched; while it is not acked, it is the front. */
  ghost predicate DeliveryStands(j: Journal, d: Delivery) {
    && d.id < |j.pushed|
    && (d.position < |j.acked| ==>
          var ack := j.acked[d.position];
          && (ack.id == d.id <==> Untouched(d, ack.epoch))
          && (ack.id == d.id ==> ack.event == d.event))
    && (d.position == |j.acked| ==>
          if Untouched(d, j.epoch) then j.queue != [] && j.queue[0] == d.event && FrontId(j) == d.id
          else j.pushed[d.id].purged)
  }

  /** Positions never go back, and every delivery stands. */
  ghost predicate DeliveriesMatch(j: Journal) {
    && (forall i :: 0 <= i < |j.acked| ==> j.acked[i].epoch <= j.epoch)
    && (forall i :: 0 <= i < |j.deliveries| ==>
          && j.deliveries[i].position <= |j.acked|
          && j.deliveries[i].epoch <= j.epoch
          && DeliveryStands(j, j.deliveries[i]))
    && (forall i, k :: 0 <= i < k < |j.deliveries| ==> j.deliveries[i].position <= j.deliveries[k].position)
  }

  /** The front event is the front live push. */
  lemma FrontIsLive(j: Journal)
    requires Conserved(j)
    ensures j.queue != [] <==> FrontId(j) < |j.pushed|
    ensures j.queue != [] ==> j.pushed[FrontId(j)] == Entry(j.queue[0], false)
  {
    LiveAtIsLive(j.pushed, |j.acked|);
    assert |AckedEvents(j.acked)| == |j.acked|;
    assert j.queue != [] ==> Live(j.pushed)[|j.acked|] == j.queue[0];
  }

  lemma PushKeepsDelivery(j: Journal, e: Event, d: Delivery)
    requires Conserved(j) && DeliveryStands(j, d)
    ensures DeliveryStands(Do(j, Push(e)), d)
  {
    FrontIsLive(j);
    if j.queue != [] {
      LiveAtSnoc(j.pushed, Entry(e, false), |j.acked|);
    }
  }

  lemma AckKeepsDelivery(j: Journal, d: Delivery)
    requires Conserved(j) && DeliveryStands(j, d) && d.position <= |j.acked|
    ensures DeliveryStands(Do(j, Ack), d)
  {
    FrontIsLive(j);
  }

  lemma PurgeKeepsDelivery(j: Journal, d: Delivery)
    requires Conserved(j) && DeliveryStands(j, d) && d.position <= |j.acked| && d.epoch <= j.epoch
    ensures DeliveryStands(Do(j, Purge), d)
  {
    FrontIsLive(j);
    MarkedStaysMarked(j.pushed, |j.acked|);
    if d.position == |j.acked| && Untouched(d, j.epoch) {
      LiveAtMarked(j.pushed, |j.acked|);
      WithoutStoppedLength(j.queue);
    }
  }

  lemma OpKeepsDelivery(j: Journal, op: Op, d: Delivery)
    requires Conserved(j) && DeliveryStands(j, d) && d.position <= |j.acked| && d.epoch <= j.epoch
    ensures DeliveryStands(Do(j, op), d)
  {
    match op
    case Push(e) => PushKeepsDelivery(j, e, d);
    case Ack => AckKeepsDelivery(j, d);
    case Purge => PurgeKeepsDelivery(j, d);
    case _ =>
  }

  lemma OpKeepsDeliveries(j: Journal, op: Op)
    requires Conserved(j) && DeliveriesMatch(j)
    ensures DeliveriesMatch(Do(j, op))
  {
    var after := Do(j, op);
    forall i | 0 <= i < |after.deliveries|
      ensures after.deliveries[i].position <= |after.acked| && after.deliveries[i].epoch <= after.epoch
      ensures DeliveryStands(after, after.deliveries[i])
    {
      if i < |j.deliveries| {
        OpKeepsDelivery(j, op, j.deliveries[i]);
      } else {
        FrontIsLive(j);
      }
    }
  }

  /**
   Deliveries are the acknowledged order with repeats. The ack after a delivery removes the very push that was
   delivered, unless that was a terminal event and a purge fell in between: then it removes another push.
   */
  lemma {:induction false} RunKeepsDeliveries(disk: seq<Event>, ops: seq<Op>)
    ensures DeliveriesMatch(DoAll(Loaded(disk), ops))
    decreases |ops|
  {
    if ops != [] {
      RunConserves(disk, ops[..|ops| - 1]);
      RunKeepsDeliveries(disk, ops[..|ops| - 1]);
      OpKeepsDeliveries(DoAll(Loaded(disk), ops[..|ops| - 1]), ops[|ops| - 1]);
    }
  }

  /** With a purge in between, the ack of a terminal event removes an event that was never delivered. */
  lemma PurgeBetweenDeliveryAndAck()
    ensures var j := DoAll(Loaded([NodeStopped, SyncFailed]), [Deliver, Purge, Ack]);
            j.deliveries == [Delivery(0, 0, NodeStopped, 0)] && j.acked == [Acked(SyncFailed, 1, 1)] && j.queue == []
  {
    var j0 := Loaded([NodeStopped, SyncFailed]);
    assert [Deliver, Purge, Ack][..2] == [Deliver, Purge] && [Deliver, Purge][..1] == [Deliver];
    assert DoAll(j0, [Deliver]) == Do(j0, Deliver);
    assert WithoutStopped([NodeStopped, SyncFailed]) == [SyncFailed] by {
      assert [NodeStopped, SyncFailed][1..] == [SyncFailed];
      assert [SyncFailed][1..] == [];
    }
    var rest := [Entry(SyncFailed, false)];
    assert rest[1..] == [] && MarkPurged([], 0) == [];
    assert MarkPurged(rest, 0) == rest;
    assert j0.pushed[1..] == rest;
    var marked := MarkPurged(j0.pushed, 0);
    assert marked == [Entry(NodeStopped, true)] + rest && marked[1..] == rest;
    assert LiveAt(marked, 0) == 1;
  }

  // ----- The queue and the wallet calls over it -----------------------------------------

  method Retained(all: seq<Event>) returns (kept: seq<Event>)
    ensures kept == WithoutStopped(all)
  {
    kept := [];
    for i := 0 to |all|
      invariant kept == WithoutStopped(all[..i])
    {
      assert all[..i + 1] == all[..i] + [all[i]];
      WithoutStoppedSnoc(all[..i], all[i]);
      if all[i] != NodeStopped {
        kept := kept + [all[i]];
      }
    }
    assert all[..|all|] == all;
  }

  class Queue {
    var queue: seq<Event>
    var disk: seq<Event>
    ghost var journal: Journal

    ghost predicate Valid()
      reads this
    {
      queue == journal.queue && disk == journal.disk && Conserved(journal) && DeliveriesMatch(journal)
    }

    constructor (stored: seq<Event>)
      ensures Valid() && queue == stored && journal == Loaded(stored)
    {
      LoadedConserves(stored);
      queue, disk, journal := stored, stored, Loaded(stored);
    }

    method Persist()
      modifies this`disk
      ensures disk == queue
    {
      disk := queue;
    }

    method Push(e: Event)
      requires Valid()
      modifies this
      ensures Valid() && journal == Do(old(journal), Op.Push(e))
      ensures queue == old(queue) + [e] && disk == queue
    {
      OpConserves(journal, Op.Push(e));
      OpKeepsDeliveries(journal, Op.Push(e));
      journal := Do(journal, Op.Push(e));
      queue := queue + [e];
      Persist();
    }

    /** The front event, without removing it. */
    method Peek() returns (front: Option<Event>)
      requires Valid()
      modifies this`journal
      ensures Valid() && journal == Do(old(journal), Deliver)
      ensures front == if queue == [] then None else Some(queue[0])
      ensures |journal.deliveries| == |old(journal).deliveries| + if front.Some? then 1 else 0
      ensures front.Some? ==> journal.deliveries[|journal.deliveries| - 1].event == front.value
    {
      OpKeepsDeliveries(journal, Deliver);
      journal := Do(journal, Deliver);
      front := if queue == [] then None else Some(queue[0]);
    }

    method AckFront() returns (popped: Option<Event>)
      requires Valid()
      modifies this
      ensures Valid() && journal == Do(old(journal), Ack)
      ensures popped == if old(queue) == [] then None else Some(old(queue)[0])
      ensures queue == (if old(queue) == [] then [] else old(queue)[1..]) && disk == queue
    {
      OpConserves(journal, Ack);
      OpKeepsDeliveries(journal, Ack);
      journal := Do(journal, Ack);
      popped := None;
      if queue != [] {
        popped := Some(queue[0]);
        queue := queue[1..];
        Persist();
      }
    }

    /** Drops stale terminal events; rewrites the disk copy only when something was dropped. */
    method RetainNotStopped()
      requires Valid()
      modifies this
      ensures Valid() && journal == Do(old(journal), Purge)
      ensures queue == WithoutStopped(old(queue)) && disk == queue
    {
      OpConserves(journal, Purge);
      OpKeepsDeliveries(journal, Purge);
      journal := Do(journal, Purge);
      var kept := Retained(queue);
      WithoutStoppedLength(queue);
      if |kept| != |queue| {
        queue := kept;
        Persist();
      }
    }
  }

  datatype StartResult = StartOk | StartAlreadyRunning | StartFailed
  datatype StopResult = StopOk | StopPersistFailed | StopNotRunning

  class Wallet {
    const events: Queue
    var running: bool

    constructor (events: Queue)
      ensures this.events == events && !running
    {
      this.events, running := events, false;
    }

    /** `Wallet::start`: only a node that actually started purges the stale terminal events. */
    method Start(canStart: bool, synced: bool) returns (r: StartResult)
      requires events.Valid()
      modifies this, events
      ensures events.Valid() && running == (old(running) || r.StartOk?)
      ensures r.StartOk? <==> !old(running) && canStart
      ensures r.StartAlreadyRunning? <==> old(running)
      ensures r.StartOk? ==>
                events.queue == WithoutStopped(old(events.queue)) + [NodeStarted] + if synced then [] else [SyncFailed]
      ensures !r.StartOk? ==> events.journal == old(events.journal)
    {
      if running {
        return StartAlreadyRunning;
      }
      if !canStart {
        return StartFailed;
      }
      running := true;
      events.RetainNotStopped();
      events.Push(NodeStarted);
      if !synced {
        events.Push(SyncFailed);
      }
      r := StartOk;
    }

    /** `Wallet::stop`: every stop that took the node down pushes the terminal event. */
    method Stop(persisted: bool) returns (r: StopResult)
      requires events.Valid()
      modifies this, events
      ensures events.Valid() && !running
      ensures r.StopNotRunning? <==> !old(running)
      ensures events.queue == old(events.queue) + if old(running) then [NodeStopped] else []
    {
      if !running {
        return StopNotRunning;
      }
      running := false;
      events.Push(NodeStopped);
      r := if persisted then StopOk else StopPersistFailed;
    }

    /** `Wallet::event_handled`: false when no event was pending. */
    method EventHandled() returns (ok: bool)
      requires events.Valid()
      modifies events
      ensures events.Valid() && events.journal == Do(old(events.journal), Ack)
      ensures ok <==> old(events.queue) != []
      ensures events.queue == if ok then old(events.queue)[1..] else []
    {
      var popped := events.AckFront();
      ok := popped.Some?;
    }
  }
}
