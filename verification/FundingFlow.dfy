/**
 The funding flow over its two durable stores. A funding transaction is written to the funding store
 before LDK hears of it, and moves to the pending-broadcast store before it leaves the funding store.
 Every write is a step of its own, so a crash may fall between any two of them. A transaction is
 identified by its txid.
 */
module FundingFlow {
  import opened Prelude

  const PENDING_BROADCAST_TTL_SECS: nat := 48 * 60 * 60
  const BCAST_PACKAGE_QUEUE_SIZE: nat := 50

  type Txid = string

  /** How far the event handler has come with the event it is handling. */
  datatype Handler =
    | Idle
    | Built(temp: string, tx: Txid)           // funding transaction built and signed
    | Stored(temp: string, tx: Txid)          // in the funding store, LDK not notified yet
    | SafeRead(temp: string, tx: Txid)        // broadcast-safe: read back from the funding store
    | SafePending(temp: string, tx: Txid)     // in the pending-broadcast store
    | SafeQueued(temp: string, tx: Txid)      // offered to the send queue
    | DiscardFound(channel: string, temp: string)
    | DiscardRemoved(channel: string)

  datatype Flow = Flow(
    // on disk
    funding: map<string, Txid>,
    idMap: map<string, string>,
    pending: map<Txid, nat>,
    // in memory
    handler: Handler,
    queue: seq<Txid>,
    sending: seq<Txid>,
    clearing: set<Txid>,
    expiring: set<Txid>,
    history: History)

  /** What has happened so far; it decides nothing. */
  datatype History = History(
    others: set<Txid>,
    notified: set<Txid>,
    safe: set<Txid>,
    handed: set<Txid>,
    known: set<Txid>,
    discarded: set<Txid>,
    lapsed: set<Txid>,
    overwritten: set<Txid>,
    undone: set<Txid>)

  datatype Step =
    | GenerationReady(temp: string, tx: Txid)
    | PersistFunding(ok: bool)
    | NotifyLdk
    | BroadcastSafe(temp: string)
    | PersistPending(nowSecs: nat)
    | TrySend
    | DropFunding
    | RecordIdMap(channel: string, temp: string)
    | DiscardFunding(channel: string)
    | DiscardDropTx
    | DiscardDropMap
    | OtherBroadcast(tx: Txid, nowSecs: nat)
    | TakeQueued
    | Send(k: nat, success: bool)
    | ClearPending(tx: Txid)
    | DrainRead(tx: Txid, nowSecs: nat)
    | DrainRemove(tx: Txid)
    | Crash

  /** LDK was told of it, and nothing has settled it since. */
  predicate Unsettled(h: History, tx: Txid) {
    && tx in h.notified && tx !in h.known && tx !in h.discarded
    && tx !in h.lapsed && tx !in h.overwritten && tx !in h.undone
  }

  /** A pending entry written now makes up for an expiry, an overwrite or a removal before it. */
  function Repersisted(h: History, tx: Txid): History {
    h.(lapsed := h.lapsed - {tx}, overwritten := h.overwritten - {tx}, undone := h.undone - {tx})
  }

  /** What the disk holds of `tx` besides the funding entry of `temp`. */
  predicate ElsewhereOnDisk(s: Flow, temp: string, tx: Txid) {
    tx in s.pending || exists other :: other in s.funding && other != temp && s.funding[other] == tx
  }

  /** Storing `tx` under `temp` overwrites no unsettled transaction that is nowhere else on disk. */
  predicate MayOverwrite(s: Flow, temp: string, tx: Txid) {
    temp in s.funding && s.funding[temp] != tx && Unsettled(s.history, s.funding[temp]) ==>
      ElsewhereOnDisk(s, temp, s.funding[temp])
  }

  predicate Fresh(createdAt: nat, nowSecs: nat) {
    SaturatingSub(nowSecs, createdAt) <= PENDING_BROADCAST_TTL_SECS
  }

  predicate Enabled(s: Flow, step: Step) {
    match step
    case GenerationReady(_, _) => s.handler.Idle?
    case PersistFunding(_) => s.handler.Built?
    case NotifyLdk => s.handler.Stored?
    case BroadcastSafe(_) => s.handler.Idle?
    case PersistPending(_) => s.handler.SafeRead?
    case TrySend => s.handler.SafePending?
    case DropFunding => s.handler.SafeQueued?
    case RecordIdMap(_, _) => s.handler.Idle?
    case DiscardFunding(_) => s.handler.Idle?
    case DiscardDropTx => s.handler.DiscardFound?
    case DiscardDropMap => s.handler.DiscardRemoved?
    case OtherBroadcast(_, _) => true
    case TakeQueued => s.queue != []
    case Send(k, _) => k < |s.sending|
    case ClearPending(tx) => tx in s.clearing
    case DrainRead(tx, _) => tx in s.pending
    case DrainRemove(tx) => tx in s.expiring
    case Crash => true
  }

  function Offer(queue: seq<Txid>, tx: Txid): seq<Txid> {
    if |queue| < BCAST_PACKAGE_QUEUE_SIZE then queue + [tx] else queue
  }

  function Apply(s: Flow, step: Step): Flow
    requires Enabled(s, step)
  {
    var h := s.history;
    match step
    case GenerationReady(temp, tx) =>
      s.(handler := Built(temp, tx))
    case PersistFunding(ok) =>
      var temp, tx := s.handler.temp, s.handler.tx;
      if !ok then s.(handler := Idle)
      else
        var lost := if MayOverwrite(s, temp, tx) then {} else {s.funding[temp]};
        s.(funding := s.funding[temp := tx], handler := Stored(temp, tx),
           history := h.(overwritten := h.overwritten - {tx} + lost))
    case NotifyLdk => s.(handler := Idle, history := h.(notified := h.notified + {s.handler.tx}))
    case BroadcastSafe(temp) =>
      if temp in s.funding then
        s.(handler := SafeRead(temp, s.funding[temp]), history := h.(safe := h.safe + {s.funding[temp]}))
      else s
    case PersistPending(nowSecs) =>
      s.(pending := s.pending[s.handler.tx := nowSecs], handler := SafePending(s.handler.temp, s.handler.tx),
         history := Repersisted(h, s.handler.tx))
    case TrySend => s.(queue := Offer(s.queue, s.handler.tx), handler := SafeQueued(s.handler.temp, s.handler.tx))
    case DropFunding => s.(funding := s.funding - {s.handler.temp}, handler := Idle)
    case RecordIdMap(channel, temp) => s.(idMap := s.idMap[channel := temp])
    case DiscardFunding(channel) =>
      if channel in s.idMap then
        var temp := s.idMap[channel];
        s.(handler := DiscardFound(channel, temp),
           history := if temp in s.funding then h.(discarded := h.discarded + {s.funding[temp]}) else h)
      else s
    case DiscardDropTx => s.(funding := s.funding - {s.handler.temp}, handler := DiscardRemoved(s.handler.channel))
    case DiscardDropMap => s.(idMap := s.idMap - {s.handler.channel}, handler := Idle)
    case OtherBroadcast(tx, nowSecs) =>
      s.(pending := s.pending[tx := nowSecs], queue := Offer(s.queue, tx),
         history := Repersisted(h, tx).(others := h.others + {tx}))
    case TakeQueued => s.(queue := s.queue[1..], sending := s.sending + [s.queue[0]])
    case Send(k, success) =>
      var tx := s.sending[k];
      var h := h.(handed := h.handed + {tx});
      var s := s.(sending := s.sending[..k] + s.sending[k + 1..]);
      if success then s.(clearing := s.clearing + {tx}, history := h.(known := h.known + {tx}))
      else s.(history := h)
    case ClearPending(tx) => s.(pending := s.pending - {tx}, clearing := s.clearing - {tx})
    case DrainRead(tx, nowSecs) =>
      if Fresh(s.pending[tx], nowSecs) then s.(sending := s.sending + [tx])
      else s.(expiring := s.expiring + {tx}, history := h.(lapsed := h.lapsed + {tx}))
    case DrainRemove(tx) =>
      s.(pending := s.pending - {tx}, expiring := s.expiring - {tx},
         history := if tx in h.lapsed then h else h.(undone := h.undone + {tx}))
    case Crash => s.(handler := Idle, queue := [], sending := [], clearing := {}, expiring := {})
  }

  ghost predicate ValidRun(s: Flow, steps: seq<Step>)
    decreases |steps|, 0
  {
    steps == [] ||
    (ValidRun(s, steps[..|steps| - 1]) && Enabled(After(s, steps[..|steps| - 1]), steps[|steps| - 1]))
  }

  function After(s: Flow, steps: seq<Step>): Flow
    requires ValidRun(s, steps)
    decreases |steps|, 1
  {
    if steps == [] then s else Apply(After(s, steps[..|steps| - 1]), steps[|steps| - 1])
  }

  /** A wallet that has never opened a channel. */
  predicate Initial(s: Flow) {
    s == Flow(map[], map[], map[], Idle, [], [], {}, {}, History({}, {}, {}, {}, {}, {}, {}, {}, {}))
  }

  // ----- Invariants ---------------------------------------------------------------------

  ghost predicate OnDisk(s: Flow, tx: Txid) {
    tx in s.pending || exists temp :: temp in s.funding && s.funding[temp] == tx
  }

  /** Every unsettled funding transaction is on disk in one of the two stores. */
  ghost predicate Durable(s: Flow) {
    forall tx :: Unsettled(s.history, tx) ==> OnDisk(s, tx)
  }

  /** What the handler holds is on disk where it says. */
  ghost predicate HandlerMatchesDisk(s: Flow) {
    match s.handler
    case Idle => true
    case Built(_, _) => true
    case Stored(temp, tx) => temp in s.funding && s.funding[temp] == tx
    case SafeRead(temp, tx) => temp in s.funding && s.funding[temp] == tx
    case SafePending(temp, tx) =>
      temp in s.funding && s.funding[temp] == tx && (Unsettled(s.history, tx) ==> tx in s.pending)
    case SafeQueued(temp, tx) =>
      temp in s.funding && s.funding[temp] == tx && (Unsettled(s.history, tx) ==> tx in s.pending)
    case DiscardFound(_, temp) => temp in s.funding ==> s.funding[temp] in s.history.discarded
    case DiscardRemoved(_) => true
  }

  ghost predicate RemovalsSettled(s: Flow) {
    s.clearing <= s.history.known
  }

  /** Nothing is anywhere near the network unless it is safe or somebody else asked to broadcast it. */
  ghost predicate SafeBeforeSent(s: Flow) {
    var h := s.history;
    && (forall tx ::
          tx in s.pending || tx in s.queue || tx in s.sending || tx in h.handed ==> tx in h.safe || tx in h.others)
    && (s.handler.SafeRead? || s.handler.SafePending? || s.handler.SafeQueued? ==> s.handler.tx in h.safe)
  }

  ghost predicate Inv(s: Flow) {
    Durable(s) && HandlerMatchesDisk(s) && RemovalsSettled(s) && SafeBeforeSent(s)
  }

  /** Steps of the event handler; the others belong to the senders, the drain and the crash. */
  predicate IsHandlerStep(step: Step) {
    !(step.OtherBroadcast? || step.TakeQueued? || step.Send? || step.ClearPending?
      || step.DrainRead? || step.DrainRemove? || step.Crash?)
  }

  /** Storing under a temporary id keeps what it may overwrite on disk. */
  lemma KeptElsewhere(s: Flow, temp: string, tx: Txid, x: Txid)
    requires Durable(s) && s.handler == Built(temp, tx) && Unsettled(s.history, x)
    requires MayOverwrite(s, temp, tx) || x != s.funding[temp]
    ensures OnDisk(Apply(s, PersistFunding(true)), x)
  {
    var t := Apply(s, PersistFunding(true));
    assert OnDisk(s, x);
    if x !in s.pending {
      if other :| other in s.funding && other != temp && s.funding[other] == x {
        assert t.funding[other] == x;
      } else {
        assert s.funding[temp] == x;
        assert t.funding[temp] == x;
      }
    }
  }

  lemma StepKeepsDurable(s: Flow, step: Step)
    requires Inv(s) && Enabled(s, step)
    ensures Durable(Apply(s, step))
  {
    var t := Apply(s, step);
    forall tx | Unsettled(t.history, tx) ensures OnDisk(t, tx) {
      if Unsettled(s.history, tx) {
        assert OnDisk(s, tx);
        if step.PersistFunding? && step.ok {
          KeptElsewhere(s, s.handler.temp, s.handler.tx, tx);
        } else if tx !in s.pending {
          var temp :| temp in s.funding && s.funding[temp] == tx;
          assert temp in t.funding && t.funding[temp] == tx;
        }
      } else if step.NotifyLdk? || step.PersistFunding? {
        assert tx == s.handler.tx && t.funding[s.handler.temp] == tx;
      } else {
        assert tx in t.pending;
      }
    }
  }

  lemma HandlerStepKeepsSafety(s: Flow, step: Step)
    requires Inv(s) && Enabled(s, step) && IsHandlerStep(step)
    ensures SafeBeforeSent(Apply(s, step))
  {
  }

  lemma SenderStepKeepsSafety(s: Flow, step: Step)
    requires Inv(s) && Enabled(s, step) && !IsHandlerStep(step)
    ensures SafeBeforeSent(Apply(s, step))
  {
  }

  lemma StepKeepsInv(s: Flow, step: Step)
    requires Inv(s) && Enabled(s, step)
    ensures Inv(Apply(s, step))
  {
    StepKeepsDurable(s, step);
    if IsHandlerStep(step) {
      HandlerStepKeepsSafety(s, step);
    } else {
      SenderStepKeepsSafety(s, step);
    }
  }

  lemma {:induction false} RunKeepsInv(s: Flow, steps: seq<Step>)
    requires Inv(s) && ValidRun(s, steps)
    ensures Inv(After(s, steps))
    decreases |steps|
  {
    if steps != [] {
      RunKeepsInv(s, steps[..|steps| - 1]);
      StepKeepsInv(After(s, steps[..|steps| - 1]), steps[|steps| - 1]);
    }
  }

  // ----- Theorems -----------------------------------------------------------------------

  /**
   At every crash point of every run: from the moment LDK is notified until the network knows the
   transaction, the funding is discarded, its latest entry is found past its 48 hours, a drain that had already
   decided on an earlier entry removes it or its temporary id is reused under it, it is on disk, even when the
   send queue was full. Nothing reaches the network unless it is safe or somebody else asked to broadcast it.
   */
  lemma FundingNeverLost(s: Flow, steps: seq<Step>, tx: Txid)
    requires Initial(s) && ValidRun(s, steps)
    ensures var t := After(s, steps);
            var h := t.history;
            && (tx in h.notified && tx !in h.known && tx !in h.discarded && tx !in h.lapsed && tx !in h.overwritten
                  && tx !in h.undone ==>
                  OnDisk(t, tx))
            && (tx in h.handed ==> tx in h.safe || tx in h.others)
  {
    RunKeepsInv(s, steps);
  }

  /** LDK is notified only of a transaction the funding store already holds. */
  lemma NotifiedOnlyWhenStored(s: Flow, steps: seq<Step>)
    requires Initial(s) && ValidRun(s, steps) && Enabled(After(s, steps), NotifyLdk)
    ensures var t := After(s, steps); t.handler.temp in t.funding && t.funding[t.handler.temp] == t.handler.tx
  {
    RunKeepsInv(s, steps);
  }

  /** Storing the built transaction takes an unsettled one off the disk exactly when it may not be overwritten. */
  lemma OverwriteLosesIff(s: Flow, temp: string, tx: Txid)
    requires Durable(s) && s.handler == Built(temp, tx)
    ensures (exists x :: Unsettled(s.history, x) && !OnDisk(Apply(s, PersistFunding(true)), x)) <==>
            !MayOverwrite(s, temp, tx)
  {
    var t := Apply(s, PersistFunding(true));
    if MayOverwrite(s, temp, tx) {
      forall x | Unsettled(s.history, x) ensures OnDisk(t, x) {
        KeptElsewhere(s, temp, tx, x);
      }
    } else {
      var lost := s.funding[temp];
      assert Unsettled(s.history, lost) && !OnDisk(t, lost);
    }
  }

  /** A step counts a transaction as overwritten only when it took the last copy of it off the disk. */
  lemma OverwrittenMeansLost(s: Flow, step: Step, tx: Txid)
    requires Inv(s) && Enabled(s, step) && tx in Apply(s, step).history.overwritten && tx !in s.history.overwritten
    ensures step == PersistFunding(true) && Unsettled(s.history, tx) && OnDisk(s, tx) && !OnDisk(Apply(s, step), tx)
  {
  }

  // ----- What the bookkeeping means -----------------------------------------------------

  /** A pending entry lives for 48 hours. */
  lemma FreshFor48Hours(createdAt: nat, nowSecs: nat)
    ensures Fresh(createdAt, nowSecs) <==> nowSecs <= createdAt + 172_800
  {
  }

  /** The step writes a pending entry for `tx`. */
  predicate Writes(s: Flow, step: Step, tx: Txid)
    requires Enabled(s, step)
  {
    (step.PersistPending? && s.handler.tx == tx) || (step.OtherBroadcast? && step.tx == tx)
  }

  /** The step hands `tx` to the network. */
  predicate Hands(s: Flow, step: Step, tx: Txid)
    requires Enabled(s, step)
  {
    step.Send? && s.sending[step.k] == tx
  }

  /**
   Each mark is set by the one step it names: LDK told, declared safe, handed over, accepted by the network, discarded,
   found past its 48 hours; and a fresh pending entry lifts the marks of a loss.
   */
  lemma MarksMean(s: Flow, step: Step, tx: Txid)
    requires Enabled(s, step)
    ensures var h, h' := s.history, Apply(s, step).history;
            && (tx in h'.notified <==> tx in h.notified || (step.NotifyLdk? && s.handler.tx == tx))
            && (tx in h'.safe <==>
                  || tx in h.safe
                  || (step.BroadcastSafe? && step.temp in s.funding && s.funding[step.temp] == tx))
            && (tx in h'.others <==> tx in h.others || (step.OtherBroadcast? && step.tx == tx))
            && (tx in h'.handed <==> tx in h.handed || Hands(s, step, tx))
            && (tx in h'.known <==> tx in h.known || (Hands(s, step, tx) && step.success))
            && (tx in h'.discarded <==>
                  || tx in h.discarded
                  || (step.DiscardFunding? && step.channel in s.idMap && s.idMap[step.channel] in s.funding
                      && s.funding[s.idMap[step.channel]] == tx))
            && (Writes(s, step, tx) ==> tx !in h'.lapsed && tx !in h'.overwritten && tx !in h'.undone)
            && (!Writes(s, step, tx) ==>
                  (tx in h'.lapsed <==>
                     || tx in h.lapsed
                     || (step.DrainRead? && step.tx == tx && s.pending[tx] + 172_800 < step.nowSecs)))
  {
  }

  lemma StepKeepsBound(s: Flow, step: Step)
    requires Enabled(s, step) && |s.queue| <= 50
    ensures |Apply(s, step).queue| <= 50
  {
  }

  /** The send queue never holds more than fifty. */
  lemma {:induction false} QueueIsBounded(s: Flow, steps: seq<Step>)
    requires Initial(s) && ValidRun(s, steps)
    ensures |After(s, steps).queue| <= 50
    decreases |steps|
  {
    if steps != [] {
      QueueIsBounded(s, steps[..|steps| - 1]);
      StepKeepsBound(After(s, steps[..|steps| - 1]), steps[|steps| - 1]);
    }
  }

  /** A transaction offered to the queue is dropped only when fifty wait already. */
  lemma OfferedUnlessFull(queue: seq<Txid>, tx: Txid)
    ensures Offer(queue, tx) == if |queue| < 50 then queue + [tx] else queue
  {
  }

  // ----- An expiry decided before the entry was written again ---------------------------

  /** Only a drain that decided on an earlier entry can take a freshly written one off the disk. */
  lemma UndoneMeansStale(s: Flow, step: Step, tx: Txid)
    requires Enabled(s, step) && tx in Apply(s, step).history.undone && tx !in s.history.undone
    ensures step == DrainRemove(tx) && tx in s.expiring && tx !in s.history.lapsed
  {
  }

  /** No drain has found the entry of `tx` past its time in these steps. */
  ghost predicate NeverExpired(s: Flow, steps: seq<Step>, tx: Txid)
    requires ValidRun(s, steps)
    decreases |steps|
  {
    steps == [] ||
    var front, step := steps[..|steps| - 1], steps[|steps| - 1];
    && NeverExpired(s, front, tx)
    && (step.DrainRead? && step.tx == tx ==> Fresh(After(s, front).pending[tx], step.nowSecs))
  }

  lemma StepCannotUndo(s: Flow, step: Step, tx: Txid)
    requires Enabled(s, step) && tx !in s.expiring && tx !in s.history.undone
    requires step.DrainRead? && step.tx == tx ==> Fresh(s.pending[tx], step.nowSecs)
    ensures tx !in Apply(s, step).expiring && tx !in Apply(s, step).history.undone
  {
  }

  lemma {:induction false} UndoneOnlyIfExpiring(s: Flow, steps: seq<Step>, tx: Txid)
    requires ValidRun(s, steps) && NeverExpired(s, steps, tx) && tx !in s.expiring && tx !in s.history.undone
    ensures tx !in After(s, steps).expiring && tx !in After(s, steps).history.undone
    decreases |steps|
  {
    if steps != [] {
      var front := steps[..|steps| - 1];
      UndoneOnlyIfExpiring(s, front, tx);
      StepCannotUndo(After(s, front), steps[|steps| - 1], tx);
    }
  }

  /** The entry of `tx` can be removed without any drain ever finding it past its time. */
  ghost predicate CanBeUndone(s: Flow, tx: Txid) {
    exists steps :: ValidRun(s, steps) && NeverExpired(s, steps, tx) && tx in After(s, steps).history.undone
  }

  /**
   A transaction written to the pending store can be removed again, though no drain ever finds the new entry
   past its time, exactly when a drain had already decided to remove its old entry.
   */
  lemma RepersistCanBeUndoneIff(s: Flow, nowSecs: nat)
    requires s.handler.SafeRead?
    ensures CanBeUndone(Apply(s, PersistPending(nowSecs)), s.handler.tx) <==> s.handler.tx in s.expiring
  {
    var tx, t := s.handler.tx, Apply(s, PersistPending(nowSecs));
    if tx in s.expiring {
      Next(t, [], t, DrainRemove(tx));
      var steps := [] + [DrainRemove(tx)];
      assert steps[..0] == [];
      assert NeverExpired(t, steps[..0], tx) && NeverExpired(t, steps, tx);
    } else {
      forall steps | ValidRun(t, steps) && NeverExpired(t, steps, tx) ensures tx !in After(t, steps).history.undone {
        UndoneOnlyIfExpiring(t, steps, tx);
      }
    }
  }

  // ----- Two runs that lose a transaction -----------------------------------------------

  const EMPTY: Flow := Flow(map[], map[], map[], Idle, [], [], {}, {}, History({}, {}, {}, {}, {}, {}, {}, {}, {}))

  lemma Next(s: Flow, steps: seq<Step>, t: Flow, step: Step)
    requires ValidRun(s, steps) && After(s, steps) == t && Enabled(t, step)
    ensures ValidRun(s, steps + [step]) && After(s, steps + [step]) == Apply(t, step)
  {
    assert (steps + [step])[..|steps|] == steps;
  }

  /** LDK has been told of "a", stored under "id". */
  function NotifiedOfA(): Flow {
    EMPTY.(funding := map["id" := "a"], history := EMPTY.history.(notified := {"a"}))
  }

  lemma NotifiedOfAIsReached()
    ensures var steps := [GenerationReady("id", "a"), PersistFunding(true), NotifyLdk];
            ValidRun(EMPTY, steps) && After(EMPTY, steps) == NotifiedOfA()
  {
    var s1 := Apply(EMPTY, GenerationReady("id", "a"));
    var s2 := Apply(s1, PersistFunding(true));
    Next(EMPTY, [], EMPTY, GenerationReady("id", "a"));
    assert [] + [GenerationReady("id", "a")] == [GenerationReady("id", "a")];
    Next(EMPTY, [GenerationReady("id", "a")], s1, PersistFunding(true));
    assert [GenerationReady("id", "a")] + [PersistFunding(true)] == [GenerationReady("id", "a"), PersistFunding(true)];
    Next(EMPTY, [GenerationReady("id", "a"), PersistFunding(true)], s2, NotifyLdk);
    assert Apply(s2, NotifyLdk).funding == map["id" := "a"];
    assert Apply(s2, NotifyLdk).history == NotifiedOfA().history;
    assert [GenerationReady("id", "a"), PersistFunding(true)] + [NotifyLdk]
        == [GenerationReady("id", "a"), PersistFunding(true), NotifyLdk];
  }

  /** Reusing a temporary id while LDK relies on its transaction loses that transaction. */
  lemma ReusedTempIdLosesTheTransaction()
    ensures var steps := [GenerationReady("id", "a"), PersistFunding(true), NotifyLdk]
                       + [GenerationReady("id", "b")] + [PersistFunding(true)];
            && Initial(EMPTY) && ValidRun(EMPTY, steps)
            && "a" in After(EMPTY, steps).history.overwritten && !OnDisk(After(EMPTY, steps), "a")
  {
    NotifiedOfAIsReached();
    var first := [GenerationReady("id", "a"), PersistFunding(true), NotifyLdk];
    var s4 := Apply(NotifiedOfA(), GenerationReady("id", "b"));
    Next(EMPTY, first, NotifiedOfA(), GenerationReady("id", "b"));
    Next(EMPTY, first + [GenerationReady("id", "b")], s4, PersistFunding(true));
    assert "a"[0] != "b"[0];
    assert s4.funding == map["id" := "a"] && !MayOverwrite(s4, "id", "b");
    assert Apply(s4, PersistFunding(true)).funding == map["id" := "b"];
  }

  /** The first handling of broadcast-safe stopped at a crash; a drain has found the entry past its time. */
  function Expired(): Flow {
    var h := EMPTY.history.(notified := {"a"}, safe := {"a"}, lapsed := {"a"});
    EMPTY.(funding := map["id" := "a"], pending := map["a" := 0], expiring := {"a"}, history := h)
  }

  lemma ExpiredIsReached()
    ensures var steps := [GenerationReady("id", "a"), PersistFunding(true), NotifyLdk]
                       + [BroadcastSafe("id")] + [PersistPending(0)] + [Crash] + [DrainRead("a", 200_000)];
            ValidRun(EMPTY, steps) && After(EMPTY, steps) == Expired()
  {
    NotifiedOfAIsReached();
    var steps := [GenerationReady("id", "a"), PersistFunding(true), NotifyLdk];
    var s1 := Apply(NotifiedOfA(), BroadcastSafe("id"));
    Next(EMPTY, steps, NotifiedOfA(), BroadcastSafe("id"));
    var s2 := Apply(s1, PersistPending(0));
    Next(EMPTY, steps + [BroadcastSafe("id")], s1, PersistPending(0));
    var s3 := Apply(s2, Crash);
    Next(EMPTY, steps + [BroadcastSafe("id")] + [PersistPending(0)], s2, Crash);
    assert s3.pending == map["a" := 0] && !Fresh(0, 200_000);
    Next(EMPTY, steps + [BroadcastSafe("id")] + [PersistPending(0)] + [Crash], s3, DrainRead("a", 200_000));
    assert Apply(s3, DrainRead("a", 200_000)) == Expired();
  }

  /** The replayed event has written the entry again and offered it to the send queue. */
  function Rewritten(): Flow {
    Expired().(pending := map["a" := 200_000], queue := ["a"], handler := SafeQueued("id", "a"),
               history := Expired().history.(lapsed := {}))
  }

  lemma RewrittenIsReached(steps: seq<Step>)
    requires ValidRun(EMPTY, steps) && After(EMPTY, steps) == Expired()
    ensures var more := steps + [BroadcastSafe("id")] + [PersistPending(200_000)] + [TrySend];
            ValidRun(EMPTY, more) && After(EMPTY, more) == Rewritten()
  {
    var s1 := Apply(Expired(), BroadcastSafe("id"));
    var s2 := Apply(s1, PersistPending(200_000));
    Next(EMPTY, steps, Expired(), BroadcastSafe("id"));
    Next(EMPTY, steps + [BroadcastSafe("id")], s1, PersistPending(200_000));
    Next(EMPTY, steps + [BroadcastSafe("id")] + [PersistPending(200_000)], s2, TrySend);
  }

  /** In neither store, and nothing has settled it. */
  ghost predicate LostUnsettled(s: Flow, tx: Txid) {
    && !OnDisk(s, tx) && tx in s.history.notified && tx in s.history.undone
    && tx !in s.history.known && tx !in s.history.discarded
    && tx !in s.history.lapsed && tx !in s.history.overwritten
  }

  lemma LastStepsLose(steps: seq<Step>)
    requires ValidRun(EMPTY, steps) && After(EMPTY, steps) == Rewritten()
    ensures var more := steps + [DropFunding] + [DrainRemove("a")];
            ValidRun(EMPTY, more) && LostUnsettled(After(EMPTY, more), "a")
  {
    var s1 := Apply(Rewritten(), DropFunding);
    Next(EMPTY, steps, Rewritten(), DropFunding);
    Next(EMPTY, steps + [DropFunding], s1, DrainRemove("a"));
    assert s1.funding == map[];
  }

  /**
   The drain decides to remove an expired entry, the replayed event writes it again and drops the funding entry,
   and the drain removes the new one: the transaction is in neither store, though nothing has settled it.
   */
  lemma StaleExpiryLosesTheTransaction()
    ensures var steps := [GenerationReady("id", "a"), PersistFunding(true), NotifyLdk]
                       + [BroadcastSafe("id")] + [PersistPending(0)] + [Crash] + [DrainRead("a", 200_000)]
                       + [BroadcastSafe("id")] + [PersistPending(200_000)] + [TrySend]
                       + [DropFunding] + [DrainRemove("a")];
            ValidRun(EMPTY, steps) && LostUnsettled(After(EMPTY, steps), "a")
  {
    ExpiredIsReached();
    var expired := [GenerationReady("id", "a"), PersistFunding(true), NotifyLdk]
                 + [BroadcastSafe("id")] + [PersistPending(0)] + [Crash] + [DrainRead("a", 200_000)];
    RewrittenIsReached(expired);
    LastStepsLose(expired + [BroadcastSafe("id")] + [PersistPending(200_000)] + [TrySend]);
  }
}
