/**
 Event-side signals: a channel closed, a commitment was broadcast, a sweep was broadcast. The event
 queue redelivers unacknowledged events, so signals arrive again with later clocks.
 */
module CloseSignals {
  import opened Prelude
  import opened CloseRecords
  import opened CloseRecordLaws
  import opened CloseRecordGains
  import opened CloseRecordCodec
  import opened CloseRecordStore

  datatype Classification = Classification(
    description: string,
    closeType: CloseType,
    initiator: Initiator,
    hasOnchainTx: bool)

  datatype Signal =
    | ChannelClosed(channelId: string, class_: Classification, eventTxo: Option<Outpoint>,
                    balanceSats: Option<U64>, nowMs: U64)
    | CommitmentBroadcast(channelId: string, txid: string, feeSats: U64, nowMs: U64)
    | SweepBroadcast(txid: string, channels: set<string>, nowMs: U64)

  // ----- The facts a signal carries -----------------------------------------------------

  function ClosedFacts(funding: FundingMap, sig: Signal): CloseRecord
    requires sig.ChannelClosed?
  {
    var entry := if sig.channelId in funding then Some(funding[sig.channelId]) else None;
    Skeleton(sig.channelId, sig.nowMs).(
      fundingTxo := sig.eventTxo.Or(if entry.Some? then Some(Outpoint(entry.value.txid, entry.value.vout)) else None),
      closeType := sig.class_.closeType,
      initiator := sig.class_.initiator,
      closureReason := Some(sig.class_.description),
      expectedAmountSats := sig.balanceSats,
      timelockBlocks := if entry.Some? then entry.value.timelockBlocks else None)
  }

  function CommitmentFacts(sig: Signal): CloseRecord
    requires sig.CommitmentBroadcast?
  {
    Skeleton(sig.channelId, sig.nowMs).(
      closeType := Force,
      txs := [CloseTx(sig.txid, Commitment, Some(sig.feeSats), None)])
  }

  function SweepFacts(sig: Signal, c: string): CloseRecord
    requires sig.SweepBroadcast?
  {
    Skeleton(c, sig.nowMs).(txs := [CloseTx(sig.txid, Sweep, None, None)])
  }

  function SweepMap(sig: Signal, channels: set<string>): Records
    requires sig.SweepBroadcast?
  {
    map c | c in channels :: SweepFacts(sig, c)
  }

  function AfterSignal(s: State, sig: Signal): State {
    match sig
    case ChannelClosed(c, class_, _, _, _) =>
      if !class_.hasOnchainTx && c !in s.records then s.(funding := s.funding - {c})
      else State(UpsertInto(s.records, ClosedFacts(s.funding, sig)), s.funding - {c})
    case CommitmentBroadcast(_, _, _, _) => s.(records := UpsertInto(s.records, CommitmentFacts(sig)))
    case SweepBroadcast(_, channels, _) => s.(records := AbsorbInto(s.records, SweepMap(sig, channels)))
  }

  function AfterSignals(s: State, sigs: seq<Signal>): State
    decreases |sigs|
  {
    if sigs == [] then s else AfterSignal(AfterSignals(s, sigs[..|sigs| - 1]), sigs[|sigs| - 1])
  }

  // ----- The handlers -------------------------------------------------------------------

  method OnChannelClosed(store: Store, sig: Signal)
    requires sig.ChannelClosed? && store.Valid()
    modifies store
    ensures store.Valid() && store.origin == old(store.origin) && store.lastTip == old(store.lastTip)
    ensures OnlyEvents(old(store.log), store.log)
    ensures store.Current() == AfterSignal(old(store.Current()), sig)
  {
    var facts := ClosedFacts(store.fundingTxos, sig);
    if !sig.class_.hasOnchainTx && sig.channelId !in store.records {
      ForgetUnfunded(store, sig.channelId);
    } else {
      RecordClose(store, facts);
    }
  }

  /** A close that never reached the chain, for a channel without a record. */
  method ForgetUnfunded(store: Store, c: string)
    requires store.Valid()
    modifies store
    ensures store.Valid() && store.origin == old(store.origin) && store.lastTip == old(store.lastTip)
    ensures store.log == old(store.log) + [ClassifiedUnfunded(c), RemoveFunding(c)]
    ensures store.records == old(store.records) && store.fundingTxos == old(store.fundingTxos) - {c}
  {
    store.Classify(c);
    store.RemoveFundingTxo(c);
  }

  /** The record first, and only then the funding entry it was built from. */
  method RecordClose(store: Store, facts: CloseRecord)
    requires store.Valid() && Canonical(facts)
    modifies store
    ensures store.Valid() && store.origin == old(store.origin) && store.lastTip == old(store.lastTip)
    ensures store.log == old(store.log) + [Upsert(facts, None), RemoveFunding(facts.channelId)]
    ensures store.records == UpsertInto(old(store.records), facts)
    ensures store.fundingTxos == old(store.fundingTxos) - {facts.channelId}
  {
    store.Upsert(facts);
    store.RemoveFundingTxo(facts.channelId);
  }

  method OnCommitmentBroadcast(store: Store, sig: Signal)
    requires sig.CommitmentBroadcast? && store.Valid()
    modifies store
    ensures store.Valid() && store.origin == old(store.origin) && store.lastTip == old(store.lastTip)
    ensures OnlyEvents(old(store.log), store.log)
    ensures store.Current() == AfterSignal(old(store.Current()), sig)
  {
    store.Upsert(CommitmentFacts(sig));
  }

  method AttachSweep(store: Store, sig: Signal, c: string)
    requires sig.SweepBroadcast? && store.Valid()
    modifies store
    ensures store.Valid() && store.origin == old(store.origin) && store.lastTip == old(store.lastTip)
    ensures OnlyEvents(old(store.log), store.log)
    ensures store.records == UpsertInto(old(store.records), SweepFacts(sig, c))
    ensures store.fundingTxos == old(store.fundingTxos)
  {
    store.Upsert(SweepFacts(sig, c));
  }

  /** Attaches the sweep to every contributing channel, in whatever order the set is visited. */
  method RecordSweepTx(store: Store, sig: Signal)
    requires sig.SweepBroadcast? && store.Valid()
    modifies store
    ensures store.Valid() && store.origin == old(store.origin) && store.lastTip == old(store.lastTip)
    ensures OnlyEvents(old(store.log), store.log)
    ensures store.Current() == AfterSignal(old(store.Current()), sig)
  {
    ghost var before, sweeps := store.Current(), SweepMap(sig, sig.channels);
    var taken: set<string> := {};
    assert AbsorbInto(before.records, Restrict(sweeps, taken)) == before.records;
    while taken != sig.channels
      invariant taken <= sig.channels
      invariant store.Valid() && store.origin == old(store.origin) && store.lastTip == old(store.lastTip)
      invariant OnlyEvents(old(store.log), store.log)
      invariant store.Current() == before.(records := AbsorbInto(before.records, Restrict(sweeps, taken)))
      decreases sig.channels - taken
    {
      assert exists c :: c in sig.channels && c !in taken;
      var c :| c in sig.channels && c !in taken;
      AbsorbOneMore(before.records, sweeps, taken, c);
      AttachSweep(store, sig, c);
      taken := taken + {c};
    }
    assert Restrict(sweeps, taken) == sweeps;
  }

  // ----- What a signal leaves behind ----------------------------------------------------

  /** The funding output that the funding map holds for a channel. */
  function Funded(funding: FundingMap, c: string): Option<Outpoint> {
    if c in funding then Some(Outpoint(funding[c].txid, funding[c].vout)) else None
  }

  /**
   A close leaves a record that knows what the event and the dropped funding entry knew, and no other channel is
   touched. For an existing record the event has the last word on close type, initiator and amount, and fills in
   what was missing of the rest; the record's transactions, heights and completion stay as they are.
   */
  lemma CloseIsRecorded(s: State, sig: Signal)
    requires sig.ChannelClosed? && (sig.class_.hasOnchainTx || sig.channelId in s.records)
    ensures var c, t := sig.channelId, AfterSignal(s, sig);
            var timelock := if c in s.funding then s.funding[c].timelockBlocks else None;
            && c in t.records && t.funding == s.funding - {c}
            && (forall k :: k != c ==> Find(t.records, k) == Find(s.records, k))
            && (c !in s.records ==>
                  t.records[c] == CloseRecord(1, c, sig.eventTxo.Or(Funded(s.funding, c)), sig.class_.closeType,
                                              sig.class_.initiator, Some(sig.class_.description), [], sig.balanceSats,
                                              timelock, None, sig.nowMs, None, None, map[]))
            && (c in s.records ==>
                  var was, now := s.records[c], t.records[c];
                  && now.closeType ==
                     (if sig.class_.closeType != UnknownType then sig.class_.closeType else was.closeType)
                  && now.initiator ==
                     (if sig.class_.initiator != UnknownInitiator then sig.class_.initiator else was.initiator)
                  && now.expectedAmountSats == sig.balanceSats.Or(was.expectedAmountSats)
                  && now.fundingTxo == was.fundingTxo.Or(sig.eventTxo).Or(Funded(s.funding, c))
                  && now.closureReason == was.closureReason.Or(Some(sig.class_.description))
                  && now.timelockBlocks == was.timelockBlocks.Or(timelock)
                  && now.createdAtMs == Min(was.createdAtMs, sig.nowMs)
                  && now.channelId == was.channelId && now.txs == was.txs && now.claimableAt == was.claimableAt
                  && now.completedAtMs == was.completedAtMs && now.resolution == was.resolution
                  && now.schemaVersion == Max(was.schemaVersion, 1) && now.extras == was.extras)
  {
  }

  /**
   A broadcast leaves its txid, role and fee, and no height, on every channel it names, and touches no other. A
   transaction already listed keeps its role and all it knows; every other listed transaction stays as it is.
   */
  lemma BroadcastIsRecorded(s: State, sig: Signal, c: string)
    requires !sig.ChannelClosed?
    ensures var named := if sig.CommitmentBroadcast? then c == sig.channelId else c in sig.channels;
            var t := AfterSignal(s, sig);
            var told := if sig.CommitmentBroadcast? then CloseTx(sig.txid, Commitment, Some(sig.feeSats), None)
                        else CloseTx(sig.txid, Sweep, None, None);
            && t.funding == s.funding
            && (!named ==> Find(t.records, c) == Find(s.records, c))
            && (named ==> c in t.records)
            && (named && c !in s.records ==>
                  t.records[c] == CloseRecord(1, c, None, if sig.CommitmentBroadcast? then Force else UnknownType,
                                              UnknownInitiator, None, [told], None, None, None, sig.nowMs, None, None,
                                              map[]))
            && (named && c in s.records ==>
                  && TxTold(s.records[c], t.records[c], told, sig.nowMs)
                  && t.records[c].closeType == if sig.CommitmentBroadcast? then Force else s.records[c].closeType)
  {
    var fact := if sig.CommitmentBroadcast? then CommitmentFacts(sig) else SweepFacts(sig, c);
    if c in s.records {
      TellingOneTx(s.records[c], fact, sig.nowMs);
    }
  }

  /** `now` is `was` with one transaction told, and perhaps a close type. */
  ghost predicate TxTold(was: CloseRecord, now: CloseRecord, told: CloseTx, nowMs: U64) {
    && now == was.(txs := now.txs, closeType := now.closeType, createdAtMs := Min(was.createdAtMs, nowMs),
                   schemaVersion := Max(was.schemaVersion, 1))
    && (forall id :: id != told.txid ==> Lookup(now.txs, id) == Lookup(was.txs, id))
    && Lookup(now.txs, told.txid) == match Lookup(was.txs, told.txid)
                                     case None => Some(told)
                                     case Some(tx) => Some(tx.(feeSats := tx.feeSats.Or(told.feeSats)))
  }

  lemma TellingOneTx(was: CloseRecord, fact: CloseRecord, nowMs: U64)
    requires |fact.txs| == 1 && fact.txs[0].confirmedAt.None?
    requires fact == Skeleton(fact.channelId, nowMs).(txs := fact.txs, closeType := fact.closeType)
    ensures TxTold(was, Merge(was, fact), fact.txs[0], nowMs)
  {
    var tx, now := fact.txs[0], Merge(was, fact);
    assert fact.txs == [tx] && fact.txs[..0] == [];
    assert UnionTxs(was.txs, fact.txs) == AddTx(UnionTxs(was.txs, []), tx);
    forall id ensures Lookup(now.txs, id) == if id == tx.txid then FillLookup(Lookup(was.txs, id), Some(tx))
                                             else Lookup(was.txs, id)
    {
      LookupAddTx(was.txs, tx, id);
    }
    assert fact.extras + was.extras == was.extras;
  }

  // ----- A run seen from one channel ----------------------------------------------------

  /** The facts the signal contributes to channel `c`, if any. */
  function FactFor(s: State, sig: Signal, c: string): Option<CloseRecord> {
    match sig
    case ChannelClosed(closed, class_, _, _, _) =>
      if c == closed && (class_.hasOnchainTx || c in s.records) then Some(ClosedFacts(s.funding, sig)) else None
    case CommitmentBroadcast(broadcast, _, _, _) =>
      if c == broadcast then Some(CommitmentFacts(sig)) else None
    case SweepBroadcast(_, channels, _) =>
      if c in channels then Some(SweepFacts(sig, c)) else None
  }

  function Add(existing: Option<CloseRecord>, fact: Option<CloseRecord>): Option<CloseRecord> {
    if fact.Some? then Some(Combine(existing, fact.value)) else existing
  }

  lemma SignalAtChannel(s: State, sig: Signal, c: string)
    ensures Find(AfterSignal(s, sig).records, c) == Add(Find(s.records, c), FactFor(s, sig, c))
  {
  }

  function Listed(fact: Option<CloseRecord>): seq<CloseRecord> {
    if fact.Some? then [fact.value] else []
  }

  /** The facts a run contributes to channel `c`, in order. */
  function FactsFor(s: State, sigs: seq<Signal>, c: string): seq<CloseRecord>
    decreases |sigs|
  {
    if sigs == [] then []
    else
      var front := sigs[..|sigs| - 1];
      var fact := FactFor(AfterSignals(s, front), sigs[|sigs| - 1], c);
      FactsFor(s, front, c) + Listed(fact)
  }

  function AddAll(existing: Option<CloseRecord>, facts: seq<CloseRecord>): Option<CloseRecord>
    decreases |facts|
  {
    if facts == [] then existing
    else Some(Combine(AddAll(existing, facts[..|facts| - 1]), facts[|facts| - 1]))
  }

  lemma {:induction false} RunAtChannel(s: State, sigs: seq<Signal>, c: string)
    ensures Find(AfterSignals(s, sigs).records, c) == AddAll(Find(s.records, c), FactsFor(s, sigs, c))
    decreases |sigs|
  {
    if sigs != [] {
      var front, sig := sigs[..|sigs| - 1], sigs[|sigs| - 1];
      RunAtChannel(s, front, c);
      var mid := AfterSignals(s, front);
      SignalAtChannel(mid, sig, c);
      var fact := FactFor(mid, sig, c);
      if fact.Some? {
      } else {
        assert FactsFor(s, front, c) + [] == FactsFor(s, front, c);
      }
    }
  }

  // ----- Over a run of signals ----------------------------------------------------------

  /** Every funding entry of `later` is one of `earlier`. */
  ghost predicate FundingWithin(later: FundingMap, earlier: FundingMap) {
    forall c :: c in later ==> c in earlier && later[c] == earlier[c]
  }

  lemma {:induction false} FundingOnlyShrinks(s: State, sigs: seq<Signal>)
    ensures FundingWithin(AfterSignals(s, sigs).funding, s.funding)
    decreases |sigs|
  {
    if sigs != [] {
      FundingOnlyShrinks(s, sigs[..|sigs| - 1]);
    }
  }

  lemma {:induction false} AfterSignalsConcat(s: State, a: seq<Signal>, b: seq<Signal>)
    ensures AfterSignals(s, a + b) == AfterSignals(AfterSignals(s, a), b)
    decreases |b|
  {
    if b == [] {
      assert a + b == a;
    } else {
      assert (a + b)[..|a + b| - 1] == a + b[..|b| - 1];
      AfterSignalsConcat(s, a, b[..|b| - 1]);
    }
  }

  /** The second delivery of a signal sees no funding entry that the first did not see. */
  lemma SeesNoMoreFunding(s: State, sigs: seq<Signal>, again: seq<Signal>, n: nat)
    requires n <= |sigs|
    ensures FundingWithin(AfterSignals(AfterSignals(s, sigs), again).funding, AfterSignals(s, sigs[..n]).funding)
  {
    assert sigs == sigs[..n] + sigs[n..];
    AfterSignalsConcat(s, sigs[..n], sigs[n..]);
    FundingOnlyShrinks(AfterSignals(s, sigs[..n]), sigs[n..]);
    FundingOnlyShrinks(AfterSignals(s, sigs), again);
  }

  lemma {:induction false} SignalsGain(s: State, sigs: seq<Signal>, c: string)
    requires c in s.records
    ensures c in AfterSignals(s, sigs).records && Gains(s.records[c], AfterSignals(s, sigs).records[c])
    decreases |sigs|
  {
    if sigs != [] {
      var front := sigs[..|sigs| - 1];
      SignalsGain(s, front, c);
      var mid, sig := AfterSignals(s, front), sigs[|sigs| - 1];
      SignalAtChannel(mid, sig, c);
      var fact := FactFor(mid, sig, c);
      if fact.Some? {
        MergeGains(mid.records[c], fact.value);
      }
    }
  }

  lemma SameLookups(a: Records, b: Records)
    requires forall c :: Find(a, c) == Find(b, c)
    ensures a == b
  {
    forall c ensures c in a <==> c in b
             ensures c in a ==> a[c] == b[c]
    {
      assert Find(a, c) == Find(b, c);
    }
  }

  lemma TwoSignals(s: State, a: Signal, b: Signal)
    ensures AfterSignals(s, [a, b]) == AfterSignal(AfterSignal(s, a), b)
  {
    assert [a, b][..1] == [a] && [a][..0] == [];
    assert AfterSignals(s, [a]) == AfterSignal(AfterSignals(s, []), a);
  }
}
