/**
 The close-record store: the in-memory maps, their local mirror, and the operations on them. Each change of
 memory happens under one lock, so a run of the store is a sequence of these operations. A call of this class
 also writes its blob before the next one begins; overlapping calls are the business of `CloseRecordDisk`.
 */
module CloseRecordStore {
  import opened Prelude
  import opened CloseRecords
  import opened CloseRecordLaws
  import opened CloseRecordGains
  import opened CloseRecordCodec
  import Json

  datatype FundingEntry = FundingEntry(txid: string, vout: U32, timelockBlocks: Option<U32>)

  type Records = map<string, CloseRecord>
  type FundingMap = map<string, FundingEntry>

  datatype State = State(records: Records, funding: FundingMap)

  /** What a reconcile pass knew: the tip, whether it is new, wallet receipts, channels still being swept, the time. */
  datatype Pass = Pass(newTip: bool, tip: U32, wallet: set<string>, pendingSweeps: set<string>, nowMs: U64)

  datatype Op =
    /** `pass` is set when a reconcile pass wrote the record. */
    | Upsert(record: CloseRecord, pass: Option<Pass>)
    | Absorb(remote: Records)
    | RecordFunding(channelId: string, entry: FundingEntry)
    | RemoveFunding(channelId: string)
    /** A close was classified as having no on-chain transaction; changes nothing by itself. */
    | ClassifiedUnfunded(channelId: string)

  // ----- Primitive operations -----------------------------------------------------------

  /** Existing facts are the base of the merge, new facts the incoming side. */
  function Combine(existing: Option<CloseRecord>, incoming: CloseRecord): CloseRecord {
    if existing.Some? then Merge(existing.value, incoming) else incoming
  }

  function Find(records: Records, c: string): Option<CloseRecord> {
    if c in records then Some(records[c]) else None
  }

  function UpsertInto(records: Records, incoming: CloseRecord): Records {
    records[incoming.channelId := Combine(Find(records, incoming.channelId), incoming)]
  }

  function AbsorbInto(records: Records, remote: Records): Records {
    map c | c in records.Keys + remote.Keys ::
      if c in remote then Combine(Find(records, c), remote[c]) else records[c]
  }

  function Do(s: State, op: Op): State {
    match op
    case Upsert(r, _) => s.(records := UpsertInto(s.records, r))
    case Absorb(remote) => s.(records := AbsorbInto(s.records, remote))
    case RecordFunding(c, entry) => s.(funding := s.funding[c := entry])
    case RemoveFunding(c) => s.(funding := s.funding - {c})
    case ClassifiedUnfunded(_) => s
  }

  function DoAll(s: State, ops: seq<Op>): State
    decreases |ops|
  {
    if ops == [] then s else Do(DoAll(s, ops[..|ops| - 1]), ops[|ops| - 1])
  }

  /** A funding entry is dropped only for a channel that has a record or never reached the chain. */
  ghost predicate MayForget(s: State, ops: seq<Op>, c: string) {
    c in DoAll(s, ops).records || ClassifiedUnfunded(c) in ops
  }

  ghost predicate Disciplined(s: State, ops: seq<Op>) {
    forall i :: 0 <= i < |ops| && ops[i].RemoveFunding? ==> MayForget(s, ops[..i], ops[i].channelId)
  }

  /**
   Written by an event handler or a remote copy, not by a pass: it completes nothing, and tells of one transaction and
   of no height.
   */
  predicate FromEvent(op: Op) {
    op.Upsert? ==>
      && op.pass.None? && op.record.completedAtMs.None? && op.record.resolution.None? && op.record.claimableAt.None?
      && |op.record.txs| <= 1 && (op.record.txs != [] ==> op.record.txs[0].confirmedAt.None?)
  }

  ghost predicate OnlyEvents(before: seq<Op>, after: seq<Op>) {
    before <= after && forall i :: |before| <= i < |after| ==> FromEvent(after[i])
  }

  lemma DisciplinedSnoc(s: State, ops: seq<Op>, op: Op)
    requires Disciplined(s, ops)
    requires op.RemoveFunding? ==> MayForget(s, ops, op.channelId)
    ensures Disciplined(s, ops + [op])
  {
    var more := ops + [op];
    forall i | 0 <= i < |more| && more[i].RemoveFunding? ensures MayForget(s, more[..i], more[i].channelId) {
      assert more[..i] == ops[..i];
      if i == |ops| {
        assert ops[..i] == ops;
      }
    }
  }

  // ----- The store ----------------------------------------------------------------------

  class Store {
    var records: Records
    var fundingTxos: FundingMap
    var lastTip: Option<U32>
    /** The two blobs of the local mirror. */
    var diskRecords: Json.Value
    var diskFunding: FundingMap
    /** Where this run started and the primitive operations it performed. */
    ghost var origin: State
    ghost var log: seq<Op>

    ghost function Current(): State
      reads this
    {
      State(records, fundingTxos)
    }

    ghost predicate Sound()
      reads this
    {
      && WellFormed(records)
      && HoldsExactly(diskRecords, records.Keys)
      && diskFunding == fundingTxos
      && Current() == DoAll(origin, log)
    }

    /** Sound, and no funding entry was dropped for a channel without a record or classification. */
    ghost predicate Valid()
      reads this
    {
      Sound() && Disciplined(origin, log)
    }

    /** Loads both maps from the mirror; `order` is the iteration order of the stored object. */
    constructor (recordsBlob: Json.Value, order: seq<string>, fundingBlob: FundingMap, nowMs: U64)
      requires Visits(recordsBlob, order)
      ensures Valid() && log == []
      ensures records == DecodeMap(recordsBlob, order, nowMs) && fundingTxos == fundingBlob
      ensures lastTip == None && diskRecords == recordsBlob
    {
      var loaded := DecodeRecordsMap(recordsBlob, order, nowMs);
      DecodedMapWellFormed(recordsBlob, order, nowMs);
      LoadFindsHeld(recordsBlob, order, nowMs);
      records, fundingTxos, lastTip := loaded, fundingBlob, None;
      diskRecords, diskFunding := recordsBlob, fundingBlob;
      origin, log := State(loaded, fundingBlob), [];
    }

    ghost method Extend(op: Op)
      modifies this`log
      ensures log == old(log) + [op]
      ensures DoAll(origin, log) == Do(DoAll(origin, old(log)), op)
      ensures Disciplined(origin, old(log)) && (op.RemoveFunding? ==> MayForget(origin, old(log), op.channelId)) ==>
                Disciplined(origin, log)
    {
      if Disciplined(origin, log) && (op.RemoveFunding? ==> MayForget(origin, log, op.channelId)) {
        DisciplinedSnoc(origin, log, op);
      }
      log := log + [op];
    }

    /** Notes that a close has no on-chain transaction. */
    ghost method Classify(c: string)
      requires Valid()
      modifies this`log
      ensures Valid() && log == old(log) + [ClassifiedUnfunded(c)]
      ensures MayForget(origin, log, c)
    {
      Extend(ClassifiedUnfunded(c));
      assert log[|log| - 1] == ClassifiedUnfunded(c);
    }

    /** Create-or-merge, then one write of the whole records map. */
    method Upsert(incoming: CloseRecord, ghost pass: Option<Pass> := None)
      requires Valid() && Canonical(incoming)
      modifies this
      ensures Valid() && origin == old(origin) && log == old(log) + [Op.Upsert(incoming, pass)]
      ensures Current() == Do(old(Current()), Op.Upsert(incoming, pass))
      ensures diskRecords == EncodeMap(records)
      ensures lastTip == old(lastTip)
    {
      records := CombineAt(records, incoming);
      diskRecords := EncodeMap(records);
      EncodedHolds(records);
      Extend(Op.Upsert(incoming, pass));
    }

    /** Folds a remote map into the local one, local side as base; answers the merged map. */
    method AbsorbRemote(raw: Json.Value, order: seq<string>, nowMs: U64) returns (merged: Json.Value)
      requires Valid()
      modifies this
      ensures Valid() && origin == old(origin)
      ensures log == old(log) + [Absorb(DecodeMap(raw, order, nowMs))]
      ensures Current() == Do(old(Current()), Absorb(DecodeMap(raw, order, nowMs)))
      ensures merged == diskRecords == EncodeMap(records)
      ensures lastTip == old(lastTip)
    {
      var remote := DecodeRecordsMap(raw, order, nowMs);
      DecodedMapWellFormed(raw, order, nowMs);
      records := FoldRemote(records, remote);
      diskRecords := EncodeMap(records);
      EncodedHolds(records);
      merged := diskRecords;
      Extend(Absorb(remote));
    }

    /** Remembers a funding outpoint while its channel is open. Idempotent on an identical entry. */
    method RecordFundingTxo(c: string, entry: FundingEntry)
      requires Valid()
      modifies this
      ensures Valid() && origin == old(origin) && log == old(log) + [RecordFunding(c, entry)]
      ensures Current() == Do(old(Current()), RecordFunding(c, entry))
      ensures fundingTxos == old(fundingTxos)[c := entry] && records == old(records)
      ensures diskRecords == old(diskRecords) && lastTip == old(lastTip)
    {
      Extend(RecordFunding(c, entry));
      if c in fundingTxos && fundingTxos[c] == entry {
        assert fundingTxos[c := entry] == fundingTxos;
        return;
      }
      fundingTxos := fundingTxos[c := entry];
      diskFunding := fundingTxos;
    }

    /** Drops an entry. Only a caller that has seen to a record or a classification keeps the store valid. */
    method RemoveFundingTxo(c: string)
      requires Sound()
      modifies this
      ensures Sound() && origin == old(origin) && log == old(log) + [RemoveFunding(c)]
      ensures old(Valid()) && MayForget(origin, old(log), c) ==> Valid()
      ensures Current() == Do(old(Current()), RemoveFunding(c))
      ensures fundingTxos == old(fundingTxos) - {c} && records == old(records)
      ensures diskRecords == old(diskRecords) && lastTip == old(lastTip)
    {
      Extend(RemoveFunding(c));
      if c !in fundingTxos {
        assert fundingTxos - {c} == fundingTxos;
        return;
      }
      fundingTxos := fundingTxos - {c};
      diskFunding := fundingTxos;
    }
  }

  /** Create-or-merge of one record under its channel id. */
  method CombineAt(local: Records, incoming: CloseRecord) returns (merged: Records)
    requires WellFormed(local) && Canonical(incoming)
    ensures merged == UpsertInto(local, incoming)
    ensures WellFormed(merged)
  {
    var combined := incoming;
    if incoming.channelId in local {
      combined := MergeCloseRecords(local[incoming.channelId], incoming);
      MergeCanonical(local[incoming.channelId], incoming);
    }
    merged := local[incoming.channelId := combined];
  }

  /** Merges every remote record into the local map, one channel at a time. */
  method FoldRemote(local: Records, remote: Records) returns (merged: Records)
    requires WellFormed(local) && WellFormed(remote)
    ensures merged == AbsorbInto(local, remote)
    ensures WellFormed(merged)
  {
    merged := local;
    var taken: set<string> := {};
    assert AbsorbInto(local, Restrict(remote, taken)) == local;
    while taken != remote.Keys
      invariant taken <= remote.Keys
      invariant merged == AbsorbInto(local, Restrict(remote, taken))
      invariant WellFormed(merged)
      decreases remote.Keys - taken
    {
      assert exists c :: c in remote.Keys && c !in taken;
      var c :| c in remote.Keys && c !in taken;
      AbsorbOneMore(local, remote, taken, c);
      merged := CombineAt(merged, remote[c]);
      taken := taken + {c};
    }
    assert Restrict(remote, taken) == remote;
  }

  function Restrict(m: Records, keys: set<string>): Records {
    map c | c in m && c in keys :: m[c]
  }

  lemma AbsorbOneMore(local: Records, remote: Records, taken: set<string>, c: string)
    requires c in remote && c !in taken && remote[c].channelId == c
    ensures AbsorbInto(local, Restrict(remote, taken + {c}))
         == UpsertInto(AbsorbInto(local, Restrict(remote, taken)), remote[c])
  {
    assert Find(AbsorbInto(local, Restrict(remote, taken)), c) == Find(local, c);
  }

  lemma MergeCanonical(base: CloseRecord, incoming: CloseRecord)
    requires Canonical(base) && Canonical(incoming)
    ensures Canonical(Merge(base, incoming))
  {
    UnionRolesCanonical(base.txs, incoming.txs);
  }

  lemma {:induction false} UnionRolesCanonical(a: seq<CloseTx>, b: seq<CloseTx>)
    requires forall i :: 0 <= i < |a| ==> CanonicalRole(a[i].role)
    requires forall i :: 0 <= i < |b| ==> CanonicalRole(b[i].role)
    ensures forall i :: 0 <= i < |UnionTxs(a, b)| ==> CanonicalRole(UnionTxs(a, b)[i].role)
    decreases |b|
  {
    if b != [] {
      UnionRolesCanonical(a, b[..|b| - 1]);
    }
  }

  // ----- Every run only gains facts -----------------------------------------------------

  lemma OpGains(s: State, op: Op, c: string)
    requires c in s.records
    ensures c in Do(s, op).records && Gains(s.records[c], Do(s, op).records[c])
  {
    match op
    case Upsert(r, _) => MergeGains(s.records[c], r);
    case Absorb(remote) =>
      if c in remote {
        MergeGains(s.records[c], remote[c]);
      }
    case _ =>
  }

  /** Under any interleaving of upserts, absorptions and reconcile writes, a record only gains facts. */
  lemma {:induction false} RunGains(s: State, ops: seq<Op>, c: string)
    requires c in s.records
    ensures c in DoAll(s, ops).records
    ensures Gains(s.records[c], DoAll(s, ops).records[c])
    decreases |ops|
  {
    if ops != [] {
      var front := ops[..|ops| - 1];
      RunGains(s, front, c);
      var mid := DoAll(s, front);
      OpGains(mid, ops[|ops| - 1], c);
    }
  }

  /**
   Over any run a terminal status is never left, and Complete stays Complete exactly when the completion
   carried its resolution or the run brought in no unverified one without a verified one.
   */
  lemma RunStatusNeverRegresses(s: State, ops: seq<Op>, c: string, h: Option<U32>, h': Option<U32>)
    requires c in s.records
    ensures c in DoAll(s, ops).records
    ensures var r, r' := s.records[c], DoAll(s, ops).records[c];
            var before, after := DeriveStatus(r, h), DeriveStatus(r', h');
            && (Terminal(before) ==> Terminal(after))
            && (before == Complete ==> (after == Complete <==> r.resolution.Some? || r'.resolution != Some(Unverified)))
            && (before == Complete && Coherent(r) ==> after == Complete)
  {
    RunGains(s, ops, c);
    StatusNeverRegresses(s.records[c], DoAll(s, ops).records[c], h, h');
  }

  // ----- Where heights come from --------------------------------------------------------

  /** The list gives this height to an entry with this txid. */
  ghost predicate ListsHeight(txs: seq<CloseTx>, txid: string, h: U32) {
    exists i :: 0 <= i < |txs| && txs[i].txid == txid && txs[i].confirmedAt == Some(h)
  }

  lemma AddTxHeights(txs: seq<CloseTx>, tx: CloseTx, txid: string, h: U32)
    requires ListsHeight(AddTx(txs, tx), txid, h)
    ensures ListsHeight(txs, txid, h) || (tx.txid == txid && tx.confirmedAt == Some(h))
  {
    var i :| 0 <= i < |AddTx(txs, tx)| && AddTx(txs, tx)[i].txid == txid && AddTx(txs, tx)[i].confirmedAt == Some(h);
    assert i < |txs| && txs[i] == AddTx(txs, tx)[i] ==> ListsHeight(txs, txid, h);
  }

  /** A union lists no height that neither operand lists for that transaction. */
  lemma {:induction false} UnionHeights(a: seq<CloseTx>, b: seq<CloseTx>, txid: string, h: U32)
    requires ListsHeight(UnionTxs(a, b), txid, h)
    ensures ListsHeight(a, txid, h) || ListsHeight(b, txid, h)
    decreases |b|
  {
    if b != [] {
      var last := |b| - 1;
      AddTxHeights(UnionTxs(a, b[..last]), b[last], txid, h);
      if ListsHeight(UnionTxs(a, b[..last]), txid, h) {
        UnionHeights(a, b[..last], txid, h);
        if i :| 0 <= i < last && b[..last][i].txid == txid && b[..last][i].confirmedAt == Some(h) {
          assert b[i] == b[..last][i];
        }
      } else {
        assert b[last].txid == txid && b[last].confirmedAt == Some(h);
      }
    }
  }

  /** The operation brings this height of this transaction to channel `c`. */
  ghost predicate BringsHeight(op: Op, c: string, txid: string, h: U32) {
    match op
    case Upsert(r, _) => r.channelId == c && ListsHeight(r.txs, txid, h)
    case Absorb(remote) => c in remote && ListsHeight(remote[c].txs, txid, h)
    case _ => false
  }

  /** The operation brings this claimable height to channel `c`. */
  predicate BringsExpiry(op: Op, c: string, h: U32) {
    match op
    case Upsert(r, _) => r.channelId == c && r.claimableAt == Some(h)
    case Absorb(remote) => c in remote && remote[c].claimableAt == Some(h)
    case _ => false
  }

  lemma OpHeights(s: State, op: Op, c: string, txid: string, h: U32)
    requires c in Do(s, op).records && ListsHeight(Do(s, op).records[c].txs, txid, h)
    ensures BringsHeight(op, c, txid, h) || (c in s.records && ListsHeight(s.records[c].txs, txid, h))
  {
    if c in s.records {
      match op
      case Upsert(r, _) =>
        if r.channelId == c {
          UnionHeights(s.records[c].txs, r.txs, txid, h);
        }
      case Absorb(remote) =>
        if c in remote {
          UnionHeights(s.records[c].txs, remote[c].txs, txid, h);
        }
      case _ =>
    }
  }

  /** No height is made up: each was there at the start, or came with an operation that gave it to that transaction. */
  lemma {:induction false} HeightsAreBrought(s: State, ops: seq<Op>, c: string, txid: string, h: U32)
    requires c in DoAll(s, ops).records && ListsHeight(DoAll(s, ops).records[c].txs, txid, h)
    ensures || (c in s.records && ListsHeight(s.records[c].txs, txid, h))
            || exists i :: 0 <= i < |ops| && BringsHeight(ops[i], c, txid, h)
    decreases |ops|
  {
    if ops != [] {
      var last := |ops| - 1;
      OpHeights(DoAll(s, ops[..last]), ops[last], c, txid, h);
      if !BringsHeight(ops[last], c, txid, h) {
        HeightsAreBrought(s, ops[..last], c, txid, h);
        if i :| 0 <= i < last && BringsHeight(ops[..last][i], c, txid, h) {
          assert ops[..last][i] == ops[i];
        }
      }
    }
  }

  lemma {:induction false} ExpiriesAreBrought(s: State, ops: seq<Op>, c: string, h: U32)
    requires c in DoAll(s, ops).records && DoAll(s, ops).records[c].claimableAt == Some(h)
    ensures || (c in s.records && s.records[c].claimableAt == Some(h))
            || exists i :: 0 <= i < |ops| && BringsExpiry(ops[i], c, h)
    decreases |ops|
  {
    if ops != [] {
      var last := |ops| - 1;
      if !BringsExpiry(ops[last], c, h) {
        ExpiriesAreBrought(s, ops[..last], c, h);
        if i :| 0 <= i < last && BringsExpiry(ops[..last][i], c, h) {
          assert ops[..last][i] == ops[i];
        }
      }
    }
  }

  // ----- No funded channel is forgotten -------------------------------------------------

  /** The channel's funding entry was on disk at some point of the run so far. */
  ghost predicate EverFunded(s: State, ops: seq<Op>, c: string) {
    c in s.funding || exists i :: 0 <= i < |ops| && ops[i].RecordFunding? && ops[i].channelId == c
  }

  lemma EverFundedSnoc(s: State, ops: seq<Op>, op: Op, c: string)
    requires EverFunded(s, ops + [op], c)
    ensures EverFunded(s, ops, c) || (op.RecordFunding? && op.channelId == c)
  {
    var more := ops + [op];
    if c !in s.funding {
      var i :| 0 <= i < |more| && more[i].RecordFunding? && more[i].channelId == c;
      assert more[i] == if i < |ops| then ops[i] else op;
    }
  }

  lemma DisciplinedPrefix(s: State, ops: seq<Op>, k: nat)
    requires Disciplined(s, ops) && k <= |ops|
    ensures Disciplined(s, ops[..k])
  {
    var front := ops[..k];
    forall i | 0 <= i < k && front[i].RemoveFunding? ensures MayForget(s, front[..i], front[i].channelId) {
      assert front[i] == ops[i] && front[..i] == ops[..i];
    }
  }

  /** One more operation, the channel funded before it. */
  lemma StepForgetsNothing(s: State, front: seq<Op>, op: Op, c: string)
    requires c in DoAll(s, front).funding || MayForget(s, front, c)
    requires op.RemoveFunding? ==> MayForget(s, front, op.channelId)
    ensures || c in Do(DoAll(s, front), op).funding
            || c in Do(DoAll(s, front), op).records
            || ClassifiedUnfunded(c) in front
  {
    if c in DoAll(s, front).records {
      OpGains(DoAll(s, front), op, c);
    }
  }

  /** The entry is still there, a record exists, or the close never reached the chain. */
  lemma {:induction false} NothingForgotten(s: State, ops: seq<Op>, c: string)
    requires Disciplined(s, ops) && EverFunded(s, ops, c)
    ensures c in DoAll(s, ops).funding || MayForget(s, ops, c)
    decreases |ops|
  {
    if ops != [] {
      var last := |ops| - 1;
      var front, op := ops[..last], ops[last];
      assert ops == front + [op];
      EverFundedSnoc(s, front, op, c);
      if EverFunded(s, front, c) {
        DisciplinedPrefix(s, ops, last);
        NothingForgotten(s, front, c);
        StepForgetsNothing(s, front, op, c);
      }
    }
  }

  /** Every prefix of a disciplined run is disciplined, so the guarantee holds in memory at each of its points. */
  lemma EveryPointKeepsTheChannel(s: State, ops: seq<Op>, k: nat, c: string)
    requires Disciplined(s, ops) && k <= |ops|
    requires EverFunded(s, ops[..k], c)
    ensures c in DoAll(s, ops[..k]).funding || MayForget(s, ops[..k], c)
  {
    DisciplinedPrefix(s, ops, k);
    NothingForgotten(s, ops[..k], c);
  }

  /**
   A crash while no call is under way loses no funded channel: after the reload its funding entry is still
   there, or a close record is, or its close was classified as having no on-chain transaction.
   */
  lemma ReloadKeepsTheChannel(store: Store, order: seq<string>, nowMs: U64, c: string)
    requires store.Valid() && Visits(store.diskRecords, order)
    requires EverFunded(store.origin, store.log, c)
    ensures DecodeMap(store.diskRecords, order, nowMs).Keys == store.records.Keys
    ensures || c in store.diskFunding
            || c in DecodeMap(store.diskRecords, order, nowMs)
            || ClassifiedUnfunded(c) in store.log
  {
    LoadFindsHeld(store.diskRecords, order, nowMs);
    forall k ensures k in DecodeMap(store.diskRecords, order, nowMs) <==> k in store.records {
      assert k in store.records.Keys <==> exists m :: Holds(store.diskRecords, m, k);
    }
    NothingForgotten(store.origin, store.log, c);
  }

  // ----- Two replicas -------------------------------------------------------------------

  ghost predicate AllDistinctTxids(records: Records) {
    forall c :: c in records ==> DistinctTxids(records[c].txs)
  }

  /** The first record of a channel lists each transaction once. */
  ghost predicate FirstDistinct(s: State, op: Op) {
    match op
    case Upsert(r, _) => r.channelId !in s.records ==> DistinctTxids(r.txs)
    case Absorb(remote) => forall c :: c in remote && c !in s.records ==> DistinctTxids(remote[c].txs)
    case _ => true
  }

  lemma OpKeepsDistinct(s: State, op: Op)
    requires AllDistinctTxids(s.records) && FirstDistinct(s, op)
    ensures AllDistinctTxids(Do(s, op).records)
  {
    forall c | c in Do(s, op).records ensures DistinctTxids(Do(s, op).records[c].txs) {
      if c in s.records {
        match op
        case Upsert(r, _) => MergeKeepsDistinct(s.records[c], r);
        case Absorb(remote) =>
          if c in remote {
            MergeKeepsDistinct(s.records[c], remote[c]);
          }
        case _ =>
      }
    }
  }

  /** Over any run, whatever is merged later, records that started with distinct txids keep them distinct. */
  lemma {:induction false} RunKeepsDistinct(s: State, ops: seq<Op>)
    requires AllDistinctTxids(s.records)
    requires forall i :: 0 <= i < |ops| ==> FirstDistinct(DoAll(s, ops[..i]), ops[i])
    ensures AllDistinctTxids(DoAll(s, ops).records)
    decreases |ops|
  {
    if ops != [] {
      var front := ops[..|ops| - 1];
      assert forall i :: 0 <= i < |front| ==> front[..i] == ops[..i];
      RunKeepsDistinct(s, front);
      OpKeepsDistinct(DoAll(s, front), ops[|ops| - 1]);
    }
  }

  /** Two replicas that absorb each other's encoded map hold the same closes, up to known conflicts. */
  lemma ReplicasConverge(a: Records, b: Records, orderA: seq<string>, orderB: seq<string>, t: U64, t': U64)
    requires WellFormed(a) && WellFormed(b)
    requires AllDistinctTxids(a) && AllDistinctTxids(b)
    requires (forall c :: c in a ==> c in orderA) && (forall c :: c in b ==> c in orderB)
    ensures var p := AbsorbInto(a, DecodeMap(EncodeMap(b), orderB, t));
            var q := AbsorbInto(b, DecodeMap(EncodeMap(a), orderA, t'));
            Exchanged(a, b, p, q) && forall c :: c in a && c in b ==> Learns(a[c], q[c])
  {
    MapRoundTrip(a, orderA, t');
    MapRoundTrip(b, orderB, t);
    forall c | c in a && c in b
      ensures BothKnow(a[c], b[c], Merge(a[c], b[c]), Merge(b[c], a[c])) && Learns(a[c], Merge(b[c], a[c]))
    {
      MergeBothWaysConverges(a[c], b[c]);
      MergeGains(a[c], b[c]);
      MergeGains(b[c], a[c]);
      MergeLearns(a[c], b[c]);
      MergeLearns(b[c], a[c]);
    }
  }

  /** The two results agree up to known conflicts, the first knows all of both, the second kept all it had. */
  ghost predicate BothKnow(a: CloseRecord, b: CloseRecord, p: CloseRecord, q: CloseRecord) {
    && Converged(a, b, p, q)
    && Gains(a, p) && Learns(b, p) && Gains(b, q)
  }

  /** The same channels, equal records where only one side had one, and convergence without loss where both had. */
  ghost predicate Exchanged(a: Records, b: Records, p: Records, q: Records) {
    && p.Keys == q.Keys == a.Keys + b.Keys
    && (forall c :: c in p && (c !in a || c !in b) ==> p[c] == q[c])
    && (forall c :: c in a && c in b ==> BothKnow(a[c], b[c], p[c], q[c]))
  }

  /** The four fields on which the incoming side decides are the same in both records. */
  predicate SameMeasurements(p: CloseRecord, q: CloseRecord) {
    && p.closeType == q.closeType && p.initiator == q.initiator
    && p.expectedAmountSats == q.expectedAmountSats && p.claimableAt == q.claimableAt
  }

  /**
   The same when one replica absorbs the other's map and sends its own merged map back; close type, initiator,
   expected amount and claimable height then agree without exception.
   */
  lemma SequentialExchangeConverges(a: Records, b: Records, orderB: seq<string>, orderP: seq<string>, t: U64, t': U64)
    requires WellFormed(a) && WellFormed(b)
    requires AllDistinctTxids(a) && AllDistinctTxids(b)
    requires (forall c :: c in b ==> c in orderB) && (forall c :: c in a.Keys + b.Keys ==> c in orderP)
    ensures var p := AbsorbInto(a, DecodeMap(EncodeMap(b), orderB, t));
            var q := AbsorbInto(b, DecodeMap(EncodeMap(p), orderP, t'));
            && Exchanged(a, b, p, q)
            && (forall c :: c in p ==> SameMeasurements(p[c], q[c]))
            && (forall c :: c in a && c in b ==> Learns(p[c], q[c]))
  {
    MapRoundTrip(b, orderB, t);
    AbsorbKeepsWellFormed(a, b);
    MapRoundTrip(AbsorbInto(a, b), orderP, t');
    AllSentBack(a, b);
  }

  lemma AllSentBack(a: Records, b: Records)
    requires WellFormed(a) && WellFormed(b) && AllDistinctTxids(a) && AllDistinctTxids(b)
    ensures var p := AbsorbInto(a, b);
            var q := AbsorbInto(b, p);
            && Exchanged(a, b, p, q)
            && (forall c :: c in p ==> SameMeasurements(p[c], q[c]))
            && (forall c :: c in a && c in b ==> Learns(p[c], q[c]))
  {
    var p := AbsorbInto(a, b);
    var q := AbsorbInto(b, p);
    forall c | c in p ensures SentBack(a, b, p, q, c) {
      ChannelSentBack(a, b, c);
    }
  }

  ghost predicate SentBack(a: Records, b: Records, p: Records, q: Records, c: string)
    requires c in p && c in q
  {
    && SameMeasurements(p[c], q[c])
    && if c in a && c in b then BothKnow(a[c], b[c], p[c], q[c]) && Learns(p[c], q[c]) else p[c] == q[c]
  }

  lemma ChannelSentBack(a: Records, b: Records, c: string)
    requires WellFormed(a) && WellFormed(b) && AllDistinctTxids(a) && AllDistinctTxids(b) && c in a.Keys + b.Keys
    ensures SentBack(a, b, AbsorbInto(a, b), AbsorbInto(b, AbsorbInto(a, b)), c)
  {
    if c in a && c in b {
      SentBackKnows(a[c], b[c]);
    } else if c in b {
      MergeIdempotent(b[c]);
    }
  }

  lemma SentBackKnows(a: CloseRecord, b: CloseRecord)
    requires a.channelId == b.channelId && DistinctTxids(a.txs) && DistinctTxids(b.txs)
    ensures var p, q := Merge(a, b), Merge(b, Merge(a, b));
            BothKnow(a, b, p, q) && SameMeasurements(p, q) && Learns(p, q)
  {
    var p := Merge(a, b);
    MergeBackConverges(a, b);
    MergeGains(a, b);
    MergeLearns(a, b);
    MergeKeepsDistinct(a, b);
    MergeGains(b, p);
    MergeLearns(b, p);
  }

  lemma AbsorbKeepsWellFormed(a: Records, b: Records)
    requires WellFormed(a) && WellFormed(b)
    ensures WellFormed(AbsorbInto(a, b))
  {
    forall c | c in a && c in b ensures Canonical(Merge(a[c], b[c])) {
      MergeCanonical(a[c], b[c]);
    }
  }
}
