/**
 Close records: the facts kept about one channel close, the asymmetric field-wise merge that
 combines two sets of facts, and the display status derived from a record.
 */
module CloseRecords {
  import opened Prelude
  import Json

  const SCHEMA_VERSION: U64 := 1

  datatype CloseType = Coop | Force | UnknownType
  datatype Initiator = Local | Remote | UnknownInitiator
  datatype TxRole = Closing | Commitment | AnchorCpfp | HtlcClaim | Sweep | Other(name: string) {
    /** The two roles that spend the funding output. */
    predicate IsClose() {
      Closing? || Commitment?
    }
  }
  datatype Resolution = Verified | Unverified
  datatype Outpoint = Outpoint(txid: string, vout: U32)

  datatype CloseTx = CloseTx(
    txid: string,
    role: TxRole,
    feeSats: Option<U64>,
    confirmedAt: Option<U32>)

  datatype CloseRecord = CloseRecord(
    schemaVersion: U64,
    channelId: string,
    fundingTxo: Option<Outpoint>,
    closeType: CloseType,
    initiator: Initiator,
    closureReason: Option<string>,
    txs: seq<CloseTx>,
    expectedAmountSats: Option<U64>,
    timelockBlocks: Option<U32>,
    claimableAt: Option<U32>,
    createdAtMs: U64,
    completedAtMs: Option<U64>,
    resolution: Option<Resolution>,
    extras: map<string, Json.Value>)
  {
    predicate HasConfirmedCloseTx() {
      exists i :: 0 <= i < |txs| && txs[i].role.IsClose() && txs[i].confirmedAt.Some?
    }
  }

  /** The facts-free record every signal and every reconcile pass starts from. */
  function Skeleton(channelId: string, createdAtMs: U64): CloseRecord {
    CloseRecord(SCHEMA_VERSION, channelId, None, UnknownType, UnknownInitiator, None, [],
                None, None, None, createdAtMs, None, None, map[])
  }

  // ----- The merge ---------------------------------------------------------------------

  /** The first position of `txid`, or `|txs|` when it does not occur. */
  function IndexOf(txs: seq<CloseTx>, txid: string): (i: nat)
    ensures i <= |txs|
    ensures forall j :: 0 <= j < i ==> txs[j].txid != txid
    ensures i < |txs| ==> txs[i].txid == txid
  {
    if txs == [] then 0
    else if txs[0].txid == txid then 0
    else 1 + IndexOf(txs[1..], txid)
  }

  ghost predicate HasTxid(txs: seq<CloseTx>, txid: string) {
    exists i :: 0 <= i < |txs| && txs[i].txid == txid
  }

  ghost predicate DistinctTxids(txs: seq<CloseTx>) {
    forall i, j :: 0 <= i < j < |txs| ==> txs[i].txid != txs[j].txid
  }

  /** Missing fields are filled in; known ones stay. */
  function FillTx(existing: CloseTx, tx: CloseTx): CloseTx {
    existing.(feeSats := existing.feeSats.Or(tx.feeSats),
              confirmedAt := existing.confirmedAt.Or(tx.confirmedAt))
  }

  function AddTx(txs: seq<CloseTx>, tx: CloseTx): seq<CloseTx> {
    var i := IndexOf(txs, tx.txid);
    if i < |txs| then txs[i := FillTx(txs[i], tx)] else txs + [tx]
  }

  /** Adds the incoming transactions one after the other. */
  function UnionTxs(base: seq<CloseTx>, incoming: seq<CloseTx>): seq<CloseTx>
    decreases |incoming|
  {
    if incoming == [] then base
    else
      var last := |incoming| - 1;
      AddTx(UnionTxs(base, incoming[..last]), incoming[last])
  }

  function MergeResolution(base: Option<Resolution>, incoming: Option<Resolution>): Option<Resolution> {
    if base == Some(Verified) || incoming == Some(Verified) then Some(Verified)
    else base.Or(incoming)
  }

  /** The merge of a stored record with facts that have just come in. */
  function Merge(base: CloseRecord, incoming: CloseRecord): CloseRecord {
    CloseRecord(
      Max(base.schemaVersion, incoming.schemaVersion),
      base.channelId,
      base.fundingTxo.Or(incoming.fundingTxo),
      if incoming.closeType != UnknownType then incoming.closeType else base.closeType,
      if incoming.initiator != UnknownInitiator then incoming.initiator else base.initiator,
      base.closureReason.Or(incoming.closureReason),
      UnionTxs(base.txs, incoming.txs),
      incoming.expectedAmountSats.Or(base.expectedAmountSats),
      base.timelockBlocks.Or(incoming.timelockBlocks),
      incoming.claimableAt.Or(base.claimableAt),
      Min(base.createdAtMs, incoming.createdAtMs),
      base.completedAtMs.Or(incoming.completedAtMs),
      MergeResolution(base.resolution, incoming.resolution),
      incoming.extras + base.extras)
  }

  /** Finds the entry with the same txid and fills it in, or pushes a new one. */
  method FillOrPush(txs: seq<CloseTx>, tx: CloseTx) returns (r: seq<CloseTx>)
    ensures r == AddTx(txs, tx)
  {
    var i := 0;
    while i < |txs| && txs[i].txid != tx.txid
      invariant 0 <= i <= |txs|
      invariant forall j :: 0 <= j < i ==> txs[j].txid != tx.txid
    {
      i := i + 1;
    }
    assert i == IndexOf(txs, tx.txid);
    if i < |txs| {
      r := txs[i := CloseTx(txs[i].txid, txs[i].role, txs[i].feeSats.Or(tx.feeSats),
                            txs[i].confirmedAt.Or(tx.confirmedAt))];
    } else {
      r := txs + [tx];
    }
  }

  /** The merge as the wallet core runs it: it grows a copy of the transaction list in place. */
  method MergeCloseRecords(base: CloseRecord, incoming: CloseRecord) returns (merged: CloseRecord)
    ensures merged == Merge(base, incoming)
  {
    var txs := base.txs;
    for n := 0 to |incoming.txs|
      invariant txs == UnionTxs(base.txs, incoming.txs[..n])
    {
      txs := FillOrPush(txs, incoming.txs[n]);
      assert incoming.txs[..n + 1][..n] == incoming.txs[..n];
    }
    assert incoming.txs[..|incoming.txs|] == incoming.txs;

    var resolution := base.resolution.Or(incoming.resolution);
    if base.resolution == Some(Verified) || incoming.resolution == Some(Verified) {
      resolution := Some(Verified);
    }
    var extras := incoming.extras + base.extras;
    merged := CloseRecord(
      Max(base.schemaVersion, incoming.schemaVersion),
      base.channelId,
      base.fundingTxo.Or(incoming.fundingTxo),
      if incoming.closeType != UnknownType then incoming.closeType else base.closeType,
      if incoming.initiator != UnknownInitiator then incoming.initiator else base.initiator,
      base.closureReason.Or(incoming.closureReason),
      txs,
      incoming.expectedAmountSats.Or(base.expectedAmountSats),
      base.timelockBlocks.Or(incoming.timelockBlocks),
      incoming.claimableAt.Or(base.claimableAt),
      Min(base.createdAtMs, incoming.createdAtMs),
      base.completedAtMs.Or(incoming.completedAtMs),
      resolution,
      extras);
  }

  // ----- What a union of transactions keeps --------------------------------------------

  lemma AddTxFacts(txs: seq<CloseTx>, tx: CloseTx)
    ensures var r := AddTx(txs, tx);
            && |txs| <= |r|
            && (forall i :: 0 <= i < |txs| ==> r[i].txid == txs[i].txid)
            && (forall id :: HasTxid(r, id) <==> HasTxid(txs, id) || id == tx.txid)
            && (DistinctTxids(txs) ==> DistinctTxids(r))
  {
    var i := IndexOf(txs, tx.txid);
    var r := AddTx(txs, tx);
    forall id ensures HasTxid(r, id) <==> HasTxid(txs, id) || id == tx.txid {
      if HasTxid(txs, id) {
        var k :| 0 <= k < |txs| && txs[k].txid == id;
        assert r[k].txid == id;
      }
      if id == tx.txid {
        assert r[i].txid == id;
      }
    }
  }

  /** The entry for `txid`, if any: what the list knows about that transaction. */
  function Lookup(txs: seq<CloseTx>, txid: string): (r: Option<CloseTx>)
    ensures r.Some? <==> HasTxid(txs, txid)
    ensures r.Some? ==> r.value in txs && r.value.txid == txid
  {
    var i := IndexOf(txs, txid);
    if i < |txs| then Some(txs[i]) else None
  }

}
