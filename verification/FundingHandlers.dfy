/**
 The funding handlers, the broadcaster and the startup drain over the two stores, in the order the wallet
 core performs their writes. Each write is mirrored by a step of the funding flow, so whatever holds in
 every state of that machine holds at every crash point of these handlers.
 */
module FundingHandlers {
  import opened Prelude
  import opened FundingFlow

  datatype FundingResult = BuildFailed | PersistFailed | NotifyFailed | Notified

  class Stores {
    /** Disk: funding transactions by temporary id, real-to-temporary ids, pending broadcasts with their time. */
    var funding: map<string, Txid>
    var idMap: map<string, string>
    var pending: map<Txid, nat>
    /** Memory: the bounded send queue. */
    var queue: seq<Txid>
    ghost var flow: Flow
    ghost var origin: Flow
    ghost var steps: seq<Step>

    /** The state of the machine is one its steps reach from an empty wallet. */
    ghost predicate Tracked()
      reads this
    {
      Initial(origin) && ValidRun(origin, steps) && After(origin, steps) == flow && Inv(flow)
    }

    ghost predicate Mirrors()
      reads this
    {
      flow.funding == funding && flow.idMap == idMap && flow.pending == pending && flow.queue == queue
    }

    ghost predicate Valid()
      reads this
    {
      Tracked() && Mirrors() && flow.handler.Idle?
    }

    constructor ()
      ensures Valid() && funding == map[] && pending == map[] && idMap == map[] && queue == []
    {
      funding, idMap, pending, queue := map[], map[], map[], [];
      var empty := Flow(map[], map[], map[], Idle, [], [], {}, {}, History({}, {}, {}, {}, {}, {}, {}, {}, {}));
      flow, origin, steps := empty, empty, [];
    }

    ghost method Take(step: Step)
      requires Tracked() && Enabled(flow, step)
      modifies this`flow, this`steps
      ensures Tracked() && flow == Apply(old(flow), step) && steps == old(steps) + [step]
    {
      StepKeepsInv(flow, step);
      steps := steps + [step];
      assert steps[..|steps| - 1] == old(steps);
      flow := Apply(flow, step);
    }

    /** `FundingGenerationReady`: persist before LDK is notified; a failed persist aborts. */
    method HandleFundingGenerationReady(temp: string, built: Option<Txid>, persistOk: bool, notifyOk: bool)
      returns (r: FundingResult)
      requires Valid()
      modifies this
      ensures Valid() && pending == old(pending) && idMap == old(idMap) && queue == old(queue)
      ensures r.BuildFailed? <==> built.None?
      ensures r.PersistFailed? <==> built.Some? && !persistOk
      ensures r.BuildFailed? || r.PersistFailed? ==>
                funding == old(funding) && flow.history.notified == old(flow.history.notified)
      ensures r.Notified? || r.NotifyFailed? ==>
                && funding == old(funding)[temp := built.value]
                && flow.history.notified == old(flow.history.notified) + {built.value}
                && steps == old(steps) + [GenerationReady(temp, built.value), PersistFunding(true), NotifyLdk]
    {
      if built.None? {
        return BuildFailed;
      }
      Take(GenerationReady(temp, built.value));
      Take(PersistFunding(persistOk));
      if !persistOk {
        return PersistFailed;
      }
      funding := funding[temp := built.value];
      Take(NotifyLdk);
      r := if notifyOk then Notified else NotifyFailed;
    }

    /** Persist first, then offer to the queue; a full queue only drops the live attempt. */
    method OfferForBroadcast(tx: Txid)
      modifies this`queue
      ensures queue == Offer(old(queue), tx)
    {
      if |queue| < BCAST_PACKAGE_QUEUE_SIZE {
        queue := queue + [tx];
      }
    }

    /** `FundingTxBroadcastSafe`: pending store, send queue, and only then out of the funding store. */
    method HandleFundingTxBroadcastSafe(temp: string, nowSecs: nat) returns (sent: Option<Txid>)
      requires Valid()
      modifies this
      ensures Valid() && idMap == old(idMap)
      ensures sent == if temp in old(funding) then Some(old(funding)[temp]) else None
      ensures sent.None? ==> funding == old(funding) && pending == old(pending) && queue == old(queue)
      ensures sent.Some? ==>
                && funding == old(funding) - {temp}
                && pending == old(pending)[sent.value := nowSecs]
                && queue == Offer(old(queue), sent.value)
                && steps == old(steps) + [BroadcastSafe(temp), PersistPending(nowSecs), TrySend, DropFunding]
    {
      Take(BroadcastSafe(temp));
      if temp !in funding {
        return None;
      }
      var tx := funding[temp];
      pending := pending[tx := nowSecs];
      Take(PersistPending(nowSecs));
      OfferForBroadcast(tx);
      Take(TrySend);
      funding := funding - {temp};
      Take(DropFunding);
      sent := Some(tx);
    }

    /** A transaction LDK wants on the network: on disk first, then offered to the queue. */
    method BroadcastTransactions(tx: Txid, nowSecs: nat)
      requires Valid()
      modifies this
      ensures Valid() && funding == old(funding) && idMap == old(idMap)
      ensures pending == old(pending)[tx := nowSecs] && queue == Offer(old(queue), tx)
      ensures steps == old(steps) + [OtherBroadcast(tx, nowSecs)]
    {
      pending := pending[tx := nowSecs];
      OfferForBroadcast(tx);
      Take(OtherBroadcast(tx, nowSecs));
    }

    method RecordChannelIdMap(channel: string, temp: string)
      requires Valid()
      modifies this
      ensures Valid() && idMap == old(idMap)[channel := temp]
      ensures funding == old(funding) && pending == old(pending) && queue == old(queue)
    {
      idMap := idMap[channel := temp];
      Take(RecordIdMap(channel, temp));
    }

    /** `DiscardFunding`: the transaction, then the id mapping. */
    method HandleDiscardFunding(channel: string) returns (cleaned: bool)
      requires Valid()
      modifies this
      ensures Valid() && pending == old(pending) && queue == old(queue)
      ensures cleaned <==> channel in old(idMap)
      ensures cleaned ==> funding == old(funding) - {old(idMap)[channel]} && idMap == old(idMap) - {channel}
      ensures !cleaned ==> funding == old(funding) && idMap == old(idMap)
    {
      Take(DiscardFunding(channel));
      if channel !in idMap {
        return false;
      }
      funding := funding - {idMap[channel]};
      Take(DiscardDropTx);
      idMap := idMap - {channel};
      Take(DiscardDropMap);
      cleaned := true;
    }

    /** One attempt for the `k`-th transaction under way; its pending entry goes once the network knows it. */
    method BroadcastTransaction(tx: Txid, success: bool, ghost k: nat)
      requires Valid() && k < |flow.sending| && flow.sending[k] == tx
      modifies this
      ensures Valid() && funding == old(funding) && idMap == old(idMap) && queue == old(queue)
      ensures pending == if success then old(pending) - {tx} else old(pending)
      ensures flow.sending == old(flow.sending)[..k] + old(flow.sending)[k + 1..]
    {
      Take(Send(k, success));
      if success {
        pending := pending - {tx};
        Take(ClearPending(tx));
      }
    }

    method ProcessQueued(success: bool) returns (tx: Txid)
      requires Valid() && queue != []
      modifies this
      ensures Valid() && tx == old(queue)[0] && queue == old(queue)[1..]
      ensures funding == old(funding) && idMap == old(idMap)
      ensures pending == if success then old(pending) - {tx} else old(pending)
    {
      tx := queue[0];
      queue := queue[1..];
      Take(TakeQueued);
      BroadcastTransaction(tx, success, |flow.sending| - 1);
    }

    /** One entry of the drain: kept for sending within its 48 hours, else removed from disk. */
    method ReadEntry(tx: Txid, nowSecs: nat) returns (keep: bool)
      requires Valid() && tx in pending
      modifies this
      ensures Valid() && funding == old(funding) && idMap == old(idMap) && queue == old(queue)
      ensures keep <==> Fresh(old(pending)[tx], nowSecs)
      ensures pending == if keep then old(pending) else old(pending) - {tx}
      ensures flow.sending == if keep then old(flow.sending) + [tx] else old(flow.sending)
    {
      Take(DrainRead(tx, nowSecs));
      keep := Fresh(pending[tx], nowSecs);
      if !keep {
        pending := pending - {tx};
        Take(DrainRemove(tx));
      }
    }

    /** Every entry within its 48 hours; the rest are removed from disk. */
    method LoadFresh(nowSecs: nat) returns (alive: seq<Txid>)
      requires Valid()
      modifies this
      ensures Valid() && funding == old(funding) && idMap == old(idMap) && queue == old(queue)
      ensures pending == FreshEntries(old(pending), nowSecs, old(pending).Keys)
      ensures forall tx :: tx in alive <==> tx in pending
      ensures forall i, j :: 0 <= i < j < |alive| ==> alive[i] != alive[j]
      ensures flow.sending == old(flow.sending) + alive
    {
      var all := pending;
      var seen: set<Txid> := {};
      alive := [];
      assert FreshEntries(all, nowSecs, seen) == all;
      while seen != all.Keys
        invariant seen <= all.Keys
        invariant Valid() && funding == old(funding) && idMap == old(idMap) && queue == old(queue)
        invariant pending == FreshEntries(all, nowSecs, seen)
        invariant forall tx :: tx in alive <==> tx in seen && Fresh(all[tx], nowSecs)
        invariant forall i, j :: 0 <= i < j < |alive| ==> alive[i] != alive[j]
        invariant flow.sending == old(flow.sending) + alive
        decreases all.Keys - seen
      {
        assert exists tx :: tx in all.Keys && tx !in seen;
        var tx :| tx in all.Keys && tx !in seen;
        var keep := ReadEntry(tx, nowSecs);
        if keep {
          alive := alive + [tx];
        }
        seen := seen + {tx};
      }
    }

    /** One attempt for each transaction under way, in order. */
    method SendEach(txs: seq<Txid>, accepted: set<Txid>)
      requires Valid() && flow.sending == txs
      modifies this
      ensures Valid() && funding == old(funding) && idMap == old(idMap) && queue == old(queue)
      ensures pending == Cleared(old(pending), txs, accepted)
    {
      for n := 0 to |txs|
        invariant Valid() && funding == old(funding) && idMap == old(idMap) && queue == old(queue)
        invariant flow.sending == txs[n..]
        invariant pending == Cleared(old(pending), txs[..n], accepted)
      {
        ClearedOneMore(old(pending), txs, n, accepted);
        BroadcastTransaction(txs[n], txs[n] in accepted, 0);
        assert txs[n..][1..] == txs[n + 1..];
      }
      assert txs[..|txs|] == txs;
    }

    /** The startup drain: survivors are rebroadcast, and stay on disk until the network knows them. */
    method DrainPendingBroadcasts(nowSecs: nat, accepted: set<Txid>)
      requires Valid() && flow.sending == []
      modifies this
      ensures Valid() && funding == old(funding) && idMap == old(idMap) && queue == old(queue)
      ensures pending == FreshEntries(old(pending), nowSecs, old(pending).Keys) - accepted
    {
      var alive := LoadFresh(nowSecs);
      ghost var survivors := pending;
      SendEach(alive, accepted);
      ClearedAll(survivors, alive, accepted);
    }
  }

  /** The entries left once every accepted transaction of `txs` has been cleared. */
  function Cleared(entries: map<Txid, nat>, txs: seq<Txid>, accepted: set<Txid>): map<Txid, nat>
    decreases |txs|
  {
    if txs == [] then entries
    else
      var last := txs[|txs| - 1];
      var rest := Cleared(entries, txs[..|txs| - 1], accepted);
      if last in accepted then rest - {last} else rest
  }

  lemma ClearedOneMore(entries: map<Txid, nat>, txs: seq<Txid>, n: nat, accepted: set<Txid>)
    requires n < |txs|
    ensures Cleared(entries, txs[..n + 1], accepted)
            == var rest := Cleared(entries, txs[..n], accepted);
               if txs[n] in accepted then rest - {txs[n]} else rest
  {
    assert txs[..n + 1][..n] == txs[..n];
  }

  lemma {:induction false} ClearedKeeps(entries: map<Txid, nat>, txs: seq<Txid>, accepted: set<Txid>, tx: Txid)
    ensures tx in Cleared(entries, txs, accepted) <==> tx in entries && !(tx in txs && tx in accepted)
    ensures tx in Cleared(entries, txs, accepted) ==> Cleared(entries, txs, accepted)[tx] == entries[tx]
    decreases |txs|
  {
    if txs != [] {
      assert txs == txs[..|txs| - 1] + [txs[|txs| - 1]];
      ClearedKeeps(entries, txs[..|txs| - 1], accepted, tx);
    }
  }

  lemma ClearedAll(entries: map<Txid, nat>, txs: seq<Txid>, accepted: set<Txid>)
    requires forall tx :: tx in txs <==> tx in entries
    ensures Cleared(entries, txs, accepted) == entries - accepted
  {
    forall tx ensures tx in Cleared(entries, txs, accepted) <==> tx in entries - accepted {
      ClearedKeeps(entries, txs, accepted, tx);
    }
    forall tx | tx in entries - accepted ensures Cleared(entries, txs, accepted)[tx] == entries[tx] {
      ClearedKeeps(entries, txs, accepted, tx);
    }
  }

  /** The entries left once the keys in `seen` have been checked for expiry. */
  function FreshEntries(entries: map<Txid, nat>, nowSecs: nat, seen: set<Txid>): map<Txid, nat> {
    map tx | tx in entries && (tx !in seen || Fresh(entries[tx], nowSecs)) :: entries[tx]
  }

}
