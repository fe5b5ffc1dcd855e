/**
 Runs of the wallet's close records: any sequence of events and reconcile ticks from a freshly loaded store, what
 each tick did, and the evidence behind every completed record at the end.
 */
module CloseRun {
  import opened Prelude
  import opened CloseRecords
  import opened CloseRecordGains
  import opened CloseRecordStore
  import opened CloseVerdict
  import opened CloseReconcile
  import opened ClosePass

  // ----- What each item did -------------------------------------------------------------

  /** What happens to a wallet: an event, or a tick of the reconciler. */
  datatype Item =
    | Happens(event: Meanwhile)
    | Tick(open: set<string>, wallet: set<string>, pendingSweeps: set<string>, nowMs: U64)

  /**
   What an item did: the operations from `from` up to `to` and the turns of the chain from `turnFrom` up to
   `turnTo`; the tip seen last before it and the tip a tick saw itself; the pass it ran if it ran one, and that
   pass's answers, questions and report.
   */
  datatype Ran = Ran(
    from: nat,
    to: nat,
    turnFrom: nat,
    turnTo: nat,
    seen: Option<U32>,
    tip: Option<U32>,
    pass: Option<Pass>,
    answered: seq<Answered>,
    asked: nat,
    fails: nat,
    report: PassReport)

  /** The pass of a tick: done on the run's own log, on eight questions, with answers told in its own turns. */
  ghost predicate PassOfTick(s: State, before: seq<Op>, after: seq<Op>, script: seq<Turn>, item: Item, ran: Ran)
    requires item.Tick? && ran.pass.Some?
  {
    && PassDone(s, after, |before|, ran.answered, DoAll(s, before).funding, item.open, ran.pass.value,
                ran.report)
    && ran.asked <= 8
    && Tiled(ran.report.outcomes, ran.report.caughtAt, |after|, 0, ran.fails,
             8, 8 - ran.asked)
    && (ran.asked < 8 ==> |ran.report.outcomes| == |ran.report.records|)
    && (forall i :: 0 <= i < |ran.answered| ==> ToldBy(script, ran.turnFrom, ran.turnTo, ran.answered[i]))
    && ran.fails <= FailedTurns(script, ran.turnFrom, ran.turnTo)
  }

  /**
   A tick that finds something to do sees the tip its first turn told; it runs a pass exactly when that tip is
   not the last one seen or an open record is undiscovered, over that tip and its own wallet and sweeps.
   */
  ghost predicate Ticked(s: State, before: seq<Op>, after: seq<Op>, script: seq<Turn>, item: Item, ran: Ran)
    requires item.Tick?
  {
    var now := DoAll(s, before);
    && (ran.tip.Some? <==> SomethingToDo(now.records, now.funding) && !Fails(script, ran.turnFrom))
    && (ran.tip.Some? ==> ran.tip.value == script[ran.turnFrom].tip)
    && (ran.pass.Some? <==> ran.tip.Some? && (ran.tip != ran.seen || SomeUndiscovered(now.records)))
    && if ran.pass.None? then EventsOnly(after, |before|, |after|) && ran.asked == 0
       else
         && ran.pass.value == Pass(ran.tip != ran.seen, ran.tip.value, item.wallet, item.pendingSweeps, item.nowMs)
         && PassOfTick(s, before, after, script, item, ran)
  }

  /** An event sees no tip and asks nothing. */
  ghost predicate Did(s: State, ops: seq<Op>, script: seq<Turn>, item: Item, ran: Ran) {
    && ran.from <= ran.to <= |ops| && ran.turnFrom <= ran.turnTo
    && if item.Tick? then Ticked(s, ops[..ran.from], ops[..ran.to], script, item, ran)
       else EventsOnly(ops, ran.from, ran.to) && ran.tip.None? && ran.pass.None? && ran.turnFrom == ran.turnTo
  }

  /** The tip seen last after these items, starting from `start`. */
  function LastSeen(start: Option<U32>, runs: seq<Ran>): Option<U32> {
    if runs == [] then start else runs[|runs| - 1].tip.Or(runs[|runs| - 1].seen)
  }

  /** Every item did what it says. */
  ghost predicate AllDid(s: State, ops: seq<Op>, script: seq<Turn>, items: seq<Item>, runs: seq<Ran>) {
    |runs| == |items| && forall k :: 0 <= k < |runs| ==> Did(s, ops, script, items[k], runs[k])
  }

  /** The items follow each other without a gap, in operations, in turns and in the tips they saw. */
  ghost predicate Consecutive(ops: seq<Op>, turnFrom: nat, turnTo: nat, start: Option<U32>, runs: seq<Ran>) {
    if runs == [] then ops == [] && turnFrom == turnTo
    else
      var first, last := runs[0], runs[|runs| - 1];
      && first.from == 0 && first.turnFrom == turnFrom && first.seen == start
      && last.to == |ops| && last.turnTo == turnTo
      && forall k :: 0 < k < |runs| ==> Succeeds(runs[k - 1], runs[k])
  }

  ghost predicate Succeeds(before: Ran, after: Ran) {
    after.from == before.to && after.turnFrom == before.turnTo && after.seen == before.tip.Or(before.seen)
  }

  /** Write `i` was made by the pass of `ran`, on what the store held since that pass began. */
  ghost predicate WrittenBy(s: State, ops: seq<Op>, i: nat, ran: Ran)
    requires i < |ops|
  {
    && ran.pass.Some? && ran.from <= i < ran.to <= |ops|
    && (ops[i].Upsert? ==> ops[i].pass == ran.pass)
    && JustifiedOp(s, ops, ran.from, i)
  }

  /** Every write that closes a record was made by a pass that ran. */
  ghost predicate ClosedByPasses(s: State, ops: seq<Op>, runs: seq<Ran>) {
    forall i :: 0 <= i < |ops| && Closes(ops[i]) ==> exists k :: 0 <= k < |runs| && WrittenBy(s, ops, i, runs[k])
  }

  /** One more item: earlier writes keep their pass, the new ones belong to the pass it ran. */
  lemma OneMoreItem(s: State, before: seq<Op>, after: seq<Op>, runs: seq<Ran>, ran: Ran, answered: seq<Answered>)
    requires ClosedByPasses(s, before, runs) && before <= after && ran.from == |before| && ran.to == |after|
    requires if ran.pass.Some? then PassWrites(s, after, |before|, answered, ran.pass.value)
             else OnlyEvents(before, after)
    ensures ClosedByPasses(s, after, runs + [ran])
  {
    var more := runs + [ran];
    forall i | 0 <= i < |after| && Closes(after[i])
      ensures exists k :: 0 <= k < |more| && WrittenBy(s, after, i, more[k])
    {
      if i < |before| {
        assert before[i] == after[i];
        var k :| 0 <= k < |runs| && WrittenBy(s, before, i, runs[k]);
        JustifiedPrefix(s, before, after, runs[k].from, i);
        assert WrittenBy(s, after, i, more[k]);
      } else {
        assert JustifiedOp(s, after, |before|, i) && Labelled(after[i], ran.pass.value);
        assert WrittenBy(s, after, i, more[|runs|]);
      }
    }
  }

  // ----- Distinct txids -----------------------------------------------------------------

  ghost predicate RemoteDistinct(ops: seq<Op>) {
    forall i :: 0 <= i < |ops| && ops[i].Absorb? ==> AllDistinctTxids(ops[i].remote)
  }

  /** A pass adds transactions only to records that exist, an event one transaction at a time. */
  lemma WriteIsFirstDistinct(s: State, ops: seq<Op>, n: nat, answered: seq<Answered>, pass: Pass, i: nat)
    requires PassWrites(s, ops, n, answered, pass) && RemoteDistinct(ops) && n <= i < |ops|
    ensures FirstDistinct(DoAll(s, ops[..i]), ops[i])
  {
    assert Labelled(ops[i], pass) && GroundedOp(s, ops, i, answered);
    if ops[i].Upsert? && ops[i].pass.Some? && ops[i].record.txs != [] {
      var j, txs :| 0 <= j <= i && GroundedBy(s, ops, j, txs, ops[i].record, answered);
      GainsBetween(s, ops, j, i, ops[i].record.channelId);
    }
  }

  lemma OneMoreDistinct(s: State, ops: seq<Op>, n: nat, k: nat, answered: seq<Answered>, pass: Pass)
    requires PassWrites(s, ops, n, answered, pass) && RemoteDistinct(ops) && n <= k < |ops|
    requires AllDistinctTxids(DoAll(s, ops[..k]).records)
    ensures AllDistinctTxids(DoAll(s, ops[..k + 1]).records)
  {
    WriteIsFirstDistinct(s, ops, n, answered, pass, k);
    OpKeepsDistinct(DoAll(s, ops[..k]), ops[k]);
    assert ops[..k + 1] == ops[..k] + [ops[k]];
  }

  lemma {:induction false} ItemKeepsDistinct(s: State, ops: seq<Op>, n: nat, k: nat,
                                             answered: seq<Answered>, pass: Pass)
    requires PassWrites(s, ops, n, answered, pass) && RemoteDistinct(ops) && n <= k <= |ops|
    requires AllDistinctTxids(DoAll(s, ops[..n]).records)
    ensures AllDistinctTxids(DoAll(s, ops[..k]).records)
    decreases k
  {
    if n < k {
      ItemKeepsDistinct(s, ops, n, k - 1, answered, pass);
      OneMoreDistinct(s, ops, n, k - 1, answered, pass);
    }
  }

  /** One item of a run, be it a pass or only events. */
  lemma ItemKeepsAllDistinct(s: State, before: seq<Op>, after: seq<Op>, answered: seq<Answered>, pass: Option<Pass>)
    requires before <= after && RemoteDistinct(after) && AllDistinctTxids(DoAll(s, before).records)
    requires if pass.Some? then PassWrites(s, after, |before|, answered, pass.value) else OnlyEvents(before, after)
    ensures AllDistinctTxids(DoAll(s, after).records)
  {
    var own := if pass.Some? then pass.value else Pass(false, 0, {}, {}, 0);
    assert after[..|before|] == before && after[..|after|] == after;
    ItemKeepsDistinct(s, after, |before|, |after|, answered, own);
  }

  /** One tick of the reconciler. */
  method PerformTick(store: Store, chain: Chain, item: Item) returns (ghost ran: Ran)
    requires item.Tick? && store.Valid() && chain.Valid()
    modifies store, chain`next, chain`asked, chain`since, chain`answered, chain`failures
    ensures chain.Valid() && store.Valid() && store.origin == old(store.origin) && old(store.log) <= store.log
    ensures ran.from == |old(store.log)| && ran.to == |store.log|
    ensures ran.turnFrom == old(chain.next) <= chain.next == ran.turnTo
    ensures Ticked(store.origin, old(store.log), store.log, chain.script, item, ran)
    ensures ran.seen == old(store.lastTip) && store.lastTip == ran.tip.Or(ran.seen)
  {
    ghost var log0, turn0, asked0, seen := store.log, chain.next, chain.asked, store.lastTip;
    var tip, newTip, went, report :=
      ReconcileCloseRecords(store, chain, item.open, item.wallet, item.pendingSweeps, item.nowMs);
    ghost var pass := if went then Some(Pass(newTip, tip.value, item.wallet, item.pendingSweeps, item.nowMs)) else None;
    ran := Ran(|log0|, |store.log|, turn0, chain.next, seen, tip, pass, chain.answered, chain.asked - asked0,
               chain.failures, report);
  }

  /** One event or one tick. */
  method PerformItem(store: Store, chain: Chain, item: Item) returns (ghost ran: Ran)
    requires store.Valid() && chain.Valid()
    modifies store, chain`next, chain`asked, chain`since, chain`answered, chain`failures
    ensures chain.Valid() && store.Valid() && store.origin == old(store.origin) && old(store.log) <= store.log
    ensures ran.from == |old(store.log)| && ran.to == |store.log|
    ensures ran.turnFrom == old(chain.next) && ran.turnTo == chain.next
    ensures Did(store.origin, store.log, chain.script, item, ran)
    ensures ran.seen == old(store.lastTip) && store.lastTip == ran.tip.Or(ran.seen)
  {
    ghost var log0 := store.log;
    match item {
      case Happens(event) =>
        Perform(store, event);
        ran := Ran(|log0|, |store.log|, chain.next, chain.next, store.lastTip, None, None, [], 0, 0,
                   PassReport(0, 0, [], []));
      case Tick(_, _, _, _) =>
        ran := PerformTick(store, chain, item);
    }
    assert store.log[..|log0|] == log0 && store.log[..|store.log|] == store.log;
  }

  /** What an item did keeps closing writes with their passes, and txids distinct. */
  lemma ItemKeepsRun(s: State, before: seq<Op>, after: seq<Op>, script: seq<Turn>, item: Item, runs: seq<Ran>, ran: Ran)
    requires before <= after && ran.from == |before| && ran.to == |after|
    requires Did(s, after, script, item, ran) && ClosedByPasses(s, before, runs) && DistinctKept(s, before)
    ensures ClosedByPasses(s, after, runs + [ran]) && DistinctKept(s, after)
  {
    assert after[..|before|] == before && after[..|after|] == after;
    OneMoreItem(s, before, after, runs, ran, ran.answered);
    if AllDistinctTxids(s.records) && RemoteDistinct(after) {
      assert forall i :: 0 <= i < |before| ==> before[i] == after[i];
      ItemKeepsAllDistinct(s, before, after, ran.answered, ran.pass);
    }
  }

  /** Distinct txids in the loaded and the absorbed records stay distinct. */
  ghost predicate DistinctKept(s: State, ops: seq<Op>) {
    AllDistinctTxids(s.records) && RemoteDistinct(ops) ==> AllDistinctTxids(DoAll(s, ops).records)
  }

  /**
   The completed record of `c` was completed by write `i` of a pass that ran, on the evidence in the record that
   the store held after the first `j` operations, which is since that pass began; it still holds the evidence.
   */
  ghost predicate EvidencedBy(s: State, ops: seq<Op>, c: string, ran: Ran, j: nat, i: nat, tx: CloseTx, h: U32) {
    && ran.pass.Some? && ran.from <= j <= i < ran.to <= |ops| && c in DoAll(s, ops).records
    && var final := DoAll(s, ops).records[c];
       && final.resolution.Some? && Completes(ops[i], c, final.resolution.value)
       && EvidenceAt(s, ops, j, c, ran.pass.value, final.resolution.value, tx, h)
       && Gains(DoAll(s, ops[..j]).records[c], final) && StillHolds(final, tx, h)
  }

  ghost predicate Evidenced(s: State, ops: seq<Op>, runs: seq<Ran>, c: string) {
    exists k: nat, j: nat, i: nat, tx: CloseTx, h: U32 ::
      k < |runs| && EvidencedBy(s, ops, c, runs[k], j, i, tx, h)
  }

  ghost predicate TipsExact(runs: seq<Ran>) {
    forall k :: 0 <= k < |runs| && runs[k].pass.Some? ==> runs[k].pass.value.tip <= EXACT_TIP
  }

  ghost predicate NoRemoteCompletions(ops: seq<Op>) {
    forall i :: 0 <= i < |ops| ==> NoRemoteCompletion(ops[i])
  }

  lemma RunEvidence(s: State, ops: seq<Op>, runs: seq<Ran>, c: string)
    requires ClosedByPasses(s, ops, runs) && TipsExact(runs) && NoRemoteCompletions(ops)
    requires Open(s.records, c) && c in DoAll(s, ops).records && DoAll(s, ops).records[c].completedAtMs.Some?
    ensures Evidenced(s, ops, runs, c)
  {
    CompletedByAPass(s, ops, c);
    var x := DoAll(s, ops).records[c].resolution.value;
    var i :| 0 <= i < |ops| && Completes(ops[i], c, x);
    assert Closes(ops[i]);
    var k :| 0 <= k < |runs| && WrittenBy(s, ops, i, runs[k]);
    var j, tx, h := CompletionEvidenceStays(s, ops, runs[k].from, i, c, x);
    assert ops[..|ops|] == ops;
    assert EvidencedBy(s, ops, c, runs[k], j, i, tx, h);
  }

  // ----- Heights ------------------------------------------------------------------------

  /** The item during which operation `i` was written. */
  lemma {:induction false} RunOfOp(ops: seq<Op>, turnFrom: nat, turnTo: nat, start: Option<U32>, runs: seq<Ran>, i: nat,
                                   last: nat)
    returns (k: nat)
    requires Consecutive(ops, turnFrom, turnTo, start, runs) && last < |runs| && i < runs[last].to
    ensures k <= last && runs[k].from <= i < runs[k].to
    decreases last
  {
    k := last;
    if i < runs[last].from {
      assert Succeeds(runs[last - 1], runs[last]);
      k := RunOfOp(ops, turnFrom, turnTo, start, runs, i, last - 1);
    }
  }

  /** A pass of the run was told this height. */
  ghost predicate ToldHeight(runs: seq<Ran>, txid: string, h: U32) {
    exists k :: 0 <= k < |runs| && runs[k].pass.Some? && ConfirmedAt(txid, Some(h)) in runs[k].answered
  }

  /** A pass of the run derived this expiry from the record it read and the answers it got. */
  ghost predicate Derived(s: State, ops: seq<Op>, runs: seq<Ran>, c: string, h: U32) {
    exists k: nat, j: nat, txs: seq<CloseTx> :: k < |runs| && DerivedBy(s, ops, runs[k], c, h, j, txs)
  }

  ghost predicate DerivedBy(s: State, ops: seq<Op>, ran: Ran, c: string, h: U32, j: nat, txs: seq<CloseTx>) {
    && ran.pass.Some? && j <= |ops| && c in DoAll(s, ops[..j]).records
    && TxsGrounded(txs, DoAll(s, ops[..j]).records[c], ran.answered)
    && ExpiryGrounded(Some(h), txs, DoAll(s, ops[..j]).records[c])
  }

  /** What a single upsert of a run can bring in. */
  lemma UpsertOfRun(s: State, ops: seq<Op>, script: seq<Turn>, items: seq<Item>, runs: seq<Ran>, k: nat, i: nat)
    requires AllDid(s, ops, script, items, runs) && k < |runs| && runs[k].from <= i < runs[k].to && ops[i].Upsert?
    ensures FromEvent(ops[i]) || (runs[k].pass.Some? && GroundedOp(s, ops, i, runs[k].answered) && ops[i].pass.Some?)
  {
    var ran := runs[k];
    var upTo := ops[..ran.to];
    assert Did(s, ops, script, items[k], ran);
    assert upTo[i] == ops[i];
    if ran.pass.Some? {
      assert Labelled(upTo[i], ran.pass.value) && GroundedOp(s, upTo, i, ran.answered);
      GroundedPrefix(s, upTo, ops, i, ran.answered);
    } else if items[k].Tick? {
      assert FromEvent(upTo[i]);
    }
  }

  lemma GroundedPrefix(s: State, a: seq<Op>, b: seq<Op>, i: nat, answered: seq<Answered>)
    requires a <= b && i < |a| && GroundedOp(s, a, i, answered)
    ensures GroundedOp(s, b, i, answered)
  {
    if a[i].Upsert? && a[i].pass.Some? && !(a[i].record.txs == [] && a[i].record.claimableAt.None?) {
      var j, txs :| 0 <= j <= i && GroundedBy(s, a, j, txs, a[i].record, answered);
      assert a[..j] == b[..j];
      assert GroundedBy(s, b, j, txs, b[i].record, answered);
    }
  }

  lemma HeightWasAnswered(s: State, ops: seq<Op>, i: nat, answered: seq<Answered>, txid: string, h: U32)
    requires i < |ops| && ops[i].Upsert? && ListsHeight(ops[i].record.txs, txid, h)
    requires FromEvent(ops[i]) || (GroundedOp(s, ops, i, answered) && ops[i].pass.Some?)
    ensures !FromEvent(ops[i]) && ConfirmedAt(txid, Some(h)) in answered
  {
    var txs := ops[i].record.txs;
    var m :| 0 <= m < |txs| && txs[m].txid == txid && txs[m].confirmedAt == Some(h);
    var j, told :| 0 <= j <= i && GroundedBy(s, ops, j, told, ops[i].record, answered);
    assert HeightAnswered(told[m], answered);
  }

  /**
   Every height in a record of a run was loaded, came in with a remote copy that gave it to the same transaction, or
   was answered to a pass that asked about that transaction. No event brings one.
   */
  lemma RunHeights(s: State, ops: seq<Op>, script: seq<Turn>, turnFrom: nat, turnTo: nat, start: Option<U32>,
                   items: seq<Item>, runs: seq<Ran>, c: string, txid: string, h: U32)
    requires RunOf(s, ops, script, turnFrom, turnTo, start, items, runs)
    requires c in DoAll(s, ops).records && ListsHeight(DoAll(s, ops).records[c].txs, txid, h)
    ensures || (c in s.records && ListsHeight(s.records[c].txs, txid, h))
            || (exists i :: 0 <= i < |ops| && ops[i].Absorb? && BringsHeight(ops[i], c, txid, h))
            || ToldHeight(runs, txid, h)
  {
    HeightsAreBrought(s, ops, c, txid, h);
    if i :| 0 <= i < |ops| && BringsHeight(ops[i], c, txid, h) && ops[i].Upsert? {
      var k := RunOfOp(ops, turnFrom, turnTo, start, runs, i, |runs| - 1);
      UpsertOfRun(s, ops, script, items, runs, k, i);
      HeightWasAnswered(s, ops, i, runs[k].answered, txid, h);
    }
  }

  /**
   Every claimable height in a record of a run was loaded, came in with a remote copy of the record, or was derived by
   a pass: a confirmed close transaction's height plus the recorded timelock.
   */
  lemma RunExpiries(s: State, ops: seq<Op>, script: seq<Turn>, turnFrom: nat, turnTo: nat, start: Option<U32>,
                    items: seq<Item>, runs: seq<Ran>, c: string, h: U32)
    requires RunOf(s, ops, script, turnFrom, turnTo, start, items, runs)
    requires c in DoAll(s, ops).records && DoAll(s, ops).records[c].claimableAt == Some(h)
    ensures || (c in s.records && s.records[c].claimableAt == Some(h))
            || (exists i :: 0 <= i < |ops| && ops[i].Absorb? && BringsExpiry(ops[i], c, h))
            || Derived(s, ops, runs, c, h)
  {
    ExpiriesAreBrought(s, ops, c, h);
    if i :| 0 <= i < |ops| && BringsExpiry(ops[i], c, h) && ops[i].Upsert? {
      var k := RunOfOp(ops, turnFrom, turnTo, start, runs, i, |runs| - 1);
      UpsertOfRun(s, ops, script, items, runs, k, i);
      var j, txs :| 0 <= j <= i && GroundedBy(s, ops, j, txs, ops[i].record, runs[k].answered);
      assert DerivedBy(s, ops, runs[k], c, h, j, txs);
    }
  }

  /** The completed record of `c` carries the clock of a pass that ran. */
  ghost predicate Dated(s: State, ops: seq<Op>, runs: seq<Ran>, c: string)
    requires c in DoAll(s, ops).records
  {
    exists k :: 0 <= k < |runs| && runs[k].pass.Some?
                && DoAll(s, ops).records[c].completedAtMs == Some(runs[k].pass.value.nowMs)
  }

  lemma RunDates(s: State, ops: seq<Op>, runs: seq<Ran>, c: string)
    requires ClosedByPasses(s, ops, runs) && NoRemoteCompletions(ops)
    requires Open(s.records, c) && c in DoAll(s, ops).records && DoAll(s, ops).records[c].completedAtMs.Some?
    ensures Dated(s, ops, runs, c)
  {
    var ms := DoAll(s, ops).records[c].completedAtMs.value;
    CompletionTimeIsWritten(s, ops, c, ms);
    var i :| 0 <= i < |ops| && CompletesAt(ops[i], c, ms);
    assert Closes(ops[i]);
    var k :| 0 <= k < |runs| && WrittenBy(s, ops, i, runs[k]);
  }

  /** Every record that was open at the start and is completed rests on evidence and carries its pass's clock. */
  ghost predicate AllEvidenced(s: State, ops: seq<Op>, runs: seq<Ran>) {
    forall c ::
      c in DoAll(s, ops).records && Open(s.records, c) && DoAll(s, ops).records[c].completedAtMs.Some? ==>
      Evidenced(s, ops, runs, c) && Dated(s, ops, runs, c)
  }

  lemma RunAllEvidenced(s: State, ops: seq<Op>, runs: seq<Ran>)
    requires ClosedByPasses(s, ops, runs) && TipsExact(runs) && NoRemoteCompletions(ops)
    ensures AllEvidenced(s, ops, runs)
  {
    forall c | c in DoAll(s, ops).records && Open(s.records, c) && DoAll(s, ops).records[c].completedAtMs.Some?
      ensures Evidenced(s, ops, runs, c) && Dated(s, ops, runs, c)
    {
      RunEvidence(s, ops, runs, c);
      RunDates(s, ops, runs, c);
    }
  }

  /**
   Any sequence of events and reconcile ticks from a freshly loaded store: every record that was open at the
   start and is completed at the end was completed on evidence, by a pass that ran at a tip the chain told, and
   still holds it.
   */
  method RunWallet(store: Store, chain: Chain, items: seq<Item>) returns (ghost runs: seq<Ran>)
    requires store.Valid() && store.log == []
    requires chain.Valid()
    modifies store, chain`next, chain`asked, chain`since, chain`answered, chain`failures
    ensures chain.Valid() && store.Valid() && store.origin == old(store.origin)
    ensures RunOf(store.origin, store.log, chain.script, old(chain.next), chain.next, old(store.lastTip), items, runs)
    ensures store.Current() == DoAll(store.origin, store.log) && store.lastTip == LastSeen(old(store.lastTip), runs)
    ensures TipsExact(runs) && NoRemoteCompletions(store.log) ==> AllEvidenced(store.origin, store.log, runs)
  {
    runs := [];
    for n := 0 to |items|
      invariant store.Valid() && chain.Valid() && store.origin == old(store.origin)
      invariant store.lastTip == LastSeen(old(store.lastTip), runs)
      invariant RunOf(store.origin, store.log, chain.script, old(chain.next), chain.next, old(store.lastTip),
                      items[..n], runs)
    {
      runs := PerformNext(store, chain, items, n, old(chain.next), old(store.lastTip), runs);
    }
    assert items[..|items|] == items;
    if TipsExact(runs) && NoRemoteCompletions(store.log) {
      RunAllEvidenced(store.origin, store.log, runs);
    }
  }

  /** One more item of the run. */
  method PerformNext(store: Store, chain: Chain, items: seq<Item>, n: nat, ghost turn0: nat, ghost start: Option<U32>,
                     ghost before: seq<Ran>)
    returns (ghost runs: seq<Ran>)
    requires store.Valid() && chain.Valid() && n < |items| && store.lastTip == LastSeen(start, before)
    requires RunOf(store.origin, store.log, chain.script, turn0, chain.next, start, items[..n], before)
    modifies store, chain`next, chain`asked, chain`since, chain`answered, chain`failures
    ensures store.Valid() && chain.Valid() && store.origin == old(store.origin)
    ensures store.lastTip == LastSeen(start, runs)
    ensures RunOf(store.origin, store.log, chain.script, turn0, chain.next, start, items[..n + 1], runs)
  {
    ghost var log0, turn1 := store.log, chain.next;
    ghost var ran := PerformItem(store, chain, items[n]);
    assert items[..n + 1] == items[..n] + [items[n]];
    OneMoreDid(store.origin, log0, store.log, chain.script, items[..n], items[n], before, ran);
    ItemKeepsRun(store.origin, log0, store.log, chain.script, items[n], before, ran);
    runs := before + [ran];
  }

  /**
   The run so far: every item did what it says and they follow each other; every closing write has its pass; and
   txids stay distinct if they are in the loaded and the absorbed records.
   */
  ghost predicate RunOf(s: State, ops: seq<Op>, script: seq<Turn>, turnFrom: nat, turnTo: nat, start: Option<U32>,
                        items: seq<Item>, runs: seq<Ran>) {
    && AllDid(s, ops, script, items, runs)
    && Consecutive(ops, turnFrom, turnTo, start, runs)
    && ClosedByPasses(s, ops, runs)
    && DistinctKept(s, ops)
  }

  lemma OneMoreDid(s: State, before: seq<Op>, after: seq<Op>, script: seq<Turn>, items: seq<Item>, item: Item,
                   runs: seq<Ran>, ran: Ran)
    requires AllDid(s, before, script, items, runs) && before <= after && Did(s, after, script, item, ran)
    ensures AllDid(s, after, script, items + [item], runs + [ran])
  {
    var more, all := runs + [ran], items + [item];
    forall k | 0 <= k < |more| ensures Did(s, after, script, all[k], more[k]) {
      if k < |runs| {
        DidStands(s, before, after, script, items[k], runs[k]);
      }
    }
  }

  lemma DidStands(s: State, a: seq<Op>, b: seq<Op>, script: seq<Turn>, item: Item, ran: Ran)
    requires a <= b && Did(s, a, script, item, ran)
    ensures Did(s, b, script, item, ran)
  {
    assert a[..ran.from] == b[..ran.from] && a[..ran.to] == b[..ran.to];
  }

}
