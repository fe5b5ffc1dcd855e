/**
 What merging does to knowledge: a record only gains facts, no fact of either side is lost, and two
 replicas that merge each other's record agree except where both already held different values.
 */
module CloseRecordGains {
  import opened Prelude
  import opened CloseRecords
  import opened CloseRecordLaws

  // ----- The order "b knows everything a knows" -----------------------------------------

  ghost predicate Kept<T>(before: Option<T>, after: Option<T>) {
    before.Some? ==> after == before
  }

  ghost predicate StaysKnown<T>(before: Option<T>, after: Option<T>) {
    before.Some? ==> after.Some?
  }

  ghost predicate KeptTx(before: CloseTx, after: CloseTx) {
    && after.txid == before.txid
    && after.role == before.role
    && Kept(before.feeSats, after.feeSats)
    && Kept(before.confirmedAt, after.confirmedAt)
  }

  ghost predicate KeptTxs(before: seq<CloseTx>, after: seq<CloseTx>) {
    && |before| <= |after|
    && forall i :: 0 <= i < |before| ==> KeptTx(before[i], after[i])
  }

  /** How far a close is resolved: not at all, unverified, verified. */
  function Rank(r: Option<Resolution>): nat {
    match r
    case None => 0
    case Some(Unverified) => 1
    case Some(Verified) => 2
  }

  /** Every fact of `before` still stands in `after`. */
  ghost predicate Gains(before: CloseRecord, after: CloseRecord) {
    && after.channelId == before.channelId
    && before.schemaVersion <= after.schemaVersion
    && Kept(before.fundingTxo, after.fundingTxo)
    && Kept(before.closureReason, after.closureReason)
    && Kept(before.timelockBlocks, after.timelockBlocks)
    && Kept(before.completedAtMs, after.completedAtMs)
    && (before.closeType != UnknownType ==> after.closeType != UnknownType)
    && (before.initiator != UnknownInitiator ==> after.initiator != UnknownInitiator)
    && StaysKnown(before.expectedAmountSats, after.expectedAmountSats)
    && StaysKnown(before.claimableAt, after.claimableAt)
    && KeptTxs(before.txs, after.txs)
    && after.createdAtMs <= before.createdAtMs
    && Rank(before.resolution) <= Rank(after.resolution)
    && (forall k :: k in before.extras ==> k in after.extras && after.extras[k] == before.extras[k])
  }

  lemma {:induction false} UnionKeeps(a: seq<CloseTx>, b: seq<CloseTx>)
    ensures KeptTxs(a, UnionTxs(a, b))
    decreases |b|
  {
    if b != [] {
      var front := b[..|b| - 1];
      UnionKeeps(a, front);
      var u := UnionTxs(a, front);
      var r := AddTx(u, b[|b| - 1]);
      forall i | 0 <= i < |a| ensures KeptTx(a[i], r[i]) {
        assert KeptTx(a[i], u[i]);
      }
    }
  }

  /** Merging never loses or changes a known fact of the existing record. */
  lemma MergeGains(base: CloseRecord, incoming: CloseRecord)
    ensures Gains(base, Merge(base, incoming))
  {
    UnionKeeps(base.txs, incoming.txs);
  }

  // ----- What the incoming side contributes ---------------------------------------------

  /** `Lookup` of a union is the fill-in of the two lookups. */
  function FillLookup(x: Option<CloseTx>, y: Option<CloseTx>): Option<CloseTx> {
    if x.Some? && y.Some? then Some(FillTx(x.value, y.value)) else x.Or(y)
  }

  lemma LookupAddTx(u: seq<CloseTx>, x: CloseTx, id: string)
    ensures Lookup(AddTx(u, x), id) ==
            if id == x.txid then FillLookup(Lookup(u, id), Some(x)) else Lookup(u, id)
  {
    AddTxFacts(u, x);
    if HasTxid(u, id) {
      IndexOfAddTx(u, x, id);
    } else if id == x.txid {
      assert IndexOf(u, id) == |u|;
      assert AddTx(u, x)[|u|].txid == id;
      assert forall j :: 0 <= j < |u| ==> AddTx(u, x)[j].txid != id;
      assert IndexOf(AddTx(u, x), id) == |u|;
    }
  }

  lemma {:induction false} LookupUnion(a: seq<CloseTx>, b: seq<CloseTx>, id: string)
    requires DistinctTxids(b)
    ensures Lookup(UnionTxs(a, b), id) == FillLookup(Lookup(a, id), Lookup(b, id))
    decreases |b|
  {
    if b == [] {
      assert !HasTxid(b, id);
    } else {
      var last := |b| - 1;
      var front := b[..last];
      assert b == front + [b[last]];
      LookupUnion(a, front, id);
      LookupAddTx(UnionTxs(a, front), b[last], id);
      if id == b[last].txid {
        assert IndexOf(b, id) == last;
        assert forall j :: 0 <= j < last ==> front[j].txid != id;
        assert !HasTxid(front, id);
      } else {
        LookupFront(front, b[last], id);
      }
    }
  }

  lemma LookupFront(front: seq<CloseTx>, x: CloseTx, id: string)
    requires id != x.txid
    ensures Lookup(front + [x], id) == Lookup(front, id)
  {
    var s := front + [x];
    assert forall j :: 0 <= j < |front| ==> s[j] == front[j];
    var i, k := IndexOf(front, id), IndexOf(s, id);
    if i < |front| {
      assert s[i].txid == id;
      assert k == i;
    }
  }

  /** Everything `incoming` knows is known in `merged`, though not always with the same value. */
  ghost predicate Learns(incoming: CloseRecord, merged: CloseRecord) {
    && incoming.schemaVersion <= merged.schemaVersion
    && merged.createdAtMs <= incoming.createdAtMs
    && StaysKnown(incoming.fundingTxo, merged.fundingTxo)
    && StaysKnown(incoming.closureReason, merged.closureReason)
    && StaysKnown(incoming.timelockBlocks, merged.timelockBlocks)
    && StaysKnown(incoming.completedAtMs, merged.completedAtMs)
    && (incoming.closeType != UnknownType ==> merged.closeType == incoming.closeType)
    && (incoming.initiator != UnknownInitiator ==> merged.initiator == incoming.initiator)
    && Kept(incoming.expectedAmountSats, merged.expectedAmountSats)
    && Kept(incoming.claimableAt, merged.claimableAt)
    && Rank(incoming.resolution) <= Rank(merged.resolution)
    && incoming.extras.Keys <= merged.extras.Keys
    && (forall id :: Lookup(incoming.txs, id).Some? ==>
          && Lookup(merged.txs, id).Some?
          && var known, now := Lookup(incoming.txs, id).value, Lookup(merged.txs, id).value;
             StaysKnown(known.feeSats, now.feeSats) && StaysKnown(known.confirmedAt, now.confirmedAt))
  }

  /** No fact known to the incoming side is lost. */
  lemma MergeLearns(base: CloseRecord, incoming: CloseRecord)
    requires DistinctTxids(incoming.txs)
    ensures Learns(incoming, Merge(base, incoming))
  {
    var merged := Merge(base, incoming);
    forall id | Lookup(incoming.txs, id).Some?
      ensures Lookup(merged.txs, id).Some?
      ensures var known, now := Lookup(incoming.txs, id).value, Lookup(merged.txs, id).value;
              StaysKnown(known.feeSats, now.feeSats) && StaysKnown(known.confirmedAt, now.confirmedAt)
    {
      LookupUnion(base.txs, incoming.txs, id);
    }
  }

  /** Unknown fields of either side survive; where both hold one, the existing value stays. */
  lemma MergeExtras(base: CloseRecord, incoming: CloseRecord)
    ensures var merged := Merge(base, incoming).extras;
            && merged.Keys == base.extras.Keys + incoming.extras.Keys
            && forall k :: k in merged ==> merged[k] == if k in base.extras then base.extras[k] else incoming.extras[k]
  {
  }

  // ----- Two replicas -------------------------------------------------------------------

  /** The two results agree, unless the two sides already held different known values. */
  ghost predicate AgreeUnlessConflict<T>(x: Option<T>, y: Option<T>, rx: Option<T>, ry: Option<T>) {
    rx == ry || (x.Some? && y.Some? && x != y)
  }

  ghost predicate AgreeTx(x: Option<CloseTx>, y: Option<CloseTx>, rx: Option<CloseTx>, ry: Option<CloseTx>) {
    && (rx.Some? <==> ry.Some?)
    && (x.None? || y.None? ==> rx == ry)
    && (x.Some? && y.Some? && rx.Some? && ry.Some? ==>
          && rx.value.txid == ry.value.txid
          && AgreeUnlessConflict(Some(x.value.role), Some(y.value.role), Some(rx.value.role), Some(ry.value.role))
          && AgreeUnlessConflict(x.value.feeSats, y.value.feeSats, rx.value.feeSats, ry.value.feeSats)
          && AgreeUnlessConflict(x.value.confirmedAt, y.value.confirmedAt, rx.value.confirmedAt, ry.value.confirmedAt))
  }

  /** `p` and `q` are one record up to transaction order and the fields `a` and `b` disagreed on. */
  ghost predicate Converged(a: CloseRecord, b: CloseRecord, p: CloseRecord, q: CloseRecord) {
    && p.schemaVersion == q.schemaVersion
    && p.channelId == q.channelId
    && p.createdAtMs == q.createdAtMs
    && p.resolution == q.resolution
    && (p.completedAtMs.Some? <==> q.completedAtMs.Some?)
    && (forall id :: HasTxid(p.txs, id) <==> HasTxid(q.txs, id))
    && (forall id :: AgreeTx(Lookup(a.txs, id), Lookup(b.txs, id), Lookup(p.txs, id), Lookup(q.txs, id)))
    && AgreeUnlessConflict(a.fundingTxo, b.fundingTxo, p.fundingTxo, q.fundingTxo)
    && AgreeUnlessConflict(a.closureReason, b.closureReason, p.closureReason, q.closureReason)
    && AgreeUnlessConflict(a.expectedAmountSats, b.expectedAmountSats, p.expectedAmountSats, q.expectedAmountSats)
    && AgreeUnlessConflict(a.timelockBlocks, b.timelockBlocks, p.timelockBlocks, q.timelockBlocks)
    && AgreeUnlessConflict(a.claimableAt, b.claimableAt, p.claimableAt, q.claimableAt)
    && AgreeUnlessConflict(a.completedAtMs, b.completedAtMs, p.completedAtMs, q.completedAtMs)
    && (p.closeType == q.closeType
        || (a.closeType != UnknownType && b.closeType != UnknownType && a.closeType != b.closeType))
    && (p.initiator == q.initiator
        || (a.initiator != UnknownInitiator && b.initiator != UnknownInitiator && a.initiator != b.initiator))
    && p.extras.Keys == q.extras.Keys
    && (forall k :: k in p.extras ==>
          p.extras[k] == q.extras[k] || (k in a.extras && k in b.extras && a.extras[k] != b.extras[k]))
  }

  lemma MergeBothWaysConverges(a: CloseRecord, b: CloseRecord)
    requires a.channelId == b.channelId
    requires DistinctTxids(a.txs) && DistinctTxids(b.txs)
    ensures Converged(a, b, Merge(a, b), Merge(b, a))
  {
    var p, q := Merge(a, b), Merge(b, a);
    UnionFacts(a.txs, b.txs);
    UnionFacts(b.txs, a.txs);
    forall id
      ensures AgreeTx(Lookup(a.txs, id), Lookup(b.txs, id), Lookup(p.txs, id), Lookup(q.txs, id))
    {
      LookupUnion(a.txs, b.txs, id);
      LookupUnion(b.txs, a.txs, id);
    }
    assert p.extras.Keys == q.extras.Keys;
    assert a.resolution.Some? ==> a.resolution.value == Verified || a.resolution.value == Unverified;
    assert b.resolution.Some? ==> b.resolution.value == Verified || b.resolution.value == Unverified;
  }

  /**
   One replica merges the other's record and sends the result back: the two agree as after a simultaneous
   exchange, and on close type, initiator, expected amount and claimable height without exception.
   */
  lemma MergeBackConverges(a: CloseRecord, b: CloseRecord)
    requires a.channelId == b.channelId
    requires DistinctTxids(a.txs) && DistinctTxids(b.txs)
    ensures var p, q := Merge(a, b), Merge(b, Merge(a, b));
            && Converged(a, b, p, q)
            && p.closeType == q.closeType && p.initiator == q.initiator
            && p.expectedAmountSats == q.expectedAmountSats && p.claimableAt == q.claimableAt
  {
    var p, q := Merge(a, b), Merge(b, Merge(a, b));
    MergeKeepsDistinct(a, b);
    UnionFacts(a.txs, b.txs);
    UnionFacts(b.txs, p.txs);
    forall id ensures AgreeTx(Lookup(a.txs, id), Lookup(b.txs, id), Lookup(p.txs, id), Lookup(q.txs, id)) {
      LookupUnion(a.txs, b.txs, id);
      LookupUnion(b.txs, p.txs, id);
    }
    assert p.extras.Keys == q.extras.Keys;
    SameResolution(a, b);
  }

  lemma SameResolution(a: CloseRecord, b: CloseRecord)
    ensures Merge(a, b).resolution == Merge(b, Merge(a, b)).resolution
  {
    assert a.resolution.Some? ==> a.resolution.value == Verified || a.resolution.value == Unverified;
    assert b.resolution.Some? ==> b.resolution.value == Verified || b.resolution.value == Unverified;
  }

  /** The merge does not commute: the order of two known close types decides. */
  lemma MergeDoesNotCommute()
    ensures var a := Skeleton("c", 0).(closeType := Coop);
            var b := Skeleton("c", 0).(closeType := Force);
            Merge(a, b).closeType == Force && Merge(b, a).closeType == Coop
  {
  }

  /** Everything a listed transaction knows is known to the first entry with its txid. */
  ghost predicate FirstKnows(txs: seq<CloseTx>, tx: CloseTx) {
    var first := Lookup(txs, tx.txid);
    first.Some? && StaysKnown(tx.feeSats, first.value.feeSats) && StaysKnown(tx.confirmedAt, first.value.confirmedAt)
  }

  lemma {:induction false} UnionNothing(txs: seq<CloseTx>, more: seq<CloseTx>)
    requires forall i :: 0 <= i < |more| ==> FirstKnows(txs, more[i])
    ensures UnionTxs(txs, more) == txs
    decreases |more|
  {
    if more != [] {
      UnionNothing(txs, more[..|more| - 1]);
    }
  }

  lemma AddedIsKnown(txs: seq<CloseTx>, tx: CloseTx)
    ensures FirstKnows(AddTx(txs, tx), tx)
  {
    LookupAddTx(txs, tx, tx.txid);
  }

  lemma KnownStaysKnown(txs: seq<CloseTx>, added: CloseTx, tx: CloseTx)
    requires FirstKnows(txs, tx)
    ensures FirstKnows(AddTx(txs, added), tx)
  {
    LookupAddTx(txs, added, tx.txid);
  }

  /** What any entry of the right operand knows is known after the union. */
  lemma {:induction false} UnionKnows(txs: seq<CloseTx>, more: seq<CloseTx>, i: nat)
    requires i < |more|
    ensures FirstKnows(UnionTxs(txs, more), more[i])
    decreases |more|
  {
    var last := |more| - 1;
    if i < last {
      UnionKnows(txs, more[..last], i);
      KnownStaysKnown(UnionTxs(txs, more[..last]), more[last], more[i]);
    } else {
      AddedIsKnown(UnionTxs(txs, more[..last]), more[last]);
    }
  }

  /** A record merged with itself is unchanged exactly when no repeated txid adds to its first entry. */
  lemma MergeIdempotentIff(a: CloseRecord)
    ensures Merge(a, a) == a <==> forall i :: 0 <= i < |a.txs| ==> FirstKnows(a.txs, a.txs[i])
  {
    assert a.extras + a.extras == a.extras;
    if forall i :: 0 <= i < |a.txs| ==> FirstKnows(a.txs, a.txs[i]) {
      UnionNothing(a.txs, a.txs);
    }
    if Merge(a, a) == a {
      forall i | 0 <= i < |a.txs| ensures FirstKnows(a.txs, a.txs[i]) {
        UnionKnows(a.txs, a.txs, i);
      }
    }
  }

  /** A repeated txid that breaks idempotence: the second entry fills in the first. */
  lemma DuplicateTxidsBreakIdempotence()
    ensures var unconfirmed := CloseTx("t", Sweep, None, None);
            var confirmed := CloseTx("t", Sweep, None, Some(7));
            var a := Skeleton("c", 0).(txs := [unconfirmed, confirmed]);
            Merge(a, a) != a
  {
    var unconfirmed := CloseTx("t", Sweep, None, None);
    var confirmed := CloseTx("t", Sweep, None, Some(7));
    var a := Skeleton("c", 0).(txs := [unconfirmed, confirmed]);
    MergeIdempotentIff(a);
    assert a.txs[1] == confirmed && IndexOf(a.txs, "t") == 0;
    assert !FirstKnows(a.txs, a.txs[1]);
  }

  // ----- Derived status -----------------------------------------------------------------

  datatype Status = StillClosing | WaitingTimelock | Returning | Complete | ResolvedUnverified

  /** The first transaction with the sweep role, if any. */
  function FirstSweep(txs: seq<CloseTx>): Option<CloseTx> {
    if txs == [] then None
    else if txs[0].role == Sweep then Some(txs[0])
    else FirstSweep(txs[1..])
  }

  function DeriveStatus(record: CloseRecord, height: Option<U32>): Status {
    if record.completedAtMs.Some? then
      if record.resolution == Some(Unverified) then ResolvedUnverified else Complete
    else
      var sweep := FirstSweep(record.txs);
      if sweep.Some? && sweep.value.confirmedAt.None? then Returning
      else if record.claimableAt.Some? && (height.None? || record.claimableAt.value > height.value) then WaitingTimelock
      else if sweep.Some? then Returning
      else StillClosing
  }

  /** An open record's funds are still locked at this height. */
  predicate Locked(record: CloseRecord, height: Option<U32>) {
    record.claimableAt.Some? && (height.None? || height.value < record.claimableAt.value)
  }

  ghost predicate ListsSweep(txs: seq<CloseTx>) {
    exists i :: 0 <= i < |txs| && txs[i].role == Sweep
  }

  lemma {:induction false} FirstSweepIsFirst(txs: seq<CloseTx>)
    ensures FirstSweep(txs).Some? <==> ListsSweep(txs)
    ensures FirstSweep(txs).Some? ==> FirstSweep(txs).value in txs && FirstSweep(txs).value.role == Sweep
    decreases |txs|
  {
    if txs != [] {
      FirstSweepIsFirst(txs[1..]);
      if i :| 0 <= i < |txs| && txs[i].role == Sweep {
        assert i > 0 ==> txs[1..][i - 1] == txs[i];
      }
      if i :| 0 <= i < |txs[1..]| && txs[1..][i].role == Sweep {
        assert txs[i + 1].role == Sweep;
      }
    }
  }

  /** The five labels, each by what it tells the user. */
  lemma StatusMeaning(record: CloseRecord, height: Option<U32>)
    ensures var status := DeriveStatus(record, height);
            && (Terminal(status) <==> record.completedAtMs.Some?)
            && (status == ResolvedUnverified <==> record.completedAtMs.Some? && record.resolution == Some(Unverified))
            && (status == StillClosing <==>
                  record.completedAtMs.None? && !ListsSweep(record.txs) && !Locked(record, height))
            && (status == WaitingTimelock ==> Locked(record, height))
            && (status == Returning ==> ListsSweep(record.txs))
            && (record.completedAtMs.None? && Locked(record, height) && !ListsSweep(record.txs) ==>
                  status == WaitingTimelock)
            && (record.completedAtMs.None? && ListsSweep(record.txs) && !Locked(record, height) ==> status == Returning)
            && (record.completedAtMs.None? && (exists i :: 0 <= i < |record.txs| && record.txs[i].role == Sweep)
                && (forall i :: 0 <= i < |record.txs| && record.txs[i].role == Sweep ==>
                      record.txs[i].confirmedAt.None?)
                ==> status == Returning)
            && (record.completedAtMs.None? && Locked(record, height)
                && (forall i :: 0 <= i < |record.txs| && record.txs[i].role == Sweep ==>
                      record.txs[i].confirmedAt.Some?)
                ==> status == WaitingTimelock)
  {
    FirstSweepIsFirst(record.txs);
  }

  lemma {:induction false} FirstSweepAt(txs: seq<CloseTx>, i: nat)
    requires i < |txs| && txs[i].role == Sweep && forall j :: 0 <= j < i ==> txs[j].role != Sweep
    ensures FirstSweep(txs) == Some(txs[i])
    decreases |txs|
  {
    if i > 0 {
      assert forall j :: 0 <= j < i - 1 ==> txs[1..][j] == txs[j + 1];
      FirstSweepAt(txs[1..], i - 1);
    }
  }

  /** While funds are locked, the first listed sweep decides: unconfirmed they are returning, confirmed they wait. */
  lemma FirstSweepDecides(record: CloseRecord, height: Option<U32>, i: nat)
    requires record.completedAtMs.None? && Locked(record, height) && i < |record.txs|
    requires record.txs[i].role == Sweep && forall j :: 0 <= j < i ==> record.txs[j].role != Sweep
    ensures DeriveStatus(record, height) == if record.txs[i].confirmedAt.None? then Returning else WaitingTimelock
  {
    FirstSweepAt(record.txs, i);
  }

  /** A higher tip only ever ends a wait. */
  lemma StatusAdvancesWithTip(record: CloseRecord, low: U32, high: U32)
    requires low <= high
    ensures var before, after := DeriveStatus(record, Some(low)), DeriveStatus(record, Some(high));
            after == before || (before == WaitingTimelock && !Terminal(after) && !Locked(record, Some(high)))
  {
  }

  predicate Terminal(s: Status) {
    s == Complete || s == ResolvedUnverified
  }

  /** Completion and resolution were written together. */
  predicate Coherent(record: CloseRecord) {
    record.completedAtMs.Some? <==> record.resolution.Some?
  }

  /**
   Gaining facts never leaves a terminal status, and Complete stays Complete exactly when the completion
   already carried its resolution or no unverified one has come in.
   */
  lemma StatusNeverRegresses(before: CloseRecord, after: CloseRecord, h: Option<U32>, h': Option<U32>)
    requires Gains(before, after)
    ensures Terminal(DeriveStatus(before, h)) ==> Terminal(DeriveStatus(after, h'))
    ensures DeriveStatus(before, h) == Complete ==>
              (DeriveStatus(after, h') == Complete <==>
                 before.resolution.Some? || after.resolution != Some(Unverified))
    ensures DeriveStatus(before, h) == Complete && Coherent(before) ==> DeriveStatus(after, h') == Complete
  {
  }

  /** One merge turns Complete into something else exactly when a bare completion meets an unverified copy. */
  lemma MergeRegressesIff(base: CloseRecord, incoming: CloseRecord, h: Option<U32>, h': Option<U32>)
    requires DeriveStatus(base, h) == Complete
    ensures DeriveStatus(Merge(base, incoming), h') != Complete <==>
            base.resolution.None? && incoming.resolution == Some(Unverified)
  {
    MergeGains(base, incoming);
    StatusNeverRegresses(base, Merge(base, incoming), h, h');
  }

  /** A bare completion that does regress. */
  lemma IncoherentCompletionRegresses()
    ensures var a := Skeleton("c", 0).(completedAtMs := Some(1));
            var b := Skeleton("c", 0).(completedAtMs := Some(2), resolution := Some(Unverified));
            && DeriveStatus(a, None) == Complete
            && DeriveStatus(Merge(a, b), None) == ResolvedUnverified
  {
  }
}
