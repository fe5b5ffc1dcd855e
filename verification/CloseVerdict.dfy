/**
 When a close is finished: the verdict a reconcile pass reaches about one record, the evidence behind
 it, and what that means over whole runs.
 */
module CloseVerdict {
  import opened Prelude
  import opened CloseRecords
  import opened CloseRecordGains
  import opened CloseRecordStore

  const FINALITY_CONFS: U32 := 6
  const MAX_TIMELOCK_BLOCKS: U32 := 2016

  function Confirmations(tip: U32, confirmedAt: U32): U32 {
    AddU32(SaturatingSub(tip, confirmedAt), 1)
  }

  predicate DeepConf(height: Option<U32>, tip: U32) {
    height.Some? && Confirmations(tip, height.value) >= FINALITY_CONFS
  }

  /** A finality-deep transaction of this close that the wallet itself has confirmed. */
  predicate IsReceipt(tx: CloseTx, pass: Pass) {
    && (tx.role == Sweep || tx.role == Closing || tx.role == Commitment)
    && DeepConf(tx.confirmedAt, pass.tip)
    && tx.txid in pass.wallet
  }

  predicate HasReceipt(txs: seq<CloseTx>, pass: Pass) {
    exists i :: 0 <= i < |txs| && IsReceipt(txs[i], pass)
  }

  /** The first listed close transaction, confirmed or not. */
  function FirstClose(txs: seq<CloseTx>): (r: Option<CloseTx>)
    ensures r.Some? ==> r.value in txs && r.value.role.IsClose()
  {
    if txs == [] then None
    else if txs[0].role.IsClose() then Some(txs[0])
    else FirstClose(txs[1..])
  }

  function FirstCloseHeight(txs: seq<CloseTx>): Option<U32> {
    var tx := FirstClose(txs);
    if tx.Some? then tx.value.confirmedAt else None
  }

  predicate ClaimGate(current: CloseRecord, tip: U32) {
    current.claimableAt.None? || current.claimableAt.value <= tip
  }

  /** How a new-tip pass resolves the record, `None` when it leaves it open. */
  function Verdict(current: CloseRecord, pass: Pass): Option<Resolution> {
    if !pass.newTip || current.channelId in pass.pendingSweeps then None
    else if HasReceipt(current.txs, pass) then Some(Verified)
    else if !ClaimGate(current, pass.tip) then None
    else
      var height := FirstCloseHeight(current.txs);
      var closeFinal := DeepConf(height, pass.tip);
      if current.expectedAmountSats == Some(0) && closeFinal then Some(Verified)
      else if closeFinal
           && (current.closeType == Coop
               || (current.claimableAt.Some? && AddU32(current.claimableAt.value, FINALITY_CONFS) <= pass.tip)
               || AddU32(AddU32(height.value, MAX_TIMELOCK_BLOCKS), FINALITY_CONFS) <= pass.tip)
      then Some(Unverified)
      else None
  }

  // ----- The evidence, in unbounded arithmetic ------------------------------------------

  /** Up to this tip no 32-bit sum of the verdict wraps for a close six blocks deep. */
  const EXACT_TIP: U32 := U32_SIZE + 4 - MAX_TIMELOCK_BLOCKS - FINALITY_CONFS

  /** `tx` confirmed at `h`, at least six blocks deep at the pass's tip. */
  predicate DeepAt(tx: CloseTx, h: U32, tip: U32) {
    tx.confirmedAt == Some(h) && h + 5 <= tip
  }

  ghost predicate VerifiedBy(current: CloseRecord, pass: Pass, tx: CloseTx, h: U32) {
    && tx in current.txs
    && DeepAt(tx, h, pass.tip)
    && (|| (tx.txid in pass.wallet && (tx.role == Sweep || tx.role.IsClose()))
        || (FirstClose(current.txs) == Some(tx) && current.expectedAmountSats == Some(0)
            && ClaimGate(current, pass.tip)))
  }

  ghost predicate UnverifiedBy(current: CloseRecord, pass: Pass, tx: CloseTx, h: U32) {
    && FirstClose(current.txs) == Some(tx)
    && DeepAt(tx, h, pass.tip)
    && ClaimGate(current, pass.tip)
    && (|| current.closeType == Coop
        || (current.claimableAt.Some? && current.claimableAt.value + 6 <= pass.tip)
        || h + 2016 + 6 <= pass.tip)
  }

  /** Verified exactly on a receipt or on a deep first close with nothing to receive. */
  lemma VerifiedIffEvidence(current: CloseRecord, pass: Pass)
    requires pass.tip < U32_SIZE - 1
    ensures Verdict(current, pass) == Some(Verified) <==>
            && pass.newTip && current.channelId !in pass.pendingSweeps
            && exists tx, h :: VerifiedBy(current, pass, tx, h)
  {
    var txs := current.txs;
    var ready := pass.newTip && current.channelId !in pass.pendingSweeps;
    if Verdict(current, pass) == Some(Verified) {
      if HasReceipt(txs, pass) {
        var i :| 0 <= i < |txs| && IsReceipt(txs[i], pass);
        assert VerifiedBy(current, pass, txs[i], txs[i].confirmedAt.value);
      } else {
        var tx := FirstClose(txs).value;
        assert VerifiedBy(current, pass, tx, tx.confirmedAt.value);
      }
    }
    if ready && exists tx, h :: VerifiedBy(current, pass, tx, h) {
      var tx, h :| VerifiedBy(current, pass, tx, h);
      var i :| 0 <= i < |txs| && txs[i] == tx;
      if tx.txid in pass.wallet && (tx.role == Sweep || tx.role.IsClose()) {
        assert IsReceipt(txs[i], pass);
      }
    }
  }

  /** Unverified exactly when no receipt settles it and the deep first close has outwaited every lock. */
  lemma UnverifiedIffEvidence(current: CloseRecord, pass: Pass)
    requires pass.tip <= EXACT_TIP
    ensures Verdict(current, pass) == Some(Unverified) <==>
            && pass.newTip && current.channelId !in pass.pendingSweeps
            && (forall tx, h :: !VerifiedBy(current, pass, tx, h))
            && exists tx, h :: UnverifiedBy(current, pass, tx, h)
  {
    VerifiedIffEvidence(current, pass);
    var ready := pass.newTip && current.channelId !in pass.pendingSweeps;
    if Verdict(current, pass) == Some(Unverified) {
      var tx := FirstClose(current.txs).value;
      assert UnverifiedBy(current, pass, tx, tx.confirmedAt.value);
    }
    if ready && Verdict(current, pass) != Some(Verified) && exists tx, h :: UnverifiedBy(current, pass, tx, h) {
      var tx, h :| UnverifiedBy(current, pass, tx, h);
    }
  }

  /** The verdict "unverified" agrees with its evidence on every record not being swept. */
  ghost predicate JudgesExactly(pass: Pass) {
    forall current: CloseRecord ::
      Verdict(current, pass) == Some(Unverified) <==>
        && pass.newTip && current.channelId !in pass.pendingSweeps
        && (forall tx, h :: !VerifiedBy(current, pass, tx, h))
        && exists tx, h :: UnverifiedBy(current, pass, tx, h)
  }

  /** A close so near the top of the height range that its 32-bit expiry wraps to zero. */
  function WrappedClose(c: string, txid: string): CloseRecord {
    Skeleton(c, 0).(txs := [CloseTx(txid, Commitment, None, Some(U32_SIZE - MAX_TIMELOCK_BLOCKS - FINALITY_CONFS))])
  }

  lemma WrappedSumCompletesEarly(pass: Pass, c: string, txid: string)
    requires pass.newTip && c !in pass.pendingSweeps && txid !in pass.wallet && EXACT_TIP < pass.tip
    ensures Verdict(WrappedClose(c, txid), pass) == Some(Unverified)
    ensures forall tx, h :: !UnverifiedBy(WrappedClose(c, txid), pass, tx, h)
  {
    var current := WrappedClose(c, txid);
    assert FirstClose(current.txs) == Some(current.txs[0]);
    assert !HasReceipt(current.txs, pass);
  }

  /** The verdict is exact for every record precisely up to that tip. */
  lemma ExactIffTipFits(pass: Pass, c: string, txid: string)
    requires pass.newTip && c !in pass.pendingSweeps && txid !in pass.wallet
    ensures JudgesExactly(pass) <==> pass.tip <= EXACT_TIP
  {
    if pass.tip <= EXACT_TIP {
      forall current: CloseRecord
        ensures Verdict(current, pass) == Some(Unverified) <==>
                && pass.newTip && current.channelId !in pass.pendingSweeps
                && (forall tx, h :: !VerifiedBy(current, pass, tx, h))
                && exists tx, h :: UnverifiedBy(current, pass, tx, h)
      {
        UnverifiedIffEvidence(current, pass);
      }
    } else {
      WrappedSumCompletesEarly(pass, c, txid);
      assert Verdict(WrappedClose(c, txid), pass) == Some(Unverified);
    }
  }

  // ----- When a close must complete -----------------------------------------------------

  /** Without a receipt, a record whose first listed close has no height is never completed, at any tip. */
  lemma NoHeightNoVerdict(current: CloseRecord, pass: Pass)
    requires FirstCloseHeight(current.txs).None? && !HasReceipt(current.txs, pass)
    ensures Verdict(current, pass) == None
  {
  }

  /** A settled new-tip pass completes a record whose first listed close is 2016+6 blocks old and unlocked. */
  lemma OldCloseCompletes(current: CloseRecord, pass: Pass, h: U32)
    requires FirstCloseHeight(current.txs) == Some(h)
    requires h + MAX_TIMELOCK_BLOCKS + FINALITY_CONFS <= pass.tip <= EXACT_TIP
    requires ClaimGate(current, pass.tip) && pass.newTip && current.channelId !in pass.pendingSweeps
    ensures Verdict(current, pass).Some?
  {
  }

  /** Every settled new-tip pass from `bound` on completes the record, whatever the wallet holds. */
  ghost predicate CompletesFrom(current: CloseRecord, bound: U32) {
    forall pass: Pass ::
      pass.newTip && current.channelId !in pass.pendingSweeps && bound <= pass.tip <= EXACT_TIP ==>
        Verdict(current, pass).Some?
  }

  /** Completion takes bounded time exactly when the first listed close has a height. */
  lemma BoundedIffFirstCloseHasHeight(current: CloseRecord)
    requires FirstCloseHeight(current.txs).Some? ==>
               FirstCloseHeight(current.txs).value + MAX_TIMELOCK_BLOCKS + FINALITY_CONFS <= EXACT_TIP
    requires ClaimGate(current, EXACT_TIP)
    ensures (exists bound: U32 :: bound <= EXACT_TIP && CompletesFrom(current, bound)) <==>
            FirstCloseHeight(current.txs).Some?
  {
    var height := FirstCloseHeight(current.txs);
    if height.Some? {
      var aged := height.value + MAX_TIMELOCK_BLOCKS + FINALITY_CONFS;
      var bound := if current.claimableAt.Some? then Max(aged, current.claimableAt.value) else aged;
      forall pass: Pass | pass.newTip && current.channelId !in pass.pendingSweeps && bound <= pass.tip <= EXACT_TIP
        ensures Verdict(current, pass).Some?
      {
        OldCloseCompletes(current, pass, height.value);
      }
      assert CompletesFrom(current, bound);
    } else {
      var late := Pass(true, EXACT_TIP, {}, {}, 0);
      NoHeightNoVerdict(current, late);
    }
  }

  /** Gaining facts never moves another close in front of the first listed one. */
  lemma {:induction false} FirstCloseStaysFirst(before: seq<CloseTx>, after: seq<CloseTx>)
    requires KeptTxs(before, after) && FirstClose(before).Some?
    ensures FirstClose(after).Some? && KeptTx(FirstClose(before).value, FirstClose(after).value)
    decreases |before|
  {
    assert KeptTx(before[0], after[0]);
    if !before[0].role.IsClose() {
      forall i | 0 <= i < |before| - 1 ensures KeptTx(before[1..][i], after[1..][i]) {
        assert KeptTx(before[i + 1], after[i + 1]);
      }
      FirstCloseStaysFirst(before[1..], after[1..]);
    }
  }

  predicate NoHeight(txs: seq<CloseTx>, txid: string) {
    forall i :: 0 <= i < |txs| && txs[i].txid == txid ==> txs[i].confirmedAt.None?
  }

  /**
   A record stuck behind an unconfirmed first close stays stuck over every run in which that transaction
   gets no height, however many other closes of the channel confirm.
   */
  lemma StuckWhileUnconfirmed(s: State, ops: seq<Op>, c: string, pass: Pass)
    requires c in s.records && FirstClose(s.records[c].txs).Some?
    requires c in DoAll(s, ops).records ==>
               && NoHeight(DoAll(s, ops).records[c].txs, FirstClose(s.records[c].txs).value.txid)
               && !HasReceipt(DoAll(s, ops).records[c].txs, pass)
    ensures c in DoAll(s, ops).records && Verdict(DoAll(s, ops).records[c], pass) == None
  {
    RunGains(s, ops, c);
    FirstCloseStaysFirst(s.records[c].txs, DoAll(s, ops).records[c].txs);
    NoHeightNoVerdict(DoAll(s, ops).records[c], pass);
  }

  // ----- Runs ---------------------------------------------------------------------------

  /** Whether the operation completes channel `c` with resolution `x`. */
  predicate Completes(op: Op, c: string, x: Resolution) {
    && op.Upsert?
    && op.record.channelId == c
    && op.record.resolution == Some(x)
    && op.record.completedAtMs.Some?
  }

  /** `op` follows from the verdict on the record as it stood after the first `j` operations. */
  ghost predicate DecidedAt(s: State, ops: seq<Op>, j: nat, op: Op)
    requires op.Upsert?
  {
    && j <= |ops|
    && op.pass.Some?
    && op.record.channelId in DoAll(s, ops[..j]).records
    && DoAll(s, ops[..j]).records[op.record.channelId].channelId == op.record.channelId
    && op.record.resolution.Some? && op.record.completedAtMs == Some(op.pass.value.nowMs)
    && Verdict(DoAll(s, ops[..j]).records[op.record.channelId], op.pass.value) == op.record.resolution
  }

  /** The operation carries a completion or a resolution. */
  predicate Closes(op: Op) {
    op.Upsert? && (op.record.completedAtMs.Some? || op.record.resolution.Some?)
  }

  /** If it closes a record, it rests on a verdict on what the store held since operation `n`. */
  ghost predicate JustifiedOp(s: State, ops: seq<Op>, n: nat, i: nat)
    requires i < |ops|
  {
    Closes(ops[i]) ==>
      && ops[i].record.completedAtMs.Some?
      && exists j :: n <= j <= i && DecidedAt(s, ops, j, ops[i])
  }

  ghost predicate Justified(s: State, ops: seq<Op>) {
    forall i :: 0 <= i < |ops| ==> JustifiedOp(s, ops, 0, i)
  }

  /** No completed record comes in from a remote copy. */
  ghost predicate NoRemoteCompletion(op: Op) {
    op.Absorb? ==> forall c :: c in op.remote ==> op.remote[c].completedAtMs.None? && op.remote[c].resolution.None?
  }

  ghost predicate Open(records: Records, c: string) {
    c in records ==> records[c].completedAtMs.None? && records[c].resolution.None?
  }

  /** A channel that started open ends completed only through a completing write of a pass. */
  lemma {:induction false} CompletedByAPass(s: State, ops: seq<Op>, c: string)
    requires Open(s.records, c)
    requires Justified(s, ops)
    requires forall i :: 0 <= i < |ops| ==> NoRemoteCompletion(ops[i])
    ensures var r := DoAll(s, ops).records;
            c in r ==>
              && Coherent(r[c])
              && (r[c].resolution.Some? ==>
                    exists i :: 0 <= i < |ops| && Completes(ops[i], c, r[c].resolution.value))
    decreases |ops|
  {
    if ops != [] {
      var last := |ops| - 1;
      var front, op := ops[..last], ops[last];
      assert ops == front + [op];
      forall i | 0 <= i < last ensures JustifiedOp(s, front, 0, i) {
        assert JustifiedOp(s, ops, 0, i);
        JustifiedPrefix(s, front, ops, 0, i);
      }
      CompletedByAPass(s, front, c);
      assert forall i :: 0 <= i < last ==> front[i] == ops[i];
      assert JustifiedOp(s, ops, 0, last) && NoRemoteCompletion(op);
      assert op.Upsert? && op.record.completedAtMs.Some? ==>
          Completes(op, op.record.channelId, op.record.resolution.value);
    }
  }

  /** The operation completes channel `c` at this time. */
  predicate CompletesAt(op: Op, c: string, ms: U64) {
    op.Upsert? && op.record.channelId == c && op.record.completedAtMs == Some(ms)
  }

  /** The time of a completion is the time of the write that completed the channel. */
  lemma {:induction false} CompletionTimeIsWritten(s: State, ops: seq<Op>, c: string, ms: U64)
    requires Open(s.records, c)
    requires forall i :: 0 <= i < |ops| ==> NoRemoteCompletion(ops[i])
    requires c in DoAll(s, ops).records && DoAll(s, ops).records[c].completedAtMs == Some(ms)
    ensures exists i :: 0 <= i < |ops| && CompletesAt(ops[i], c, ms)
    decreases |ops|
  {
    var last := |ops| - 1;
    var front, op := ops[..last], ops[last];
    assert forall i :: 0 <= i < last ==> front[i] == ops[i];
    if !CompletesAt(op, c, ms) {
      assert NoRemoteCompletion(op);
      CompletionTimeIsWritten(s, front, c, ms);
    }
  }

  /** Later operations change nothing about why an earlier one was written. */
  lemma JustifiedPrefix(s: State, front: seq<Op>, ops: seq<Op>, n: nat, i: nat)
    requires front <= ops && i < |front|
    ensures JustifiedOp(s, front, n, i) <==> JustifiedOp(s, ops, n, i)
  {
    assert front[i] == ops[i];
    forall j | n <= j <= i && ops[i].Upsert? ensures DecidedAt(s, front, j, ops[i]) <==> DecidedAt(s, ops, j, ops[i]) {
      assert front[..j] == ops[..j];
    }
  }

  /** The first `k` operations, for reasoning about a state in the middle of a run. */
  lemma {:induction false} DoAllConcat(s: State, a: seq<Op>, b: seq<Op>)
    ensures DoAll(s, a + b) == DoAll(DoAll(s, a), b)
    decreases |b|
  {
    if b == [] {
      assert a + b == a;
    } else {
      assert (a + b)[..|a + b| - 1] == a + b[..|b| - 1];
      DoAllConcat(s, a, b[..|b| - 1]);
    }
  }

  /** A record that was there after `j` operations has only gained by the time of `k`. */
  lemma GainsBetween(s: State, ops: seq<Op>, j: nat, k: nat, c: string)
    requires j <= k <= |ops| && c in DoAll(s, ops[..j]).records
    ensures c in DoAll(s, ops[..k]).records
    ensures Gains(DoAll(s, ops[..j]).records[c], DoAll(s, ops[..k]).records[c])
  {
    assert ops[..k] == ops[..j] + ops[j..k];
    DoAllConcat(s, ops[..j], ops[j..k]);
    RunGains(DoAll(s, ops[..j]), ops[j..k], c);
  }

  /** The evidence of resolution `x`: a deep transaction, and the reason it settles the close. */
  ghost predicate Evidence(current: CloseRecord, pass: Pass, x: Resolution, tx: CloseTx, h: U32) {
    match x
    case Verified => VerifiedBy(current, pass, tx, h)
    case Unverified => UnverifiedBy(current, pass, tx, h)
  }

  ghost predicate StillHolds(record: CloseRecord, tx: CloseTx, h: U32) {
    exists i :: 0 <= i < |record.txs|
      && record.txs[i].txid == tx.txid && record.txs[i].role == tx.role && record.txs[i].confirmedAt == Some(h)
  }

  /** The evidence for resolution `x` in the record that the store held for `c` after the first `j` operations. */
  ghost predicate EvidenceAt(s: State, ops: seq<Op>, j: nat, c: string, pass: Pass, x: Resolution,
                             tx: CloseTx, h: U32) {
    && j <= |ops| && c in DoAll(s, ops[..j]).records
    && pass.newTip && c !in pass.pendingSweeps && h + 5 <= pass.tip
    && Evidence(DoAll(s, ops[..j]).records[c], pass, x, tx, h)
  }

  /**
   A completing write happens only in a new-tip pass whose sweeps are settled for the channel, on the
   evidence of a transaction at least six blocks deep in the record the store held when the pass read it;
   that transaction, its role and its height stay in the record in every later state of the run.
   */
  lemma CompletionEvidenceStays(s: State, ops: seq<Op>, n: nat, i: nat, c: string, x: Resolution)
    returns (j: nat, tx: CloseTx, h: U32)
    requires i < |ops| && JustifiedOp(s, ops, n, i) && Completes(ops[i], c, x)
    requires ops[i].pass.Some? ==> ops[i].pass.value.tip <= EXACT_TIP
    ensures n <= j <= i && ops[i].pass.Some?
    ensures EvidenceAt(s, ops, j, c, ops[i].pass.value, x, tx, h)
    ensures forall k :: i < k <= |ops| ==>
              && c in DoAll(s, ops[..k]).records
              && Gains(DoAll(s, ops[..j]).records[c], DoAll(s, ops[..k]).records[c])
              && StillHolds(DoAll(s, ops[..k]).records[c], tx, h)
  {
    j :| n <= j <= i && DecidedAt(s, ops, j, ops[i]);
    var pass := ops[i].pass.value;
    var current := DoAll(s, ops[..j]).records[c];
    VerifiedIffEvidence(current, pass);
    UnverifiedIffEvidence(current, pass);
    if x == Verified {
      tx, h :| VerifiedBy(current, pass, tx, h);
    } else {
      tx, h :| UnverifiedBy(current, pass, tx, h);
    }
    var m :| 0 <= m < |current.txs| && current.txs[m] == tx;
    forall k | i < k <= |ops|
      ensures c in DoAll(s, ops[..k]).records
      ensures Gains(current, DoAll(s, ops[..k]).records[c])
      ensures StillHolds(DoAll(s, ops[..k]).records[c], tx, h)
    {
      GainsBetween(s, ops, j, k, c);
      var later := DoAll(s, ops[..k]).records[c];
      assert KeptTx(current.txs[m], later.txs[m]);
    }
  }

  /**
   Every completed record of a run without remote completions was completed by write `i`, on the evidence in
   the record that the store held after the first `j` operations, and still holds that evidence.
   */
  lemma EveryCompletionIsEvidenced(s: State, ops: seq<Op>, c: string)
    returns (j: nat, i: nat, tx: CloseTx, h: U32)
    requires Open(s.records, c)
    requires Justified(s, ops)
    requires forall k :: 0 <= k < |ops| ==> NoRemoteCompletion(ops[k])
    requires forall k :: 0 <= k < |ops| && Closes(ops[k]) && ops[k].pass.Some? ==> ops[k].pass.value.tip <= EXACT_TIP
    requires c in DoAll(s, ops).records && DoAll(s, ops).records[c].completedAtMs.Some?
    ensures var final := DoAll(s, ops).records[c];
            && final.resolution.Some?
            && j <= i < |ops| && Completes(ops[i], c, final.resolution.value) && ops[i].pass.Some?
            && EvidenceAt(s, ops, j, c, ops[i].pass.value, final.resolution.value, tx, h)
            && Gains(DoAll(s, ops[..j]).records[c], final) && StillHolds(final, tx, h)
  {
    CompletedByAPass(s, ops, c);
    var x := DoAll(s, ops).records[c].resolution.value;
    i :| 0 <= i < |ops| && Completes(ops[i], c, x);
    assert JustifiedOp(s, ops, 0, i) && Closes(ops[i]);
    j, tx, h := CompletionEvidenceStays(s, ops, 0, i, c, x);
    assert ops[..|ops|] == ops;
  }
}
