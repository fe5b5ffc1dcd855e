/**
 The chain-truth reconciler for one record: it asks the chain within a budget, fills in confirmations, derives
 the timelock expiry and completes the record on positive evidence. At every question the rest of the wallet
 may run, and the chain may answer, answer nothing, or fail.
 */
module CloseReconcile {
  import opened Prelude
  import opened CloseRecords
  import opened CloseRecordGains
  import opened CloseRecordCodec
  import opened CloseRecordStore
  import opened CloseSignals
  import opened CloseVerdict
  import Json

  const MAX_QUERIES_PER_PASS: nat := 8
  const OFFLINE_CLOSE_REASON := "Channel closed while the app was offline"

  // ----- The world around a pass --------------------------------------------------------

  /** What other tasks do to the store while a pass waits. */
  datatype Meanwhile =
    | Sig(signal: Signal)
    | Remote(raw: Json.Value, order: seq<string>, nowMs: U64)
    | Funded(channelId: string, entry: FundingEntry)

  /** One point where the pass waits: what happens meanwhile, and what the chain then says. */
  datatype Turn = Turn(meanwhile: seq<Meanwhile>, failed: bool, tip: U32, spender: Option<string>, height: Option<U32>)

  /** An answered question about the chain. */
  datatype Answered =
    | SpentBy(txid: string, vout: U32, spender: Option<string>)
    | ConfirmedAt(txid: string, height: Option<U32>)

  datatype Reply<T> = Ok(value: T) | Err

  method Perform(store: Store, m: Meanwhile)
    requires store.Valid()
    modifies store
    ensures store.Valid() && store.origin == old(store.origin) && store.lastTip == old(store.lastTip)
    ensures OnlyEvents(old(store.log), store.log)
  {
    match m
    case Sig(sig) =>
      if sig.ChannelClosed? {
        OnChannelClosed(store, sig);
      } else if sig.CommitmentBroadcast? {
        OnCommitmentBroadcast(store, sig);
      } else {
        RecordSweepTx(store, sig);
      }
    case Remote(raw, order, nowMs) =>
      var _ := store.AbsorbRemote(raw, order, nowMs);
    case Funded(c, entry) =>
      store.RecordFundingTxo(c, entry);
  }

  /** The question of turn `k` fails; so does every question past the end of the script. */
  predicate Fails(script: seq<Turn>, k: nat) {
    k >= |script| || script[k].failed
  }

  /** How many of the turns from `a` up to `b` fail. */
  function FailedTurns(script: seq<Turn>, a: nat, b: nat): nat {
    if b <= a then 0 else FailedTurns(script, a, b - 1) + if Fails(script, b - 1) then 1 else 0
  }

  /** One of the turns from `a` up to `b` gave this answer. */
  ghost predicate ToldBy(script: seq<Turn>, a: nat, b: nat, x: Answered) {
    exists k :: a <= k < b && k < |script| && Tells(script[k], x)
  }

  predicate Tells(turn: Turn, a: Answered) {
    !turn.failed && match a
                    case SpentBy(_, _, spender) => spender == turn.spender
                    case ConfirmedAt(_, height) => height == turn.height
  }

  /** The chain as an arbitrary script of turns. */
  class Chain {
    var script: seq<Turn>
    var next: nat
    /** Budgeted questions asked so far. */
    var asked: nat
    /** The turn the current pass began with, its answers, and how many of its questions failed. */
    ghost var since: nat
    ghost var answered: seq<Answered>
    ghost var failures: nat

    /** Every answer was given by a turn of the current pass, and every failure was one. */
    ghost predicate Valid()
      reads this
    {
      && since <= next
      && (forall i :: 0 <= i < |answered| ==> ToldBy(script, since, next, answered[i]))
      && failures <= FailedTurns(script, since, next)
    }

    constructor (script: seq<Turn>)
      ensures Valid() && this.script == script && next == 0 && asked == 0 && answered == [] && failures == 0
    {
      this.script, next, asked, since, answered, failures := script, 0, 0, 0, [], 0;
    }

    /** One turn: the rest of the wallet runs, and the chain has its say. */
    method Wait(store: Store) returns (turn: Turn)
      requires store.Valid() && Valid()
      modifies this`next, store
      ensures store.Valid() && store.origin == old(store.origin) && store.lastTip == old(store.lastTip)
      ensures OnlyEvents(old(store.log), store.log)
      ensures Valid() && next == old(next) + 1
      ensures if old(next) < |script| then turn == script[old(next)] else turn.failed
    {
      turn := if next < |script| then script[next] else Turn([], true, 0, None, None);
      next := next + 1;
      forall i | 0 <= i < |answered| ensures ToldBy(script, since, next, answered[i]) {
        assert ToldBy(script, since, next - 1, answered[i]);
      }
      for i := 0 to |turn.meanwhile|
        invariant Valid() && next == old(next) + 1
        invariant store.Valid() && store.origin == old(store.origin) && store.lastTip == old(store.lastTip)
        invariant OnlyEvents(old(store.log), store.log)
      {
        Perform(store, turn.meanwhile[i]);
      }
    }

    /** Takes down the answer of the turn just taken. */
    ghost method Note(a: Answered)
      requires Valid() && since < next <= |script| && Tells(script[next - 1], a)
      modifies this`answered
      ensures Valid() && answered == old(answered) + [a] && a in answered
    {
      assert ToldBy(script, since, next, a);
      answered := answered + [a];
      assert answered[|answered| - 1] == a;
    }

    method Tip(store: Store) returns (tip: Reply<U32>)
      requires store.Valid() && Valid()
      modifies this`next, store
      ensures store.Valid() && store.origin == old(store.origin) && store.lastTip == old(store.lastTip)
      ensures OnlyEvents(old(store.log), store.log) && Valid()
      ensures tip == if Fails(script, old(next)) then Err else Ok(script[old(next)].tip)
    {
      var turn := Wait(store);
      tip := if turn.failed then Err else Ok(turn.tip);
    }

    method Outspend(store: Store, txid: string, vout: U32) returns (spender: Reply<Option<string>>)
      requires store.Valid() && Valid()
      modifies this`next, this`asked, this`answered, this`failures, store
      ensures store.Valid() && store.origin == old(store.origin) && store.lastTip == old(store.lastTip)
      ensures OnlyEvents(old(store.log), store.log) && Valid()
      ensures asked == old(asked) + 1 && old(answered) <= answered
      ensures spender.Ok? ==> SpentBy(txid, vout, spender.value) in answered
      ensures failures == old(failures) + if spender.Ok? then 0 else 1
    {
      asked := asked + 1;
      var turn := Wait(store);
      if turn.failed {
        failures := failures + 1;
        return Err;
      }
      Note(SpentBy(txid, vout, turn.spender));
      spender := Ok(turn.spender);
    }

    method TxHeight(store: Store, txid: string) returns (height: Reply<Option<U32>>)
      requires store.Valid() && Valid()
      modifies this`next, this`asked, this`answered, this`failures, store
      ensures store.Valid() && store.origin == old(store.origin) && store.lastTip == old(store.lastTip)
      ensures OnlyEvents(old(store.log), store.log) && Valid()
      ensures asked == old(asked) + 1 && old(answered) <= answered
      ensures height.Ok? ==> ConfirmedAt(txid, height.value) in answered
      ensures failures == old(failures) + if height.Ok? then 0 else 1
    {
      asked := asked + 1;
      var turn := Wait(store);
      if turn.failed {
        failures := failures + 1;
        return Err;
      }
      Note(ConfirmedAt(txid, turn.height));
      height := Ok(turn.height);
    }
  }

  // ----- Where the facts of a pass come from --------------------------------------------

  /** The height, if any, was answered for this txid. */
  ghost predicate HeightAnswered(tx: CloseTx, answered: seq<Answered>) {
    tx.confirmedAt.Some? ==> ConfirmedAt(tx.txid, tx.confirmedAt) in answered
  }

  /** The transaction is the answered spender of the funding output, or one the record already lists. */
  ghost predicate TxKnown(tx: CloseTx, record: CloseRecord, answered: seq<Answered>) {
    || HasTxid(record.txs, tx.txid)
    || (record.fundingTxo.Some?
        && SpentBy(record.fundingTxo.value.txid, record.fundingTxo.value.vout, Some(tx.txid)) in answered)
  }

  ghost predicate TxsGrounded(txs: seq<CloseTx>, record: CloseRecord, answered: seq<Answered>) {
    forall i :: 0 <= i < |txs| ==> HeightAnswered(txs[i], answered) && TxKnown(txs[i], record, answered)
  }

  /**
   The expiry is the height of a confirmed close transaction plus the recorded timelock. It is derived
   only for a close this side may have broadcast: the delay encumbers the broadcaster's own output.
   */
  ghost predicate ExpiryGrounded(expiry: Option<U32>, txs: seq<CloseTx>, record: CloseRecord) {
    expiry.Some? ==>
      && record.closeType != Coop && record.initiator != CloseRecords.Remote
      && record.timelockBlocks.Some?
      && exists tx :: (tx in txs || tx in record.txs) && tx.role.IsClose() && tx.confirmedAt.Some?
           && expiry.value == AddU32(tx.confirmedAt.value, record.timelockBlocks.value)
  }

  // ----- The steps for one record -------------------------------------------------------

  /** What step (a) owes for a record: the answered spender of its funding output, in the role its close type says. */
  ghost predicate Discovery(record: CloseRecord, found: Option<CloseTx>, budget: nat, left: nat,
                            answered: seq<Answered>) {
    if record.fundingTxo.None? || record.HasConfirmedCloseTx() || budget == 0 then found.None? && left == budget
    else
      var txo := record.fundingTxo.value;
      match found
      case None => SpentBy(txo.txid, txo.vout, None) in answered && left == budget - 1
      case Some(tx) =>
        && left == SaturatingSub(budget, 2)
        && SpentBy(txo.txid, txo.vout, Some(tx.txid)) in answered
        && tx.role == (if record.closeType == Coop then Closing else Commitment)
        && tx.feeSats.None?
        && (if budget > 1 then ConfirmedAt(tx.txid, tx.confirmedAt) in answered else tx.confirmedAt.None?)
  }

  /** (a) The close transaction discovered from the funding outspend, asked until a close has confirmed. */
  method DiscoverClose(store: Store, chain: Chain, record: CloseRecord, budget: nat)
    returns (found: Reply<Option<CloseTx>>, left: nat)
    requires store.Valid()
    requires chain.Valid()
    modifies store, chain`next, chain`asked, chain`answered, chain`failures
    ensures chain.Valid()
    ensures store.Valid() && store.origin == old(store.origin) && store.lastTip == old(store.lastTip)
    ensures OnlyEvents(old(store.log), store.log)
    ensures left <= budget && chain.asked - old(chain.asked) == budget - left && old(chain.answered) <= chain.answered
    ensures if found.Ok? then chain.failures == old(chain.failures)
            else old(chain.failures) < chain.failures && left < budget
    ensures found.Ok? && found.value.Some? ==> TxsGrounded([found.value.value], record, chain.answered)
    ensures found.Ok? ==> Discovery(record, found.value, budget, left, chain.answered)
  {
    left := budget;
    if record.fundingTxo.None? || record.HasConfirmedCloseTx() || left == 0 {
      return Ok(None), left;
    }
    var txo := record.fundingTxo.value;
    left := left - 1;
    var spend := chain.Outspend(store, txo.txid, txo.vout);
    if spend.Err? {
      return Err, left;
    }
    if spend.value.None? {
      return Ok(None), left;
    }
    var spender := spend.value.value;
    var height: Option<U32> := None;
    if left > 0 {
      left := left - 1;
      var status := chain.TxHeight(store, spender);
      if status.Err? {
        return Err, left;
      }
      height := status.value;
    }
    found := Ok(Some(CloseTx(spender, if record.closeType == Coop then Closing else Commitment, None, height)));
  }

  /** Every entry is a listed transaction that had no height, with one filled in. */
  ghost predicate AllRefilled(txs: seq<CloseTx>, listed: seq<CloseTx>) {
    forall i :: 0 <= i < |txs| ==> Refilled(txs[i], listed)
  }

  ghost predicate Refilled(tx: CloseTx, listed: seq<CloseTx>) {
    tx.confirmedAt.Some? && tx.(confirmedAt := None) in listed
  }

  /** The transaction has its height, or the chain was asked and its answer was taken over. */
  ghost predicate Settled(tx: CloseTx, txs: seq<CloseTx>, answered: seq<Answered>) {
    || tx.confirmedAt.Some?
    || ConfirmedAt(tx.txid, None) in answered
    || exists h: U32 :: ConfirmedAt(tx.txid, Some(h)) in answered && tx.(confirmedAt := Some(h)) in txs
  }

  /** The listed transactions that step (b) asks about. */
  function Unconfirmed(txs: seq<CloseTx>, n: nat): nat
    requires n <= |txs|
  {
    if n == 0 then 0 else Unconfirmed(txs, n - 1) + if txs[n - 1].confirmedAt.None? then 1 else 0
  }

  /** The state of step (b) after `n` listed transactions: the first unconfirmed ones are settled, one a question. */
  ghost predicate ConfirmedSoFar(record: CloseRecord, n: nat, txs: seq<CloseTx>, answered: seq<Answered>, budget: nat)
    requires n <= |record.txs|
  {
    && TxsGrounded(txs, record, answered)
    && (forall i :: 0 <= i < |txs| ==> CanonicalRole(txs[i].role))
    && AllRefilled(txs, record.txs)
    && (forall i :: 0 <= i < n ==> SettledWithin(record.txs, i, txs, answered, budget))
  }

  /** The listed transaction is settled if the budget reaches it. */
  ghost predicate SettledWithin(listed: seq<CloseTx>, i: nat, txs: seq<CloseTx>, answered: seq<Answered>, budget: nat)
    requires i < |listed|
  {
    Unconfirmed(listed, i) < budget ==> Settled(listed[i], txs, answered)
  }

  function WithHeight(txs: seq<CloseTx>, tx: CloseTx, height: Option<U32>): seq<CloseTx> {
    if height.Some? then txs + [tx.(confirmedAt := height)] else txs
  }

  lemma AskedHeight(record: CloseRecord, n: nat, txs: seq<CloseTx>, height: Option<U32>, a: seq<Answered>,
                    b: seq<Answered>, budget: nat)
    requires Canonical(record) && n < |record.txs| && record.txs[n].confirmedAt.None?
    requires ConfirmedSoFar(record, n, txs, a, budget) && a <= b && ConfirmedAt(record.txs[n].txid, height) in b
    ensures ConfirmedSoFar(record, n + 1, WithHeight(txs, record.txs[n], height), b, budget)
  {
    var tx, more := record.txs[n], WithHeight(txs, record.txs[n], height);
    assert HasTxid(record.txs, tx.txid);
    assert tx.(confirmedAt := None) == tx;
    if height.Some? {
      assert more[|txs|] == tx.(confirmedAt := height);
    }
    forall i | 0 <= i < n + 1 ensures SettledWithin(record.txs, i, more, b, budget) {
      if i < n && Unconfirmed(record.txs, i) < budget {
        assert SettledWithin(record.txs, i, txs, a, budget);
      }
    }
  }

  /** (b) Confirmation heights for the listed transactions that have none yet. */
  method ConfirmKnown(store: Store, chain: Chain, record: CloseRecord, budget: nat)
    returns (confirmed: Reply<seq<CloseTx>>, left: nat)
    requires store.Valid() && Canonical(record)
    requires chain.Valid()
    modifies store, chain`next, chain`asked, chain`answered, chain`failures
    ensures chain.Valid()
    ensures store.Valid() && store.origin == old(store.origin) && store.lastTip == old(store.lastTip)
    ensures OnlyEvents(old(store.log), store.log)
    ensures left <= budget && chain.asked - old(chain.asked) == budget - left && old(chain.answered) <= chain.answered
    ensures if confirmed.Ok? then chain.failures == old(chain.failures)
            else old(chain.failures) < chain.failures && left < budget
    ensures confirmed.Ok? ==> ConfirmedSoFar(record, |record.txs|, confirmed.value, chain.answered, budget)
    ensures confirmed.Ok? ==> left == SaturatingSub(budget, Unconfirmed(record.txs, |record.txs|))
  {
    left := budget;
    var txs: seq<CloseTx> := [];
    for n := 0 to |record.txs|
      invariant store.Valid() && store.origin == old(store.origin) && store.lastTip == old(store.lastTip)
      invariant OnlyEvents(old(store.log), store.log)
      invariant left <= budget && chain.asked - old(chain.asked) == budget - left
      invariant old(chain.answered) <= chain.answered
      invariant chain.Valid() && chain.failures == old(chain.failures)
      invariant left == SaturatingSub(budget, Unconfirmed(record.txs, n))
      invariant ConfirmedSoFar(record, n, txs, chain.answered, budget)
    {
      var tx := record.txs[n];
      if tx.confirmedAt.None? && left > 0 {
        left := left - 1;
        ghost var answers := chain.answered;
        var status := chain.TxHeight(store, tx.txid);
        if status.Err? {
          return Err, left;
        }
        AskedHeight(record, n, txs, status.value, answers, chain.answered, budget);
        txs := WithHeight(txs, tx, status.value);
      }
    }
    confirmed := Ok(txs);
  }

  predicate IsConfirmedClose(tx: CloseTx) {
    tx.role.IsClose() && tx.confirmedAt.Some?
  }

  /** Position `i` holds a confirmed close transaction, and no position before it does. */
  ghost predicate FirstConfirmedAt(txs: seq<CloseTx>, i: nat) {
    i < |txs| && IsConfirmedClose(txs[i]) && forall j :: 0 <= j < i ==> !IsConfirmedClose(txs[j])
  }

  /** The first confirmed close transaction. */
  function FirstConfirmedClose(txs: seq<CloseTx>): (r: Option<CloseTx>)
    ensures r.Some? ==> r.value in txs && IsConfirmedClose(r.value)
    ensures r.None? ==> forall tx :: tx in txs ==> !IsConfirmedClose(tx)
  {
    if txs == [] then None
    else if IsConfirmedClose(txs[0]) then Some(txs[0])
    else FirstConfirmedClose(txs[1..])
  }

  lemma {:induction false} FirstConfirmedIsFirst(txs: seq<CloseTx>, i: nat)
    requires FirstConfirmedAt(txs, i)
    ensures FirstConfirmedClose(txs) == Some(txs[i])
    decreases |txs|
  {
    if i > 0 {
      assert forall j :: 0 <= j < i - 1 ==> txs[1..][j] == txs[j + 1];
      FirstConfirmedIsFirst(txs[1..], i - 1);
    }
  }

  /** (b2) The timelock expiry, once a close transaction has confirmed. */
  function DeriveExpiry(txs: seq<CloseTx>, record: CloseRecord): (expiry: Option<U32>)
    ensures ExpiryGrounded(expiry, txs, record)
    ensures expiry.Some? <==>
              && record.claimableAt.None? && record.closeType != Coop && record.initiator != CloseRecords.Remote
              && record.timelockBlocks.Some?
              && exists tx :: tx in txs + record.txs && IsConfirmedClose(tx)
  {
    if record.claimableAt.None? && record.closeType != Coop && record.initiator != CloseRecords.Remote
       && record.timelockBlocks.Some? then
      var tx := FirstConfirmedClose(txs + record.txs);
      if tx.Some? then Some(AddU32(tx.value.confirmedAt.value, record.timelockBlocks.value)) else None
    else None
  }

  // ----- What a pass writes -------------------------------------------------------------

  /** The write's transactions and expiry follow from answered questions and the record after `j` operations. */
  ghost predicate GroundedBy(s: State, ops: seq<Op>, j: nat, txs: seq<CloseTx>, write: CloseRecord,
                             answered: seq<Answered>) {
    && j <= |ops|
    && write.channelId in DoAll(s, ops[..j]).records
    && var record := DoAll(s, ops[..j]).records[write.channelId];
       && TxsGrounded(txs, record, answered)
       && (write.txs == txs || write.txs == [])
       && ExpiryGrounded(write.claimableAt, txs, record)
  }

  ghost predicate GroundedOp(s: State, ops: seq<Op>, i: nat, answered: seq<Answered>)
    requires i < |ops|
  {
    ops[i].Upsert? && ops[i].pass.Some? ==>
      || (ops[i].record.txs == [] && ops[i].record.claimableAt.None?)
      || exists j, txs :: 0 <= j <= i && GroundedBy(s, ops, j, txs, ops[i].record, answered)
  }

  /** A write is an event's, or carries the pass it belongs to: its tip, wallet receipts and pending sweeps. */
  ghost predicate Labelled(op: Op, pass: Pass) {
    op.Upsert? ==> op.pass == Some(pass) || FromEvent(op)
  }

  /**
   Every write since operation `n` is an event's, or belongs to this pass, rests on what the store held since
   then, and is grounded.
   */
  ghost predicate PassWrites(s: State, ops: seq<Op>, n: nat, answered: seq<Answered>, pass: Pass) {
    forall i :: n <= i < |ops| ==>
      Labelled(ops[i], pass) && JustifiedOp(s, ops, n, i) && GroundedOp(s, ops, i, answered)
  }

  /** A pass completes a record only on a new tip, and only with none of its channel's sweeps pending. */
  lemma CompletesOnlyOnNewTip(s: State, ops: seq<Op>, n: nat, answered: seq<Answered>, pass: Pass, i: nat)
    requires PassWrites(s, ops, n, answered, pass) && n <= i < |ops|
    requires Closes(ops[i])
    ensures pass.newTip && ops[i].record.channelId !in pass.pendingSweeps
    ensures ops[i].pass == Some(pass) && ops[i].record.resolution.Some? && ops[i].record.completedAtMs.Some?
  {
    assert JustifiedOp(s, ops, n, i) && Labelled(ops[i], pass);
    var j :| n <= j <= i && DecidedAt(s, ops, j, ops[i]);
  }

  lemma WriteStands(s: State, a: seq<Op>, b: seq<Op>, n: nat, i: nat, x: seq<Answered>, y: seq<Answered>)
    requires a <= b && i < |a| && x <= y
    requires JustifiedOp(s, a, n, i) && GroundedOp(s, a, i, x)
    ensures JustifiedOp(s, b, n, i) && GroundedOp(s, b, i, y)
  {
    assert a[i] == b[i];
    JustifiedPrefix(s, a, b, n, i);
    if a[i].Upsert? && a[i].pass.Some? && !(a[i].record.txs == [] && a[i].record.claimableAt.None?) {
      var j, txs :| 0 <= j <= i && GroundedBy(s, a, j, txs, a[i].record, x);
      assert a[..j] == b[..j];
      assert GroundedBy(s, b, j, txs, b[i].record, y);
    }
  }

  lemma EventsKeepPassWrites(s: State, a: seq<Op>, b: seq<Op>, n: nat, x: seq<Answered>, y: seq<Answered>, pass: Pass)
    requires PassWrites(s, a, n, x, pass) && OnlyEvents(a, b) && x <= y
    ensures PassWrites(s, b, n, y, pass)
  {
    forall i | n <= i < |b|
      ensures Labelled(b[i], pass) && JustifiedOp(s, b, n, i) && GroundedOp(s, b, i, y)
    {
      if i < |a| {
        WriteStands(s, a, b, n, i, x, y);
      } else {
        assert FromEvent(b[i]);
      }
    }
  }

  lemma OneMoreWrite(s: State, a: seq<Op>, op: Op, n: nat, x: seq<Answered>, pass: Pass)
    requires PassWrites(s, a, n, x, pass) && Labelled(op, pass) && n <= |a|
    requires JustifiedOp(s, a + [op], n, |a|) && GroundedOp(s, a + [op], |a|, x)
    ensures PassWrites(s, a + [op], n, x, pass)
  {
    var b := a + [op];
    forall i | n <= i < |b|
      ensures Labelled(b[i], pass) && JustifiedOp(s, b, n, i) && GroundedOp(s, b, i, x)
    {
      if i < |a| {
        WriteStands(s, a, b, n, i, x, x);
      }
    }
  }

  // ----- One record ---------------------------------------------------------------------

  /** `record` is what the store held for its channel after the first `at` operations. */
  ghost predicate SnapshotAt(s: State, ops: seq<Op>, at: nat, record: CloseRecord) {
    && at <= |ops|
    && record.channelId in DoAll(s, ops[..at]).records
    && DoAll(s, ops[..at]).records[record.channelId] == record
    && Canonical(record)
  }

  lemma SnapshotStands(s: State, a: seq<Op>, b: seq<Op>, at: nat, record: CloseRecord)
    requires SnapshotAt(s, a, at, record) && a <= b
    ensures SnapshotAt(s, b, at, record)
    ensures record.channelId in DoAll(s, b).records
  {
    assert a[..at] == b[..at];
    GainsBetween(s, b, at, |b|, record.channelId);
    assert b[..|b|] == b;
  }

  /** The gathered transactions: what step (a) discovered, then what step (b) confirmed. */
  ghost predicate Gathered(record: CloseRecord, txs: seq<CloseTx>, newTip: bool, budget: nat, left: nat,
                           answered: seq<Answered>) {
    exists found: Option<CloseTx>, afterA: nat, confirmed: seq<CloseTx> ::
      GatheredFrom(record, txs, newTip, budget, left, answered, found, afterA, confirmed)
  }

  ghost predicate GatheredFrom(record: CloseRecord, txs: seq<CloseTx>, newTip: bool, budget: nat, left: nat,
                               answered: seq<Answered>, found: Option<CloseTx>, afterA: nat, confirmed: seq<CloseTx>) {
    && left <= afterA <= budget
    && Discovery(record, found, budget, afterA, answered)
    && txs == Found(found) + confirmed
    && if newTip then
         && ConfirmedSoFar(record, |record.txs|, confirmed, answered, afterA)
         && left == SaturatingSub(afterA, Unconfirmed(record.txs, |record.txs|))
       else confirmed == [] && left == afterA
  }

  lemma GatheredStands(record: CloseRecord, txs: seq<CloseTx>, newTip: bool, budget: nat, left: nat, a: seq<Answered>,
                       b: seq<Answered>)
    requires Gathered(record, txs, newTip, budget, left, a) && a <= b
    ensures Gathered(record, txs, newTip, budget, left, b)
  {
    var found: Option<CloseTx>, afterA: nat, confirmed: seq<CloseTx> :|
      GatheredFrom(record, txs, newTip, budget, left, a, found, afterA, confirmed);
    if newTip {
      ConfirmedStands(record, |record.txs|, confirmed, a, b, afterA);
    }
    assert GatheredFrom(record, txs, newTip, budget, left, b, found, afterA, confirmed);
  }

  lemma ConfirmedStands(record: CloseRecord, n: nat, txs: seq<CloseTx>, a: seq<Answered>, b: seq<Answered>,
                        budget: nat)
    requires n <= |record.txs| && ConfirmedSoFar(record, n, txs, a, budget) && a <= b
    ensures ConfirmedSoFar(record, n, txs, b, budget)
  {
    forall i | 0 <= i < n ensures SettledWithin(record.txs, i, txs, b, budget) {
      assert SettledWithin(record.txs, i, txs, a, budget);
    }
  }

  /** The chain questions for one record: the transactions they add, or an error. */
  method GatherTxs(store: Store, chain: Chain, record: CloseRecord, newTip: bool, budget: nat)
    returns (txs: Reply<seq<CloseTx>>, left: nat)
    requires store.Valid() && Canonical(record)
    requires chain.Valid()
    modifies store, chain`next, chain`asked, chain`answered, chain`failures
    ensures chain.Valid()
    ensures store.Valid() && store.origin == old(store.origin) && store.lastTip == old(store.lastTip)
    ensures OnlyEvents(old(store.log), store.log)
    ensures left <= budget && chain.asked - old(chain.asked) == budget - left && old(chain.answered) <= chain.answered
    ensures if txs.Ok? then chain.failures == old(chain.failures)
            else old(chain.failures) < chain.failures && left < budget
    ensures txs.Ok? ==> TxsGrounded(txs.value, record, chain.answered)
    ensures txs.Ok? ==> forall i :: 0 <= i < |txs.value| ==> CanonicalRole(txs.value[i].role)
    ensures txs.Ok? ==> Gathered(record, txs.value, newTip, budget, left, chain.answered)
  {
    var found, afterA := DiscoverClose(store, chain, record, budget);
    left := afterA;
    if found.Err? {
      return Err, left;
    }
    ghost var answers := chain.answered;
    var first := Found(found.value);
    if !newTip {
      NothingConfirmed(record, found.value, budget, left, chain.answered);
      return Ok(first), left;
    }
    var confirmed, afterB := ConfirmKnown(store, chain, record, left);
    left := afterB;
    if confirmed.Err? {
      return Err, left;
    }
    BothGathered(record, found.value, confirmed.value, budget, afterA, left, answers, chain.answered);
    txs := Ok(first + confirmed.value);
  }

  /** The discovered transaction as a list. */
  function Found(found: Option<CloseTx>): seq<CloseTx> {
    if found.Some? then [found.value] else []
  }

  lemma NothingConfirmed(record: CloseRecord, found: Option<CloseTx>, budget: nat, left: nat, answered: seq<Answered>)
    requires Discovery(record, found, budget, left, answered) && left <= budget
    ensures Gathered(record, Found(found), false, budget, left, answered)
  {
    assert GatheredFrom(record, Found(found) + [], false, budget, left, answered, found, left, []);
    assert Found(found) + [] == Found(found);
  }

  lemma BothGathered(record: CloseRecord, found: Option<CloseTx>, confirmed: seq<CloseTx>, budget: nat, afterA: nat,
                     left: nat, a: seq<Answered>, b: seq<Answered>)
    requires Discovery(record, found, budget, afterA, a) && TxsGrounded(Found(found), record, a) && a <= b
    requires left <= afterA <= budget && left == SaturatingSub(afterA, Unconfirmed(record.txs, |record.txs|))
    requires ConfirmedSoFar(record, |record.txs|, confirmed, b, afterA)
    ensures Gathered(record, Found(found) + confirmed, true, budget, left, b)
    ensures TxsGrounded(Found(found) + confirmed, record, b)
    ensures forall i :: 0 <= i < |Found(found) + confirmed| ==> CanonicalRole((Found(found) + confirmed)[i].role)
  {
    assert GatheredFrom(record, Found(found) + confirmed, true, budget, left, b, found, afterA, confirmed);
  }

  /** Nothing but grounded transactions and a grounded expiry for the record's channel. */
  ghost predicate FactsAbout(record: CloseRecord, facts: CloseRecord, answered: seq<Answered>) {
    && Canonical(facts)
    && facts == Skeleton(record.channelId, record.createdAtMs).(txs := facts.txs, claimableAt := facts.claimableAt)
    && TxsGrounded(facts.txs, record, answered)
    && ExpiryGrounded(facts.claimableAt, facts.txs, record)
  }

  /** Writes the gathered facts, if there are any. */
  method WriteFacts(store: Store, ghost chain: Chain, record: CloseRecord, facts: CloseRecord, ghost pass: Pass,
                    ghost n: nat, ghost at: nat)
    requires store.Valid() && FactsAbout(record, facts, chain.answered)
    requires SnapshotAt(store.origin, store.log, at, record)
    requires n <= |store.log| && PassWrites(store.origin, store.log, n, chain.answered, pass)
    modifies store
    ensures store.Valid() && store.origin == old(store.origin) && store.lastTip == old(store.lastTip)
    ensures store.log == old(store.log) + if HasNews(facts) then [Upsert(facts, Some(pass))] else []
    ensures PassWrites(store.origin, store.log, n, chain.answered, pass)
  {
    if HasNews(facts) {
      ghost var before := store.log;
      store.Upsert(facts, Some(pass));
      assert before[..at] == store.log[..at];
      assert GroundedBy(store.origin, store.log, at, facts.txs, facts, chain.answered);
      OneMoreWrite(store.origin, before, Upsert(facts, Some(pass)), n, chain.answered, pass);
    }
  }

  /** Writes a completion that follows from the verdict read after `readAt` operations. */
  method WriteCompletion(store: Store, ghost chain: Chain, record: CloseRecord, facts: CloseRecord,
                         completion: CloseRecord,
                         ghost pass: Pass, ghost n: nat, ghost at: nat, ghost readAt: nat)
    requires store.Valid() && Canonical(completion)
    requires completion == facts.(txs := [], completedAtMs := completion.completedAtMs,
                                  resolution := completion.resolution)
    requires completion.completedAtMs == Some(pass.nowMs) && completion.resolution.Some?
    requires facts.channelId == record.channelId
    requires SnapshotAt(store.origin, store.log, at, record)
    requires TxsGrounded(facts.txs, record, chain.answered) && ExpiryGrounded(facts.claimableAt, facts.txs, record)
    requires n <= |store.log| && PassWrites(store.origin, store.log, n, chain.answered, pass)
    requires n <= readAt && DecidedAt(store.origin, store.log, readAt, Upsert(completion, Some(pass)))
    modifies store
    ensures store.Valid() && store.origin == old(store.origin) && store.lastTip == old(store.lastTip)
    ensures store.log == old(store.log) + [Upsert(completion, Some(pass))]
    ensures PassWrites(store.origin, store.log, n, chain.answered, pass)
  {
    ghost var before := store.log;
    ghost var op := Upsert(completion, Some(pass));
    store.Upsert(completion, Some(pass));
    assert before[..at] == store.log[..at] && before[..readAt] == store.log[..readAt];
    assert GroundedBy(store.origin, store.log, at, facts.txs, completion, chain.answered);
    assert DecidedAt(store.origin, store.log, readAt, op);
    OneMoreWrite(store.origin, before, op, n, chain.answered, pass);
  }

  /** The operations from `a` up to `b` are all events'. */
  ghost predicate EventsOnly(ops: seq<Op>, a: nat, b: nat) {
    a <= b <= |ops| && forall i :: a <= i < b ==> FromEvent(ops[i])
  }

  /** The facts are what the chain answered about the record, and the expiry that follows from them. */
  ghost predicate Learned(record: CloseRecord, facts: CloseRecord, newTip: bool, budget: nat, left: nat,
                          answered: seq<Answered>) {
    Gathered(record, facts.txs, newTip, budget, left, answered) && facts.claimableAt == DeriveExpiry(facts.txs, record)
  }

  /** Between `from` and `to` only events wrote, apart from the facts at the very end if there are any. */
  ghost predicate WroteFacts(ops: seq<Op>, from: nat, to: nat, facts: CloseRecord, pass: Pass) {
    if HasNews(facts) then
      from < to <= |ops| && EventsOnly(ops, from, to - 1) && ops[to - 1] == Upsert(facts, Some(pass))
    else EventsOnly(ops, from, to)
  }

  /** Between `from` and `to` only events wrote, apart from the completion at the very end if there is one. */
  ghost predicate WroteVerdict(ops: seq<Op>, from: nat, to: nat, facts: CloseRecord,
                               verdict: Option<Resolution>, pass: Pass) {
    if verdict.Some? then
      && from < to <= |ops| && EventsOnly(ops, from, to - 1)
      && ops[to - 1] == Upsert(CompletionOf(facts, pass.nowMs, verdict), Some(pass))
    else from == to <= |ops|
  }

  /** The write that completes a record: the facts of the pass without their transactions. */
  function CompletionOf(facts: CloseRecord, nowMs: U64, verdict: Option<Resolution>): CloseRecord {
    facts.(txs := [], completedAtMs := Some(nowMs), resolution := verdict)
  }

  predicate HasNews(facts: CloseRecord) {
    facts.txs != [] || facts.claimableAt.Some?
  }

  /** Steps (a), (b) and (b2): ask the chain and write what it said. */
  method LearnFacts(store: Store, chain: Chain, record: CloseRecord, pass: Pass, budget: nat, ghost n: nat,
                    ghost at: nat)
    returns (ok: bool, left: nat, facts: CloseRecord)
    requires store.Valid() && SnapshotAt(store.origin, store.log, at, record)
    requires n <= |store.log| && PassWrites(store.origin, store.log, n, chain.answered, pass)
    requires chain.Valid()
    modifies store, chain`next, chain`asked, chain`answered, chain`failures
    ensures chain.Valid()
    ensures store.Valid() && store.origin == old(store.origin) && store.lastTip == old(store.lastTip)
    ensures old(store.log) <= store.log && old(chain.answered) <= chain.answered
    ensures PassWrites(store.origin, store.log, n, chain.answered, pass)
    ensures SnapshotAt(store.origin, store.log, at, record)
    ensures left <= budget && chain.asked - old(chain.asked) == budget - left
    ensures if ok then chain.failures == old(chain.failures)
            else old(chain.failures) < chain.failures && left < budget
    ensures !ok ==> EventsOnly(store.log, |old(store.log)|, |store.log|)
    ensures ok ==> FactsAbout(record, facts, chain.answered)
    ensures ok ==> Learned(record, facts, pass.newTip, budget, left, chain.answered)
    ensures ok ==> WroteFacts(store.log, |old(store.log)|, |store.log|, facts, pass)
  {
    ghost var log0, answers0 := store.log, chain.answered;
    var gathered, afterQueries := GatherTxs(store, chain, record, pass.newTip, budget);
    left := afterQueries;
    EventsKeepPassWrites(store.origin, log0, store.log, n, answers0, chain.answered, pass);
    SnapshotStands(store.origin, log0, store.log, at, record);
    ok := gathered.Ok?;
    facts := FactsFrom(record, if ok then gathered.value else []);
    if ok {
      ghost var log1 := store.log;
      WriteFacts(store, chain, record, facts, pass, n, at);
      SnapshotStands(store.origin, log1, store.log, at, record);
      FactsWritten(log0, log1, store.log, facts, pass);
    }
  }

  /** The facts of a pass about a record: the gathered transactions, and the expiry that follows. */
  function FactsFrom(record: CloseRecord, txs: seq<CloseTx>): CloseRecord {
    Skeleton(record.channelId, record.createdAtMs).(txs := txs, claimableAt := DeriveExpiry(txs, record))
  }

  lemma FactsWritten(a: seq<Op>, b: seq<Op>, c: seq<Op>, facts: CloseRecord, pass: Pass)
    requires OnlyEvents(a, b) && c == b + if HasNews(facts) then [Upsert(facts, Some(pass))] else []
    ensures WroteFacts(c, |a|, |c|, facts, pass)
  {
  }

  /** The verdict on what the store held for the channel after these operations. */
  ghost predicate JudgedOn(s: State, ops: seq<Op>, c: string, pass: Pass, verdict: Option<Resolution>) {
    c in DoAll(s, ops).records && verdict == Verdict(DoAll(s, ops).records[c], pass)
  }

  /** Step (c): complete the record when the verdict on what the store now holds says so. */
  method DecideCompletion(store: Store, chain: Chain, record: CloseRecord, facts: CloseRecord, pass: Pass,
                          ghost n: nat, ghost at: nat)
    returns (verdict: Option<Resolution>)
    requires store.Valid() && SnapshotAt(store.origin, store.log, at, record)
    requires n <= |store.log| && PassWrites(store.origin, store.log, n, chain.answered, pass)
    requires FactsAbout(record, facts, chain.answered)
    requires chain.Valid()
    modifies store, chain`next
    ensures chain.Valid()
    ensures store.Valid() && store.origin == old(store.origin) && store.lastTip == old(store.lastTip)
    ensures old(store.log) <= store.log
    ensures PassWrites(store.origin, store.log, n, chain.answered, pass)
    ensures JudgedOn(store.origin, old(store.log), record.channelId, pass, verdict)
    ensures WroteVerdict(store.log, |old(store.log)|, |store.log|, facts, verdict, pass)
  {
    ghost var readAt, log2 := |store.log|, store.log;
    SnapshotStands(store.origin, store.log, store.log, at, record);
    assert store.log[..readAt] == store.log;
    var current := store.records[record.channelId];
    verdict := Verdict(current, pass);
    if verdict.Some? {
      // Another thread may write between the read above and the write below.
      var _ := chain.Wait(store);
      EventsKeepPassWrites(store.origin, log2, store.log, n, chain.answered, chain.answered, pass);
      SnapshotStands(store.origin, log2, store.log, at, record);
      var completion := CompletionOf(facts, pass.nowMs, verdict);
      assert store.log[..readAt] == log2[..readAt];
      assert DecidedAt(store.origin, store.log, readAt, Upsert(completion, Some(pass)));
      WriteCompletion(store, chain, record, facts, completion, pass, n, at, readAt);
    }
  }

  /** The facts a record got, and the verdict on what the store held after `readAt` operations. */
  datatype Decision = Decision(readAt: nat, facts: CloseRecord, verdict: Option<Resolution>)

  /** What became of one record: the operations, the failed questions and the budget while it was processed. */
  datatype Outcome = Outcome(
    from: nat,
    to: nat,
    failsFrom: nat,
    failsTo: nat,
    budget: nat,
    left: nat,
    decision: Option<Decision>)

  /**
   A record is skipped exactly when a question about it failed, and then only events wrote. Otherwise the
   chain's answers were written, and the record was completed exactly as the verdict says.
   */
  ghost predicate Processed(s: State, ops: seq<Op>, record: CloseRecord, pass: Pass,
                            answered: seq<Answered>, o: Outcome) {
    && o.from <= |ops| && record.channelId in DoAll(s, ops[..o.from]).records
    && match o.decision
       case None => EventsOnly(ops, o.from, o.to) && o.failsFrom < o.failsTo && o.left < o.budget
       case Some(d) =>
         && o.failsFrom == o.failsTo
         && Learned(record, d.facts, pass.newTip, o.budget, o.left, answered)
         && WroteFacts(ops, o.from, d.readAt, d.facts, pass)
         && JudgedOn(s, ops[..d.readAt], record.channelId, pass, d.verdict)
         && WroteVerdict(ops, d.readAt, o.to, d.facts, d.verdict, pass)
         && d.facts.channelId == record.channelId
  }

  lemma ProcessedStands(s: State, a: seq<Op>, b: seq<Op>, record: CloseRecord, pass: Pass,
                        x: seq<Answered>, y: seq<Answered>, o: Outcome)
    requires Processed(s, a, record, pass, x, o) && a <= b && x <= y
    ensures Processed(s, b, record, pass, y, o)
  {
    assert a[..o.from] == b[..o.from];
    if o.decision.Some? {
      var d := o.decision.value;
      assert a[..d.readAt] == b[..d.readAt];
      GatheredStands(record, d.facts.txs, pass.newTip, o.budget, o.left, x, y);
    }
  }

  /**
   Steps (a) to (c) for one record. A failed question leaves the record as the rest of the wallet left it;
   otherwise it is completed exactly when the verdict on what the store held says so.
   */
  method ReconcileOneRecord(store: Store, chain: Chain, record: CloseRecord, pass: Pass, budget: nat,
                            ghost n: nat, ghost at: nat)
    returns (ok: bool, left: nat, ghost outcome: Outcome)
    requires store.Valid() && SnapshotAt(store.origin, store.log, at, record)
    requires n <= |store.log| && PassWrites(store.origin, store.log, n, chain.answered, pass)
    requires chain.Valid()
    modifies store, chain`next, chain`asked, chain`answered, chain`failures
    ensures chain.Valid()
    ensures store.Valid() && store.origin == old(store.origin) && store.lastTip == old(store.lastTip)
    ensures old(store.log) <= store.log && old(chain.answered) <= chain.answered
    ensures PassWrites(store.origin, store.log, n, chain.answered, pass)
    ensures left <= budget && chain.asked - old(chain.asked) == budget - left
    ensures outcome.from == |old(store.log)| && outcome.to == |store.log|
    ensures outcome.failsFrom == old(chain.failures) && outcome.failsTo == chain.failures
    ensures ok <==> outcome.decision.Some?
    ensures outcome.budget == budget && outcome.left == left
    ensures Processed(store.origin, store.log, record, pass, chain.answered, outcome)
  {
    ghost var log0, failsFrom := store.log, chain.failures;
    SnapshotStands(store.origin, log0, log0, at, record);
    var learned, afterQueries, facts := LearnFacts(store, chain, record, pass, budget, n, at);
    ok, left := learned, afterQueries;
    outcome := Outcome(|log0|, |store.log|, failsFrom, chain.failures, budget, left, None);
    if !ok {
      assert store.log[..|log0|] == log0;
      return;
    }
    ghost var log1 := store.log;
    var verdict := DecideCompletion(store, chain, record, facts, pass, n, at);
    outcome := outcome.(to := |store.log|, decision := Some(Decision(|log1|, facts, verdict)));
    IsProcessed(store.origin, log0, log1, store.log, record, pass, chain.answered, outcome);
  }

  lemma IsProcessed(s: State, log0: seq<Op>, log1: seq<Op>, ops: seq<Op>, record: CloseRecord, pass: Pass,
                    answered: seq<Answered>, o: Outcome)
    requires log0 <= log1 <= ops && record.channelId in DoAll(s, log0).records && o.decision.Some?
    requires o.from == |log0| && o.decision.value.readAt == |log1| && o.failsFrom == o.failsTo
    requires var d := o.decision.value;
             && d.facts.channelId == record.channelId
             && Learned(record, d.facts, pass.newTip, o.budget, o.left, answered)
             && WroteFacts(log1, |log0|, |log1|, d.facts, pass)
             && JudgedOn(s, log1, record.channelId, pass, d.verdict)
             && WroteVerdict(ops, |log1|, o.to, d.facts, d.verdict, pass)
    ensures Processed(s, ops, record, pass, answered, o)
  {
    assert ops[..|log1|] == log1 && ops[..|log0|] == log0;
    FactsStand(log1, ops, |log0|, o.decision.value.facts, pass);
  }

  lemma FactsStand(a: seq<Op>, b: seq<Op>, from: nat, facts: CloseRecord, pass: Pass)
    requires a <= b && WroteFacts(a, from, |a|, facts, pass)
    ensures WroteFacts(b, from, |a|, facts, pass)
  {
  }

  // ----- The chain's answers reach the record -------------------------------------------

  /** The record lists every transaction the facts tell of, with what they tell of it, and an expiry if they do. */
  ghost predicate KnowsFacts(r: CloseRecord, facts: CloseRecord) {
    && (forall i :: 0 <= i < |facts.txs| ==> FirstKnows(r.txs, facts.txs[i]))
    && StaysKnown(facts.claimableAt, r.claimableAt)
  }

  /** The funding output was asked about if it had to be; its spender is listed, with a height if one was answered. */
  ghost predicate SpenderIsKnown(record: CloseRecord, budget: nat, answered: seq<Answered>, r: CloseRecord) {
    record.fundingTxo.Some? && !record.HasConfirmedCloseTx() && budget > 0 ==>
      exists spender: Option<string> ::
        && SpentBy(record.fundingTxo.value.txid, record.fundingTxo.value.vout, spender) in answered
        && (spender.Some? ==> HasTxid(r.txs, spender.value))
        && (spender.Some? && budget > 1 ==> HeightIsKnown(spender.value, answered, r))
  }

  /** The chain was asked for the height of this transaction, and the record knows one if the answer held one. */
  ghost predicate HeightIsKnown(txid: string, answered: seq<Answered>, r: CloseRecord) {
    exists height: Option<U32> ::
      && ConfirmedAt(txid, height) in answered
      && (height.Some? ==> Lookup(r.txs, txid).Some? && Lookup(r.txs, txid).value.confirmedAt.Some?)
  }

  /** What a pass that decided about the record owes it: the chain's answers, as far as the budget reached. */
  ghost predicate AnswersKnown(record: CloseRecord, pass: Pass, o: Outcome, answered: seq<Answered>, r: CloseRecord) {
    && SpenderIsKnown(record, o.budget, answered, r)
    && (pass.newTip ==> forall i :: 0 <= i < |record.txs| ==> ConfirmationKnown(record, i, o, answered, r))
  }

  /** A new-tip pass asks for the first unconfirmed transactions, after at most two questions for the spender. */
  ghost predicate ConfirmationKnown(record: CloseRecord, i: nat, o: Outcome, answered: seq<Answered>, r: CloseRecord)
    requires i < |record.txs|
  {
    record.txs[i].confirmedAt.None? && (o.left > 0 || Unconfirmed(record.txs, i) + 2 < o.budget) ==>
      HeightIsKnown(record.txs[i].txid, answered, r)
  }

  lemma FactsShow(existing: CloseRecord, facts: CloseRecord)
    ensures KnowsFacts(Merge(existing, facts), facts) && Kept(facts.claimableAt, Merge(existing, facts).claimableAt)
  {
    forall i | 0 <= i < |facts.txs| ensures FirstKnows(UnionTxs(existing.txs, facts.txs), facts.txs[i]) {
      UnionKnows(existing.txs, facts.txs, i);
    }
  }

  lemma KnownFactsStay(r: CloseRecord, later: CloseRecord, facts: CloseRecord)
    requires KnowsFacts(r, facts) && Gains(r, later)
    ensures KnowsFacts(later, facts)
  {
  }

  /** Facts that tell something are in the store by the time the verdict is read; others write nothing. */
  lemma FactsAreWritten(s: State, ops: seq<Op>, from: nat, to: nat, c: string, facts: CloseRecord, pass: Pass)
    requires WroteFacts(ops, from, to, facts, pass) && c in DoAll(s, ops[..from]).records && facts.channelId == c
    ensures c in DoAll(s, ops[..to]).records && KnowsFacts(DoAll(s, ops[..to]).records[c], facts)
    ensures Kept(facts.claimableAt, DoAll(s, ops[..to]).records[c].claimableAt)
    ensures facts.txs == [] && facts.claimableAt.None? ==> EventsOnly(ops, from, to)
  {
    if facts.txs != [] || facts.claimableAt.Some? {
      GainsBetween(s, ops, from, to - 1, c);
      assert ops[..to][..to - 1] == ops[..to - 1];
      FactsShow(DoAll(s, ops[..to - 1]).records[c], facts);
    } else {
      GainsBetween(s, ops, from, to, c);
    }
  }

  lemma FactsReachTheStore(s: State, ops: seq<Op>, record: CloseRecord, pass: Pass, answered: seq<Answered>, o: Outcome,
                           k: nat)
    requires Processed(s, ops, record, pass, answered, o) && o.decision.Some? && o.decision.value.readAt <= k <= |ops|
    ensures var c, d := record.channelId, o.decision.value;
            && c in DoAll(s, ops[..d.readAt]).records && c in DoAll(s, ops[..k]).records
            && KnowsFacts(DoAll(s, ops[..k]).records[c], d.facts)
            && Kept(d.facts.claimableAt, DoAll(s, ops[..d.readAt]).records[c].claimableAt)
            && (d.facts.txs == [] && d.facts.claimableAt.None? ==> EventsOnly(ops, o.from, d.readAt))
  {
    var c, d := record.channelId, o.decision.value;
    FactsAreWritten(s, ops, o.from, d.readAt, c, d.facts, pass);
    GainsBetween(s, ops, d.readAt, k, c);
    KnownFactsStay(DoAll(s, ops[..d.readAt]).records[c], DoAll(s, ops[..k]).records[c], d.facts);
  }

  lemma FoundIsKnown(record: CloseRecord, txs: seq<CloseTx>, found: Option<CloseTx>, confirmed: seq<CloseTx>,
                     budget: nat, afterA: nat, answered: seq<Answered>, r: CloseRecord)
    requires Discovery(record, found, budget, afterA, answered) && txs == Found(found) + confirmed
    requires forall i :: 0 <= i < |txs| ==> FirstKnows(r.txs, txs[i])
    ensures SpenderIsKnown(record, budget, answered, r)
  {
    if record.fundingTxo.Some? && !record.HasConfirmedCloseTx() && budget > 0 {
      var spender := if found.Some? then Some(found.value.txid) else None;
      var txo := record.fundingTxo.value;
      assert SpentBy(txo.txid, txo.vout, spender) in answered;
      if found.Some? {
        assert txs[0] == found.value;
        assert FirstKnows(r.txs, txs[0]);
        if budget > 1 {
          assert ConfirmedAt(found.value.txid, found.value.confirmedAt) in answered;
          assert HeightIsKnown(found.value.txid, answered, r);
        }
      }
    }
  }

  lemma SettledIsKnown(tx: CloseTx, txs: seq<CloseTx>, answered: seq<Answered>, r: CloseRecord)
    requires tx.confirmedAt.None? && Settled(tx, txs, answered)
    requires forall i :: 0 <= i < |txs| ==> FirstKnows(r.txs, txs[i])
    ensures HeightIsKnown(tx.txid, answered, r)
  {
    if ConfirmedAt(tx.txid, None) !in answered {
      var h: U32 :| ConfirmedAt(tx.txid, Some(h)) in answered && tx.(confirmedAt := Some(h)) in txs;
      var i :| 0 <= i < |txs| && txs[i] == tx.(confirmedAt := Some(h));
      assert FirstKnows(r.txs, txs[i]);
    }
  }

  /** Facts that the store knows carry every answer the chain gave. */
  lemma FactsCarryAnswers(record: CloseRecord, pass: Pass, o: Outcome, answered: seq<Answered>, r: CloseRecord)
    requires o.decision.Some? && KnowsFacts(r, o.decision.value.facts)
    requires Gathered(record, o.decision.value.facts.txs, pass.newTip, o.budget, o.left, answered)
    ensures AnswersKnown(record, pass, o, answered, r)
  {
    var txs := o.decision.value.facts.txs;
    var found: Option<CloseTx>, afterA: nat, confirmed: seq<CloseTx> :|
      GatheredFrom(record, txs, pass.newTip, o.budget, o.left, answered, found, afterA, confirmed);
    GatheredCarries(record, txs, pass, o, answered, found, afterA, confirmed, r);
  }

  lemma GatheredCarries(record: CloseRecord, txs: seq<CloseTx>, pass: Pass, o: Outcome, answered: seq<Answered>,
                        found: Option<CloseTx>, afterA: nat, confirmed: seq<CloseTx>, r: CloseRecord)
    requires GatheredFrom(record, txs, pass.newTip, o.budget, o.left, answered, found, afterA, confirmed)
    requires forall i :: 0 <= i < |txs| ==> FirstKnows(r.txs, txs[i])
    ensures AnswersKnown(record, pass, o, answered, r)
  {
    FoundIsKnown(record, txs, found, confirmed, o.budget, afterA, answered, r);
    if pass.newTip {
      forall i | 0 <= i < |confirmed| ensures FirstKnows(r.txs, confirmed[i]) {
        assert confirmed[i] == txs[|Found(found)| + i];
      }
      forall i | 0 <= i < |record.txs| ensures ConfirmationKnown(record, i, o, answered, r) {
        UnconfirmedIsKnown(record, i, o, afterA, confirmed, answered, r);
      }
    }
  }

  lemma UnconfirmedIsKnown(record: CloseRecord, i: nat, o: Outcome, afterA: nat, confirmed: seq<CloseTx>,
                           answered: seq<Answered>, r: CloseRecord)
    requires i < |record.txs| && SaturatingSub(o.budget, 2) <= afterA
    requires o.left == SaturatingSub(afterA, Unconfirmed(record.txs, |record.txs|))
    requires ConfirmedSoFar(record, |record.txs|, confirmed, answered, afterA)
    requires forall j :: 0 <= j < |confirmed| ==> FirstKnows(r.txs, confirmed[j])
    ensures ConfirmationKnown(record, i, o, answered, r)
  {
    UnconfirmedGrows(record.txs, i, |record.txs|);
    assert SettledWithin(record.txs, i, confirmed, answered, afterA);
    if record.txs[i].confirmedAt.None? && Unconfirmed(record.txs, i) < afterA {
      SettledIsKnown(record.txs[i], confirmed, answered, r);
    }
  }

  lemma {:induction false} UnconfirmedGrows(txs: seq<CloseTx>, i: nat, n: nat)
    requires i <= n <= |txs|
    ensures Unconfirmed(txs, i) <= Unconfirmed(txs, n)
    decreases n
  {
    if i < n {
      UnconfirmedGrows(txs, i, n - 1);
    }
  }

  /**
   Every pass that decides about a record puts the chain's answers into it: from the moment the verdict is read the
   record lists the answered spender of its funding output, and knows the heights that were answered.
   */
  lemma AnswersReachTheRecord(s: State, ops: seq<Op>, record: CloseRecord, pass: Pass, answered: seq<Answered>,
                              o: Outcome, k: nat)
    requires Processed(s, ops, record, pass, answered, o) && o.decision.Some? && o.decision.value.readAt <= k <= |ops|
    ensures record.channelId in DoAll(s, ops[..k]).records
    ensures AnswersKnown(record, pass, o, answered, DoAll(s, ops[..k]).records[record.channelId])
  {
    FactsReachTheStore(s, ops, record, pass, answered, o, k);
    FactsCarryAnswers(record, pass, o, answered, DoAll(s, ops[..k]).records[record.channelId]);
  }

  /**
   With a timelock to wait for, the first confirmed close among the gathered and the listed transactions gives the
   record its expiry, which is there when the verdict is read; later writes may replace it, but never forget it.
   */
  lemma ExpiryReachesTheRecord(s: State, ops: seq<Op>, record: CloseRecord, pass: Pass, answered: seq<Answered>,
                               o: Outcome, i: nat, k: nat)
    requires Processed(s, ops, record, pass, answered, o) && o.decision.Some? && o.decision.value.readAt <= k <= |ops|
    requires record.closeType != Coop && record.initiator != CloseRecords.Remote
    requires record.timelockBlocks.Some? && record.claimableAt.None?
    requires FirstConfirmedAt(o.decision.value.facts.txs + record.txs, i)
    ensures var c, d := record.channelId, o.decision.value;
            && c in DoAll(s, ops[..d.readAt]).records && c in DoAll(s, ops[..k]).records
            && DoAll(s, ops[..d.readAt]).records[c].claimableAt ==
               Some(AddU32((d.facts.txs + record.txs)[i].confirmedAt.value, record.timelockBlocks.value))
            && DoAll(s, ops[..k]).records[c].claimableAt.Some?
  {
    FirstConfirmedIsFirst(o.decision.value.facts.txs + record.txs, i);
    FactsReachTheStore(s, ops, record, pass, answered, o, k);
  }
}
