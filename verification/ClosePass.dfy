/**
 A whole reconcile pass over the store. What it writes is accounted for operation by operation, so that nothing
 but the chain's answers and the verdicts on them gets in.
 */
module ClosePass {
  import opened Prelude
  import opened CloseRecords
  import opened CloseRecordLaws
  import opened CloseRecordGains
  import opened CloseRecordCodec
  import opened CloseRecordStore
  import opened CloseSignals
  import opened CloseVerdict
  import opened CloseReconcile

  // ----- The records a pass takes up ----------------------------------------------------

  ghost predicate NewestFirst(s: seq<CloseRecord>) {
    forall i, j :: 0 <= i < j < |s| ==> s[j].createdAtMs <= s[i].createdAtMs
  }

  /** Each channel is listed once. */
  ghost predicate ListedOnce(s: seq<CloseRecord>) {
    forall i, j :: 0 <= i < j < |s| ==> s[i].channelId != s[j].channelId
  }

  method InsertNewestFirst(s: seq<CloseRecord>, r: CloseRecord) returns (t: seq<CloseRecord>)
    requires NewestFirst(s) && ListedOnce(s) && forall i :: 0 <= i < |s| ==> s[i].channelId != r.channelId
    ensures NewestFirst(t) && ListedOnce(t)
    ensures forall x :: x in t <==> x in s || x == r
  {
    var k := |s|;
    while k > 0 && s[k - 1].createdAtMs < r.createdAtMs
      invariant 0 <= k <= |s|
      invariant forall i :: k <= i < |s| ==> s[i].createdAtMs < r.createdAtMs
    {
      k := k - 1;
    }
    InsertedInOrder(s, k, r);
    t := s[..k] + [r] + s[k..];
  }

  lemma InsertedInOrder(s: seq<CloseRecord>, k: nat, r: CloseRecord)
    requires NewestFirst(s) && ListedOnce(s) && k <= |s|
    requires forall i :: 0 <= i < |s| ==> s[i].channelId != r.channelId
    requires k > 0 ==> r.createdAtMs <= s[k - 1].createdAtMs
    requires k < |s| ==> s[k].createdAtMs <= r.createdAtMs
    ensures NewestFirst(s[..k] + [r] + s[k..]) && ListedOnce(s[..k] + [r] + s[k..])
  {
    var t := s[..k] + [r] + s[k..];
    forall i, j | 0 <= i < j < |t|
      ensures t[j].createdAtMs <= t[i].createdAtMs && t[i].channelId != t[j].channelId
    {
      assert t[i] == if i < k then s[i] else if i == k then r else s[i - 1];
      assert t[j] == if j < k then s[j] else if j == k then r else s[j - 1];
    }
  }

  /** The records, each once, newest first. */
  method Snapshot(records: Records) returns (s: seq<CloseRecord>)
    requires WellFormed(records)
    ensures NewestFirst(s) && ListedOnce(s)
    ensures forall r :: r in s <==> r.channelId in records && records[r.channelId] == r
  {
    s := [];
    var taken: set<string> := {};
    while taken != records.Keys
      invariant taken <= records.Keys
      invariant NewestFirst(s) && ListedOnce(s)
      invariant forall r :: r in s <==> r.channelId in taken && records[r.channelId] == r
      decreases records.Keys - taken
    {
      assert exists c :: c in records.Keys && c !in taken;
      var c :| c in records.Keys && c !in taken;
      assert forall i :: 0 <= i < |s| ==> s[i] in s;
      s := InsertNewestFirst(s, records[c]);
      taken := taken + {c};
    }
  }

  /** The records that are not completed yet, in order. */
  function OpenOnly(s: seq<CloseRecord>): (t: seq<CloseRecord>)
    ensures forall r :: r in t <==> r in s && r.completedAtMs.None?
  {
    if s == [] then []
    else (if s[0].completedAtMs.None? then [s[0]] else []) + OpenOnly(s[1..])
  }

  lemma {:induction false} OpenOnlyKeepsOrder(s: seq<CloseRecord>)
    requires NewestFirst(s) && ListedOnce(s)
    ensures NewestFirst(OpenOnly(s)) && ListedOnce(OpenOnly(s))
    decreases |s|
  {
    if s != [] {
      OpenOnlyKeepsOrder(s[1..]);
      var rest := OpenOnly(s[1..]);
      forall i | 0 <= i < |rest|
        ensures rest[i].createdAtMs <= s[0].createdAtMs && rest[i].channelId != s[0].channelId
      {
        assert rest[i] in s[1..];
      }
    }
  }

  predicate IsOpenIn(records: Records, r: CloseRecord) {
    r.channelId in records && records[r.channelId] == r && r.completedAtMs.None?
  }

  /** The records still to process, each as the store holds it now. */
  method OpenRecords(store: Store) returns (s: seq<CloseRecord>)
    requires store.Valid()
    ensures NewestFirst(s) && ListedOnce(s)
    ensures forall r :: r in s <==> IsOpenIn(store.records, r)
    ensures forall i :: 0 <= i < |s| ==> SnapshotAt(store.origin, store.log, |store.log|, s[i])
  {
    var all := Snapshot(store.records);
    OpenOnlyKeepsOrder(all);
    s := OpenOnly(all);
    assert store.log[..|store.log|] == store.log;
    forall i | 0 <= i < |s| ensures SnapshotAt(store.origin, store.log, |store.log|, s[i]) {
      assert s[i] in s;
    }
  }

  // ----- Vanished channels --------------------------------------------------------------

  function OfflineFacts(c: string, entry: FundingEntry, nowMs: U64): CloseRecord {
    Skeleton(c, nowMs).(
      fundingTxo := Some(Outpoint(entry.txid, entry.vout)),
      closureReason := Some(OFFLINE_CLOSE_REASON),
      timelockBlocks := entry.timelockBlocks)
  }

  /** An offline record knows the funding output, the timelock, when it was missed and why; nothing else. */
  lemma OfflineRecordTells(c: string, entry: FundingEntry, nowMs: U64)
    ensures OfflineFacts(c, entry, nowMs) ==
            CloseRecord(1, c, Some(Outpoint(entry.txid, entry.vout)), UnknownType, UnknownInitiator,
                        Some("Channel closed while the app was offline"), [], None, entry.timelockBlocks, None, nowMs,
                        None, None, map[])
  {
  }

  /** What the safety net may write: the offline record of a vanished channel, and the removal of its entry. */
  ghost predicate CatchWrite(op: Op, funding: FundingMap, open: set<string>, pass: Pass) {
    match op
    case Upsert(r, p) =>
      && r.channelId in funding && r.channelId !in open && p == Some(pass)
      && r == OfflineFacts(r.channelId, funding[r.channelId], pass.nowMs)
    case RemoveFunding(c) => c in funding && c !in open
    case _ => false
  }

  ghost predicate CatchesOnly(ops: seq<Op>, a: nat, b: nat, funding: FundingMap, open: set<string>, pass: Pass) {
    a <= b <= |ops| && forall i :: a <= i < b ==> CatchWrite(ops[i], funding, open, pass)
  }

  /** Step 1: a record for every channel that vanished without one; its funding entry is then dropped. */
  method CatchVanished(store: Store, ghost chain: Chain, funding: FundingMap, open: set<string>, pass: Pass,
                       ghost n: nat)
    requires store.Valid()
    requires n <= |store.log| && PassWrites(store.origin, store.log, n, chain.answered, pass)
    modifies store
    ensures store.Valid() && store.origin == old(store.origin) && store.lastTip == old(store.lastTip)
    ensures old(store.log) <= store.log && PassWrites(store.origin, store.log, n, chain.answered, pass)
    ensures CatchesOnly(store.log, |old(store.log)|, |store.log|, funding, open, pass)
    ensures forall c :: c in funding && c !in open ==> c in store.records && c !in store.fundingTxos
  {
    var taken: set<string> := {};
    while taken != funding.Keys
      invariant taken <= funding.Keys
      invariant store.Valid() && store.origin == old(store.origin) && store.lastTip == old(store.lastTip)
      invariant old(store.log) <= store.log && PassWrites(store.origin, store.log, n, chain.answered, pass)
      invariant CatchesOnly(store.log, |old(store.log)|, |store.log|, funding, open, pass)
      invariant forall c :: c in taken && c !in open ==> c in store.records && c !in store.fundingTxos
      decreases funding.Keys - taken
    {
      assert exists c :: c in funding.Keys && c !in taken;
      var c :| c in funding.Keys && c !in taken;
      if c !in open {
        CatchListed(store, chain, c, funding, open, pass, n, |old(store.log)|);
      }
      taken := taken + {c};
    }
  }

  /** One vanished channel of the list; every write since `from` is the safety net's. */
  method CatchListed(store: Store, ghost chain: Chain, c: string, funding: FundingMap, ghost open: set<string>,
                     pass: Pass, ghost n: nat, ghost from: nat)
    requires store.Valid() && c in funding && c !in open
    requires n <= |store.log| && PassWrites(store.origin, store.log, n, chain.answered, pass)
    requires CatchesOnly(store.log, from, |store.log|, funding, open, pass)
    modifies store
    ensures store.Valid() && store.origin == old(store.origin) && store.lastTip == old(store.lastTip)
    ensures old(store.log) <= store.log && PassWrites(store.origin, store.log, n, chain.answered, pass)
    ensures CatchesOnly(store.log, from, |store.log|, funding, open, pass)
    ensures store.fundingTxos == old(store.fundingTxos) - {c}
    ensures old(store.records).Keys + {c} <= store.records.Keys
  {
    ghost var log0 := store.log;
    CatchOne(store, chain, c, funding[c], pass, n);
    CatchesAppend(log0, store.log, from, c, funding, open, pass);
  }

  lemma CatchesAppend(a: seq<Op>, b: seq<Op>, from: nat, c: string, funding: FundingMap, open: set<string>,
                      pass: Pass)
    requires CatchesOnly(a, from, |a|, funding, open, pass) && c in funding && c !in open
    requires b == a + [RemoveFunding(c)]
          || b == a + [Upsert(OfflineFacts(c, funding[c], pass.nowMs), Some(pass)), RemoveFunding(c)]
    ensures CatchesOnly(b, from, |b|, funding, open, pass)
  {
  }

  method WriteOffline(store: Store, ghost chain: Chain, c: string, entry: FundingEntry, pass: Pass, ghost n: nat)
    requires store.Valid() && c !in store.records
    requires n <= |store.log| && PassWrites(store.origin, store.log, n, chain.answered, pass)
    modifies store
    ensures store.Valid() && store.origin == old(store.origin) && store.lastTip == old(store.lastTip)
    ensures store.log == old(store.log) + [Upsert(OfflineFacts(c, entry, pass.nowMs), Some(pass))]
    ensures PassWrites(store.origin, store.log, n, chain.answered, pass)
    ensures store.records == old(store.records)[c := OfflineFacts(c, entry, pass.nowMs)]
    ensures store.fundingTxos == old(store.fundingTxos)
  {
    ghost var before := store.log;
    store.Upsert(OfflineFacts(c, entry, pass.nowMs), Some(pass));
    OneMoreWrite(store.origin, before, Upsert(OfflineFacts(c, entry, pass.nowMs), Some(pass)), n, chain.answered, pass);
  }

  method CatchOne(store: Store, ghost chain: Chain, c: string, entry: FundingEntry, pass: Pass, ghost n: nat)
    requires store.Valid()
    requires n <= |store.log| && PassWrites(store.origin, store.log, n, chain.answered, pass)
    modifies store
    ensures store.Valid() && store.origin == old(store.origin) && store.lastTip == old(store.lastTip)
    ensures PassWrites(store.origin, store.log, n, chain.answered, pass)
    ensures store.log == old(store.log)
                      + (if c in old(store.records) then []
                         else [Upsert(OfflineFacts(c, entry, pass.nowMs), Some(pass))])
                      + [RemoveFunding(c)]
    ensures c in store.records && store.fundingTxos == old(store.fundingTxos) - {c}
    ensures forall k :: k in old(store.records) ==> k in store.records && store.records[k] == old(store.records)[k]
    ensures c !in old(store.records) ==> store.records[c] == OfflineFacts(c, entry, pass.nowMs)
  {
    if c !in store.records {
      WriteOffline(store, chain, c, entry, pass, n);
    }
    ghost var before := store.log;
    store.RemoveFundingTxo(c);
    OneMoreWrite(store.origin, before, RemoveFunding(c), n, chain.answered, pass);
  }

  // ----- All open records ---------------------------------------------------------------

  /** Each outcome belongs to its record. */
  ghost predicate AllProcessed(s: State, ops: seq<Op>, records: seq<CloseRecord>, pass: Pass,
                               answered: seq<Answered>, outcomes: seq<Outcome>) {
    && |outcomes| <= |records|
    && forall k :: 0 <= k < |outcomes| ==> Processed(s, ops, records[k], pass, answered, outcomes[k])
  }

  /**
   The outcomes account, one after the other, for every operation from `from` to `to`, every failed question and
   every question of the budget.
   */
  ghost predicate Tiled(outcomes: seq<Outcome>, from: nat, to: nat, failsFrom: nat, failsTo: nat,
                        budget: nat, left: nat) {
    if outcomes == [] then from == to && failsFrom == failsTo && budget == left
    else
      var first, last := outcomes[0], outcomes[|outcomes| - 1];
      && first.from == from && first.failsFrom == failsFrom && first.budget == budget
      && last.to == to && last.failsTo == failsTo && last.left == left
      && forall k :: 0 < k < |outcomes| ==> Follows(outcomes[k - 1], outcomes[k])
  }

  ghost predicate Follows(before: Outcome, after: Outcome) {
    after.from == before.to && after.failsFrom == before.failsTo && after.budget == before.left
  }

  lemma OneMoreProcessed(s: State, a: seq<Op>, b: seq<Op>, records: seq<CloseRecord>, pass: Pass,
                         x: seq<Answered>, y: seq<Answered>, outcomes: seq<Outcome>, o: Outcome)
    requires AllProcessed(s, a, records, pass, x, outcomes) && a <= b && x <= y && |outcomes| < |records|
    requires Processed(s, b, records[|outcomes|], pass, y, o)
    ensures AllProcessed(s, b, records, pass, y, outcomes + [o])
  {
    forall k | 0 <= k < |outcomes| + 1
      ensures Processed(s, b, records[k], pass, y, (outcomes + [o])[k])
    {
      if k < |outcomes| {
        ProcessedStands(s, a, b, records[k], pass, x, y, outcomes[k]);
      }
    }
  }

  /** Without a failed question no record is skipped. */
  lemma {:induction false} SkippedOnlyOnFailure(s: State, ops: seq<Op>, records: seq<CloseRecord>, pass: Pass,
                                                answered: seq<Answered>, outcomes: seq<Outcome>,
                                                from: nat, to: nat, fails: nat, budget: nat, left: nat, k: nat)
    requires AllProcessed(s, ops, records, pass, answered, outcomes) && k < |outcomes|
    requires Tiled(outcomes, from, to, fails, fails, budget, left)
    ensures outcomes[k].decision.Some?
  {
    FailsGrow(s, ops, records, pass, answered, outcomes, 0, k);
    FailsGrow(s, ops, records, pass, answered, outcomes, k, |outcomes| - 1);
    assert Processed(s, ops, records[k], pass, answered, outcomes[k]);
  }

  lemma {:induction false} FailsGrow(s: State, ops: seq<Op>, records: seq<CloseRecord>, pass: Pass,
                                     answered: seq<Answered>, outcomes: seq<Outcome>, i: nat, k: nat)
    requires AllProcessed(s, ops, records, pass, answered, outcomes) && i <= k < |outcomes|
    requires forall j :: 0 < j < |outcomes| ==> Follows(outcomes[j - 1], outcomes[j])
    ensures outcomes[i].failsFrom <= outcomes[k].failsFrom && outcomes[i].failsTo <= outcomes[k].failsTo
    decreases k
  {
    if i < k {
      FailsGrow(s, ops, records, pass, answered, outcomes, i, k - 1);
      assert Follows(outcomes[k - 1], outcomes[k]);
      assert Processed(s, ops, records[k - 1], pass, answered, outcomes[k - 1]);
      assert Processed(s, ops, records[k], pass, answered, outcomes[k]);
    }
  }

  lemma OneMoreTile(outcomes: seq<Outcome>, o: Outcome, from: nat, failsFrom: nat, budget: nat)
    requires Tiled(outcomes, from, o.from, failsFrom, o.failsFrom, budget, o.budget)
    ensures Tiled(outcomes + [o], from, o.to, failsFrom, o.failsTo, budget, o.left)
  {
    var more := outcomes + [o];
    forall k | 0 < k < |more| ensures Follows(more[k - 1], more[k]) {
      if k < |outcomes| {
        assert more[k] == outcomes[k] && more[k - 1] == outcomes[k - 1];
        assert Follows(outcomes[k - 1], outcomes[k]);
      }
    }
  }

  /** One more record, with the outcomes so far. */
  method ReconcileNext(store: Store, chain: Chain, records: seq<CloseRecord>, k: nat, pass: Pass,
                       budget: nat, ghost n: nat, ghost at: nat, ghost outcomes: seq<Outcome>)
    returns (left: nat, ghost outcome: Outcome)
    requires store.Valid() && |outcomes| == k < |records|
    requires SnapshotAt(store.origin, store.log, at, records[k])
    requires n <= |store.log| && PassWrites(store.origin, store.log, n, chain.answered, pass)
    requires AllProcessed(store.origin, store.log, records, pass, chain.answered, outcomes)
    requires chain.Valid()
    modifies store, chain`next, chain`asked, chain`answered, chain`failures
    ensures chain.Valid()
    ensures store.Valid() && store.origin == old(store.origin) && store.lastTip == old(store.lastTip)
    ensures old(store.log) <= store.log && old(chain.answered) <= chain.answered
    ensures PassWrites(store.origin, store.log, n, chain.answered, pass)
    ensures left <= budget && chain.asked - old(chain.asked) == budget - left
    ensures AllProcessed(store.origin, store.log, records, pass, chain.answered, outcomes + [outcome])
    ensures outcome.from == |old(store.log)| && outcome.to == |store.log|
    ensures outcome.failsFrom == old(chain.failures) && outcome.failsTo == chain.failures
    ensures outcome.budget == budget && outcome.left == left
  {
    ghost var log0, answers0 := store.log, chain.answered;
    var ok, rest, o := ReconcileOneRecord(store, chain, records[k], pass, budget, n, at);
    left, outcome := rest, o;
    OneMoreProcessed(store.origin, log0, store.log, records, pass, answers0, chain.answered, outcomes, o);
  }

  /** The records one after the other, until the budget is spent; a failed question skips only its own record. */
  method ReconcileAll(store: Store, chain: Chain, records: seq<CloseRecord>, pass: Pass, budget: nat,
                      ghost n: nat, ghost at: nat)
    returns (ghost outcomes: seq<Outcome>)
    requires store.Valid()
    requires forall i :: 0 <= i < |records| ==> SnapshotAt(store.origin, store.log, at, records[i])
    requires n <= |store.log| && PassWrites(store.origin, store.log, n, chain.answered, pass)
    requires chain.Valid()
    modifies store, chain`next, chain`asked, chain`answered, chain`failures
    ensures chain.Valid()
    ensures store.Valid() && store.origin == old(store.origin) && store.lastTip == old(store.lastTip)
    ensures old(store.log) <= store.log && old(chain.answered) <= chain.answered
    ensures PassWrites(store.origin, store.log, n, chain.answered, pass)
    ensures 0 <= chain.asked - old(chain.asked) <= budget
    ensures AllProcessed(store.origin, store.log, records, pass, chain.answered, outcomes)
    ensures Tiled(outcomes, |old(store.log)|, |store.log|, old(chain.failures), chain.failures,
                  budget, budget - (chain.asked - old(chain.asked)))
    ensures chain.asked - old(chain.asked) < budget ==> |outcomes| == |records|
  {
    var left: nat := budget;
    outcomes := [];
    for k := 0 to |records|
      invariant store.Valid() && store.origin == old(store.origin) && store.lastTip == old(store.lastTip)
      invariant old(store.log) <= store.log && old(chain.answered) <= chain.answered
      invariant PassWrites(store.origin, store.log, n, chain.answered, pass)
      invariant left <= budget && chain.asked - old(chain.asked) == budget - left
      invariant chain.Valid() && |outcomes| == k
      invariant AllProcessed(store.origin, store.log, records, pass, chain.answered, outcomes)
      invariant Tiled(outcomes, |old(store.log)|, |store.log|, old(chain.failures), chain.failures, budget, left)
    {
      SnapshotStands(store.origin, old(store.log), store.log, at, records[k]);
      var rest, outcome := ReconcileNext(store, chain, records, k, pass, left, n, at, outcomes);
      OneMoreTile(outcomes, outcome, |old(store.log)|, old(chain.failures), budget);
      outcomes := outcomes + [outcome];
      left := rest;
      if left == 0 {
        break;
      }
    }
  }

  // ----- The pass -----------------------------------------------------------------------

  /**
   What one pass did: after `startAt` operations it knew the tip, after `caughtAt` every vanished channel had
   its record; the records it took up, and what became of them.
   */
  datatype PassReport = PassReport(startAt: nat, caughtAt: nat, records: seq<CloseRecord>, outcomes: seq<Outcome>)

  /** The pass took up exactly the records open after `caughtAt` operations, and accounts for all it wrote. */
  ghost predicate Faithful(s: State, ops: seq<Op>, pass: Pass, answered: seq<Answered>,
                           report: PassReport) {
    && report.caughtAt <= |ops|
    && NewestFirst(report.records) && ListedOnce(report.records)
    && (forall r :: r in report.records <==> IsOpenIn(DoAll(s, ops[..report.caughtAt]).records, r))
    && AllProcessed(s, ops, report.records, pass, answered, report.outcomes)
  }

  /** Every vanished channel has its record, and its funding entry is gone, after `caughtAt` operations. */
  ghost predicate Caught(s: State, ops: seq<Op>, caughtAt: nat, funding: FundingMap, open: set<string>)
    requires caughtAt <= |ops|
  {
    forall c :: c in funding && c !in open ==>
      && c in DoAll(s, ops[..caughtAt]).records
      && c !in DoAll(s, ops[..caughtAt]).funding
      && c in DoAll(s, ops).records
  }

  lemma CaughtStands(s: State, a: seq<Op>, b: seq<Op>, funding: FundingMap, open: set<string>)
    requires a <= b
    requires forall c :: c in funding && c !in open ==> c in DoAll(s, a).records && c !in DoAll(s, a).funding
    ensures Caught(s, b, |a|, funding, open)
  {
    assert b[..|a|] == a && b[..|b|] == b;
    forall c | c in funding && c !in open ensures c in DoAll(s, b).records {
      GainsBetween(s, b, |a|, |b|, c);
    }
  }

  /** The safety net writes only on a new tip. */
  ghost predicate CaughtBy(ops: seq<Op>, report: PassReport, funding: FundingMap, open: set<string>, pass: Pass) {
    && CatchesOnly(ops, report.startAt, report.caughtAt, funding, open, pass)
    && (!pass.newTip ==> report.startAt == report.caughtAt)
  }

  /**
   What a pass that went on has done since `n` operations: events before it knew the tip, the safety net, the
   open records. Every write of it is labelled, justified and grounded, and it completes only on a new tip.
   */
  ghost predicate PassDone(s: State, ops: seq<Op>, n: nat, answered: seq<Answered>, funding: FundingMap,
                           open: set<string>, pass: Pass, report: PassReport) {
    && PassWrites(s, ops, n, answered, pass)
    && CompletionsOf(ops, n, pass)
    && EventsOnly(ops, n, report.startAt)
    && CaughtBy(ops, report, funding, open, pass)
    && Faithful(s, ops, pass, answered, report)
    && (pass.newTip ==> Caught(s, ops, report.caughtAt, funding, open))
  }

  /** The two steps of a pass that saw something to do: catch vanished channels, then the open records. */
  method RunPass(store: Store, chain: Chain, funding: FundingMap, open: set<string>, pass: Pass, ghost n: nat)
    returns (ghost report: PassReport)
    requires store.Valid()
    requires n <= |store.log| && PassWrites(store.origin, store.log, n, chain.answered, pass)
    requires chain.Valid() && EventsOnly(store.log, n, |store.log|)
    modifies store, chain`next, chain`asked, chain`answered, chain`failures
    ensures chain.Valid()
    ensures store.Valid() && store.origin == old(store.origin) && store.lastTip == old(store.lastTip)
    ensures old(store.log) <= store.log && old(chain.answered) <= chain.answered
    ensures 0 <= chain.asked - old(chain.asked) <= MAX_QUERIES_PER_PASS
    ensures PassDone(store.origin, store.log, n, chain.answered, funding, open, pass, report)
    ensures Tiled(report.outcomes, report.caughtAt, |store.log|, old(chain.failures), chain.failures,
                  MAX_QUERIES_PER_PASS, MAX_QUERIES_PER_PASS - (chain.asked - old(chain.asked)))
    ensures chain.asked - old(chain.asked) < MAX_QUERIES_PER_PASS ==> |report.outcomes| == |report.records|
  {
    ghost var log0 := store.log;
    if pass.newTip {
      CatchVanished(store, chain, funding, open, pass, n);
    }
    ghost var log1 := store.log;
    assert log1[..|log1|] == log1;
    var toProcess := OpenRecords(store);
    ghost var outcomes := ReconcileAll(store, chain, toProcess, pass, MAX_QUERIES_PER_PASS, n, |log1|);
    report := PassReport(|log0|, |log1|, toProcess, outcomes);
    PassIsDone(store.origin, log0, log1, store.log, n, chain.answered, funding, open, pass, report);
  }

  lemma PassIsDone(s: State, log0: seq<Op>, log1: seq<Op>, ops: seq<Op>, n: nat, answered: seq<Answered>,
                   funding: FundingMap, open: set<string>, pass: Pass, report: PassReport)
    requires log0 <= log1 <= ops && PassWrites(s, ops, n, answered, pass) && EventsOnly(log0, n, |log0|)
    requires report.startAt == |log0| && report.caughtAt == |log1|
    requires if pass.newTip then
               && CatchesOnly(log1, |log0|, |log1|, funding, open, pass)
               && (forall c :: c in funding && c !in open ==>
                     c in DoAll(s, log1).records && c !in DoAll(s, log1).funding)
             else log1 == log0
    requires NewestFirst(report.records) && ListedOnce(report.records)
    requires forall r :: r in report.records <==> IsOpenIn(DoAll(s, log1).records, r)
    requires AllProcessed(s, ops, report.records, pass, answered, report.outcomes)
    ensures PassDone(s, ops, n, answered, funding, open, pass, report)
  {
    assert ops[..|log1|] == log1;
    if pass.newTip {
      CaughtStands(s, log1, ops, funding, open);
    }
  }

  /** A record whose close has no confirmed transaction yet is looked at on every tick. */
  predicate Undiscovered(r: CloseRecord) {
    r.fundingTxo.Some? && !r.HasConfirmedCloseTx()
  }

  ghost predicate SomeUndiscovered(records: Records) {
    exists r :: IsOpenIn(records, r) && Undiscovered(r)
  }

  /** Without an open record and without a funding entry a tick costs nothing. */
  ghost predicate SomethingToDo(records: Records, funding: FundingMap) {
    funding != map[] || exists r :: IsOpenIn(records, r)
  }

  /** A record wants a look while its funding output is known and no listed close transaction has a height. */
  lemma UndiscoveredIff(r: CloseRecord)
    ensures Undiscovered(r) <==>
            && r.fundingTxo.Some?
            && forall i :: 0 <= i < |r.txs| && (r.txs[i].role == Closing || r.txs[i].role == Commitment) ==>
                 r.txs[i].confirmedAt.None?
  {
    if i :| 0 <= i < |r.txs| && r.txs[i].role.IsClose() && r.txs[i].confirmedAt.Some? {
      assert r.txs[i].role == Closing || r.txs[i].role == Commitment;
    }
    if i :| 0 <= i < |r.txs| && (r.txs[i].role == Closing || r.txs[i].role == Commitment)
              && r.txs[i].confirmedAt.Some? {
      assert r.txs[i].role.IsClose();
    }
  }

  /** There is something to do exactly while a funding entry is stored or some record is not completed. */
  lemma SomethingToDoIff(records: Records, funding: FundingMap)
    requires WellFormed(records)
    ensures SomethingToDo(records, funding) <==>
            (exists c :: c in funding) || exists c :: c in records && records[c].completedAtMs.None?
  {
    if c :| c in records && records[c].completedAtMs.None? {
      assert IsOpenIn(records, records[c]);
    }
    if r :| IsOpenIn(records, r) {
      assert r.channelId in records;
    }
    assert funding != map[] <==> funding.Keys != {};
  }

  /** Every completion written since `n` operations was written by this pass, on a new tip, with no sweep pending. */
  ghost predicate CompletionsOf(ops: seq<Op>, n: nat, pass: Pass) {
    forall i :: n <= i < |ops| && Closes(ops[i]) ==>
      pass.newTip && ops[i].record.channelId !in pass.pendingSweeps && ops[i].pass == Some(pass)
  }

  /**
   One reconcile pass. `tip` is the tip it saw, if it asked and got one; it goes on exactly when that tip is
   new or some open record is undiscovered.
   */
  method ReconcileCloseRecords(store: Store, chain: Chain, open: set<string>, wallet: set<string>,
                               pendingSweeps: set<string>, nowMs: U64)
    returns (tip: Option<U32>, newTip: bool, ran: bool, ghost report: PassReport)
    requires store.Valid()
    requires chain.Valid()
    modifies store, chain`next, chain`asked, chain`since, chain`answered, chain`failures
    ensures chain.Valid() && chain.since == old(chain.next)
    ensures store.Valid() && store.origin == old(store.origin) && store.lastTip == tip.Or(old(store.lastTip))
    ensures old(store.log) <= store.log
    ensures 0 <= chain.asked - old(chain.asked) <= MAX_QUERIES_PER_PASS
    ensures tip.Some? <==>
              SomethingToDo(old(store.records), old(store.fundingTxos)) && !Fails(chain.script, old(chain.next))
    ensures tip.Some? ==> tip.value == chain.script[old(chain.next)].tip
    ensures newTip <==> tip.Some? && tip != old(store.lastTip)
    ensures ran <==> tip.Some? && (newTip || SomeUndiscovered(old(store.records)))
    ensures !ran ==> OnlyEvents(old(store.log), store.log) && chain.asked == old(chain.asked)
    ensures ran ==>
              && PassDone(store.origin, store.log, |old(store.log)|, chain.answered, old(store.fundingTxos), open,
                          Pass(newTip, tip.value, wallet, pendingSweeps, nowMs), report)
              && Tiled(report.outcomes, report.caughtAt, |store.log|, 0, chain.failures,
                       MAX_QUERIES_PER_PASS, MAX_QUERIES_PER_PASS - (chain.asked - old(chain.asked)))
    ensures ran && chain.asked - old(chain.asked) < MAX_QUERIES_PER_PASS ==> |report.outcomes| == |report.records|
  {
    chain.since, chain.answered, chain.failures := chain.next, [], 0;
    ghost var log0 := store.log;
    var funding := store.fundingTxos;
    tip, newTip, ran := SeeTip(store, chain);
    report := PassReport(0, 0, [], []);
    if ran {
      var pass := Pass(newTip, tip.value, wallet, pendingSweeps, nowMs);
      report := RunPass(store, chain, funding, open, pass, |log0|);
    }
  }

  /** Asks for the tip if there is anything to reconcile, and decides whether the pass goes on. */
  method SeeTip(store: Store, chain: Chain) returns (tip: Option<U32>, newTip: bool, ran: bool)
    requires store.Valid()
    requires chain.Valid()
    modifies store, chain`next
    ensures chain.Valid()
    ensures store.Valid() && store.origin == old(store.origin) && store.lastTip == tip.Or(old(store.lastTip))
    ensures OnlyEvents(old(store.log), store.log)
    ensures tip.Some? <==>
              SomethingToDo(old(store.records), old(store.fundingTxos)) && !Fails(chain.script, old(chain.next))
    ensures tip.Some? ==> tip.value == chain.script[old(chain.next)].tip
    ensures newTip <==> tip.Some? && tip != old(store.lastTip)
    ensures ran <==> tip.Some? && (newTip || SomeUndiscovered(old(store.records)))
  {
    tip, newTip, ran := None, false, false;
    var pending := OpenRecords(store);
    if pending == [] && store.fundingTxos == map[] {
      return;
    }
    assert pending != [] ==> IsOpenIn(store.records, pending[0]) by {
      assert pending != [] ==> pending[0] in pending;
    }
    var undiscovered := exists i :: 0 <= i < |pending| && Undiscovered(pending[i]);
    var reply := chain.Tip(store);
    if reply.Err? {
      return;
    }
    tip := Some(reply.value);
    newTip := store.lastTip != tip;
    store.lastTip := tip;
    ran := newTip || undiscovered;
  }

  /** A verdict reached during a pass shows in the store at its end: the record is completed, no weaker resolved. */
  lemma PassCompletesOnEvidence(s: State, ops: seq<Op>, pass: Pass, answered: seq<Answered>,
                                report: PassReport, k: nat)
    requires Faithful(s, ops, pass, answered, report) && k < |report.outcomes|
    requires report.outcomes[k].decision.Some?
    ensures var c, d := report.records[k].channelId, report.outcomes[k].decision.value;
            && d.readAt <= |ops| && JudgedOn(s, ops[..d.readAt], c, pass, d.verdict) && c in DoAll(s, ops).records
            && (d.verdict.Some? ==>
                  && DoAll(s, ops).records[c].completedAtMs.Some?
                  && Rank(d.verdict) <= Rank(DoAll(s, ops).records[c].resolution))
  {
    var o := report.outcomes[k];
    assert Processed(s, ops, report.records[k], pass, answered, o);
    DecisionShows(s, ops, report.records[k].channelId, pass, o.to, o.decision.value);
  }

  lemma DecisionShows(s: State, ops: seq<Op>, c: string, pass: Pass, to: nat, d: Decision)
    requires d.readAt <= |ops| && JudgedOn(s, ops[..d.readAt], c, pass, d.verdict) && d.facts.channelId == c
    requires WroteVerdict(ops, d.readAt, to, d.facts, d.verdict, pass)
    ensures c in DoAll(s, ops).records
    ensures d.verdict.Some? ==>
              && DoAll(s, ops).records[c].completedAtMs.Some?
              && Rank(d.verdict) <= Rank(DoAll(s, ops).records[c].resolution)
  {
    if d.verdict.Some? {
      VerdictShows(s, ops, d.readAt, to - 1, c, d.verdict);
    } else {
      VerdictShows(s, ops, d.readAt, 0, c, d.verdict);
    }
  }

  /**
   At the end of a pass every record that was not skipped knows what the chain answered about it: its spender is
   listed, the heights answered for it are known.
   */
  lemma PassWritesAnswers(s: State, ops: seq<Op>, pass: Pass, answered: seq<Answered>, report: PassReport, k: nat)
    requires Faithful(s, ops, pass, answered, report) && k < |report.outcomes|
    requires report.outcomes[k].decision.Some?
    ensures var record := report.records[k];
            && record.channelId in DoAll(s, ops).records
            && KnowsFacts(DoAll(s, ops).records[record.channelId], report.outcomes[k].decision.value.facts)
            && AnswersKnown(record, pass, report.outcomes[k], answered, DoAll(s, ops).records[record.channelId])
  {
    var record, o := report.records[k], report.outcomes[k];
    assert Processed(s, ops, record, pass, answered, o);
    assert ops[..|ops|] == ops;
    FactsReachTheStore(s, ops, record, pass, answered, o, |ops|);
    AnswersReachTheRecord(s, ops, record, pass, answered, o, |ops|);
  }

  lemma VerdictShows(s: State, ops: seq<Op>, readAt: nat, i: nat, c: string, verdict: Option<Resolution>)
    requires readAt <= |ops| && c in DoAll(s, ops[..readAt]).records
    requires verdict.Some? ==> i < |ops| && Completes(ops[i], c, verdict.value)
    ensures c in DoAll(s, ops).records
    ensures verdict.Some? ==>
              && DoAll(s, ops).records[c].completedAtMs.Some?
              && Rank(verdict) <= Rank(DoAll(s, ops).records[c].resolution)
  {
    if verdict.Some? {
      CompletionLasts(s, ops, i, c, verdict.value);
    } else {
      assert ops[..|ops|] == ops;
      GainsBetween(s, ops, readAt, |ops|, c);
    }
  }

  lemma CompletionLasts(s: State, ops: seq<Op>, i: nat, c: string, x: Resolution)
    requires i < |ops| && Completes(ops[i], c, x)
    ensures c in DoAll(s, ops).records && DoAll(s, ops).records[c].completedAtMs.Some?
    ensures Rank(Some(x)) <= Rank(DoAll(s, ops).records[c].resolution)
  {
    assert ops[..i + 1][..i] == ops[..i] && ops[..|ops|] == ops;
    GainsBetween(s, ops, i + 1, |ops|, c);
  }

  // ----- A close that never completes ---------------------------------------------------

  const FORCE_CLOSED: Signal :=
    ChannelClosed("c", Classification("force", Force, UnknownInitiator, true), Some(Outpoint("f", 0)), Some(1_000), 0)
  const OUR_COMMITMENT: Signal := CommitmentBroadcast("c", "ours", 1, 0)
  const OURS: CloseTx := CloseTx("ours", Commitment, Some(1), None)

  function Theirs(h: U32): CloseTx {
    CloseTx("theirs", Commitment, None, Some(h))
  }

  /** A channel closed and our own commitment was broadcast. */
  function Unilateral(): CloseRecord {
    Merge(ClosedFacts(map[], FORCE_CLOSED), CommitmentFacts(OUR_COMMITMENT))
  }

  lemma UnilateralListsOurs()
    ensures Unilateral().txs == [OURS]
  {
    UnionSnoc([], [], OURS);
    assert [] + [OURS] == [OURS];
  }

  /** A pass discovered that the counterparty's commitment confirmed instead, at height `h`. */
  function Superseded(h: U32): CloseRecord {
    Merge(Unilateral(), Skeleton("c", 0).(txs := [Theirs(h)]))
  }

  lemma SupersededListsOursFirst(h: U32)
    ensures Superseded(h).txs == [OURS, Theirs(h)]
  {
    UnilateralListsOurs();
    UnionSnoc([OURS], [], Theirs(h));
    assert [] + [Theirs(h)] == [Theirs(h)];
    assert "ours"[0] != "theirs"[0];
    assert [OURS] + [Theirs(h)] == [OURS, Theirs(h)];
  }

  /** A close, the broadcast of our commitment, and what the next pass found, from an empty store. */
  function SupersedingRun(h: U32, pass: Pass): seq<Op> {
    [Upsert(ClosedFacts(map[], FORCE_CLOSED), None), RemoveFunding("c"),
     Upsert(CommitmentFacts(OUR_COMMITMENT), None),
     Upsert(Skeleton("c", 0).(txs := [Theirs(h)]), Some(pass))]
  }

  lemma SupersedingRunReaches(h: U32, pass: Pass)
    ensures DoAll(State(map[], map[]), SupersedingRun(h, pass)[..3]).records == map["c" := Unilateral()]
    ensures DoAll(State(map[], map[]), SupersedingRun(h, pass)).records == map["c" := Superseded(h)]
  {
    var ops := SupersedingRun(h, pass);
    var s := State(map[], map[]);
    assert ops[..1] == [ops[0]] && ops[..2][..1] == ops[..1] && ops[..3][..2] == ops[..2] && ops[..4] == ops;
    assert ops[..1][..0] == [];
    assert DoAll(s, ops[..1]) == Do(s, ops[0]);
    assert DoAll(s, ops[..2]) == Do(DoAll(s, ops[..1]), ops[1]);
    assert DoAll(s, ops[..3]) == Do(DoAll(s, ops[..2]), ops[2]);
    assert DoAll(s, ops) == Do(DoAll(s, ops[..3]), ops[3]);
  }

  lemma SupersedingIsGrounded(h: U32, pass: Pass)
    ensures PassWrites(State(map[], map[]), SupersedingRun(h, pass), 3,
                       [SpentBy("f", 0, Some("theirs")), ConfirmedAt("theirs", Some(h))], pass)
  {
    var s, ops := State(map[], map[]), SupersedingRun(h, pass);
    var answered := [SpentBy("f", 0, Some("theirs")), ConfirmedAt("theirs", Some(h))];
    SupersedingRunReaches(h, pass);
    assert answered[0] in answered && answered[1] in answered;
    assert GroundedBy(s, ops, 3, [Theirs(h)], ops[3].record, answered);
  }

  /**
   A run that ends in a record no pass completes by age: a close, the broadcast of our commitment, and a pass
   that discovered the counterparty's commitment, confirmed. The unconfirmed one stays listed first, so without
   a receipt no pass at any tip completes the record (nor does any later one, by `StuckWhileUnconfirmed`).
   */
  lemma SupersededCommitmentIsStuck(h: U32, pass: Pass, later: Pass)
    requires later.wallet == {}
    ensures var s, ops := State(map[], map[]), SupersedingRun(h, pass);
            && Discovery(DoAll(s, ops[..3]).records["c"], Some(Theirs(h)), 8, 6,
                         [SpentBy("f", 0, Some("theirs")), ConfirmedAt("theirs", Some(h))])
            && PassWrites(s, ops, 3, [SpentBy("f", 0, Some("theirs")), ConfirmedAt("theirs", Some(h))], pass)
            && DoAll(s, ops).records["c"].HasConfirmedCloseTx()
            && Verdict(DoAll(s, ops).records["c"], later) == None
  {
    SupersedingRunReaches(h, pass);
    SupersedingIsGrounded(h, pass);
    SupersededListsOursFirst(h);
    var txs := Superseded(h).txs;
    assert txs[1].role.IsClose() && txs[1].confirmedAt.Some?;
    assert FirstClose(txs) == Some(txs[0]);
    NoHeightNoVerdict(Superseded(h), later);
  }
}
