/**
 Redelivered signals. The event queue delivers unacknowledged events again, so a suffix of a run of signals may
 arrive a second time, with later clocks. This is exactly when that changes nothing.
 */
module CloseRedelivery {
  import opened Prelude
  import opened CloseRecords
  import opened CloseRecordLaws
  import opened CloseRecordGains
  import opened CloseRecordStore
  import opened CloseSignals

  /** The same signal delivered again, with a clock that has not gone back. */
  predicate Redelivers(again: Signal, sig: Signal) {
    && again == sig.(nowMs := again.nowMs)
    && sig.nowMs <= again.nowMs
  }

  ghost predicate AllAgain(again: seq<Signal>, sigs: seq<Signal>) {
    |again| == |sigs| && forall i :: 0 <= i < |sigs| ==> Redelivers(again[i], sigs[i])
  }

  /** A close without an on-chain transaction that came before its channel had the record it has at the end. */
  predicate Late(s: State, sigs: seq<Signal>, i: nat)
    requires i < |sigs|
  {
    && sigs[i].ChannelClosed? && !sigs[i].class_.hasOnchainTx
    && sigs[i].channelId !in AfterSignals(s, sigs[..i]).records
    && sigs[i].channelId in AfterSignals(s, sigs).records
  }

  ghost predicate NoLate(s: State, sigs: seq<Signal>, c: string) {
    forall i :: 0 <= i < |sigs| && Late(s, sigs, i) ==> sigs[i].channelId != c
  }

  // ----- The fields on which the last signal decides ------------------------------------

  /** What a signal or a record says of close type, initiator and amount; later words replace earlier ones. */
  datatype Said = Said(closeType: Option<CloseType>, initiator: Option<Initiator>, amountSats: Option<U64>)

  const NOTHING: Said := Said(None, None, None)

  function Later(earlier: Said, later: Said): Said {
    Said(later.closeType.Or(earlier.closeType), later.initiator.Or(earlier.initiator),
         later.amountSats.Or(earlier.amountSats))
  }

  function SaidIn(r: CloseRecord): Said {
    Said(if r.closeType == UnknownType then None else Some(r.closeType),
         if r.initiator == UnknownInitiator then None else Some(r.initiator),
         r.expectedAmountSats)
  }

  /** What the signal says of channel `c`. */
  function SaidOf(sig: Signal, c: string): Said {
    match sig
    case ChannelClosed(closed, class_, _, balance, _) =>
      if c != closed then NOTHING
      else Said(if class_.closeType == UnknownType then None else Some(class_.closeType),
                if class_.initiator == UnknownInitiator then None else Some(class_.initiator),
                balance)
    case CommitmentBroadcast(broadcast, _, _, _) => if c == broadcast then Said(Some(Force), None, None) else NOTHING
    case SweepBroadcast(_, _, _) => NOTHING
  }

  /** The last word on each of the three, starting from `before`. */
  function LastSaid(before: Said, sigs: seq<Signal>, c: string): Said
    decreases |sigs|
  {
    if sigs == [] then before else Later(LastSaid(before, sigs[..|sigs| - 1], c), SaidOf(sigs[|sigs| - 1], c))
  }

  /** A record that is there from the start ends with the last word of the run. */
  lemma {:induction false} RecordSaysLast(s: State, sigs: seq<Signal>, c: string)
    requires c in s.records
    ensures c in AfterSignals(s, sigs).records
    ensures SaidIn(AfterSignals(s, sigs).records[c]) == LastSaid(SaidIn(s.records[c]), sigs, c)
    decreases |sigs|
  {
    if sigs != [] {
      var front, sig := sigs[..|sigs| - 1], sigs[|sigs| - 1];
      RecordSaysLast(s, front, c);
      var mid := AfterSignals(s, front);
      SignalAtChannel(mid, sig, c);
    }
  }

  lemma {:induction false} SaidAgain(before: Said, sigs: seq<Signal>, again: seq<Signal>, c: string)
    requires AllAgain(again, sigs)
    ensures LastSaid(before, again, c) == LastSaid(before, sigs, c)
    decreases |sigs|
  {
    if sigs != [] {
      SaidAgain(before, sigs[..|sigs| - 1], again[..|sigs| - 1], c);
    }
  }

  /** Without a late close of `c`, its record already says the last word of the run. */
  ghost predicate SaysLast(s: State, sigs: seq<Signal>, n: nat, c: string)
    requires n <= |sigs|
  {
    var mid := AfterSignals(s, sigs[..n]);
    if c in mid.records then LastSaid(SaidIn(mid.records[c]), sigs[..n], c) == SaidIn(mid.records[c])
    else LastSaid(NOTHING, sigs[..n], c) == NOTHING
  }

  lemma LastSaidNext(before: Said, sigs: seq<Signal>, n: nat, c: string)
    requires n < |sigs|
    ensures LastSaid(before, sigs[..n + 1], c) == Later(LastSaid(before, sigs[..n], c), SaidOf(sigs[n], c))
  {
    assert sigs[..n + 1][..n] == sigs[..n];
  }

  /** Saying something first makes no difference to what is said last, where that is not nothing. */
  lemma {:induction false} LastSaidFrom(before: Said, sigs: seq<Signal>, c: string)
    ensures LastSaid(before, sigs, c) == Later(before, LastSaid(NOTHING, sigs, c))
    decreases |sigs|
  {
    if sigs != [] {
      LastSaidFrom(before, sigs[..|sigs| - 1], c);
    }
  }

  lemma {:induction false} OneMoreSaysLast(s: State, sigs: seq<Signal>, n: nat, c: string)
    requires n < |sigs| && SaysLast(s, sigs, n, c) && NoLate(s, sigs, c) && c in AfterSignals(s, sigs).records
    ensures SaysLast(s, sigs, n + 1, c)
  {
    var mid, sig := AfterSignals(s, sigs[..n]), sigs[n];
    assert sigs[..n + 1][..n] == sigs[..n];
    SignalAtChannel(mid, sig, c);
    assert !Late(s, sigs, n) || sig.channelId != c;
    var next := AfterSignals(s, sigs[..n + 1]);
    if c in next.records {
      var r := next.records[c];
      LastSaidNext(SaidIn(r), sigs, n, c);
      LastSaidFrom(SaidIn(r), sigs[..n], c);
      if c in mid.records {
        LastSaidFrom(SaidIn(mid.records[c]), sigs[..n], c);
      }
    } else {
      LastSaidNext(NOTHING, sigs, n, c);
    }
  }

  lemma {:induction false} WithoutLateSaysLast(s: State, sigs: seq<Signal>, n: nat, c: string)
    requires n <= |sigs| && NoLate(s, sigs, c) && c in AfterSignals(s, sigs).records
    ensures SaysLast(s, sigs, n, c)
    decreases n
  {
    if n > 0 {
      WithoutLateSaysLast(s, sigs, n - 1, c);
      OneMoreSaysLast(s, sigs, n - 1, c);
    }
  }

  // ----- The fields on which the record decides -----------------------------------------

  /** `x` is `r` up to close type, initiator and amount. */
  predicate SameBut(x: CloseRecord, r: CloseRecord) {
    x == r.(closeType := x.closeType, initiator := x.initiator, expectedAmountSats := x.expectedAmountSats)
  }

  /** The fact adds nothing to `r` but perhaps a word on those three. */
  ghost predicate Absorbs(r: CloseRecord, fact: CloseRecord) {
    && fact.schemaVersion <= r.schemaVersion && r.createdAtMs <= fact.createdAtMs
    && StaysKnown(fact.fundingTxo, r.fundingTxo)
    && StaysKnown(fact.closureReason, r.closureReason)
    && fact.timelockBlocks.None? && fact.claimableAt.None?
    && fact.completedAtMs.None? && fact.resolution.None? && fact.extras == map[]
    && forall i :: 0 <= i < |fact.txs| ==> FirstKnows(r.txs, fact.txs[i])
  }

  lemma AbsorbedFact(r: CloseRecord, x: CloseRecord, fact: CloseRecord)
    requires Absorbs(r, fact) && SameBut(x, r)
    ensures SameBut(Merge(x, fact), r)
  {
    UnionNothing(r.txs, fact.txs);
    assert fact.extras + x.extras == r.extras;
  }

  /** A fact told once is known to the record right after. */
  lemma ToldIsKnown(existing: Option<CloseRecord>, fact: CloseRecord)
    requires |fact.txs| <= 1
    ensures KnowsFact(Combine(existing, fact), fact)
  {
    if |fact.txs| == 1 {
      if existing.Some? {
        UnionKnows(existing.value.txs, fact.txs, 0);
      } else {
        assert IndexOf(fact.txs, fact.txs[0].txid) == 0;
      }
    }
  }

  /** A record that the run built has at least the current schema version. */
  lemma {:induction false} BuiltSchema(s: State, sigs: seq<Signal>, c: string)
    requires c !in s.records && c in AfterSignals(s, sigs).records
    ensures SCHEMA_VERSION <= AfterSignals(s, sigs).records[c].schemaVersion
    decreases |sigs|
  {
    var front, sig := sigs[..|sigs| - 1], sigs[|sigs| - 1];
    SignalAtChannel(AfterSignals(s, front), sig, c);
    if c in AfterSignals(s, front).records {
      BuiltSchema(s, front, c);
    }
  }

  /** The rest of the run, after signal `n`. */
  lemma Tail(s: State, sigs: seq<Signal>, n: nat)
    requires n <= |sigs|
    ensures AfterSignals(s, sigs) == AfterSignals(AfterSignals(s, sigs[..n]), sigs[n..])
  {
    assert sigs == sigs[..n] + sigs[n..];
    AfterSignalsConcat(s, sigs[..n], sigs[n..]);
  }

  /** What a late close would still add to the final record, besides its words. */
  predicate LateAddsNothing(r: CloseRecord, sig: Signal, again: Signal)
    requires sig.ChannelClosed?
  {
    && r.closureReason.Some? && r.createdAtMs <= again.nowMs
    && (sig.eventTxo.Some? ==> r.fundingTxo.Some?)
  }

  /** The fact of a signal that took effect the first time is absorbed by the final record. */
  lemma EffectiveIsAbsorbed(s: State, sigs: seq<Signal>, n: nat, c: string)
    requires n < |sigs| && FactFor(AfterSignals(s, sigs[..n]), sigs[n], c).Some?
    ensures c in AfterSignals(s, sigs).records
    ensures KnowsFact(AfterSignals(s, sigs).records[c], FactFor(AfterSignals(s, sigs[..n]), sigs[n], c).value)
  {
    var mid, next := AfterSignals(s, sigs[..n]), AfterSignals(s, sigs[..n + 1]);
    var fact := FactFor(mid, sigs[n], c).value;
    assert sigs[..n + 1][..n] == sigs[..n];
    SignalAtChannel(mid, sigs[n], c);
    ToldIsKnown(Find(mid.records, c), fact);
    Tail(s, sigs, n + 1);
    SignalsGain(next, sigs[n + 1..], c);
    KnownThroughGains(next.records[c], AfterSignals(s, sigs).records[c], fact);
  }

  ghost predicate KnowsFact(r: CloseRecord, fact: CloseRecord) {
    && fact.schemaVersion <= r.schemaVersion && r.createdAtMs <= fact.createdAtMs
    && StaysKnown(fact.fundingTxo, r.fundingTxo) && StaysKnown(fact.closureReason, r.closureReason)
    && forall i :: 0 <= i < |fact.txs| ==> FirstKnows(r.txs, fact.txs[i])
  }

  lemma KnownThroughGains(r: CloseRecord, later: CloseRecord, fact: CloseRecord)
    requires KnowsFact(r, fact) && Gains(r, later)
    ensures KnowsFact(later, fact)
  {
  }

  /** By the second delivery of a close the funding entry is gone. */
  lemma EntryIsGone(s: State, sigs: seq<Signal>, again: seq<Signal>, n: nat)
    requires AllAgain(again, sigs) && n < |sigs| && sigs[n].ChannelClosed?
    ensures sigs[n].channelId !in AfterSignals(AfterSignals(s, sigs), again[..n]).funding
  {
    SeesNoMoreFunding(s, sigs, again[..n], n + 1);
    assert sigs[..n + 1][n] == sigs[n];
    assert sigs[n].channelId !in AfterSignals(s, sigs[..n + 1]).funding;
  }

  /** Signal `n`, delivered again, tells the final record of `c` nothing but perhaps its words. */
  lemma AgainIsAbsorbed(s: State, sigs: seq<Signal>, again: seq<Signal>, n: nat, c: string)
    requires AllAgain(again, sigs) && n < |sigs| && c in AfterSignals(s, sigs).records
    requires Late(s, sigs, n) && sigs[n].channelId == c ==>
               LateAddsNothing(AfterSignals(s, sigs).records[c], sigs[n], again[n])
    ensures var fact := FactFor(AfterSignals(AfterSignals(s, sigs), again[..n]), again[n], c);
            fact.Some? ==> Absorbs(AfterSignals(s, sigs).records[c], fact.value)
  {
    var mid := AfterSignals(s, sigs[..n]);
    var mid' := AfterSignals(AfterSignals(s, sigs), again[..n]);
    if FactFor(mid', again[n], c).Some? {
      if sigs[n].ChannelClosed? {
        EntryIsGone(s, sigs, again, n);
      }
      if FactFor(mid, sigs[n], c).Some? {
        EffectiveIsAbsorbed(s, sigs, n, c);
      } else {
        assert Late(s, sigs, n);
        Tail(s, sigs, n);
        BuiltSchema(mid, sigs[n..], c);
      }
    }
  }

  /** No late close of `c` adds anything but perhaps its words. */
  ghost predicate LateClosesAddNothing(s: State, sigs: seq<Signal>, again: seq<Signal>, c: string)
    requires |again| == |sigs|
  {
    c in AfterSignals(s, sigs).records &&
    forall i :: 0 <= i < |sigs| && Late(s, sigs, i) && sigs[i].channelId == c ==>
      LateAddsNothing(AfterSignals(s, sigs).records[c], sigs[i], again[i])
  }

  lemma {:induction false} SecondDeliveryIsSameBut(s: State, sigs: seq<Signal>, again: seq<Signal>, n: nat, c: string)
    requires AllAgain(again, sigs) && n <= |sigs| && LateClosesAddNothing(s, sigs, again, c)
    ensures var end := AfterSignals(s, sigs);
            && c in AfterSignals(end, again[..n]).records
            && SameBut(AfterSignals(end, again[..n]).records[c], end.records[c])
    decreases n
  {
    if n > 0 {
      var end := AfterSignals(s, sigs);
      SecondDeliveryIsSameBut(s, sigs, again, n - 1, c);
      AgainIsAbsorbed(s, sigs, again, n - 1, c);
      assert again[..n][..n - 1] == again[..n - 1];
      var mid := AfterSignals(end, again[..n - 1]);
      SignalAtChannel(mid, again[n - 1], c);
      var fact := FactFor(mid, again[n - 1], c);
      if fact.Some? {
        AbsorbedFact(end.records[c], mid.records[c], fact.value);
      }
    }
  }

  // ----- Channels without a record, and the funding map ---------------------------------

  lemma {:induction false} AbsentStaysAbsent(s: State, sigs: seq<Signal>, again: seq<Signal>, n: nat, c: string)
    requires AllAgain(again, sigs) && n <= |sigs| && c !in AfterSignals(s, sigs).records
    ensures c !in AfterSignals(AfterSignals(s, sigs), again[..n]).records
    decreases n
  {
    if n > 0 {
      AbsentStaysAbsent(s, sigs, again, n - 1, c);
      assert again[..n][..n - 1] == again[..n - 1];
      SignalAtChannel(AfterSignals(AfterSignals(s, sigs), again[..n - 1]), again[n - 1], c);
      if FactFor(AfterSignals(s, sigs[..n - 1]), sigs[n - 1], c).Some? {
        EffectiveIsAbsorbed(s, sigs, n - 1, c);
        assert false;
      }
    }
  }

  lemma {:induction false} FundingSettled(s: State, sigs: seq<Signal>, again: seq<Signal>, n: nat)
    requires AllAgain(again, sigs) && n <= |sigs|
    ensures AfterSignals(AfterSignals(s, sigs), again[..n]).funding == AfterSignals(s, sigs).funding
    decreases n
  {
    if n > 0 {
      FundingSettled(s, sigs, again, n - 1);
      assert again[..n][..n - 1] == again[..n - 1];
      if sigs[n - 1].ChannelClosed? {
        EntryIsGone(s, sigs, again, n - 1);
      }
    }
  }

  // ----- The theorem --------------------------------------------------------------------

  /** Every late close of `c` adds nothing to its record, and the record says the last word of the run. */
  ghost predicate Harmless(s: State, sigs: seq<Signal>, again: seq<Signal>, c: string)
    requires |again| == |sigs|
  {
    && LateClosesAddNothing(s, sigs, again, c)
    && var r := AfterSignals(s, sigs).records[c]; LastSaid(SaidIn(r), sigs, c) == SaidIn(r)
  }

  lemma HarmlessChannel(s: State, sigs: seq<Signal>, again: seq<Signal>, c: string)
    requires AllAgain(again, sigs) && Harmless(s, sigs, again, c)
    ensures var end := AfterSignals(s, sigs);
            Find(AfterSignals(end, again).records, c) == Find(end.records, c)
  {
    var end := AfterSignals(s, sigs);
    assert again[..|again|] == again;
    SecondDeliveryIsSameBut(s, sigs, again, |again|, c);
    RecordSaysLast(end, again, c);
    SaidAgain(SaidIn(end.records[c]), sigs, again, c);
  }

  lemma HarmlessWithoutLate(s: State, sigs: seq<Signal>, again: seq<Signal>, c: string)
    requires AllAgain(again, sigs) && NoLate(s, sigs, c) && c in AfterSignals(s, sigs).records
    ensures Harmless(s, sigs, again, c)
  {
    assert sigs[..|sigs|] == sigs;
    WithoutLateSaysLast(s, sigs, |sigs|, c);
  }

  /** What the second delivery of a close leaves in the record. */
  lemma LateCloseTells(end: State, again: seq<Signal>, i: nat)
    requires i < |again| && again[i].ChannelClosed? && again[i].channelId in end.records
    ensures again[i].channelId in AfterSignals(end, again).records
    ensures var r := AfterSignals(end, again).records[again[i].channelId];
            r.closureReason.Some? && r.createdAtMs <= again[i].nowMs && (again[i].eventTxo.Some? ==> r.fundingTxo.Some?)
  {
    var c := again[i].channelId;
    SignalsGain(end, again[..i], c);
    EffectiveIsAbsorbed(end, again, i, c);
  }

  /** A redelivery that changed nothing was harmless. */
  lemma UnchangedIsHarmless(s: State, sigs: seq<Signal>, again: seq<Signal>, c: string)
    requires AllAgain(again, sigs) && c in AfterSignals(s, sigs).records
    requires AfterSignals(AfterSignals(s, sigs), again) == AfterSignals(s, sigs)
    ensures Harmless(s, sigs, again, c)
  {
    var end := AfterSignals(s, sigs);
    RecordSaysLast(end, again, c);
    SaidAgain(SaidIn(end.records[c]), sigs, again, c);
    forall i | 0 <= i < |sigs| && Late(s, sigs, i) && sigs[i].channelId == c
      ensures LateAddsNothing(end.records[c], sigs[i], again[i])
    {
      assert Redelivers(again[i], sigs[i]);
      LateCloseTells(end, again, i);
    }
  }

  ghost predicate LateHarmless(s: State, sigs: seq<Signal>, again: seq<Signal>)
    requires |again| == |sigs|
  {
    forall i :: 0 <= i < |sigs| && Late(s, sigs, i) ==> Harmless(s, sigs, again, sigs[i].channelId)
  }

  lemma WholeRedelivery(s: State, sigs: seq<Signal>, again: seq<Signal>)
    requires AllAgain(again, sigs) && LateHarmless(s, sigs, again)
    ensures AfterSignals(AfterSignals(s, sigs), again) == AfterSignals(s, sigs)
  {
    var end := AfterSignals(s, sigs);
    var twice := AfterSignals(end, again);
    assert again[..|again|] == again;
    FundingSettled(s, sigs, again, |sigs|);
    forall c ensures Find(twice.records, c) == Find(end.records, c) {
      if c !in end.records {
        AbsentStaysAbsent(s, sigs, again, |sigs|, c);
      } else {
        if NoLate(s, sigs, c) {
          HarmlessWithoutLate(s, sigs, again, c);
        }
        HarmlessChannel(s, sigs, again, c);
      }
    }
    SameLookups(twice.records, end.records);
  }

  /** The suffix from `k` on is delivered again. */
  ghost predicate SuffixAgain(sigs: seq<Signal>, k: nat, again: seq<Signal>) {
    k <= |sigs| && AllAgain(again, sigs[k..])
  }

  /**
   Redelivering any suffix of a run of signals leaves the store exactly as it was if and only if every close
   that came before its channel's record has nothing to add to it now: the record has a reason, is no younger
   than the redelivery and knows a funding output if the close does, and the suffix's last words on close type,
   initiator and amount are the record's own.
   */
  lemma RedeliveryHarmlessIff(s: State, sigs: seq<Signal>, k: nat, again: seq<Signal>)
    requires SuffixAgain(sigs, k, again)
    ensures AfterSignals(AfterSignals(s, sigs), again) == AfterSignals(s, sigs) <==>
            LateHarmless(AfterSignals(s, sigs[..k]), sigs[k..], again)
  {
    var from, suffix := AfterSignals(s, sigs[..k]), sigs[k..];
    Tail(s, sigs, k);
    if LateHarmless(from, suffix, again) {
      WholeRedelivery(from, suffix, again);
    }
    if AfterSignals(AfterSignals(s, sigs), again) == AfterSignals(s, sigs) {
      forall i | 0 <= i < |suffix| && Late(from, suffix, i) ensures Harmless(from, suffix, again, suffix[i].channelId) {
        UnchangedIsHarmless(from, suffix, again, suffix[i].channelId);
      }
    }
  }

  /**
   In particular a suffix without late closes can always be redelivered, although the merge does not commute and
   the funding entry the first delivery read is already gone.
   */
  lemma SuffixRedeliveryChangesNothing(s: State, sigs: seq<Signal>, k: nat, again: seq<Signal>)
    requires SuffixAgain(sigs, k, again)
    requires forall i :: 0 <= i < |sigs| - k ==> !Late(AfterSignals(s, sigs[..k]), sigs[k..], i)
    ensures AfterSignals(AfterSignals(s, sigs), again) == AfterSignals(s, sigs)
  {
    RedeliveryHarmlessIff(s, sigs, k, again);
  }

  /** A close without an on-chain transaction that changes the store when delivered again. */
  lemma UnfundedCloseIsNotReplayable()
    ensures var s := State(map[], map[]);
            var class_ := Classification("gone", UnknownType, UnknownInitiator, false);
            var closed := ChannelClosed("c", class_, None, None, 0);
            var sigs := [closed, CommitmentBroadcast("c", "t", 1, 0)];
            && SuffixAgain(sigs, 0, sigs)
            && AfterSignals(AfterSignals(s, sigs), sigs) != AfterSignals(s, sigs)
  {
    var s := State(map[], map[]);
    var closed := ChannelClosed("c", Classification("gone", UnknownType, UnknownInitiator, false), None, None, 0);
    var commitment := CommitmentBroadcast("c", "t", 1, 0);
    var sigs := [closed, commitment];
    assert sigs[0..] == sigs;
    TwoSignals(s, closed, commitment);
    var once := AfterSignals(s, sigs);
    assert once.records["c"] == CommitmentFacts(commitment);
    LateCloseTells(once, sigs, 0);
  }
}
