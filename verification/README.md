# Wallet core model

A Dafny model of the fund-relevant state machines of a self-custodial Lightning wallet: a Rust core around LDK
and the Swift shell that starts and stops it. The libraries around them are opaque; the machines are not, and
this project states and proves what they promise over every run.

- **Close records** (`CloseRecords`, `CloseRecordLaws`, `CloseRecordGains`, `CloseRecordCodec`,
  `CloseRecordStore`, `CloseRecordDisk`, `CloseSignals`, `CloseRedelivery`, `CloseVerdict`, `CloseReconcile`,
  `ClosePass`, `CloseRun`, with `Json` and `Decimal`): the
  replicated facts about each channel close, their merge and wire format, the store, the event signals, and the
  budgeted reconciler against a chain that may answer anything or fail while other tasks write.
- **Shell** (`ShellLifecycle`, `ShellModel`): the chained start and stop jobs and the chained event-loop runs,
  one step per stretch between awaits.
- **Event queue** (`WalletEvents`, `EventQueue`, `EventWakeup`): the persisted handle-then-ack queue and its
  one-permit notifier.
- **Payments and activity** (`PaymentStore`, `ActivityFeed`): the persist-first status machine and the merged
  feed.
- **Funding and broadcasting** (`PendingCodec`, `FundingFlow`, `FundingHandlers`): two durable stores and the
  write order meant never to lose a funding transaction.
- **Fees** (`Fees`, `FeeSanity`): the estimate table, the cache and the fee-sanity gate.

Objects the source updates in place are classes; each method is proved against a function of the old state, and
the theorems about runs are lemmas over those functions. Protocols are step machines; a run is any sequence of
enabled steps. Integers are unbounded in Dafny, so 32-bit and 64-bit widths, wrapping sums and saturating
operations are written out. The source computes heights with plain `u32` additions, which wrap in a release
build; the model wraps too, and `CloseVerdict.ExactIffTipFits` says up to which tip that cannot matter.

Five places where the code does less than its comments say, kept as the code has them, each with the input that
shows it and the exact condition:

- The close signals are documented as idempotent under replay. A close without an on-chain transaction is not,
  once another signal has created a record after it (`UnfundedCloseIsNotReplayable`, `RedeliveryHarmlessIff`).
- The reconciler's last fallback is documented to end every record in bounded time. Completion looks at the first
  listed close, so an unconfirmed commitment listed before the one that superseded it postpones it for good
  (`SupersededCommitmentIsStuck`, `BoundedIffFirstCloseHasHeight`).
- Settling a payment is documented as idempotent under event replay. A replayed failure settles a payment that
  was dispatched again in between (`StaleFailureHitsTheNewAttempt`, `ReplayedSettleHitsIff`).
- The funding map is documented as the safety net for a lost record. Two calls that overlap can lose both
  (`OvertakenWriteForgetsTheChannel`, `EarlyDropForgetsTheChannel`, `ForgettableIffUnsettled`).
- The pending-broadcast store is documented to keep a transaction until the network knows it or 48 hours pass. The
  startup drain reads and removes in two steps, so it can remove an entry written in between
  (`StaleExpiryLosesTheTransaction`, `RepersistCanBeUndoneIff`).

`dafny verify dfyconfig.toml` checks the whole project.

## Model

| member | source | states |
|---|---|---|
| `CloseRecords.FillOrPush` | rust/src/close_records.rs:250-261 | The in-place search finds the first entry with the txid and fills its missing fee and height, or appends the new entry. |
| `CloseRecords.MergeCloseRecords` | rust/src/close_records.rs:247-304 | The merge as it runs, growing one list in place, refines the field-wise `Merge` whose laws follow. |
| `CloseRecords.AddTxFacts` | rust/src/close_records.rs:250-261 | One more transaction keeps every txid and its position, adds only its own, and keeps txids distinct. |
| `CloseRecordLaws.UnionFacts` | rust/src/close_records.rs:250-261 | A union holds exactly the txids of both sides, the base order first, and stays distinct. |
| `CloseRecordLaws.UnionAssociative` | rust/src/close_records.rs:250-261 | Union of transaction lists is associative when the middle list has distinct txids. |
| `CloseRecordLaws.UnionAbsorbs` | rust/src/close_records.rs:250-261 | Re-adding entries a distinct list already holds changes nothing. |
| `CloseRecordLaws.MergeAssociative` | rust/src/close_records.rs:247-304 | `Merge(Merge(a, b), c) == Merge(a, Merge(b, c))` for every three records whose middle one has distinct txids. |
| `CloseRecordLaws.MergeIdempotent` | rust/src/close_records.rs:247-304 | `Merge(a, a) == a` on distinct txids. |
| `CloseRecordLaws.MergeKeepsDistinct` | rust/src/close_records.rs:247-304 | Merging never introduces a repeated txid, whatever comes in. |
| `CloseRecordLaws.AnyBracketingIsTheFold` | rust/src/close_records.rs:247-304 | Every bracketing of a sequence of facts gives the record a store builds one fact at a time. |
| `CloseRecordGains.MergeGains` | rust/src/close_records.rs:247-304 | Nothing the existing record knows is lost or changed: txids, roles, fees, heights, funding output, reason, timelock, completion and extras stay, creation time never rises, resolution never drops. |
| `CloseRecordGains.MergeLearns` | rust/src/close_records.rs:247-304 | Nothing the incoming side knows is lost, down to each transaction's fee and height. |
| `CloseRecordGains.MergeExtras` | rust/src/close_records.rs:247-304 | The unknown fields are those of both sides; where both hold one, the existing value stays. |
| `CloseRecordGains.LookupUnion` | rust/src/close_records.rs:250-261 | What a union knows about a txid is the left-biased fill-in of what the two sides know. |
| `CloseRecordGains.MergeBothWaysConverges` | rust/src/close_records.rs:247-304 | `Merge(a, b)` and `Merge(b, a)` agree on version, creation, resolution, completed-or-not, txid sets and extra keys, and elsewhere differ only where both sides held different known values. |
| `CloseRecordGains.MergeBackConverges` | rust/src/close_records.rs:247-304 | The same when one side merges first and sends its result back; close type, initiator, expected amount and claimable height then agree without exception. |
| `CloseRecordGains.MergeDoesNotCommute` | rust/src/close_records.rs:281-290 | A concrete pair of records whose close type depends on the merge order. |
| `CloseRecordGains.MergeIdempotentIff` | rust/src/close_records.rs:250-261 | For every record, distinct txids or not: merging it with itself changes nothing if and only if no repeated txid knows more than its first entry. |
| `CloseRecordGains.DuplicateTxidsBreakIdempotence` | rust/src/close_records.rs:250-261 | A concrete record on the failing side of that condition. |
| `CloseRecordGains.StatusNeverRegresses` | rust/src/close_records.rs:311-334 | Gaining facts never leaves a terminal status, at any two heights; Complete stays Complete if and only if the completion carried its resolution or no unverified one has come in. |
| `CloseRecordGains.MergeRegressesIff` | rust/src/close_records.rs:311-334 | One merge turns Complete into something else if and only if a completion without resolution meets an unverified copy. |
| `CloseRecordGains.StatusMeaning` | rust/src/close_records.rs:311-334 | Each of the five labels by what it says: completed or not, verified or not, funds locked at this height or not, a sweep listed or not. |
| `CloseRecordGains.FirstSweepDecides` | rust/src/close_records.rs:311-334 | While funds are locked, the first listed sweep decides between returning (unconfirmed) and waiting (confirmed). |
| `CloseRecordGains.StatusAdvancesWithTip` | rust/src/close_records.rs:325-329 | A higher tip only ever ends a timelock wait; it changes no other status. |
| `CloseRecordGains.IncoherentCompletionRegresses` | rust/src/close_records.rs:311-334 | A concrete pair on the failing side of that condition. |
| `CloseRecordCodec.DeserializeCloseRecord` | rust/src/close_records.rs:429-521 | The looping decoder computes `Decode`: only a missing or non-textual channel id rejects, every other malformed field degrades. |
| `CloseRecordCodec.WireTexts` | rust/src/close_records.rs:362-414 | The text fields under their keys, with the spelling of every close type, initiator and resolution; absent ones are omitted. |
| `CloseRecordCodec.WireNumbers` | rust/src/close_records.rs:362-414 | Version, times, timelock and height as numbers, the amount as decimal text; `extras` is never written. |
| `CloseRecordCodec.WireOutpoint` | rust/src/close_records.rs:362-414 | The funding output as `txid` and `vout`, present exactly when known. |
| `CloseRecordCodec.WireTxs` | rust/src/close_records.rs:362-414 | The transactions as an array, one object each, in order. |
| `CloseRecordCodec.WireTx` | rust/src/close_records.rs:380-395 | One transaction: its keys, the spelling of every role, the fee as decimal text. |
| `CloseRecordCodec.RecordRoundTrip` | rust/src/close_records.rs:362-521 | Decoding an encoded canonical record gives it back, whatever the clock says. |
| `CloseRecordCodec.DecodedIsCanonical` | rust/src/close_records.rs:429-521 | Decoding always yields a canonical record: extras avoid the known keys, foreign roles spell no known role. |
| `CloseRecordCodec.DecodeEncodeDecode` | rust/src/close_records.rs:362-521 | For every JSON value, re-encoding and decoding again loses nothing, unknown fields and roles included. |
| `CloseRecordCodec.DecodesIff` | rust/src/close_records.rs:429-436 | An object is rejected if and only if it has no textual channel id. |
| `CloseRecordCodec.TextsAreRead` | rust/src/close_records.rs:429-521 | For every JSON value: each close type, initiator and resolution is read from exactly its own spelling, any other counts as unknown or absent. |
| `CloseRecordCodec.NumbersAreRead` | rust/src/close_records.rs:429-521 | A missing or malformed version reads as 1, a creation time as now, any other number as absent; heights are cut to 32 bits. |
| `CloseRecordCodec.AmountAndOutpointAreRead` | rust/src/close_records.rs:418-482 | An amount is read from a number or the text of one; a funding output needs both its parts. |
| `CloseRecordCodec.TxIsRead` | rust/src/close_records.rs:440-462 | A transaction entry is skipped exactly without a textual txid; without a role it is a closing one; an unknown role keeps its name. |
| `CloseRecordCodec.TxsAreRead` | rust/src/close_records.rs:440-462 | The entries with a txid are read in order, one transaction each. |
| `CloseRecordCodec.SkippedEntry` | rust/src/close_records.rs:440-448 | An entry without one leaves no trace wherever it stands. |
| `CloseRecordCodec.DecodeRecordsMap` | rust/src/close_records.rs:539-549 | The looping map decoder computes `DecodeMap`; a later member wins its channel id. |
| `CloseRecordCodec.LastHeldWins` | rust/src/close_records.rs:539-549 | Of several members that hold one channel, the last visited decides its record. |
| `CloseRecordCodec.DecodedMapWellFormed` | rust/src/close_records.rs:539-549 | Every decoded record is canonical and sits under its own channel id. |
| `CloseRecordCodec.MapRoundTrip` | rust/src/close_records.rs:525-549 | Reloading a persisted map equals the map in memory, in whatever order its members are visited. |
| `CloseRecordCodec.LoadFindsHeld` | rust/src/close_records.rs:539-549 | Which channels a load finds depends only on the stored object, not on the clock or the visiting order. |
| `Decimal.ParseOfDecimal` | rust/src/close_records.rs:418-424 | Every 64-bit amount written as decimal text parses back to itself. |
| `Decimal.DecimalNotation` | rust/src/close_records.rs:416-424 | The text of a number is ordinary decimal notation: digits in their places, no leading zero. |
| `Decimal.ParsesIff` | rust/src/close_records.rs:418-424 | Read are exactly the digit texts below 2^64, with an optional plus sign, as the number they spell. |
| `CloseRecordStore.Store.constructor` | rust/src/close_records.rs:722-748 | Loads both maps from the mirror; the channels in memory are exactly those on disk. |
| `CloseRecordStore.Store.Upsert` | rust/src/close_records.rs:788-802 | Existing facts are the base, new facts the incoming side; a call that no other overlaps leaves the whole map on disk. |
| `CloseRecordStore.Store.AbsorbRemote` | rust/src/close_records.rs:846-866 | Every remote record is folded in with the local one as base; the answer is the encoded merged map, also on disk when no other call overlaps. |
| `CloseRecordStore.FoldRemote` | rust/src/close_records.rs:846-866 | Folding channel by channel, in any order, equals the one-shot absorption of the whole map. |
| `CloseRecordStore.Store.RecordFundingTxo` | rust/src/close_records.rs:878-887 | The entry is in memory, and on disk when no other call overlaps; an identical one changes nothing. |
| `CloseRecordStore.Store.RemoveFundingTxo` | rust/src/close_records.rs:893-901 | The entry of any channel leaves memory and disk, and nothing else changes; the store stays valid when the channel has a record or a classification. |
| `CloseRecordStore.RunGains` | rust/src/close_records.rs:788-866 | Under any interleaving of upserts, remote absorptions and reconcile writes, a record only gains information. |
| `CloseRecordStore.RunStatusNeverRegresses` | rust/src/close_records.rs:311-334 | Over any run whatever, terminal status is never left; Complete stays Complete exactly under the condition above, so always for a completion written with its resolution. |
| `CloseRecordStore.EveryPointKeepsTheChannel` | rust/src/close_records.rs:878-901 | At every point of a disciplined run, a channel whose funding entry was ever stored still has it in memory, or has a record, or its close was classified as having no on-chain transaction. |
| `CloseRecordStore.NothingForgotten` | rust/src/close_records.rs:953-990 | The same for the final state of every run, by induction over its operations. |
| `CloseRecordStore.ReloadKeepsTheChannel` | rust/src/close_records.rs:722-748 | Reloading from the two blobs while no call is under way finds exactly the channels that had records, and forgets no funded channel. |
| `CloseRecordStore.RunKeepsDistinct` | rust/src/close_records.rs:788-866 | Over any run, whatever is merged later, records whose first version listed each transaction once keep txids distinct. |
| `CloseRecordStore.HeightsAreBrought` | rust/src/close_records.rs:788-866 | Over any run every height of a listed transaction was there at the start or came with an operation that gave it to that very transaction. |
| `CloseRecordStore.ReplicasConverge` | rust/src/close_records.rs:846-866 | Two replicas that absorb each other's encoded map hold the same channels and converge record by record, and each keeps every fact of both. |
| `CloseRecordStore.SequentialExchangeConverges` | rust/src/close_records.rs:828-866 | When one absorbs the other's map and the other then absorbs the merged map, as on a write conflict: the same convergence, no fact of either lost, and exact agreement on close type, initiator, expected amount and claimable height. |
| `CloseRecordDisk.RunKeepsInv` | rust/src/close_records.rs:788-824 | With merge, encoding and write as separate steps of any number of tasks: every map on disk or still to be written is an earlier state of memory, so any two are comparable. |
| `CloseRecordDisk.WriteKeepsDiskIff` | rust/src/close_records.rs:796-799 | A records write takes no channel off the disk if and only if it carries at least as many records as the disk holds. |
| `CloseRecordDisk.InOrderForgetsNothing` | rust/src/close_records.rs:788-914 | While no write overtakes a newer one and entries are dropped only for records on disk, no crash point of any run, over any number of crashes and reloads, has forgotten a channel. |
| `CloseRecordDisk.ForgettableIffUnsettled` | rust/src/close_records.rs:788-914 | The exact condition at every point of every run: some continuation forgets a funded channel if and only if its record is not on disk yet or bytes without it are still to be written. |
| `CloseRecordDisk.SettledIsNeverForgotten` | rust/src/close_records.rs:788-914 | Once the record is on disk and in every blob still to be written, no run of any tasks, crashes included, forgets the channel. |
| `CloseRecordDisk.OvertakenWriteForgetsTheChannel` | rust/src/close_records.rs:788-802 | A concrete run: a blob encoded before a close is written after the close dropped its entry, and the channel is gone from disk. |
| `CloseRecordDisk.EarlyDropForgetsTheChannel` | rust/src/close_records.rs:1158-1161 | A concrete run with every write in order: a pass drops an entry because memory has a record that is not written yet. |
| `CloseRecordDisk.SerialUpsertIsAtomic` | rust/src/close_records.rs:788-802 | A call no other overlaps is in order and has the effect the store gives it in one step. |
| `CloseRecordDisk.SerialAbsorbIsAtomic` | rust/src/close_records.rs:846-866 | The same for an absorbed remote map. |
| `CloseRecordDisk.SerialEntryIsAtomic` | rust/src/close_records.rs:878-887 | The same for a new funding entry. |
| `CloseRecordDisk.SerialDropIsAtomic` | rust/src/close_records.rs:893-901 | The same for the removal of one. |
| `CloseRecordDisk.CrashKeepsTheDisk` | rust/src/close_records.rs:722-748 | A crash leaves what the disk holds, in memory too, and no call under way. |
| `CloseRecordDisk.MarksMean` | rust/src/close_records.rs:788-914 | A channel counts as stored once its entry is written, and as off-chain only when its close was classified so. |
| `CloseSignals.OnChannelClosed` | rust/src/close_records.rs:953-990 | A close event has the effect of `AfterSignal`: facts from the event and the funding map are merged, then the entry is dropped; a close without on-chain transaction and without a record only drops the entry. |
| `CloseSignals.OnCommitmentBroadcast` | rust/src/close_records.rs:995-1011 | Attaches the commitment with its fee as one merge. |
| `CloseSignals.RecordSweepTx` | rust/src/close_records.rs:1017-1033 | Attaches the sweep to every contributing channel; the order in which the set is visited does not matter. |
| `CloseSignals.CloseIsRecorded` | rust/src/close_records.rs:953-990 | Field by field what a close leaves: the event has the last word on close type, initiator and amount, it and the dropped funding entry fill in what else was missing, and transactions, heights and completion stay; a new record knows exactly what the two knew. No other channel is touched. |
| `CloseSignals.BroadcastIsRecorded` | rust/src/close_records.rs:995-1033 | A commitment leaves txid, role and fee, a sweep txid and role, neither a height, on every channel it names; a transaction listed before keeps what it knew, every other one is unchanged, and no other channel is touched. |
| `CloseSignals.RunAtChannel` | rust/src/close_records.rs:953-1033 | Seen from one channel, a run of signals is the fold of the facts it contributed to that channel. |
| `CloseRedelivery.SuffixRedeliveryChangesNothing` | rust/src/close_records.rs:953-1033 | Redelivering any suffix of signals with later clocks leaves the store exactly as it was, provided no close without an on-chain transaction came before a record its channel got later. |
| `CloseRedelivery.RedeliveryHarmlessIff` | rust/src/close_records.rs:953-1033 | For every run and every suffix: redelivery leaves the store as it was if and only if each such late close has nothing to add, that is, the record has a reason, was not created after the redelivery, knows a funding output if the close does, and says what the suffix says last of close type, initiator and amount. |
| `CloseRedelivery.RecordSaysLast` | rust/src/close_records.rs:281-301 | A record ends with the last word of the run on close type, initiator and expected amount. |
| `CloseRedelivery.LateCloseTells` | rust/src/close_records.rs:974-988 | A close that finds a record leaves a reason, a funding output if it knows one, and a creation time no later than its own, for good. |
| `CloseRedelivery.UnfundedCloseIsNotReplayable` | rust/src/close_records.rs:972-977 | A concrete run on the failing side of that guard. |
| `CloseVerdict.VerifiedIffEvidence` | rust/src/close_records.rs:1311-1367 | A pass resolves a record as verified if and only if the tip is new, no sweep is pending and a six-deep transaction is in the wallet, or nothing was expected, the first listed close is six deep and no timelock is running. |
| `CloseVerdict.UnverifiedIffEvidence` | rust/src/close_records.rs:1311-1389 | Unverified if and only if no such proof exists and the first listed close, six deep, is cooperative, six blocks past its claimable height, or 2016+6 blocks old. |
| `CloseVerdict.ExactIffTipFits` | rust/src/close_records.rs:1368-1377 | The 32-bit sums judge every record as unbounded arithmetic would if and only if the tip is at most 2^32 - 2018. |
| `CloseVerdict.WrappedSumCompletesEarly` | rust/src/close_records.rs:1375-1377 | Above that tip, the record whose expiry wraps and is completed too early. |
| `CloseVerdict.NoHeightNoVerdict` | rust/src/close_records.rs:1327-1359 | Without a receipt, a record whose first listed close has no height is not completed at any tip. |
| `CloseVerdict.OldCloseCompletes` | rust/src/close_records.rs:1361-1389 | A settled new-tip pass completes a record whose first listed close is 2016+6 blocks old and unlocked. |
| `CloseVerdict.BoundedIffFirstCloseHasHeight` | rust/src/close_records.rs:1327-1389 | There is a tip from which every settled new-tip pass completes the record, whatever the wallet holds, if and only if the first listed close has a height. |
| `CloseVerdict.StuckWhileUnconfirmed` | rust/src/close_records.rs:1327-1389 | A record behind an unconfirmed first close stays open over every run in which that transaction gets no height and no receipt arrives. |
| `CloseVerdict.CompletedByAPass` | rust/src/close_records.rs:1311-1389 | A channel that started open and absorbed no remote completion is completed only by a completing write, with that write's resolution. |
| `CloseVerdict.CompletionTimeIsWritten` | rust/src/close_records.rs:1311-1389 | The time of a completion is the one of the write that completed the channel. |
| `CloseVerdict.CompletionEvidenceStays` | rust/src/close_records.rs:1311-1389 | Each completing write belongs to a new-tip pass with the channel absent from its pending sweeps, and rests on the evidence in the record that the store held at a named earlier point, with a transaction of height h and h+5 at most the tip; that transaction, role and height stay in every later state. |
| `CloseVerdict.EveryCompletionIsEvidenced` | rust/src/close_records.rs:1311-1389 | Every completed record of every justified run was completed on evidence in the record the store held at a named earlier point, and still holds it. |
| `CloseReconcile.DiscoverClose` | rust/src/close_records.rs:1247-1267 | Asks for the funding spend exactly until a close has confirmed; the transaction it reports is the answered spender, in the role its close type says, with the answered height, and the questions asked equal the budget spent. |
| `CloseReconcile.ConfirmKnown` | rust/src/close_records.rs:1270-1284 | Fills in heights only for listed transactions without one, each as answered; every one of them that the budget reaches, one question each, is asked about and its answer taken over. |
| `CloseReconcile.GatherTxs` | rust/src/close_records.rs:1247-1284 | What the two steps add together, within one budget; an error in either adds nothing. |
| `CloseReconcile.DeriveExpiry` | rust/src/close_records.rs:1286-1305 | An expiry is derived if and only if none is known, the close is neither cooperative nor remote-initiated, a timelock is recorded and a close transaction has confirmed; it is that height plus the timelock. |
| `CloseReconcile.LearnFacts` | rust/src/close_records.rs:1238-1309 | Steps (a) to (b2): what the chain answered and the expiry that follows are written, grounded in answered questions, and complete nothing; an error writes nothing. |
| `CloseReconcile.FactsAreWritten` | rust/src/close_records.rs:1307-1309 | By the time the verdict is read the store knows every gathered transaction and height and the derived expiry; gathering nothing writes nothing. |
| `CloseReconcile.AnswersReachTheRecord` | rust/src/close_records.rs:1247-1309 | From then on, for every record not skipped: the answered spender of its funding output is listed, with the answered height, and so is the answered height of each unconfirmed transaction the budget reached. |
| `CloseReconcile.ExpiryReachesTheRecord` | rust/src/close_records.rs:1286-1309 | With a timelock to wait for, the first confirmed close among gathered and listed transactions gives the record its expiry, never to be forgotten. |
| `CloseReconcile.DecideCompletion` | rust/src/close_records.rs:1311-1389 | Completes the record exactly when the verdict on what the store holds says so, though other tasks may write between the read and the write. |
| `CloseReconcile.CompletesOnlyOnNewTip` | rust/src/close_records.rs:1311-1321 | A pass completes a record only on a new tip and only with none of its channel's sweeps pending, and labels the write with its own tip, wallet and sweeps. |
| `CloseReconcile.ReconcileOneRecord` | rust/src/close_records.rs:1228-1389 | One record, any answers, errors, exhausted budget and interleaved writes: it is skipped only when a question about it failed, and then only others wrote; otherwise exactly the answers were written, and exactly the completion the verdict on the store asks for. |
| `ClosePass.Snapshot` | rust/src/close_records.rs:776-781 | Exactly the stored records, each once, newest first. |
| `ClosePass.OpenRecords` | rust/src/close_records.rs:1112-1116 | Exactly the records not completed yet, each once, newest first, as the store holds them. |
| `ClosePass.SomethingToDoIff` | rust/src/close_records.rs:1118-1120 | A tick costs nothing exactly without a funding entry and without an uncompleted record. |
| `ClosePass.UndiscoveredIff` | rust/src/close_records.rs:1142-1144 | A record is looked at on every tick while its funding output is known and no listed close transaction has a height. |
| `ClosePass.CatchOne` | rust/src/close_records.rs:1154-1171 | A vanished channel has a record, with the outpoint and timelock of its entry, before the entry goes; existing records are untouched. |
| `ClosePass.OfflineRecordTells` | rust/src/close_records.rs:1160-1170 | The record of a vanished channel, field by field. |
| `ClosePass.CatchVanished` | rust/src/close_records.rs:1151-1173 | After it, every funding entry of a channel that is not open is gone and the channel has a record; it writes nothing else. |
| `ClosePass.ReconcileAll` | rust/src/close_records.rs:1183-1208 | The outcomes account, record by record, for every operation, every failed question and every question of the budget; unless the budget ran out, every record was processed. |
| `ClosePass.SkippedOnlyOnFailure` | rust/src/close_records.rs:1183-1208 | Without a failed question no record is skipped. |
| `ClosePass.ReconcileCloseRecords` | rust/src/close_records.rs:1103-1209 | A whole pass: it goes on exactly when the tip the chain told is new or an open record is undiscovered; takes up exactly the open records, newest first, on a budget of eight questions that each record uses as its own state demands; every write carries this pass's tip, wallet and sweeps and is an event's, the safety net's, an answered fact or a verdict; completions only on a new tip; a new-tip pass leaves no vanished channel without a record. |
| `ClosePass.PassCompletesOnEvidence` | rust/src/close_records.rs:1311-1389 | Whenever a pass reached a verdict on a record, the record ends the pass completed and no weaker resolved. |
| `ClosePass.PassWritesAnswers` | rust/src/close_records.rs:1183-1309 | Whatever the chain answered about a record that was not skipped is in that record at the end of the pass. |
| `CloseRun.OneMoreItem` | rust/src/close_records.rs:1103-1389 | Appending a pass or events keeps every closing write tied to the pass that made it and to what the store held since that pass began. |
| `CloseRun.PerformTick` | rust/src/close_records.rs:1103-1209 | One tick on the run's own state: it sees the tip its first turn told if there is anything to do, runs a pass exactly when that tip is not the last one seen or an open record is undiscovered, over that tip and its own wallet and sweeps, and the pass is done as above, on eight questions and on answers told in its own turns. |
| `CloseRun.RunWallet` | rust/src/close_records.rs:1103-1389 | Any sequence of events and reconcile ticks from a loaded store: every tick did what the row above says, given the tips seen before it; every completed record that started open was completed by a write of such a pass, on the evidence in the record the store held since that pass began, still holds that evidence, and carries the clock of a pass that ran. |
| `CloseRun.RunEvidence` | rust/src/close_records.rs:1311-1389 | The evidence behind one completed record of such a run: the pass, the write, and the state of the store it was read from. |
| `CloseRun.RunHeights` | rust/src/close_records.rs:953-1389 | Over any run of events and ticks: every height in a record was loaded, came with a remote copy that gave it to that transaction, or was answered to a pass that asked about it. No event brings one. |
| `CloseRun.RunExpiries` | rust/src/close_records.rs:1286-1309 | Every claimable height was loaded, came with a remote copy, or was derived by a pass from a confirmed close and the recorded timelock. |
| `CloseRun.RunDates` | rust/src/close_records.rs:1311-1389 | Every completion of a record that started open carries the clock of a pass that ran. |
| `CloseRun.ItemKeepsAllDistinct` | rust/src/close_records.rs:1103-1389 | A pass or any events keep txids distinct in every record, when absorbed maps have them distinct. |
| `ClosePass.SupersededCommitmentIsStuck` | rust/src/close_records.rs:1327-1389 | A run of operations, its last a grounded write of a pass, that ends in a record no pass completes by age: our unconfirmed commitment is listed before the confirmed one that superseded it. |
| `ShellLifecycle.StepKeepsInv` | iosApp/iosApp/WalletModel.swift:328-433 | Every step of the shell and the core behind it keeps the lifecycle and event-loop invariant. |
| `ShellLifecycle.RunKeepsInv` | iosApp/iosApp/WalletModel.swift:328-433 | So does every interleaving of requests, failures, background flips, purges and event-loop steps. |
| `ShellLifecycle.LifecycleTheorem` | iosApp/iosApp/WalletModel.swift:328-433 | At most one lifecycle call is in flight; once the chain drains the node runs exactly when `startRequested` holds; without a failed start or a background re-check that is the last request. |
| `ShellLifecycle.DrainedFollowsLastDecision` | iosApp/iosApp/WalletModel.swift:328-433 | Exactly, in every interleaving: once the chain drains the node runs if and only if the last decision of the run was to start; a failed start and one that came back in the background decide to stop. |
| `ShellLifecycle.EventLoopTheorem` | iosApp/iosApp/WalletModel.swift:547-576 | At most one run is consuming the queue; a running node whose start job has resumed has a scheduled run that has not exited, under any starts, stops and purges. |
| `ShellLifecycle.RunsEndOnTheTerminalEvent` | iosApp/iosApp/WalletModel.swift:547-576 | In every interleaving: a run has exited if and only if it acknowledged a `NodeStopped` the queue had delivered to it; the exited runs are the oldest ones, as many as there were such acknowledgements. |
| `ShellLifecycle.AckHandsOver` | iosApp/iosApp/WalletModel.swift:568-576 | That acknowledgement lets the next waiting run begin; any other takes the same run back to the queue. |
| `ShellLifecycle.LoopProgress` | iosApp/iosApp/WalletModel.swift:547-576 | While an event is queued and a run has not exited, the oldest such run has a step, and is delivered the front event. |
| `ShellLifecycle.QueueConserves` | iosApp/iosApp/WalletModel.swift:547-576 | In every interleaving no event but a terminal one is lost, doubled or reordered between what was put in, what acknowledgements popped and what is queued. |
| `ShellLifecycle.ChainProgress` | iosApp/iosApp/WalletModel.swift:334-368 | An undrained chain can always move, and every job step brings it closer to drained. |
| `ShellLifecycle.JobStepShrinksWork` | iosApp/iosApp/WalletModel.swift:372-433 | Each job step shrinks the remaining work, so the chain drains in bounded many steps once requests cease. |
| `ShellModel.Model.StartNode` | iosApp/iosApp/WalletModel.swift:328-340 | One request step: ignored while a start is wanted, else the flag is set and a start is chained. |
| `ShellModel.Model.StopNode` | iosApp/iosApp/WalletModel.swift:353-368 | One request step: ignored unless a start is wanted, else the flag is cleared and a stop is chained. |
| `ShellModel.Model.ResumeStartJob` | iosApp/iosApp/WalletModel.swift:372-421 | The stretch after the blocking start is one step of the machine: failure clears the flag, success schedules a run and re-checks the flag and the background. |
| `ShellModel.Model.FinishEvent` | iosApp/iosApp/WalletModel.swift:568-574 | The stretch after `nextEvent`: acks whatever is at the front and leaves on the terminal event. |
| `EventQueue.RunConserves` | rust/src/events.rs:123-223 | In every run of pushes, acks, purges and crashes, pushed minus purged equals acknowledged followed by queued, only terminal events are purged, and disk equals memory. |
| `EventQueue.EveryPushIsRecorded` | rust/src/events.rs:152-159 | The pushes accounted for are what the disk held at the start and then every event pushed, in that order. |
| `EventQueue.CrashLosesNothing` | rust/src/events.rs:123-147 | A crash at any point reloads exactly the queue that was in memory. |
| `EventQueue.RunKeepsDeliveries` | rust/src/events.rs:162-203 | Deliveries are the acknowledged order with repeats: the ack removes the very push that was delivered if and only if it was not a terminal event or no purge removed anything in between. |
| `EventQueue.PurgeBetweenDeliveryAndAck` | rust/src/api.rs:1102-1116 | A concrete run on the failing side: the ack of a purged terminal event removes an event never delivered. |
| `EventQueue.Retained` | rust/src/events.rs:185-192 | The retain loop keeps exactly the non-terminal events, in order. |
| `EventQueue.Queue.Push` | rust/src/events.rs:152-159 | Appends the event, whatever it is, to memory and disk; the conservation and delivery invariants are kept. |
| `EventQueue.Queue.AckFront` | rust/src/events.rs:195-202 | Pops whatever is at the front, in memory and on disk; the invariants are kept. |
| `EventQueue.Queue.RetainNotStopped` | rust/src/events.rs:185-192 | Purges the terminal events and persists only when something was removed; the invariants are kept. |
| `EventQueue.Wallet.Start` | rust/src/api.rs:1102-1116 | Only a start that took the node up purges stale terminal events, and then announces itself; every other start leaves the queue alone. |
| `EventQueue.Wallet.Stop` | rust/src/api.rs:1120-1130 | Every stop that took the node down pushes the terminal event, even when its final write failed. |
| `EventQueue.Wallet.EventHandled` | rust/src/api.rs:1344-1349 | Acks the front event; an error exactly on an empty queue. |
| `EventWakeup.RunKeepsWakeup` | rust/src/events.rs:152-177 | The wake-up invariant survives every interleaving of split pushes, a split `next`, acks and purges. |
| `EventWakeup.NoLostWakeup` | rust/src/events.rs:152-177 | A consumer blocked without a permit faces an empty queue or a pusher that has not notified yet. |
| `EventWakeup.NextReturnsOnAnEvent` | rust/src/events.rs:162-177 | `next` returns exactly when it sees an event, and blocks exactly when it saw none and no permit is stored. |
| `EventWakeup.ConsumerGetsThere` | rust/src/events.rs:152-177 | While an event is queued, the consumer or a pusher has a step that takes the consumer towards it. |
| `EventWakeup.QueueChangesOnlyBy` | rust/src/events.rs:152-202 | Pushes append, acks pop the front, purges drop terminal events, and nothing else touches the queue. |
| `PaymentStore.RunKeepsSound` | rust/src/history.rs:213-326 | Memory equals disk in every state of every run with failing writes, replays and crash-reloads. |
| `PaymentStore.CrashReloads` | rust/src/history.rs:159-201 | A crash leaves what the disk holds, in memory too. |
| `PaymentStore.RunTakesAllowedEdges` | rust/src/history.rs:242-326 | The only status edges are none to Pending or Succeeded, Pending to Succeeded or Failed, and Failed to Pending. |
| `PaymentStore.SucceededIsFrozen` | rust/src/history.rs:242-326 | A succeeded row never changes again in any run. |
| `PaymentStore.StepKeepsTerms` | rust/src/history.rs:242-326 | A row changes hash, direction, amount or time only when a failed payment is dispatched again, and then to the terms of that dispatch. |
| `PaymentStore.RunKeepsTerms` | rust/src/history.rs:242-326 | Over any run, a row that is not dispatched again keeps its terms. |
| `PaymentStore.SettleChangesIff` | rust/src/history.rs:273-299 | Settling changes the store if and only if the row is pending and its write succeeds. |
| `PaymentStore.PendingIffUnanswered` | rust/src/history.rs:242-299 | A row that was not pending is pending after a run if and only if the run dispatched it and left it unanswered. |
| `PaymentStore.StepLeaves` | rust/src/history.rs:242-326 | What each step leaves of a row: a dispatch that finds none or a failed one starts it afresh, a settlement of a pending one sets its outcome and fills in fee and reason, a claim of an unknown one is paid at once, everything else leaves it alone. |
| `PaymentStore.StatusIsLastMove` | rust/src/history.rs:213-326 | After any run, failing writes and crashes included, the status is that of the last step that took effect. |
| `PaymentStore.SucceededIff` | rust/src/history.rs:242-326 | A payment is Succeeded after a run if and only if it was before or a step that took effect claimed it or settled it with Succeeded. |
| `PaymentStore.FailedIff` | rust/src/history.rs:242-326 | A payment is Failed after a run if and only if it was before or a step that took effect settled it with Failed, and no dispatch took effect since. |
| `PaymentStore.SettlementStands` | rust/src/history.rs:273-299 | Outcome, fee and reason of a settlement that took effect stand to the end of every run without another dispatch; a paid one stands in every run. |
| `PaymentStore.ReplayedSettleHitsIff` | rust/src/history.rs:273-299 | A settlement replayed after any run, crashes and failing writes included, changes the store if and only if that run dispatched the payment again and left it unanswered. |
| `PaymentStore.ReplayWithoutDispatchIsNoOp` | rust/src/history.rs:273-299 | After any run without another dispatch the replay is a no-op. |
| `PaymentStore.ReplayedRecordHitsIff` | rust/src/history.rs:242-326 | A claim replayed after any run changes nothing; a dispatch replayed after any run changes the store if and only if the payment has failed by then. |
| `PaymentStore.StaleFailureHitsTheNewAttempt` | rust/src/history.rs:273-299 | The failing family of that condition: a failure, a re-dispatch, the failure again. |
| `PaymentStore.Store.RecordPending` | rust/src/history.rs:242-266 | Writes the disk first; an error exactly when a needed write failed, and then nothing changed. |
| `PaymentStore.Store.Settle` | rust/src/history.rs:273-299 | The same for settling a pending row; missing and settled rows are left alone. |
| `PaymentStore.Store.RecordClaimed` | rust/src/history.rs:304-326 | The same for an inbound claim; an existing row stands. |
| `PaymentStore.Store.ReconcilePending` | rust/src/history.rs:332-357 | On success exactly the counted stale orphaned rows became interrupted and none is left; on a failed write some of them did, memory still equals disk. |
| `PaymentStore.StaleIff` | rust/src/history.rs:337-346 | A row is interrupted exactly when it is pending, nothing is in flight for it and it is more than 60 s old. |
| `ActivityFeed.SortNewestFirst` | rust/src/history.rs:586-590 | The sort is descending, a permutation, and keeps the push order within each timestamp. |
| `ActivityFeed.StableSortIsUnique` | rust/src/history.rs:586-590 | There is only one such arrangement, so the sort is fully determined. |
| `ActivityFeed.MergeActivity` | rust/src/history.rs:487-590 | The feed is the stable descending arrangement of on-chain rows, Lightning rows and close rows. |
| `ActivityFeed.FeedIsExact` | rust/src/history.rs:487-590 | A row is shown if and only if it is that of an unabsorbed transaction, an unfailed payment or a close. |
| `ActivityFeed.EveryRowTells` | rust/src/history.rs:487-560 | Every row tells of one unabsorbed transaction, unfailed payment or close: its id, kind, direction, amount, status, time and references, field by field. |
| `ActivityFeed.EverythingIsShown` | rust/src/history.rs:487-560 | Every one of them has such a row. |
| `ActivityFeed.TiesGoByKind` | rust/src/history.rs:586-590 | Of rows with one timestamp, on-chain rows come first, then Lightning rows, then closes. |
| `ActivityFeed.CloseTxsAreAbsorbed` | rust/src/close_records.rs:927-944 | No txid attached to any close record appears as an on-chain row. |
| `ActivityFeed.AbsorbedIffListed` | rust/src/close_records.rs:927-944 | A transaction is absorbed if and only if some close record lists it. |
| `ActivityFeed.RecordsAreShown` | rust/src/close_records.rs:927-944 | Every close record has its row, with its creation time, expected amount and status at this tip. |
| `ActivityFeed.FeedBalances` | rust/src/history.rs:501-560 | The signed on-chain amounts of the feed sum to received minus sent over the unabsorbed transactions, the signed Lightning amounts to inbound minus outbound over the unfailed payments. |
| `ActivityFeed.SumOfPermutation` | rust/src/history.rs:586-590 | Sorting changes no total. |
| `ActivityFeed.ConfirmedCloseStaysConfirmed` | rust/src/close_records.rs:927-944 | A close row is confirmed exactly when its record is completed; over any run it stays confirmed under the same id and its sort key never rises. |
| `ActivityFeed.ConfirmedPaymentRowIsFrozen` | rust/src/history.rs:536-560 | A confirmed Lightning row is the very same row in every later feed. |
| `ActivityFeed.AbsorbedStaysAbsorbed` | rust/src/close_records.rs:927-944 | A transaction a close absorbs once is absorbed in every later feed. |
| `PendingCodec.LittleEndianRoundTrip` | rust/src/chain.rs:85-97 | A number that fits in k bytes reads back from its little-endian form, for every k. |
| `PendingCodec.LittleEndianByte` | rust/src/chain.rs:85-97 | Byte i is the i-th lowest byte of the number. |
| `PendingCodec.PendingRoundTrip` | rust/src/chain.rs:85-97 | Every stored pending broadcast reads back with its time and its transaction. |
| `PendingCodec.PendingForm` | rust/src/chain.rs:85-97 | The stored form is eight bytes of time, lowest first, and then nothing but the transaction. |
| `PendingCodec.DecodeFailsIff` | rust/src/chain.rs:85-97 | Reading fails exactly on an entry without a whole time stamp or with an unreadable transaction behind it. |
| `FundingFlow.StepKeepsInv` | rust/src/channels.rs:543-629 | Every write, send, drain step and crash keeps the durability and safety invariant. |
| `FundingFlow.FundingNeverLost` | rust/src/channels.rs:543-629 | At every crash point of every run, from the LDK notification until the network knows the transaction, it is discarded, its latest entry has lapsed, a drain removes that entry on a decision about an earlier one or its temporary id is reused under it, it is on disk in one of the two stores, even with a full send queue; nothing is handed to the network unless it is broadcast-safe or somebody else asked for it. |
| `FundingFlow.MarksMean` | rust/src/channels.rs:543-629 | What the bookkeeping of that theorem means: each mark is set by exactly the step it names, and a fresh pending entry lifts the marks of a loss. |
| `FundingFlow.FreshFor48Hours` | rust/src/chain.rs:164-189 | A pending entry counts as fresh for exactly 172,800 seconds. |
| `FundingFlow.QueueIsBounded` | rust/src/chain.rs:260-272 | Over every run the send queue never holds more than fifty. |
| `FundingFlow.OfferedUnlessFull` | rust/src/chain.rs:260-272 | An offered transaction is queued exactly while fewer than fifty wait. |
| `FundingFlow.UndoneMeansStale` | rust/src/chain.rs:145-194 | Only a drain that decided on an earlier entry can take a freshly written one off the disk. |
| `FundingFlow.RepersistCanBeUndoneIff` | rust/src/chain.rs:145-194 | An entry written again can be removed, though no drain ever finds it past its time, if and only if a drain had already decided to remove the earlier one. |
| `FundingFlow.StaleExpiryLosesTheTransaction` | rust/src/chain.rs:164-189 | A concrete run from an empty wallet: the drain decides, the replayed event writes the entry again and drops the funding entry, the drain removes the new entry, and the transaction is in neither store. |
| `FundingFlow.NotifiedOnlyWhenStored` | rust/src/channels.rs:578-585 | LDK is notified only of a transaction the funding store already holds. |
| `FundingFlow.OverwriteLosesIff` | rust/src/channels.rs:430-441 | Storing under a temporary id takes an unsettled transaction off the disk if and only if the id holds one that is nowhere else. |
| `FundingFlow.OverwrittenMeansLost` | rust/src/channels.rs:430-441 | Only such a loss counts a transaction as overwritten. |
| `FundingFlow.ReusedTempIdLosesTheTransaction` | rust/src/channels.rs:430-441 | A concrete run from an empty wallet in which a reused temporary id loses a transaction LDK relies on. |
| `FundingHandlers.Stores.HandleFundingGenerationReady` | rust/src/channels.rs:543-585 | Persist before notify; a failed build or persist stores and notifies nothing. |
| `FundingHandlers.Stores.HandleFundingTxBroadcastSafe` | rust/src/channels.rs:599-615 | Pending store, send queue, and only then out of the funding store; a missing entry changes nothing. |
| `FundingHandlers.Stores.BroadcastTransactions` | rust/src/chain.rs:260-272 | A transaction LDK wants broadcast is on disk before it is offered to the queue. |
| `FundingHandlers.Stores.RecordChannelIdMap` | rust/src/channels.rs:468-480 | Only the id mapping changes. |
| `FundingHandlers.Stores.HandleDiscardFunding` | rust/src/channels.rs:620-629 | Removes the transaction and the mapping of a mapped channel, and nothing otherwise. |
| `FundingHandlers.Stores.BroadcastTransaction` | rust/src/chain.rs:755-779 | The pending entry goes exactly when the network accepted or already knew the transaction. |
| `FundingHandlers.Stores.ProcessQueued` | rust/src/chain.rs:805-809 | Takes the oldest queued transaction and attempts it. |
| `FundingHandlers.Stores.LoadFresh` | rust/src/chain.rs:145-194 | Returns exactly the entries within 48 hours, each once, and removes exactly the others. |
| `FundingHandlers.Stores.DrainPendingBroadcasts` | rust/src/chain.rs:815-828 | Afterwards the disk holds exactly the entries within 48 hours that the network did not take. |
| `Fees.ClampAndFloor` | rust/src/fees.rs:108-113 | The answer lies between the larger floor and the ceiling, for every rate including NaN and infinities. |
| `Fees.ClampIsNearest` | rust/src/fees.rs:108-113 | Between the bounds it is the integer nearest to 250 times the rate, ties up; it sits at a bound exactly when the rate is beyond it. |
| `Fees.ClampIsMonotone` | rust/src/fees.rs:108-113 | A higher rate never gives a lower answer. |
| `Fees.ScanDownFinds` | rust/src/fees.rs:145-151 | The simple lookup is the rate, at least 1, of the largest block count not above the target. |
| `Fees.ScanDownDefaults` | rust/src/fees.rs:145-151 | It is 1 when no block count is low enough. |
| `Fees.PartitionPoint` | rust/src/fees.rs:145 | The binary search splits a sorted list exactly at the bound. |
| `Fees.SortedEntries` | rust/src/fees.rs:140-141 | Whatever order the map is visited in, the list is ascending and holds exactly its entries. |
| `Fees.RateAtSplit` | rust/src/fees.rs:145-151 | The sort-and-partition lookup equals the simple lookup. |
| `Fees.CacheFromEsploraEstimates` | rust/src/fees.rs:136-155 | Each of the eight slots equals the simple lookup clamped for its row, answers its target as below, and lies within its floor and the ceiling. |
| `Fees.EveryTargetIsAnswered` | rust/src/fees.rs:54-155 | Target by target, with its own block count and floor: the rate of the largest block count not above it, at least 1 sat/vB, and 1 sat/vB without one. |
| `Fees.RefreshedIsMonotone` | rust/src/fees.rs:136-155 | Raising rates block count by block count never lowers an answer. |
| `Fees.FallbackSatPerKw` | rust/src/fees.rs:128-131 | The static answer before the first refresh lies within the same bounds. |
| `Fees.OfflineAnswers` | rust/src/fees.rs:54-80 | What an offline start answers, target by target. |
| `Fees.AttemptsAreSpaced` | rust/src/fees.rs:232-252 | Over any run of refreshes, n further attempts take at least n times 15 s, whatever fails. |
| `Fees.NextAttemptWaits` | rust/src/fees.rs:232-252 | After a success the next attempt waits more than 60 s, after a failure at least 15 s. |
| `Fees.DueIff` | rust/src/fees.rs:243-252 | A refresh is due if and only if the last success is more than 60 s and the last failure at least 15 s ago. |
| `Fees.CachedFeeEstimator.SetCache` | rust/src/fees.rs:214-224 | Every slot is filled, the fetch time is set and the failure cleared; slots within bounds keep the estimator valid. |
| `Fees.CachedFeeEstimator.NeedsRefresh` | rust/src/fees.rs:243-252 | Due exactly when the cache is older than 60 s and the last failure at least 15 s ago. |
| `Fees.CachedFeeEstimator.RefreshOnce` | rust/src/chain.rs:577-606 | A round of the background task answers every target from the fetched estimates as above, or leaves all answers alone; an empty mainnet answer counts as a failure. |
| `Fees.CachedFeeEstimator.Answer` | rust/src/fees.rs:255-261 | In every reachable state the answer to each target lies within its floor and 500000. |
| `FeeSanity.FeeSanityMax` | rust/src/chain.rs:357-361 | The ceiling is five times the urgent answer and lies in [12500, 2500000] in every reachable state. |
| `FeeSanity.SaneIffPaysAtMost` | rust/src/chain.rs:368-384 | For all 64-bit inputs: the saturating check is wrong if and only if the weight is not zero and `(max+1)*weight` exceeds 64 bits while `fee*1000` reaches it. |
| `FeeSanity.CheckIsExactInPractice` | rust/src/chain.rs:368-384 | For weights up to 4,000,000 and reachable ceilings, accepted exactly when the weight is 0 or `fee*1000 < (max+1)*weight`. |
| `FeeSanity.SaturationHidesOverpayment` | rust/src/chain.rs:376 | A concrete impossible weight at which saturation accepts an overpayment. |
| `FeeSanity.CheckBumpTargetSanity` | rust/src/bump.rs:82-89 | The bump gate accepts exactly the targets up to the ceiling, so the current urgent rate always passes. |
| `FeeSanity.GateBuiltTransaction` | rust/src/chain.rs:363-384 | A built transaction against the current ceiling is judged by the exact comparison. |

## Left out

- Network calls (Esplora, RGS, LSPS2, VSS): the chain is an arbitrary script of answers, missing answers and errors; remote maps are arbitrary JSON values.
- LDK, bdk and secp256k1 internals, PSBT signing, key derivation and invoice building: opaque libraries.
- `classify_closure_reason`: a table from LDK's reasons to four fields; signals carry an arbitrary classification.
- Restore (`WalletModel.swift` 659-778, the `reset` methods): a stop queued before the restore job runs after the restore's own restart, so the drained-state agreement is not stated for it.
- Views, error texts, configuration, the store-directory lock, Swift presentation: thin or constant.
- The on-chain send rate (`fees.rs` 38-45, 191-206), `check_open_amount`, `open_fee_estimate`: single expressions that would only add easy members.
- Failing local writes outside the payment store and the first funding write: the source only logs them, so the durability results assume they succeed.
- Wallet receipts are one fixed set per pass, where the source asks the wallet transaction by transaction.
- Corrupt stored blobs (queue, pending broadcast, funding map): they degrade to empty or are dropped; a stored close-records blob may be any JSON value.
- Task cancellation in the shell: no code cancels the lifecycle or event-loop tasks, so `nextEvent` never throws in the model.
- Transactions in the funding flow are identified by txid; their bytes matter only to `PendingCodec`, where the consensus serializer is assumed invertible.
- Rounding of 64-bit floating point in fee rates: rates are reals, NaN and the infinities.
- Fairness: no statement that a scheduled job or run is eventually taken, only that one always can be and that job steps run out.
- FundingHandlers.Stores.BroadcastTransactions: takes a package of one transaction, because a queued package of several is only a list sent in order.
- CloseRecordStore.Store.Upsert: one step with its write, because what overlapping calls do to the disk is the subject of `CloseRecordDisk`; so are `AbsorbRemote`, `RecordFundingTxo` and `RemoveFundingTxo`.
- CloseRecordStore.ReloadKeepsTheChannel: says nothing of a crash inside a call, because `CloseRecordDisk` does.
- CloseVerdict.EveryCompletionIsEvidenced: needs tips up to 2^32 - 2018 and no completed remote copies, because above that tip the sums wrap and a remote completion carries no evidence.
- CloseVerdict.BoundedIffFirstCloseHasHeight: assumes heights at least 2022 blocks below 2^32 - 2018, because above it the age can no longer be reached.
- Interference inside the safety net's loop over vanished channels: other tasks run only where a pass waits for the chain or between its last read and its completing write.
