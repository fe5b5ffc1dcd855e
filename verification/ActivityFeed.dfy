/**
 The unified activity feed: on-chain transactions, Lightning payments and channel closes merged into
 one list, newest first, with the transactions that belong to a close absorbed into its row.
 */
module ActivityFeed {
  import opened Prelude
  import opened CloseRecords
  import opened CloseRecordGains
  import opened CloseRecordStore
  import P = PaymentStore

  datatype OnchainTx = OnchainTx(
    txid: string,
    sentSats: U64,
    receivedSats: U64,
    confirmed: bool,
    confirmationTimeSecs: Option<U64>,
    firstSeenSecs: Option<U64>)

  datatype CloseSummary = CloseSummary(
    channelId: string,
    createdAtMs: U64,
    expectedAmountSats: Option<U64>,
    status: Status,
    absorbedTxids: seq<string>)

  datatype ActivityKind = Lightning | Onchain | ChannelClose
  datatype ActivityDirection = Sent | Received
  datatype ActivityStatus = InProgress | Confirmed

  datatype ActivityRow = ActivityRow(
    id: string,
    kind: ActivityKind,
    direction: ActivityDirection,
    amountMsat: Option<U64>,
    amountSats: Option<U64>,
    status: ActivityStatus,
    createdAtMs: U64,
    paymentHash: Option<string>,
    txid: Option<string>,
    channelId: Option<string>,
    closeStatus: Option<Status>)

  // ----- Rows ---------------------------------------------------------------------------

  /** One summary per record: its derived status and every attached txid. */
  function Summary(record: CloseRecord, tip: Option<U32>): CloseSummary {
    CloseSummary(record.channelId, record.createdAtMs, record.expectedAmountSats, DeriveStatus(record, tip),
                 seq(|record.txs|, i requires 0 <= i < |record.txs| => record.txs[i].txid))
  }

  function Summaries(records: seq<CloseRecord>, tip: Option<U32>): seq<CloseSummary> {
    seq(|records|, i requires 0 <= i < |records| => Summary(records[i], tip))
  }

  predicate Absorbed(closes: seq<CloseSummary>, txid: string) {
    exists i :: 0 <= i < |closes| && txid in closes[i].absorbedTxids
  }

  function OnchainRow(tx: OnchainTx): ActivityRow {
    var secs := tx.confirmationTimeSecs.Or(tx.firstSeenSecs);
    ActivityRow(
      tx.txid, Onchain,
      if tx.sentSats > tx.receivedSats then Sent else Received,
      None,
      Some(if tx.sentSats > tx.receivedSats then tx.sentSats - tx.receivedSats else tx.receivedSats - tx.sentSats),
      if tx.confirmed then Confirmed else InProgress,
      if secs.Some? then secs.value * 1_000 % U64_SIZE else 0,
      None, Some(tx.txid), None, None)
  }

  function LightningRow(payment: P.Row): ActivityRow {
    ActivityRow(
      payment.paymentHash, Lightning,
      if payment.direction == P.Outbound then Sent else Received,
      Some(payment.amountMsat), None,
      if payment.status == P.Pending then InProgress else Confirmed,
      payment.createdAtMs,
      Some(payment.paymentHash), None, None, None)
  }

  function CloseRow(close: CloseSummary): ActivityRow {
    ActivityRow(
      "close:" + close.channelId, ChannelClose, Received, None, close.expectedAmountSats,
      if Terminal(close.status) then Confirmed else InProgress,
      close.createdAtMs,
      None, None, Some(close.channelId), Some(close.status))
  }

  function OnchainRows(txs: seq<OnchainTx>, closes: seq<CloseSummary>): seq<ActivityRow> {
    if txs == [] then []
    else
      var last := |txs| - 1;
      OnchainRows(txs[..last], closes) + if Absorbed(closes, txs[last].txid) then [] else [OnchainRow(txs[last])]
  }

  function LightningRows(payments: seq<P.Row>): seq<ActivityRow> {
    if payments == [] then []
    else
      var last := |payments| - 1;
      LightningRows(payments[..last]) + if payments[last].status == P.Failed then [] else [LightningRow(payments[last])]
  }

  function CloseRows(closes: seq<CloseSummary>): seq<ActivityRow> {
    seq(|closes|, i requires 0 <= i < |closes| => CloseRow(closes[i]))
  }

  /** On-chain rows, then Lightning rows, then one row per close. */
  function Unsorted(payments: seq<P.Row>, txs: seq<OnchainTx>, closes: seq<CloseSummary>): seq<ActivityRow> {
    OnchainRows(txs, closes) + LightningRows(payments) + CloseRows(closes)
  }

  // ----- The stable descending sort -----------------------------------------------------

  ghost predicate NewestFirst(rows: seq<ActivityRow>) {
    forall i, j :: 0 <= i < j < |rows| ==> rows[j].createdAtMs <= rows[i].createdAtMs
  }

  /** The rows with one timestamp, in order: what stability preserves. */
  function AtTime(rows: seq<ActivityRow>, t: U64): seq<ActivityRow> {
    if rows == [] then []
    else
      var last := |rows| - 1;
      AtTime(rows[..last], t) + if rows[last].createdAtMs == t then [rows[last]] else []
  }

  /** The stable descending arrangement: sorted, and each timestamp keeps its rows in the original order. */
  ghost predicate StablySorted(sorted: seq<ActivityRow>, rows: seq<ActivityRow>) {
    && NewestFirst(sorted)
    && multiset(sorted) == multiset(rows)
    && forall t: U64 :: AtTime(sorted, t) == AtTime(rows, t)
  }

  lemma AtTimeSnoc(rows: seq<ActivityRow>, row: ActivityRow, t: U64)
    ensures AtTime(rows + [row], t) == AtTime(rows, t) + if row.createdAtMs == t then [row] else []
  {
    assert (rows + [row])[..|rows|] == rows;
  }

  lemma {:induction false} AtTimeConcat(a: seq<ActivityRow>, b: seq<ActivityRow>, t: U64)
    ensures AtTime(a + b, t) == AtTime(a, t) + AtTime(b, t)
    decreases |b|
  {
    if b == [] {
      assert a + b == a;
    } else {
      var last := |b| - 1;
      assert a + b == (a + b[..last]) + [b[last]];
      AtTimeSnoc(a + b[..last], b[last], t);
      AtTimeConcat(a, b[..last], t);
    }
  }

  lemma {:induction false} AtTimeEmpty(rows: seq<ActivityRow>, t: U64)
    requires forall i :: 0 <= i < |rows| ==> rows[i].createdAtMs != t
    ensures AtTime(rows, t) == []
    decreases |rows|
  {
    if rows != [] {
      AtTimeEmpty(rows[..|rows| - 1], t);
    }
  }

  lemma InsertKeepsTimes(a: seq<ActivityRow>, b: seq<ActivityRow>, row: ActivityRow, rows: seq<ActivityRow>, t: U64)
    requires AtTime(a + b, t) == AtTime(rows, t)
    requires forall i :: 0 <= i < |b| ==> b[i].createdAtMs != row.createdAtMs
    ensures AtTime(a + [row] + b, t) == AtTime(rows + [row], t)
  {
    AtTimeSnoc(rows, row, t);
    AtTimeConcat(a, b, t);
    AtTimeConcat(a + [row], b, t);
    AtTimeSnoc(a, row, t);
    var p, q := AtTime(a, t), AtTime(b, t);
    if t == row.createdAtMs {
      AtTimeEmpty(b, t);
      assert p + q == p;
      assert p + [row] + q == p + [row];
    } else {
      assert p + [] == p;
      assert AtTime(rows, t) + [] == AtTime(rows, t);
    }
  }

  lemma InsertKeepsOrder(sorted: seq<ActivityRow>, row: ActivityRow, k: nat)
    requires NewestFirst(sorted) && k <= |sorted|
    requires forall i :: 0 <= i < k ==> sorted[i].createdAtMs >= row.createdAtMs
    requires forall i :: k <= i < |sorted| ==> sorted[i].createdAtMs < row.createdAtMs
    ensures NewestFirst(sorted[..k] + [row] + sorted[k..])
  {
  }

  /** Inserting behind every row at least as new keeps the arrangement stable. */
  lemma InsertStable(sorted: seq<ActivityRow>, rows: seq<ActivityRow>, row: ActivityRow, k: nat)
    requires StablySorted(sorted, rows) && k <= |sorted|
    requires forall i :: 0 <= i < k ==> sorted[i].createdAtMs >= row.createdAtMs
    requires forall i :: k <= i < |sorted| ==> sorted[i].createdAtMs < row.createdAtMs
    ensures StablySorted(sorted[..k] + [row] + sorted[k..], rows + [row])
  {
    var a, b := sorted[..k], sorted[k..];
    assert sorted == a + b;
    InsertKeepsOrder(sorted, row, k);
    assert multiset(a + [row] + b) == multiset(rows + [row]) by {
      assert multiset(a + b) == multiset(rows);
    }
    forall t: U64 ensures AtTime(a + [row] + b, t) == AtTime(rows + [row], t) {
      assert AtTime(sorted, t) == AtTime(rows, t);
      InsertKeepsTimes(a, b, row, rows, t);
    }
  }

  /** Inserts the row behind every row at least as new. */
  method InsertRow(sorted: seq<ActivityRow>, row: ActivityRow, ghost rows: seq<ActivityRow>)
    returns (t: seq<ActivityRow>)
    requires StablySorted(sorted, rows)
    ensures StablySorted(t, rows + [row])
  {
    var k := |sorted|;
    while k > 0 && sorted[k - 1].createdAtMs < row.createdAtMs
      invariant 0 <= k <= |sorted|
      invariant forall i :: k <= i < |sorted| ==> sorted[i].createdAtMs < row.createdAtMs
    {
      k := k - 1;
    }
    InsertStable(sorted, rows, row, k);
    t := sorted[..k] + [row] + sorted[k..];
  }

  method SortNewestFirst(rows: seq<ActivityRow>) returns (sorted: seq<ActivityRow>)
    ensures StablySorted(sorted, rows)
  {
    sorted := [];
    for n := 0 to |rows|
      invariant StablySorted(sorted, rows[..n])
    {
      assert rows[..n + 1] == rows[..n] + [rows[n]];
      sorted := InsertRow(sorted, rows[n], rows[..n]);
    }
    assert rows[..|rows|] == rows;
  }

  lemma LastAtTime(rows: seq<ActivityRow>)
    requires rows != []
    ensures var own := AtTime(rows, rows[|rows| - 1].createdAtMs);
            own != [] && own[|own| - 1] == rows[|rows| - 1]
  {
  }

  lemma OldestIsLast(rows: seq<ActivityRow>, t: U64)
    requires NewestFirst(rows) && AtTime(rows, t) != []
    ensures rows != [] && rows[|rows| - 1].createdAtMs <= t
  {
    if rows[|rows| - 1].createdAtMs > t {
      AtTimeEmpty(rows, t);
    }
  }

  /** Two stable arrangements of the same rows end in the same row. */
  lemma SameLastRow(a: seq<ActivityRow>, b: seq<ActivityRow>)
    requires NewestFirst(a) && NewestFirst(b) && a != []
    requires forall t: U64 :: AtTime(a, t) == AtTime(b, t)
    ensures b != [] && a[|a| - 1] == b[|b| - 1]
  {
    LastAtTime(a);
    OldestIsLast(b, a[|a| - 1].createdAtMs);
    LastAtTime(b);
    OldestIsLast(a, b[|b| - 1].createdAtMs);
  }

  lemma DropLastRow(a: seq<ActivityRow>, b: seq<ActivityRow>, x: ActivityRow, t: U64)
    requires AtTime(a + [x], t) == AtTime(b + [x], t)
    ensures AtTime(a, t) == AtTime(b, t)
  {
    AtTimeSnoc(a, x, t);
    AtTimeSnoc(b, x, t);
    var p, q := AtTime(a, t), AtTime(b, t);
    if t == x.createdAtMs {
      SameFront(p, q, x);
    } else {
      assert p + [] == p && q + [] == q;
    }
  }

  lemma SameFront(p: seq<ActivityRow>, q: seq<ActivityRow>, x: ActivityRow)
    requires p + [x] == q + [x]
    ensures p == q
  {
    assert |p + [x]| == |q + [x]|;
    assert p == (p + [x])[..|p|] && q == (q + [x])[..|q|];
  }

  /** The stable descending arrangement is unique, so the specification leaves no freedom. */
  lemma {:induction false} StableSortIsUnique(a: seq<ActivityRow>, b: seq<ActivityRow>)
    requires NewestFirst(a) && NewestFirst(b)
    requires forall t: U64 :: AtTime(a, t) == AtTime(b, t)
    ensures a == b
    decreases |a|
  {
    if a == [] {
      if b != [] {
        SameLastRow(b, a);
      }
    } else {
      SameLastRow(a, b);
      var x := a[|a| - 1];
      var a', b' := a[..|a| - 1], b[..|b| - 1];
      assert a == a' + [x] && b == b' + [x];
      forall t: U64 ensures AtTime(a', t) == AtTime(b', t) {
        assert AtTime(a, t) == AtTime(b, t);
        DropLastRow(a', b', x, t);
      }
      StableSortIsUnique(a', b');
    }
  }

  // ----- The merge ----------------------------------------------------------------------

  method PushOnchain(txs: seq<OnchainTx>, closes: seq<CloseSummary>) returns (rows: seq<ActivityRow>)
    ensures rows == OnchainRows(txs, closes)
  {
    var absorbed: set<string> := set i, t | 0 <= i < |closes| && t in closes[i].absorbedTxids :: t;
    rows := [];
    for n := 0 to |txs|
      invariant rows == OnchainRows(txs[..n], closes)
    {
      assert txs[..n + 1][..n] == txs[..n];
      if txs[n].txid !in absorbed {
        rows := rows + [OnchainRow(txs[n])];
      }
    }
    assert txs[..|txs|] == txs;
  }

  method PushLightning(before: seq<ActivityRow>, payments: seq<P.Row>) returns (rows: seq<ActivityRow>)
    ensures rows == before + LightningRows(payments)
  {
    rows := before;
    for n := 0 to |payments|
      invariant rows == before + LightningRows(payments[..n])
    {
      assert payments[..n + 1][..n] == payments[..n];
      if payments[n].status != P.Failed {
        rows := rows + [LightningRow(payments[n])];
      }
    }
    assert payments[..|payments|] == payments;
  }

  method PushCloses(before: seq<ActivityRow>, closes: seq<CloseSummary>) returns (rows: seq<ActivityRow>)
    ensures rows == before + CloseRows(closes)
  {
    rows := before;
    for n := 0 to |closes|
      invariant rows == before + CloseRows(closes)[..n]
    {
      rows := rows + [CloseRow(closes[n])];
    }
  }

  /** The absorption set and the close rows come from the same summaries. */
  method MergeActivity(payments: seq<P.Row>, txs: seq<OnchainTx>, closes: seq<CloseSummary>)
    returns (feed: seq<ActivityRow>)
    ensures StablySorted(feed, Unsorted(payments, txs, closes))
  {
    var onchain := PushOnchain(txs, closes);
    var both := PushLightning(onchain, payments);
    var rows := PushCloses(both, closes);
    feed := SortNewestFirst(rows);
  }

  // ----- What the feed shows ------------------------------------------------------------

  lemma {:induction false} OnchainRowsAreUnabsorbed(txs: seq<OnchainTx>, closes: seq<CloseSummary>)
    ensures forall row :: row in OnchainRows(txs, closes) <==>
              exists i :: 0 <= i < |txs| && !Absorbed(closes, txs[i].txid) && row == OnchainRow(txs[i])
    decreases |txs|
  {
    if txs != [] {
      var last := |txs| - 1;
      OnchainRowsAreUnabsorbed(txs[..last], closes);
      forall row ensures row in OnchainRows(txs, closes) <==>
              exists i :: 0 <= i < |txs| && !Absorbed(closes, txs[i].txid) && row == OnchainRow(txs[i])
      {
        if row in OnchainRows(txs[..last], closes) {
          var i :| 0 <= i < last && !Absorbed(closes, txs[..last][i].txid) && row == OnchainRow(txs[..last][i]);
          assert row == OnchainRow(txs[i]);
        }
        if i :| 0 <= i < |txs| && !Absorbed(closes, txs[i].txid) && row == OnchainRow(txs[i]) {
          assert i < last ==> txs[..last][i] == txs[i];
        }
      }
    }
  }

  lemma {:induction false} LightningRowsAreUnfailed(payments: seq<P.Row>)
    ensures forall row :: row in LightningRows(payments) <==>
              exists i :: 0 <= i < |payments| && payments[i].status != P.Failed && row == LightningRow(payments[i])
    decreases |payments|
  {
    if payments != [] {
      var last := |payments| - 1;
      LightningRowsAreUnfailed(payments[..last]);
      forall row ensures row in LightningRows(payments) <==>
              exists i :: 0 <= i < |payments| && payments[i].status != P.Failed && row == LightningRow(payments[i])
      {
        if row in LightningRows(payments[..last]) {
          var i :| 0 <= i < last && payments[..last][i].status != P.Failed && row == LightningRow(payments[..last][i]);
          assert row == LightningRow(payments[i]);
        }
        if i :| 0 <= i < |payments| && payments[i].status != P.Failed && row == LightningRow(payments[i]) {
          assert i < last ==> payments[..last][i] == payments[i];
        }
      }
    }
  }

  /** The feed shows exactly the unabsorbed transactions, the unfailed payments and the closes. */
  lemma FeedIsExact(payments: seq<P.Row>, txs: seq<OnchainTx>, closes: seq<CloseSummary>, feed: seq<ActivityRow>)
    requires StablySorted(feed, Unsorted(payments, txs, closes))
    ensures forall row :: row in feed <==>
              || (exists i :: 0 <= i < |txs| && !Absorbed(closes, txs[i].txid) && row == OnchainRow(txs[i]))
              || (exists i :: 0 <= i < |payments| && payments[i].status != P.Failed && row == LightningRow(payments[i]))
              || (exists i :: 0 <= i < |closes| && row == CloseRow(closes[i]))
  {
    OnchainRowsAreUnabsorbed(txs, closes);
    LightningRowsAreUnfailed(payments);
    var all := Unsorted(payments, txs, closes);
    forall row
      ensures row in feed <==>
              row in OnchainRows(txs, closes) || row in LightningRows(payments) || row in CloseRows(closes)
    {
      assert row in feed <==> row in multiset(feed);
      assert row in all <==> row in multiset(all);
    }
    forall row ensures row in CloseRows(closes) <==> exists i :: 0 <= i < |closes| && row == CloseRow(closes[i]) {
      if i :| 0 <= i < |closes| && row == CloseRow(closes[i]) {
        assert CloseRows(closes)[i] == row;
      }
    }
  }

  /** The row of an on-chain transaction: its net amount, and the time it confirmed, was first seen, or zero. */
  predicate ShowsTx(row: ActivityRow, tx: OnchainTx) {
    && row.kind == Onchain && row.id == tx.txid && row.txid == Some(tx.txid)
    && row.amountSats.Some? && row.amountMsat.None?
    && (row.direction == Sent ==> tx.sentSats - tx.receivedSats == row.amountSats.value)
    && (row.direction == Received ==> tx.receivedSats - tx.sentSats == row.amountSats.value)
    && (tx.sentSats == tx.receivedSats ==> row.direction == Received)
    && (row.status == Confirmed <==> tx.confirmed)
    && (var secs := if tx.confirmationTimeSecs.Some? then tx.confirmationTimeSecs.value
                    else if tx.firstSeenSecs.Some? then tx.firstSeenSecs.value else 0;
        secs * 1_000 < U64_SIZE ==> row.createdAtMs == secs * 1_000)
    && row.paymentHash.None? && row.channelId.None? && row.closeStatus.None?
  }

  /** The row of a Lightning payment. */
  predicate ShowsPayment(row: ActivityRow, p: P.Row) {
    && row.kind == Lightning && row.id == p.paymentHash && row.paymentHash == Some(p.paymentHash)
    && row.amountMsat == Some(p.amountMsat) && row.amountSats.None?
    && (row.direction == Sent <==> p.direction == P.Outbound)
    && (row.status == InProgress <==> p.status == P.Pending)
    && row.createdAtMs == p.createdAtMs
    && row.txid.None? && row.channelId.None? && row.closeStatus.None?
  }

  /** The row of a channel close. */
  predicate ShowsClose(row: ActivityRow, c: CloseSummary) {
    && row.kind == ChannelClose && row.id == "close:" + c.channelId && row.channelId == Some(c.channelId)
    && row.amountSats == c.expectedAmountSats && row.amountMsat.None? && row.direction == Received
    && (row.status == Confirmed <==> c.status == Complete || c.status == ResolvedUnverified)
    && row.createdAtMs == c.createdAtMs && row.closeStatus == Some(c.status)
    && row.paymentHash.None? && row.txid.None?
  }

  lemma RowsShow(payments: seq<P.Row>, txs: seq<OnchainTx>, closes: seq<CloseSummary>)
    ensures forall i :: 0 <= i < |txs| ==> ShowsTx(OnchainRow(txs[i]), txs[i])
    ensures forall i :: 0 <= i < |payments| ==> ShowsPayment(LightningRow(payments[i]), payments[i])
    ensures forall i :: 0 <= i < |closes| ==> ShowsClose(CloseRow(closes[i]), closes[i])
  {
  }

  /** The feed shows this transaction, payment or close. */
  ghost predicate TxShown(feed: seq<ActivityRow>, tx: OnchainTx) {
    exists row :: row in feed && ShowsTx(row, tx)
  }

  ghost predicate PaymentShown(feed: seq<ActivityRow>, p: P.Row) {
    exists row :: row in feed && ShowsPayment(row, p)
  }

  ghost predicate CloseShown(feed: seq<ActivityRow>, c: CloseSummary) {
    exists row :: row in feed && ShowsClose(row, c)
  }

  /** Every unabsorbed transaction, every unfailed payment and every close has its row. */
  lemma EverythingIsShown(payments: seq<P.Row>, txs: seq<OnchainTx>, closes: seq<CloseSummary>, feed: seq<ActivityRow>)
    requires StablySorted(feed, Unsorted(payments, txs, closes))
    ensures forall i :: 0 <= i < |txs| && !Absorbed(closes, txs[i].txid) ==> TxShown(feed, txs[i])
    ensures forall i :: 0 <= i < |payments| && payments[i].status != P.Failed ==> PaymentShown(feed, payments[i])
    ensures forall i :: 0 <= i < |closes| ==> CloseShown(feed, closes[i])
  {
    FeedIsExact(payments, txs, closes, feed);
    RowsShow(payments, txs, closes);
    forall i | 0 <= i < |txs| && !Absorbed(closes, txs[i].txid) ensures TxShown(feed, txs[i]) {
      assert OnchainRow(txs[i]) in feed && ShowsTx(OnchainRow(txs[i]), txs[i]);
    }
    forall i | 0 <= i < |payments| && payments[i].status != P.Failed ensures PaymentShown(feed, payments[i]) {
      assert LightningRow(payments[i]) in feed && ShowsPayment(LightningRow(payments[i]), payments[i]);
    }
    forall i | 0 <= i < |closes| ensures CloseShown(feed, closes[i]) {
      assert CloseRow(closes[i]) in feed && ShowsClose(CloseRow(closes[i]), closes[i]);
    }
  }

  /** Every row tells of one thing the wallet knows. */
  lemma EveryRowTells(payments: seq<P.Row>, txs: seq<OnchainTx>, closes: seq<CloseSummary>, feed: seq<ActivityRow>,
                      row: ActivityRow)
    requires StablySorted(feed, Unsorted(payments, txs, closes)) && row in feed
    ensures || (exists i :: 0 <= i < |txs| && !Absorbed(closes, txs[i].txid) && ShowsTx(row, txs[i]))
            || (exists i :: 0 <= i < |payments| && payments[i].status != P.Failed && ShowsPayment(row, payments[i]))
            || (exists i :: 0 <= i < |closes| && ShowsClose(row, closes[i]))
  {
    FeedIsExact(payments, txs, closes, feed);
    RowsShow(payments, txs, closes);
  }

  /** A close absorbs exactly the transactions its record lists. */
  lemma AbsorbedIffListed(records: seq<CloseRecord>, tip: Option<U32>, txid: string)
    ensures Absorbed(Summaries(records, tip), txid) <==>
            exists r :: 0 <= r < |records| && HasTxid(records[r].txs, txid)
  {
    var closes := Summaries(records, tip);
    if i :| 0 <= i < |closes| && txid in closes[i].absorbedTxids {
      var k :| 0 <= k < |records[i].txs| && closes[i].absorbedTxids[k] == txid;
      assert records[i].txs[k].txid == txid;
      assert HasTxid(records[i].txs, txid);
    }
    if r :| 0 <= r < |records| && HasTxid(records[r].txs, txid) {
      var k :| 0 <= k < |records[r].txs| && records[r].txs[k].txid == txid;
      assert closes[r].absorbedTxids[k] == txid;
    }
  }

  /** The row of a close tells its record: when it began, what is expected of it, and its status at this tip. */
  predicate ShowsRecord(row: ActivityRow, record: CloseRecord, tip: Option<U32>) {
    && row.kind == ChannelClose && row.id == "close:" + record.channelId
    && row.createdAtMs == record.createdAtMs && row.amountSats == record.expectedAmountSats
    && row.closeStatus == Some(DeriveStatus(record, tip))
    && (row.status == Confirmed <==> record.completedAtMs.Some?)
  }

  /** Every close record has its row. */
  lemma RecordsAreShown(payments: seq<P.Row>, txs: seq<OnchainTx>, records: seq<CloseRecord>, tip: Option<U32>,
                        feed: seq<ActivityRow>, r: nat)
    requires StablySorted(feed, Unsorted(payments, txs, Summaries(records, tip))) && r < |records|
    ensures exists row :: row in feed && ShowsRecord(row, records[r], tip)
  {
    var closes := Summaries(records, tip);
    EverythingIsShown(payments, txs, closes, feed);
    assert CloseShown(feed, closes[r]);
    var row :| row in feed && ShowsClose(row, closes[r]);
    assert ShowsRecord(row, records[r], tip);
  }

  /** No transaction attached to a close record shows up as an on-chain row of its own. */
  lemma CloseTxsAreAbsorbed(payments: seq<P.Row>, txs: seq<OnchainTx>, records: seq<CloseRecord>, tip: Option<U32>,
                            feed: seq<ActivityRow>, row: ActivityRow, r: nat)
    requires StablySorted(feed, Unsorted(payments, txs, Summaries(records, tip)))
    requires row in feed && row.kind == Onchain && r < |records|
    ensures !HasTxid(records[r].txs, row.id)
  {
    var closes := Summaries(records, tip);
    FeedIsExact(payments, txs, closes, feed);
    if HasTxid(records[r].txs, row.id) {
      var k :| 0 <= k < |records[r].txs| && records[r].txs[k].txid == row.id;
      assert closes[r].absorbedTxids[k] == row.id;
      assert Absorbed(closes, row.id);
    }
  }

  // ----- Ties ---------------------------------------------------------------------------

  function KindRank(kind: ActivityKind): nat {
    match kind
    case Onchain => 0
    case Lightning => 1
    case ChannelClose => 2
  }

  ghost predicate KindsInOrder(rows: seq<ActivityRow>) {
    forall i, j :: 0 <= i < j < |rows| ==> KindRank(rows[i].kind) <= KindRank(rows[j].kind)
  }

  ghost predicate AllOfKind(rows: seq<ActivityRow>, kind: ActivityKind) {
    forall i :: 0 <= i < |rows| ==> rows[i].kind == kind
  }

  lemma {:induction false} AtTimeOfKind(rows: seq<ActivityRow>, kind: ActivityKind, t: U64)
    requires AllOfKind(rows, kind)
    ensures AllOfKind(AtTime(rows, t), kind)
    decreases |rows|
  {
    if rows != [] {
      AtTimeOfKind(rows[..|rows| - 1], kind, t);
    }
  }

  lemma {:induction false} OnchainRowsAreOnchain(txs: seq<OnchainTx>, closes: seq<CloseSummary>)
    ensures AllOfKind(OnchainRows(txs, closes), Onchain)
    decreases |txs|
  {
    if txs != [] {
      OnchainRowsAreOnchain(txs[..|txs| - 1], closes);
    }
  }

  lemma {:induction false} LightningRowsAreLightning(payments: seq<P.Row>)
    ensures AllOfKind(LightningRows(payments), Lightning)
    decreases |payments|
  {
    if payments != [] {
      LightningRowsAreLightning(payments[..|payments| - 1]);
    }
  }

  lemma UnsortedTiesInOrder(payments: seq<P.Row>, txs: seq<OnchainTx>, closes: seq<CloseSummary>, t: U64)
    ensures KindsInOrder(AtTime(Unsorted(payments, txs, closes), t))
  {
    var o, l, c := OnchainRows(txs, closes), LightningRows(payments), CloseRows(closes);
    OnchainRowsAreOnchain(txs, closes);
    LightningRowsAreLightning(payments);
    AtTimeOfKind(o, Onchain, t);
    AtTimeOfKind(l, Lightning, t);
    AtTimeOfKind(c, ChannelClose, t);
    AtTimeConcat(o + l, c, t);
    AtTimeConcat(o, l, t);
  }

  /** Two rows of one time keep their order among the rows of that time. */
  lemma {:induction false} AtTimeKeepsOrder(rows: seq<ActivityRow>, i: nat, j: nat) returns (p: nat, q: nat)
    requires i < j < |rows| && rows[i].createdAtMs == rows[j].createdAtMs
    ensures var own := AtTime(rows, rows[j].createdAtMs); p < q < |own| && own[p] == rows[i] && own[q] == rows[j]
    decreases |rows|
  {
    var t, last := rows[j].createdAtMs, |rows| - 1;
    if j < last {
      p, q := AtTimeKeepsOrder(rows[..last], i, j);
    } else {
      p := AtTimeHas(rows[..last], i);
      q := |AtTime(rows[..last], t)|;
    }
  }

  lemma {:induction false} AtTimeHas(rows: seq<ActivityRow>, i: nat) returns (p: nat)
    requires i < |rows|
    ensures var own := AtTime(rows, rows[i].createdAtMs); p < |own| && own[p] == rows[i]
    decreases |rows|
  {
    var last := |rows| - 1;
    if i < last {
      p := AtTimeHas(rows[..last], i);
    } else {
      p := |AtTime(rows[..last], rows[i].createdAtMs)|;
    }
  }

  /** Of rows with one timestamp, on-chain rows come first, then Lightning rows, then closes. */
  lemma TiesGoByKind(payments: seq<P.Row>, txs: seq<OnchainTx>, closes: seq<CloseSummary>, feed: seq<ActivityRow>,
                     i: nat, j: nat)
    requires StablySorted(feed, Unsorted(payments, txs, closes))
    requires i < j < |feed| && feed[i].createdAtMs == feed[j].createdAtMs
    ensures feed[j].kind == Onchain ==> feed[i].kind == Onchain
    ensures feed[j].kind == Lightning ==> feed[i].kind != ChannelClose
  {
    var p, q := AtTimeKeepsOrder(feed, i, j);
    UnsortedTiesInOrder(payments, txs, closes, feed[j].createdAtMs);
  }

  // ----- Amounts balance ----------------------------------------------------------------

  /** What an on-chain row adds to the balance, in sats. */
  function SignedSats(row: ActivityRow): int {
    if row.kind != Onchain || row.amountSats.None? then 0
    else
      var amount: int := row.amountSats.value;
      if row.direction == Sent then -amount else amount
  }

  /** What a Lightning row adds to the balance, in msat. */
  function SignedMsat(row: ActivityRow): int {
    if row.kind != Lightning || row.amountMsat.None? then 0
    else
      var amount: int := row.amountMsat.value;
      if row.direction == Sent then -amount else amount
  }

  function Sum(f: ActivityRow -> int, rows: seq<ActivityRow>): int {
    if rows == [] then 0 else Sum(f, rows[..|rows| - 1]) + f(rows[|rows| - 1])
  }

  /** Received minus sent over the transactions no close absorbs. */
  function NetUnabsorbed(txs: seq<OnchainTx>, closes: seq<CloseSummary>): int {
    if txs == [] then 0
    else
      var tx := txs[|txs| - 1];
      NetUnabsorbed(txs[..|txs| - 1], closes)
      + if Absorbed(closes, tx.txid) then 0 else tx.receivedSats - tx.sentSats
  }

  /** Inbound minus outbound over the payments that have not failed. */
  function NetPayments(payments: seq<P.Row>): int {
    if payments == [] then 0
    else
      var p := payments[|payments| - 1];
      var amount: int := p.amountMsat;
      NetPayments(payments[..|payments| - 1])
      + if p.status == P.Failed then 0 else if p.direction == P.Inbound then amount else -amount
  }

  lemma {:induction false} SumConcat(f: ActivityRow -> int, a: seq<ActivityRow>, b: seq<ActivityRow>)
    ensures Sum(f, a + b) == Sum(f, a) + Sum(f, b)
    decreases |b|
  {
    if b == [] {
      assert a + b == a;
    } else {
      assert (a + b)[..|a + b| - 1] == a + b[..|b| - 1];
      SumConcat(f, a, b[..|b| - 1]);
    }
  }

  /** The sum depends only on which rows there are, not on their order. */
  lemma {:induction false} SumOfPermutation(f: ActivityRow -> int, a: seq<ActivityRow>, b: seq<ActivityRow>)
    requires multiset(a) == multiset(b)
    ensures Sum(f, a) == Sum(f, b)
    decreases |a|
  {
    if a == [] {
      assert |multiset(b)| == 0;
      assert b == [];
    } else {
      var x := a[|a| - 1];
      assert x in multiset(a);
      assert x in b;
      var k :| 0 <= k < |b| && b[k] == x;
      var a', b' := a[..|a| - 1], b[..k] + b[k + 1..];
      assert a == a' + [x];
      assert b == b[..k] + [x] + b[k + 1..];
      assert multiset(a') == multiset(a) - multiset{x};
      assert multiset(b') == multiset(b) - multiset{x};
      SumOfPermutation(f, a', b');
      SumConcat(f, b[..k], b[k + 1..]);
      SumConcat(f, b[..k] + [x], b[k + 1..]);
      SumConcat(f, b[..k], [x]);
    }
  }

  lemma {:induction false} OnchainSum(txs: seq<OnchainTx>, closes: seq<CloseSummary>)
    ensures Sum(SignedSats, OnchainRows(txs, closes)) == NetUnabsorbed(txs, closes)
    ensures Sum(SignedMsat, OnchainRows(txs, closes)) == 0
    decreases |txs|
  {
    if txs != [] {
      var last := |txs| - 1;
      OnchainSum(txs[..last], closes);
      var rows := OnchainRows(txs[..last], closes);
      if Absorbed(closes, txs[last].txid) {
        assert OnchainRows(txs, closes) == rows;
      } else {
        assert OnchainRows(txs, closes)[..|rows|] == rows;
      }
    }
  }

  lemma {:induction false} LightningSum(payments: seq<P.Row>)
    ensures Sum(SignedMsat, LightningRows(payments)) == NetPayments(payments)
    ensures Sum(SignedSats, LightningRows(payments)) == 0
    decreases |payments|
  {
    if payments != [] {
      var last := |payments| - 1;
      LightningSum(payments[..last]);
      var rows := LightningRows(payments[..last]);
      if payments[last].status == P.Failed {
        assert LightningRows(payments) == rows;
      } else {
        assert LightningRows(payments)[..|rows|] == rows;
      }
    }
  }

  lemma {:induction false} CloseSum(closes: seq<CloseSummary>)
    ensures Sum(SignedSats, CloseRows(closes)) == 0 && Sum(SignedMsat, CloseRows(closes)) == 0
    decreases |closes|
  {
    if closes != [] {
      CloseSum(closes[..|closes| - 1]);
      assert CloseRows(closes)[..|closes| - 1] == CloseRows(closes[..|closes| - 1]);
    }
  }

  lemma UnsortedSum(f: ActivityRow -> int, payments: seq<P.Row>, txs: seq<OnchainTx>, closes: seq<CloseSummary>,
                    feed: seq<ActivityRow>)
    requires StablySorted(feed, Unsorted(payments, txs, closes))
    ensures Sum(f, feed) ==
            Sum(f, OnchainRows(txs, closes)) + Sum(f, LightningRows(payments)) + Sum(f, CloseRows(closes))
  {
    var o, l, c := OnchainRows(txs, closes), LightningRows(payments), CloseRows(closes);
    SumOfPermutation(f, feed, Unsorted(payments, txs, closes));
    SumConcat(f, o + l, c);
    SumConcat(f, o, l);
  }

  /**
   The feed balances: its signed on-chain amounts sum to received minus sent over the unabsorbed
   transactions, its signed Lightning amounts to inbound minus outbound over the unfailed payments.
   */
  lemma FeedBalances(payments: seq<P.Row>, txs: seq<OnchainTx>, closes: seq<CloseSummary>, feed: seq<ActivityRow>)
    requires StablySorted(feed, Unsorted(payments, txs, closes))
    ensures Sum(SignedSats, feed) == NetUnabsorbed(txs, closes)
    ensures Sum(SignedMsat, feed) == NetPayments(payments)
  {
    UnsortedSum(SignedSats, payments, txs, closes, feed);
    UnsortedSum(SignedMsat, payments, txs, closes, feed);
    OnchainSum(txs, closes);
    LightningSum(payments);
    CloseSum(closes);
  }

  // ----- Rows over time -----------------------------------------------------------------

  /** Over any run, a close row once confirmed stays confirmed, under the same id. */
  lemma ConfirmedCloseStaysConfirmed(s: State, ops: seq<Op>, c: string, tip: Option<U32>, tip': Option<U32>)
    requires c in s.records
    ensures c in DoAll(s, ops).records
    ensures var before := CloseRow(Summary(s.records[c], tip));
            var after := CloseRow(Summary(DoAll(s, ops).records[c], tip'));
            && after.id == before.id && after.createdAtMs <= before.createdAtMs
            && (before.status == Confirmed <==> s.records[c].completedAtMs.Some?)
            && (before.status == Confirmed ==> after.status == Confirmed)
            && (before.closeStatus == Some(Complete) && Coherent(s.records[c]) ==> after.closeStatus == Some(Complete))
  {
    RunGains(s, ops, c);
    RunStatusNeverRegresses(s, ops, c, tip, tip');
  }

  /** Over any run, a confirmed Lightning row is the very same row in every later feed. */
  lemma ConfirmedPaymentRowIsFrozen(s: P.State, steps: seq<P.Step>, id: string)
    requires P.Sound(s) && P.WellFormedSteps(steps) && id in s.rows && s.rows[id].status != P.Failed
    requires LightningRow(s.rows[id]).status == Confirmed
    ensures id in P.DoAll(s, steps).rows && P.DoAll(s, steps).rows[id].status != P.Failed
    ensures LightningRow(P.DoAll(s, steps).rows[id]) == LightningRow(s.rows[id])
  {
    P.SucceededIsFrozen(s, steps, id);
  }

  /** A close absorbs for good: a transaction absorbed once is absorbed in every later feed. */
  lemma AbsorbedStaysAbsorbed(s: State, ops: seq<Op>, c: string, tip: Option<U32>, tip': Option<U32>, txid: string)
    requires c in s.records && txid in Summary(s.records[c], tip).absorbedTxids
    ensures c in DoAll(s, ops).records && txid in Summary(DoAll(s, ops).records[c], tip').absorbedTxids
  {
    RunGains(s, ops, c);
    var before, after := s.records[c].txs, DoAll(s, ops).records[c].txs;
    var i :| 0 <= i < |before| && before[i].txid == txid;
    assert KeptTx(before[i], after[i]);
    assert Summary(DoAll(s, ops).records[c], tip').absorbedTxids[i] == txid;
  }
}
