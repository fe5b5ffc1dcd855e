/**
 The JSON codec of close records: one format for the local mirror and the remote copy. Decoding is
 tolerant, and fields written by newer schema versions survive in `extras`.
 */
module CloseRecordCodec {
  import opened Prelude
  import opened Json
  import opened CloseRecords
  import opened Decimal

  const KNOWN_KEYS: seq<string> := [
    "schemaVersion", "channelId", "fundingTxo", "closeType", "initiator", "closureReason", "txs",
    "expectedAmountSats", "timelockBlocks", "claimableAtHeight", "createdAt", "completedAt",
    "resolution", "extras"]

  // ----- Names --------------------------------------------------------------------------

  function CloseTypeName(t: CloseType): string {
    match t
    case Coop => "coop"
    case Force => "force"
    case UnknownType => "unknown"
  }

  function InitiatorName(i: Initiator): string {
    match i
    case Local => "local"
    case Remote => "remote"
    case UnknownInitiator => "unknown"
  }

  function RoleName(role: TxRole): string {
    match role
    case Closing => "closing"
    case Commitment => "commitment"
    case AnchorCpfp => "anchor_cpfp"
    case HtlcClaim => "htlc_claim"
    case Sweep => "sweep"
    case Other(name) => name
  }

  function ResolutionName(r: Resolution): string {
    match r
    case Verified => "verified"
    case Unverified => "unverified"
  }

  function RoleFromName(name: string): TxRole {
    if name == "closing" then Closing
    else if name == "commitment" then Commitment
    else if name == "anchor_cpfp" then AnchorCpfp
    else if name == "htlc_claim" then HtlcClaim
    else if name == "sweep" then Sweep
    else Other(name)
  }

  function CloseTypeFromName(name: Option<string>): CloseType {
    if name == Some("coop") then Coop else if name == Some("force") then Force else UnknownType
  }

  function InitiatorFromName(name: Option<string>): Initiator {
    if name == Some("local") then Local else if name == Some("remote") then Remote else UnknownInitiator
  }

  function ResolutionFromName(name: Option<string>): Option<Resolution> {
    if name == Some("verified") then Some(Verified)
    else if name == Some("unverified") then Some(Unverified)
    else None
  }

  // ----- Encoding -----------------------------------------------------------------------

  function NumberOf(n: U64): Value {
    Num(Unsigned(n))
  }

  function AmountOf(n: U64): Value {
    Str(ToDecimal(n))
  }

  function PutSome(m: map<string, Value>, key: string, value: Option<Value>): map<string, Value> {
    if value.Some? then m[key := value.value] else m
  }

  function EncodeTx(tx: CloseTx): Value {
    var m := map["txid" := Str(tx.txid), "role" := Str(RoleName(tx.role))];
    var m := PutSome(m, "feeSats", if tx.feeSats.Some? then Some(AmountOf(tx.feeSats.value)) else None);
    var m := PutSome(m, "confirmedAtHeight",
                     if tx.confirmedAt.Some? then Some(NumberOf(tx.confirmedAt.value)) else None);
    Obj(m)
  }

  function EncodeTxs(txs: seq<CloseTx>): seq<Value> {
    seq(|txs|, i requires 0 <= i < |txs| => EncodeTx(txs[i]))
  }

  function EncodeOutpoint(o: Outpoint): Value {
    Obj(map["txid" := Str(o.txid), "vout" := NumberOf(o.vout)])
  }

  /** The value the encoder writes under the `i`-th known key; `None` when it omits the key. */
  function FieldAt(r: CloseRecord, i: nat): Option<Value> {
    match i
    case 0 => Some(NumberOf(r.schemaVersion))
    case 1 => Some(Str(r.channelId))
    case 2 => if r.fundingTxo.Some? then Some(EncodeOutpoint(r.fundingTxo.value)) else None
    case 3 => Some(Str(CloseTypeName(r.closeType)))
    case 4 => Some(Str(InitiatorName(r.initiator)))
    case 5 => if r.closureReason.Some? then Some(Str(r.closureReason.value)) else None
    case 6 => Some(Arr(EncodeTxs(r.txs)))
    case 7 => if r.expectedAmountSats.Some? then Some(AmountOf(r.expectedAmountSats.value)) else None
    case 8 => if r.timelockBlocks.Some? then Some(NumberOf(r.timelockBlocks.value)) else None
    case 9 => if r.claimableAt.Some? then Some(NumberOf(r.claimableAt.value)) else None
    case 10 => Some(NumberOf(r.createdAtMs))
    case 11 => if r.completedAtMs.Some? then Some(NumberOf(r.completedAtMs.value)) else None
    case 12 => if r.resolution.Some? then Some(Str(ResolutionName(r.resolution.value))) else None
    case _ => None
  }

  /** The first `n` known keys written over the extras, in the encoder's order. */
  function WriteFields(r: CloseRecord, n: nat): map<string, Value>
    requires n <= |KNOWN_KEYS|
  {
    if n == 0 then r.extras
    else PutSome(WriteFields(r, n - 1), KNOWN_KEYS[n - 1], FieldAt(r, n - 1))
  }

  function Encode(r: CloseRecord): Value {
    Obj(WriteFields(r, |KNOWN_KEYS|))
  }

  // ----- Decoding -----------------------------------------------------------------------

  /** A non-empty decimal text, or a non-negative integer. */
  function AmountFrom(v: Option<Value>): Option<U64> {
    if v.None? then None
    else if v.value.Str? then (if v.value.s != [] then ParseU64(v.value.s) else None)
    else v.value.AsU64()
  }

  function U64From(v: Option<Value>): Option<U64> {
    if v.Some? then v.value.AsU64() else None
  }

  /** A height or block count: the decoder truncates it to 32 bits. */
  function U32From(v: Option<Value>): Option<U32> {
    var n := U64From(v);
    if n.Some? then Some(CastU32(n.value)) else None
  }

  function StrFrom(v: Option<Value>): Option<string> {
    if v.Some? then v.value.AsStr() else None
  }

  function DecodeOutpoint(v: Option<Value>): Option<Outpoint> {
    if v.None? then None
    else
      var txid, vout := StrFrom(v.value.Get("txid")), U32From(v.value.Get("vout"));
      if txid.Some? && vout.Some? then Some(Outpoint(txid.value, vout.value)) else None
  }

  /** An entry that is no object or has no textual txid is skipped. */
  function DecodeTx(v: Value): Option<CloseTx> {
    var txid := StrFrom(v.Get("txid"));
    if txid.None? then None
    else
      var role := StrFrom(v.Get("role"));
      Some(CloseTx(txid.value,
                   if role.Some? then RoleFromName(role.value) else Closing,
                   AmountFrom(v.Get("feeSats")),
                   U32From(v.Get("confirmedAtHeight"))))
  }

  function DecodeTxs(items: seq<Value>): seq<CloseTx> {
    if items == [] then []
    else
      var last := |items| - 1;
      var tx := DecodeTx(items[last]);
      DecodeTxs(items[..last]) + if tx.Some? then [tx.value] else []
  }

  function ItemsFrom(v: Option<Value>): seq<Value> {
    if v.Some? && v.value.Arr? then v.value.items else []
  }

  function UnknownFields(fields: map<string, Value>): map<string, Value> {
    map k | k in fields && k !in KNOWN_KEYS :: fields[k]
  }

  /** Only a missing or non-textual channel id rejects; every other malformed field degrades. */
  function Decode(raw: Value, nowMs: U64): Option<CloseRecord> {
    var channelId := StrFrom(raw.Get("channelId"));
    if channelId.None? then None
    else Some(CloseRecord(
      U64From(raw.Get("schemaVersion")).Or(Some(SCHEMA_VERSION)).value,
      channelId.value,
      DecodeOutpoint(raw.Get("fundingTxo")),
      CloseTypeFromName(StrFrom(raw.Get("closeType"))),
      InitiatorFromName(StrFrom(raw.Get("initiator"))),
      StrFrom(raw.Get("closureReason")),
      DecodeTxs(ItemsFrom(raw.Get("txs"))),
      AmountFrom(raw.Get("expectedAmountSats")),
      U32From(raw.Get("timelockBlocks")),
      U32From(raw.Get("claimableAtHeight")),
      U64From(raw.Get("createdAt")).Or(Some(nowMs)).value,
      U64From(raw.Get("completedAt")),
      ResolutionFromName(StrFrom(raw.Get("resolution"))),
      UnknownFields(raw.fields)))
  }

  /** The decoder as the wallet core runs it: one loop collects the unknown fields, one the transactions. */
  method DeserializeCloseRecord(raw: Value, nowMs: U64) returns (record: Option<CloseRecord>)
    ensures record == Decode(raw, nowMs)
  {
    if !raw.Obj? || raw.Get("channelId").None? || !raw.Get("channelId").value.Str? {
      return None;
    }
    var extras: map<string, Value> := map[];
    var keys := raw.fields.Keys;
    while keys != {}
      invariant keys <= raw.fields.Keys
      invariant extras == map k | k in raw.fields && k !in keys && k !in KNOWN_KEYS :: raw.fields[k]
      decreases |keys|
    {
      var key :| key in keys;
      if key !in KNOWN_KEYS {
        extras := extras[key := raw.fields[key]];
      }
      keys := keys - {key};
    }
    var items := ItemsFrom(raw.Get("txs"));
    var txs: seq<CloseTx> := [];
    for n := 0 to |items|
      invariant txs == DecodeTxs(items[..n])
    {
      assert items[..n + 1][..n] == items[..n];
      var tx := DecodeTx(items[n]);
      if tx.Some? {
        txs := txs + [tx.value];
      }
    }
    assert items[..|items|] == items;
    assert extras == UnknownFields(raw.fields);
    record := Some(CloseRecord(
      U64From(raw.Get("schemaVersion")).Or(Some(SCHEMA_VERSION)).value,
      raw.Get("channelId").value.s,
      DecodeOutpoint(raw.Get("fundingTxo")),
      CloseTypeFromName(StrFrom(raw.Get("closeType"))),
      InitiatorFromName(StrFrom(raw.Get("initiator"))),
      StrFrom(raw.Get("closureReason")),
      txs,
      AmountFrom(raw.Get("expectedAmountSats")),
      U32From(raw.Get("timelockBlocks")),
      U32From(raw.Get("claimableAtHeight")),
      U64From(raw.Get("createdAt")).Or(Some(nowMs)).value,
      U64From(raw.Get("completedAt")),
      ResolutionFromName(StrFrom(raw.Get("resolution"))),
      extras));
  }

  // ----- Round trips --------------------------------------------------------------------

  predicate CanonicalRole(role: TxRole) {
    role.Other? ==> RoleFromName(role.name) == role
  }

  /** What the wire format can carry: no extra spells a known key, no foreign role spells a known one. */
  ghost predicate Canonical(r: CloseRecord) {
    && (forall k :: k in r.extras ==> k !in KNOWN_KEYS)
    && (forall i :: 0 <= i < |r.txs| ==> CanonicalRole(r.txs[i].role))
  }

  lemma KnownKeysDistinct(i: nat, j: nat)
    requires i < j < |KNOWN_KEYS|
    ensures KNOWN_KEYS[i] != KNOWN_KEYS[j]
  {
    var a, b := KNOWN_KEYS[i], KNOWN_KEYS[j];
    assert |a| != |b| || a[0] != b[0] || a[1] != b[1];
  }

  /** What the object answers for a known key after the first `n` writes. */
  lemma {:induction false} WrittenField(r: CloseRecord, n: nat, i: nat)
    requires Canonical(r) && n <= |KNOWN_KEYS| && i < |KNOWN_KEYS|
    ensures Obj(WriteFields(r, n)).Get(KNOWN_KEYS[i]) == if i < n then FieldAt(r, i) else None
  {
    if n > 0 {
      WrittenField(r, n - 1, i);
      if i < n - 1 {
        KnownKeysDistinct(i, n - 1);
      } else if n - 1 < i {
        KnownKeysDistinct(n - 1, i);
      }
    }
  }

  lemma {:induction false} WrittenExtra(r: CloseRecord, n: nat, key: string)
    requires n <= |KNOWN_KEYS| && key !in KNOWN_KEYS
    ensures Obj(WriteFields(r, n)).Get(key) == Obj(r.extras).Get(key)
  {
    if n > 0 {
      WrittenExtra(r, n - 1, key);
      assert KNOWN_KEYS[n - 1] in KNOWN_KEYS;
    }
  }

  lemma EncodedExtras(r: CloseRecord)
    requires Canonical(r)
    ensures UnknownFields(Encode(r).fields) == r.extras
  {
    var fields := Encode(r).fields;
    forall k | k !in KNOWN_KEYS ensures k in fields <==> k in r.extras
                                ensures k in r.extras ==> fields[k] == r.extras[k]
    {
      WrittenExtra(r, |KNOWN_KEYS|, k);
      assert Obj(fields).Get(k) == Obj(r.extras).Get(k);
    }
  }

  lemma TxRoundTrip(tx: CloseTx)
    requires CanonicalRole(tx.role)
    ensures DecodeTx(EncodeTx(tx)) == Some(tx)
  {
    if tx.feeSats.Some? {
      ParseOfDecimal(tx.feeSats.value);
    }
    var v := EncodeTx(tx);
    assert "txid" != "role" && "feeSats"[0] != "confirmedAtHeight"[0];
    assert v.Get("txid") == Some(Str(tx.txid));
    assert v.Get("role") == Some(Str(RoleName(tx.role)));
    assert v.Get("feeSats") == if tx.feeSats.Some? then Some(AmountOf(tx.feeSats.value)) else None;
    assert v.Get("confirmedAtHeight") == if tx.confirmedAt.Some? then Some(NumberOf(tx.confirmedAt.value)) else None;
  }

  lemma OneMoreTxRoundTrip(front: seq<CloseTx>, tx: CloseTx)
    requires CanonicalRole(tx.role) && DecodeTxs(EncodeTxs(front)) == front
    ensures DecodeTxs(EncodeTxs(front + [tx])) == front + [tx]
  {
    TxRoundTrip(tx);
    assert EncodeTxs(front + [tx]) == EncodeTxs(front) + [EncodeTx(tx)];
  }

  lemma {:induction false} TxsRoundTrip(txs: seq<CloseTx>)
    requires forall i :: 0 <= i < |txs| ==> CanonicalRole(txs[i].role)
    ensures DecodeTxs(EncodeTxs(txs)) == txs
    decreases |txs|
  {
    if txs != [] {
      var last := |txs| - 1;
      TxsRoundTrip(txs[..last]);
      OneMoreTxRoundTrip(txs[..last], txs[last]);
      assert txs == txs[..last] + [txs[last]];
    }
  }

  lemma NamesRoundTrip(t: CloseType, i: Initiator, r: Resolution)
    ensures CloseTypeFromName(Some(CloseTypeName(t))) == t
    ensures InitiatorFromName(Some(InitiatorName(i))) == i
    ensures ResolutionFromName(Some(ResolutionName(r))) == Some(r)
  {
  }

  lemma EncodedKey(r: CloseRecord, i: nat, key: string)
    requires Canonical(r) && i < |KNOWN_KEYS| && key == KNOWN_KEYS[i]
    ensures Encode(r).Get(key) == FieldAt(r, i)
  {
    WrittenField(r, |KNOWN_KEYS|, i);
  }

  lemma TextFieldsRoundTrip(r: CloseRecord)
    requires Canonical(r)
    ensures var v := Encode(r);
            && StrFrom(v.Get("channelId")) == Some(r.channelId)
            && CloseTypeFromName(StrFrom(v.Get("closeType"))) == r.closeType
            && InitiatorFromName(StrFrom(v.Get("initiator"))) == r.initiator
            && StrFrom(v.Get("closureReason")) == r.closureReason
            && ResolutionFromName(StrFrom(v.Get("resolution"))) == r.resolution
  {
    NamesRoundTrip(r.closeType, r.initiator, if r.resolution.Some? then r.resolution.value else Verified);
    EncodedKey(r, 1, "channelId");
    EncodedKey(r, 3, "closeType");
    EncodedKey(r, 4, "initiator");
    EncodedKey(r, 5, "closureReason");
    EncodedKey(r, 12, "resolution");
  }

  lemma NumberFieldsRoundTrip(r: CloseRecord)
    requires Canonical(r)
    ensures var v := Encode(r);
            && U64From(v.Get("schemaVersion")) == Some(r.schemaVersion)
            && U32From(v.Get("timelockBlocks")) == r.timelockBlocks
            && U32From(v.Get("claimableAtHeight")) == r.claimableAt
            && U64From(v.Get("createdAt")) == Some(r.createdAtMs)
            && U64From(v.Get("completedAt")) == r.completedAtMs
  {
    EncodedKey(r, 0, "schemaVersion");
    EncodedKey(r, 8, "timelockBlocks");
    EncodedKey(r, 9, "claimableAtHeight");
    EncodedKey(r, 10, "createdAt");
    EncodedKey(r, 11, "completedAt");
  }

  lemma FundingTxoRoundTrip(r: CloseRecord)
    requires Canonical(r)
    ensures DecodeOutpoint(Encode(r).Get("fundingTxo")) == r.fundingTxo
  {
    EncodedKey(r, 2, "fundingTxo");
  }

  lemma TxsFieldRoundTrip(r: CloseRecord)
    requires Canonical(r)
    ensures DecodeTxs(ItemsFrom(Encode(r).Get("txs"))) == r.txs
  {
    assert ItemsFrom(Encode(r).Get("txs")) == EncodeTxs(r.txs) by {
      EncodedKey(r, 6, "txs");
    }
    TxsRoundTrip(r.txs);
  }

  lemma AmountFieldRoundTrip(r: CloseRecord)
    requires Canonical(r)
    ensures AmountFrom(Encode(r).Get("expectedAmountSats")) == r.expectedAmountSats
  {
    EncodedKey(r, 7, "expectedAmountSats");
    if r.expectedAmountSats.Some? {
      ParseOfDecimal(r.expectedAmountSats.value);
    }
  }

  /** A number field, omitted when there is none. */
  function NumberField(n: Option<U64>): Option<Value> {
    if n.Some? then Some(Num(Unsigned(n.value))) else None
  }

  function HeightField(n: Option<U32>): Option<Value> {
    if n.Some? then Some(Num(Unsigned(n.value))) else None
  }

  function TextField(text: Option<string>): Option<Value> {
    if text.Some? then Some(Str(text.value)) else None
  }

  /** Amounts travel as decimal text. */
  function AmountField(n: Option<U64>): Option<Value> {
    if n.Some? then Some(Str(ToDecimal(n.value))) else None
  }

  /** The text fields of the wire format, with the spellings other readers rely on. */
  lemma WireTexts(r: CloseRecord)
    requires Canonical(r)
    ensures var v := Encode(r);
            && v.Get("channelId") == Some(Str(r.channelId))
            && v.Get("closureReason") == TextField(r.closureReason)
            && v.Get("closeType") == Some(Str(match r.closeType
                                              case Coop => "coop" case Force => "force" case UnknownType => "unknown"))
            && v.Get("initiator") == Some(Str(match r.initiator
                                              case Local => "local" case Remote => "remote"
                                              case UnknownInitiator => "unknown"))
            && v.Get("resolution") == TextField(match r.resolution
                                                case None => None
                                                case Some(Verified) => Some("verified")
                                                case Some(Unverified) => Some("unverified"))
  {
    EncodedKey(r, 1, "channelId");
    EncodedKey(r, 3, "closeType");
    EncodedKey(r, 4, "initiator");
    EncodedKey(r, 5, "closureReason");
    EncodedKey(r, 12, "resolution");
  }

  /** The numbers, the amount and the reserved key. */
  lemma WireNumbers(r: CloseRecord)
    requires Canonical(r)
    ensures var v := Encode(r);
            && v.Get("schemaVersion") == NumberField(Some(r.schemaVersion))
            && v.Get("createdAt") == NumberField(Some(r.createdAtMs))
            && v.Get("completedAt") == NumberField(r.completedAtMs)
            && v.Get("expectedAmountSats") == AmountField(r.expectedAmountSats)
            && v.Get("timelockBlocks") == HeightField(r.timelockBlocks)
            && v.Get("claimableAtHeight") == HeightField(r.claimableAt)
            && v.Get("extras") == None
  {
    EncodedKey(r, 0, "schemaVersion");
    EncodedKey(r, 7, "expectedAmountSats");
    EncodedKey(r, 8, "timelockBlocks");
    EncodedKey(r, 9, "claimableAtHeight");
    EncodedKey(r, 10, "createdAt");
    EncodedKey(r, 11, "completedAt");
    EncodedKey(r, 13, "extras");
  }

  lemma WireOutpoint(r: CloseRecord)
    requires Canonical(r)
    ensures var txo := Encode(r).Get("fundingTxo");
            && (txo.Some? <==> r.fundingTxo.Some?)
            && (txo.Some? ==>
                  && txo.value.Get("txid") == Some(Str(r.fundingTxo.value.txid))
                  && txo.value.Get("vout") == NumberField(Some(r.fundingTxo.value.vout)))
  {
    EncodedKey(r, 2, "fundingTxo");
    assert "txid"[0] != "vout"[0];
  }

  lemma WireTx(tx: CloseTx)
    ensures var v := EncodeTx(tx);
            && v.Get("txid") == Some(Str(tx.txid))
            && v.Get("role") == Some(Str(match tx.role
                                         case Closing => "closing" case Commitment => "commitment"
                                         case AnchorCpfp => "anchor_cpfp" case HtlcClaim => "htlc_claim"
                                         case Sweep => "sweep" case Other(name) => name))
            && v.Get("feeSats") == AmountField(tx.feeSats)
            && v.Get("confirmedAtHeight") == HeightField(tx.confirmedAt)
  {
    assert "txid" != "role" && "feeSats"[0] != "confirmedAtHeight"[0];
  }

  /** The transactions, in order. */
  lemma WireTxs(r: CloseRecord)
    requires Canonical(r)
    ensures var txs := Encode(r).Get("txs");
            && txs.Some? && txs.value.Arr? && |txs.value.items| == |r.txs|
            && forall i :: 0 <= i < |r.txs| ==> txs.value.items[i] == EncodeTx(r.txs[i])
  {
    EncodedKey(r, 6, "txs");
  }

  /** Decoding an encoded canonical record gives it back, whatever the clock says by then. */
  lemma RecordRoundTrip(r: CloseRecord, nowMs: U64)
    requires Canonical(r)
    ensures Decode(Encode(r), nowMs) == Some(r)
  {
    TextFieldsRoundTrip(r);
    NumberFieldsRoundTrip(r);
    FundingTxoRoundTrip(r);
    TxsFieldRoundTrip(r);
    AmountFieldRoundTrip(r);
    EncodedExtras(r);
  }

  lemma {:induction false} DecodedRolesCanonical(items: seq<Value>)
    ensures forall i :: 0 <= i < |DecodeTxs(items)| ==> CanonicalRole(DecodeTxs(items)[i].role)
    decreases |items|
  {
    if items != [] {
      DecodedRolesCanonical(items[..|items| - 1]);
    }
  }

  /** Decoding always yields a canonical record. */
  lemma DecodedIsCanonical(raw: Value, nowMs: U64)
    ensures Decode(raw, nowMs).Some? ==> Canonical(Decode(raw, nowMs).value)
  {
    DecodedRolesCanonical(ItemsFrom(raw.Get("txs")));
  }

  /** Re-encoding what was decoded loses nothing: unknown fields and roles survive any number of trips. */
  lemma DecodeEncodeDecode(raw: Value, nowMs: U64, laterMs: U64)
    requires Decode(raw, nowMs).Some?
    ensures Decode(Encode(Decode(raw, nowMs).value), laterMs) == Decode(raw, nowMs)
  {
    DecodedIsCanonical(raw, nowMs);
    RecordRoundTrip(Decode(raw, nowMs).value, laterMs);
  }

  // ----- What the decoder makes of any object -------------------------------------------

  /** A record is rejected exactly when it has no textual channel id. */
  lemma DecodesIff(raw: Value, nowMs: U64)
    ensures Decode(raw, nowMs).Some? <==> exists id :: raw.Get("channelId") == Some(Str(id))
  {
  }

  /** The text fields: a spelling the decoder does not know counts as unknown. */
  lemma TextsAreRead(raw: Value, nowMs: U64)
    requires Decode(raw, nowMs).Some?
    ensures var r := Decode(raw, nowMs).value;
            && raw.Get("channelId") == Some(Str(r.channelId))
            && (r.closeType == Coop <==> raw.Get("closeType") == Some(Str("coop")))
            && (r.closeType == Force <==> raw.Get("closeType") == Some(Str("force")))
            && (r.initiator == Local <==> raw.Get("initiator") == Some(Str("local")))
            && (r.initiator == Remote <==> raw.Get("initiator") == Some(Str("remote")))
            && (r.resolution == Some(Verified) <==> raw.Get("resolution") == Some(Str("verified")))
            && (r.resolution == Some(Unverified) <==> raw.Get("resolution") == Some(Str("unverified")))
            && (forall text :: r.closureReason == Some(text) <==> raw.Get("closureReason") == Some(Str(text)))
  {
  }

  /** The number fields: a missing or malformed version is 1, a creation time is now, any other number is absent. */
  lemma NumbersAreRead(raw: Value, nowMs: U64)
    requires Decode(raw, nowMs).Some?
    ensures var r := Decode(raw, nowMs).value;
            && r.schemaVersion == (match raw.Get("schemaVersion") case Some(Num(Unsigned(n))) => n case _ => 1)
            && r.createdAtMs == (match raw.Get("createdAt") case Some(Num(Unsigned(n))) => n case _ => nowMs)
            && r.completedAtMs == (match raw.Get("completedAt") case Some(Num(Unsigned(n))) => Some(n) case _ => None)
            && r.timelockBlocks == HeightRead(raw.Get("timelockBlocks"))
            && r.claimableAt == HeightRead(raw.Get("claimableAtHeight"))
  {
  }

  /** Heights are cut to their low 32 bits. */
  function HeightRead(v: Option<Value>): Option<U32> {
    match v
    case Some(Num(Unsigned(n))) => Some(n % 0x1_0000_0000)
    case _ => None
  }

  /** An amount is a number, or the text of one; the texts are those of `Decimal.ParsesIff`. */
  function AmountRead(v: Option<Value>): Option<U64> {
    match v
    case Some(Num(Unsigned(n))) => Some(n)
    case Some(Str(text)) => ParseU64(text)
    case _ => None
  }

  /** The amount and the funding output, which needs both its parts. */
  lemma AmountAndOutpointAreRead(raw: Value, nowMs: U64)
    requires Decode(raw, nowMs).Some?
    ensures var r := Decode(raw, nowMs).value;
            && r.expectedAmountSats == AmountRead(raw.Get("expectedAmountSats"))
            && r.fundingTxo == (match raw.Get("fundingTxo")
                                case None => None
                                case Some(o) =>
                                  match (o.Get("txid"), o.Get("vout"))
                                  case (Some(Str(txid)), Some(Num(Unsigned(n)))) =>
                                    Some(Outpoint(txid, n % 0x1_0000_0000))
                                  case _ => None)
  {
  }

  /** One transaction entry: skipped without a textual txid, a closing one without a role, else as it says. */
  lemma TxIsRead(v: Value)
    ensures match v.Get("txid")
            case Some(Str(txid)) =>
              && DecodeTx(v).Some?
              && var tx := DecodeTx(v).value;
                 && tx.txid == txid
                 && RoleName(tx.role) == (match v.Get("role") case Some(Str(name)) => name case _ => "closing")
                 && (tx.role.Other? ==>
                       tx.role.name !in {"closing", "commitment", "anchor_cpfp", "htlc_claim", "sweep"})
                 && tx.feeSats == AmountRead(v.Get("feeSats"))
                 && tx.confirmedAt == HeightRead(v.Get("confirmedAtHeight"))
            case _ => DecodeTx(v) == None
  {
  }

  /** The transactions of a record are its array's entries in order, without the skipped ones. */
  lemma {:induction false} TxsAreRead(raw: Value, nowMs: U64, items: seq<Value>)
    requires Decode(raw, nowMs).Some? && raw.Get("txs") == Some(Arr(items))
    requires forall i :: 0 <= i < |items| ==> DecodeTx(items[i]).Some?
    ensures var txs := Decode(raw, nowMs).value.txs;
            |txs| == |items| && forall i :: 0 <= i < |items| ==> txs[i] == DecodeTx(items[i]).value
  {
    AllAreRead(items);
  }

  lemma {:induction false} AllAreRead(items: seq<Value>)
    requires forall i :: 0 <= i < |items| ==> DecodeTx(items[i]).Some?
    ensures |DecodeTxs(items)| == |items|
    ensures forall i :: 0 <= i < |items| ==> DecodeTxs(items)[i] == DecodeTx(items[i]).value
    decreases |items|
  {
    if items != [] {
      AllAreRead(items[..|items| - 1]);
    }
  }

  lemma {:induction false} SkippedEntry(before: seq<Value>, v: Value, after: seq<Value>)
    requires DecodeTx(v).None?
    ensures DecodeTxs(before + [v] + after) == DecodeTxs(before + after)
    decreases |after|
  {
    if after == [] {
      assert before + [v] + after == before + [v] && before + after == before;
    } else {
      var front, last := after[..|after| - 1], after[|after| - 1];
      SkippedEntry(before, v, front);
      assert before + [v] + after == (before + [v] + front) + [last];
      assert before + after == (before + front) + [last];
    }
  }

  // ----- The whole map ------------------------------------------------------------------

  /** The map as one object, each record under its channel id. */
  function EncodeMap(records: map<string, CloseRecord>): Value {
    Obj(map c | c in records :: Encode(records[c]))
  }

  /** Decoding visits the members in the object's iteration order; a later member wins its channel id. */
  function DecodeMap(raw: Value, order: seq<string>, nowMs: U64): map<string, CloseRecord>
    decreases |order|
  {
    if order == [] then map[]
    else
      var done := DecodeMap(raw, order[..|order| - 1], nowMs);
      var member := raw.Get(order[|order| - 1]);
      var record := if member.Some? then Decode(member.value, nowMs) else None;
      if record.Some? then done[record.value.channelId := record.value] else done
  }

  method DecodeRecordsMap(raw: Value, order: seq<string>, nowMs: U64) returns (records: map<string, CloseRecord>)
    ensures records == DecodeMap(raw, order, nowMs)
  {
    records := map[];
    for n := 0 to |order|
      invariant records == DecodeMap(raw, order[..n], nowMs)
    {
      assert order[..n + 1][..n] == order[..n];
      var member := raw.Get(order[n]);
      if member.Some? {
        var record := DeserializeCloseRecord(member.value, nowMs);
        if record.Some? {
          records := records[record.value.channelId := record.value];
        }
      }
    }
    assert order[..|order|] == order;
  }

  /** The last visited member that holds a channel decides its record. */
  lemma {:induction false} LastHeldWins(raw: Value, order: seq<string>, nowMs: U64, c: string, i: nat)
    requires i < |order| && Holds(raw, order[i], c)
    requires forall j :: i < j < |order| ==> !Holds(raw, order[j], c)
    ensures c in DecodeMap(raw, order, nowMs)
    ensures Decode(raw.Get(order[i]).value, nowMs) == Some(DecodeMap(raw, order, nowMs)[c])
    decreases |order|
  {
    var last := |order| - 1;
    if i < last {
      assert !Holds(raw, order[last], c);
      LastHeldWins(raw, order[..last], nowMs, c, i);
    }
  }

  /** Every record is canonical and sits under its own channel id. */
  ghost predicate WellFormed(records: map<string, CloseRecord>) {
    forall c :: c in records ==> records[c].channelId == c && Canonical(records[c])
  }

  lemma {:induction false} DecodedMapWellFormed(raw: Value, order: seq<string>, nowMs: U64)
    ensures WellFormed(DecodeMap(raw, order, nowMs))
    decreases |order|
  {
    if order != [] {
      DecodedMapWellFormed(raw, order[..|order| - 1], nowMs);
      var member := raw.Get(order[|order| - 1]);
      if member.Some? {
        DecodedIsCanonical(member.value, nowMs);
      }
    }
  }

  lemma {:induction false} DecodePrefix(records: map<string, CloseRecord>, order: seq<string>, nowMs: U64)
    requires WellFormed(records)
    ensures DecodeMap(EncodeMap(records), order, nowMs) == map c | c in records && c in order :: records[c]
    decreases |order|
  {
    if order != [] {
      var last := order[|order| - 1];
      var front := order[..|order| - 1];
      DecodePrefix(records, front, nowMs);
      assert order == front + [last];
      if last in records {
        RecordRoundTrip(records[last], nowMs);
        assert EncodeMap(records).Get(last) == Some(Encode(records[last]));
      } else {
        assert EncodeMap(records).Get(last) == None;
      }
    }
  }

  /** Reloading a persisted map gives the map back, in whatever order its members are visited. */
  lemma MapRoundTrip(records: map<string, CloseRecord>, order: seq<string>, nowMs: U64)
    requires WellFormed(records)
    requires forall c :: c in records ==> c in order
    ensures DecodeMap(EncodeMap(records), order, nowMs) == records
  {
    DecodePrefix(records, order, nowMs);
  }

  // ----- Which channels a stored map holds ----------------------------------------------

  /** The order lists every member of the object. */
  ghost predicate Visits(raw: Value, order: seq<string>) {
    forall k :: raw.Get(k).Some? ==> k in order
  }

  /** The member `k` decodes to a record of channel `c`. */
  predicate Holds(raw: Value, k: string, c: string) {
    raw.Get(k).Some? && StrFrom(raw.Get(k).value.Get("channelId")) == Some(c)
  }

  /** A channel is in the decoded map exactly when some visited member holds it. */
  lemma {:induction false} DecodedIffHeld(raw: Value, order: seq<string>, nowMs: U64, c: string)
    ensures c in DecodeMap(raw, order, nowMs) <==> exists i :: 0 <= i < |order| && Holds(raw, order[i], c)
    decreases |order|
  {
    if order != [] {
      var last := |order| - 1;
      DecodedIffHeld(raw, order[..last], nowMs, c);
      if i :| 0 <= i < |order| && Holds(raw, order[i], c) {
        assert i < last ==> order[..last][i] == order[i];
      }
      if i :| 0 <= i < last && Holds(raw, order[..last][i], c) {
        assert Holds(raw, order[i], c);
      }
      assert Holds(raw, order[last], c) ==> c in DecodeMap(raw, order, nowMs);
    }
  }

  /** The stored object holds exactly the channels of `ids`. */
  ghost predicate HoldsExactly(raw: Value, ids: set<string>) {
    forall c :: c in ids <==> exists k :: Holds(raw, k, c)
  }

  /** Any two loads of one object find the same channels, whatever the clock and the order. */
  lemma LoadFindsHeld(raw: Value, order: seq<string>, nowMs: U64)
    requires Visits(raw, order)
    ensures HoldsExactly(raw, DecodeMap(raw, order, nowMs).Keys)
  {
    forall c ensures c in DecodeMap(raw, order, nowMs) <==> exists k :: Holds(raw, k, c) {
      DecodedIffHeld(raw, order, nowMs, c);
      if k :| Holds(raw, k, c) {
        var i :| 0 <= i < |order| && order[i] == k;
        assert Holds(raw, order[i], c);
      }
    }
  }

  lemma EncodedHolds(records: map<string, CloseRecord>)
    requires WellFormed(records)
    ensures HoldsExactly(EncodeMap(records), records.Keys)
  {
    var raw := EncodeMap(records);
    forall k, c ensures Holds(raw, k, c) <==> k == c && c in records {
      if k in records {
        TextFieldsRoundTrip(records[k]);
        assert raw.Get(k) == Some(Encode(records[k]));
      } else {
        assert raw.Get(k) == None;
      }
    }
    forall c ensures c in records <==> exists k :: Holds(raw, k, c) {
      assert c in records ==> Holds(raw, c, c);
    }
  }
}
