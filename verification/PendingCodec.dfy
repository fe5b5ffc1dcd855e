/** The stored form of a pending broadcast: the creation time in eight little-endian bytes, then the transaction. */
module PendingCodec {
  import opened Prelude

  type Byte = n: int | 0 <= n < 256

  function Pow256(k: nat): (r: nat)
    ensures r > 0
  {
    if k == 0 then 1 else 256 * Pow256(k - 1)
  }

  /** The `k` low bytes of `n`, least significant first. */
  function LittleEndian(n: nat, k: nat): (bytes: seq<Byte>)
    ensures |bytes| == k
  {
    if k == 0 then [] else [n % 256] + LittleEndian(n / 256, k - 1)
  }

  function FromLittleEndian(bytes: seq<Byte>): nat {
    if bytes == [] then 0 else bytes[0] + 256 * FromLittleEndian(bytes[1..])
  }

  lemma {:induction false} LittleEndianRoundTrip(n: nat, k: nat)
    requires n < Pow256(k)
    ensures FromLittleEndian(LittleEndian(n, k)) == n
    decreases k
  {
    if k > 0 {
      LittleEndianRoundTrip(n / 256, k - 1);
      assert LittleEndian(n, k)[1..] == LittleEndian(n / 256, k - 1);
    }
  }

  /** Byte `i` is the `i`-th lowest byte of the number. */
  lemma {:induction false} LittleEndianByte(n: nat, k: nat, i: nat)
    requires i < k
    ensures LittleEndian(n, k)[i] == n / Pow256(i) % 256
    decreases k
  {
    if i > 0 {
      LittleEndianByte(n / 256, k - 1, i - 1);
      DivideTwice(n, i);
    }
  }

  lemma DivideTwice(n: nat, i: nat)
    requires i > 0
    ensures n / 256 / Pow256(i - 1) == n / Pow256(i)
  {
    var q, p := n / 256, Pow256(i - 1);
    var d, r, m := q / p, q % p, n % 256;
    assert n == 256 * (p * d + r) + m;
    assert n == (256 * p) * d + (256 * r + m);
    assert 0 <= 256 * r + m < 256 * p;
    QuotientOf(n, 256 * p, d, 256 * r + m);
  }

  lemma SmallMultiple(p: int, x: int)
    requires 0 < p && -p < p * x < p
    ensures x == 0
  {
    assert x > 0 ==> p * x >= p;
    assert x < 0 ==> p * x <= -p;
  }

  lemma QuotientOf(n: nat, p: nat, d: nat, r: nat)
    requires n == p * d + r && r < p
    ensures n / p == d
  {
    var e: int, m: int := n / p, n % p;
    assert p * (d - e) == m - r;
    SmallMultiple(p, d - e);
  }

  /** The transaction's own consensus serialization. */
  datatype TxFormat<!T> = TxFormat(serialize: T -> seq<Byte>, deserialize: seq<Byte> -> Option<T>)

  ghost predicate Invertible<T(!new)>(f: TxFormat<T>) {
    forall tx: T :: f.deserialize(f.serialize(tx)) == Some(tx)
  }

  function EncodePending<T>(f: TxFormat<T>, createdAtSecs: U64, tx: T): seq<Byte> {
    LittleEndian(createdAtSecs, 8) + f.serialize(tx)
  }

  /** `None` on an entry too short for its time stamp or with an unreadable transaction. */
  function DecodePending<T>(f: TxFormat<T>, bytes: seq<Byte>): Option<(nat, T)> {
    if |bytes| < 8 then None
    else
      var tx := f.deserialize(bytes[8..]);
      if tx.Some? then Some((FromLittleEndian(bytes[..8]), tx.value)) else None
  }

  /** The stored form: eight bytes of time, lowest first, and then nothing but the transaction. */
  lemma PendingForm<T>(f: TxFormat<T>, createdAtSecs: U64, tx: T, i: nat)
    requires i < 8
    ensures var bytes := EncodePending(f, createdAtSecs, tx);
            && |bytes| >= 8 && bytes[8..] == f.serialize(tx)
            && bytes[i] == createdAtSecs / Pow256(i) % 256
  {
    LittleEndianByte(createdAtSecs, 8, i);
    assert EncodePending(f, createdAtSecs, tx)[8..] == f.serialize(tx);
  }

  /** Reading fails exactly on an entry without a whole time stamp or with an unreadable transaction behind it. */
  lemma DecodeFailsIff<T>(f: TxFormat<T>, bytes: seq<Byte>)
    ensures DecodePending(f, bytes).None? <==> |bytes| < 8 || f.deserialize(bytes[8..]).None?
  {
  }

  /** Every stored entry reads back with its time and its transaction. */
  lemma PendingRoundTrip<T(!new)>(f: TxFormat<T>, createdAtSecs: U64, tx: T)
    requires Invertible(f)
    ensures DecodePending(f, EncodePending(f, createdAtSecs, tx)) == Some((createdAtSecs, tx))
  {
    LittleEndianRoundTrip(createdAtSecs, 8);
    var bytes := EncodePending(f, createdAtSecs, tx);
    assert bytes[..8] == LittleEndian(createdAtSecs, 8);
    assert bytes[8..] == f.serialize(tx);
  }
}
