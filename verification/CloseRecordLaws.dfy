/** Algebraic laws of the close-record merge. */
module CloseRecordLaws {
  import opened Prelude
  import opened CloseRecords

  // ----- Union of transactions ----------------------------------------------------------

  lemma {:induction false} UnionFacts(a: seq<CloseTx>, b: seq<CloseTx>)
    ensures var r := UnionTxs(a, b);
            && |a| <= |r|
            && (forall i :: 0 <= i < |a| ==> r[i].txid == a[i].txid)
            && (forall id :: HasTxid(r, id) <==> HasTxid(a, id) || HasTxid(b, id))
            && (DistinctTxids(a) ==> DistinctTxids(r))
    decreases |b|
  {
    if b != [] {
      var last := |b| - 1;
      var front := b[..last];
      UnionFacts(a, front);
      AddTxFacts(UnionTxs(a, front), b[last]);
      forall id ensures HasTxid(b, id) <==> HasTxid(front, id) || id == b[last].txid {
        if HasTxid(front, id) {
          var k :| 0 <= k < |front| && front[k].txid == id;
          assert b[k].txid == id;
        }
        if HasTxid(b, id) {
          var k :| 0 <= k < |b| && b[k].txid == id;
          assert k < last ==> front[k].txid == id;
        }
      }
    }
  }

  lemma AddTxTwice(u: seq<CloseTx>, y: CloseTx, x: CloseTx)
    requires x.txid == y.txid
    ensures AddTx(AddTx(u, y), x) == AddTx(u, FillTx(y, x))
  {
    var i := IndexOf(u, y.txid);
    var v := AddTx(u, y);
    assert v[i].txid == x.txid;
    assert forall j :: 0 <= j < i ==> v[j].txid == u[j].txid;
    assert IndexOf(v, x.txid) == i;
  }

  lemma IndexOfAddTx(u: seq<CloseTx>, x: CloseTx, id: string)
    requires HasTxid(u, id)
    ensures IndexOf(AddTx(u, x), id) == IndexOf(u, id) < |u|
  {
    AddTxFacts(u, x);
    var v := AddTx(u, x);
    var i := IndexOf(u, id);
    assert v[i].txid == id;
    assert forall j :: 0 <= j < i ==> v[j].txid == u[j].txid;
  }

  /** Filling in one listed transaction leaves every other as it was. */
  lemma AddTxElsewhere(u: seq<CloseTx>, x: CloseTx, y: CloseTx)
    requires x.txid != y.txid && HasTxid(u, x.txid)
    ensures IndexOf(AddTx(u, x), y.txid) == IndexOf(u, y.txid)
    ensures |AddTx(u, x)| == |u|
    ensures IndexOf(u, y.txid) < |u| ==> AddTx(u, x)[IndexOf(u, y.txid)] == u[IndexOf(u, y.txid)]
  {
    AddTxFacts(u, x);
    if HasTxid(u, y.txid) {
      IndexOfAddTx(u, x, y.txid);
    }
  }

  lemma AddTxCommute(u: seq<CloseTx>, x: CloseTx, y: CloseTx)
    requires x.txid != y.txid
    requires HasTxid(u, x.txid)
    ensures AddTx(AddTx(u, x), y) == AddTx(AddTx(u, y), x)
  {
    var i, k := IndexOf(u, x.txid), IndexOf(u, y.txid);
    AddTxElsewhere(u, x, y);
    IndexOfAddTx(u, y, x.txid);
    assert AddTx(u, x) == u[i := FillTx(u[i], x)];
    if k < |u| {
      assert AddTx(u, y) == u[k := FillTx(u[k], y)] && i != k;
    } else {
      assert AddTx(u, y) == u + [y];
    }
  }

  lemma UnionSnoc(a: seq<CloseTx>, s: seq<CloseTx>, x: CloseTx)
    ensures UnionTxs(a, s + [x]) == AddTx(UnionTxs(a, s), x)
  {
    assert (s + [x])[..|s|] == s;
  }

  /** Adding one transaction to the right operand is adding it to the union. */
  lemma {:induction false} UnionAddTx(a: seq<CloseTx>, s: seq<CloseTx>, x: CloseTx)
    requires DistinctTxids(s)
    ensures UnionTxs(a, AddTx(s, x)) == AddTx(UnionTxs(a, s), x)
    decreases |s|, 1
  {
    var i := IndexOf(s, x.txid);
    if i == |s| {
      UnionSnoc(a, s, x);
    } else {
      var last := |s| - 1;
      var front, y := s[..last], s[last];
      assert s == front + [y];
      UnionSnoc(a, front, y);
      if i == last {
        assert AddTx(s, x) == front + [FillTx(y, x)];
        UnionSnoc(a, front, FillTx(y, x));
        AddTxTwice(UnionTxs(a, front), y, x);
      } else {
        UnionAddTxInFront(a, front, y, x);
      }
    }
  }

  lemma {:induction false} UnionAddTxInFront(a: seq<CloseTx>, front: seq<CloseTx>, y: CloseTx, x: CloseTx)
    requires DistinctTxids(front + [y])
    requires IndexOf(front + [y], x.txid) < |front|
    ensures UnionTxs(a, AddTx(front + [y], x)) == AddTx(AddTx(UnionTxs(a, front), y), x)
    decreases |front| + 1, 0
  {
    var s := front + [y];
    var i := IndexOf(s, x.txid);
    assert s[i] == front[i];
    assert IndexOf(front, x.txid) == i by {
      assert forall j :: 0 <= j < |front| ==> s[j] == front[j];
    }
    assert s[|front|].txid != x.txid;
    assert AddTx(s, x) == AddTx(front, x) + [y];
    UnionSnoc(a, AddTx(front, x), y);
    assert DistinctTxids(front) by {
      assert forall j :: 0 <= j < |front| ==> s[j] == front[j];
    }
    UnionAddTx(a, front, x);
    UnionFacts(a, front);
    assert HasTxid(front, x.txid);
    AddTxCommute(UnionTxs(a, front), x, y);
  }

  lemma {:induction false} UnionAssociative(a: seq<CloseTx>, b: seq<CloseTx>, c: seq<CloseTx>)
    requires DistinctTxids(b)
    ensures UnionTxs(UnionTxs(a, b), c) == UnionTxs(a, UnionTxs(b, c))
    decreases |c|
  {
    if c != [] {
      var front := c[..|c| - 1];
      UnionAssociative(a, b, front);
      UnionFacts(b, front);
      UnionAddTx(a, UnionTxs(b, front), c[|c| - 1]);
    }
  }

  /** Re-adding entries a distinct list already holds changes nothing. */
  lemma {:induction false} UnionAbsorbs(a: seq<CloseTx>, b: seq<CloseTx>)
    requires DistinctTxids(a)
    requires forall i :: 0 <= i < |b| ==> b[i] in a
    ensures UnionTxs(a, b) == a
    decreases |b|
  {
    if b != [] {
      var last := |b| - 1;
      UnionAbsorbs(a, b[..last]);
      var k :| 0 <= k < |a| && a[k] == b[last];
      var i := IndexOf(a, b[last].txid);
      assert i == k;
      assert FillTx(a[k], a[k]) == a[k];
    }
  }

  // ----- The merge ----------------------------------------------------------------------

  lemma ExtrasAssociative<K, V>(a: map<K, V>, b: map<K, V>, c: map<K, V>)
    ensures c + (b + a) == (c + b) + a
  {
  }

  /** Associativity. Only the middle record needs distinct txids. */
  lemma MergeAssociative(a: CloseRecord, b: CloseRecord, c: CloseRecord)
    requires DistinctTxids(b.txs)
    ensures Merge(Merge(a, b), c) == Merge(a, Merge(b, c))
  {
    UnionAssociative(a.txs, b.txs, c.txs);
    ExtrasAssociative(a.extras, b.extras, c.extras);
  }

  lemma MergeIdempotent(a: CloseRecord)
    requires DistinctTxids(a.txs)
    ensures Merge(a, a) == a
  {
    UnionAbsorbs(a.txs, a.txs);
    assert a.extras + a.extras == a.extras;
  }

  lemma MergeKeepsDistinct(a: CloseRecord, b: CloseRecord)
    requires DistinctTxids(a.txs)
    ensures DistinctTxids(Merge(a, b).txs)
  {
    UnionFacts(a.txs, b.txs);
  }

  /** Facts combined in some order of pairwise merges. */
  datatype Bracketing = Leaf(facts: CloseRecord) | Node(left: Bracketing, right: Bracketing)

  function Evaluate(t: Bracketing): CloseRecord {
    match t
    case Leaf(facts) => facts
    case Node(left, right) => Merge(Evaluate(left), Evaluate(right))
  }

  function Leaves(t: Bracketing): (s: seq<CloseRecord>)
    ensures |s| >= 1
  {
    match t
    case Leaf(facts) => [facts]
    case Node(left, right) => Leaves(left) + Leaves(right)
  }

  /** Facts merged one at a time onto a first record, as a store receives them. */
  function FoldMerge(first: CloseRecord, rest: seq<CloseRecord>): CloseRecord
    decreases |rest|
  {
    if rest == [] then first
    else Merge(FoldMerge(first, rest[..|rest| - 1]), rest[|rest| - 1])
  }

  ghost predicate AllDistinct(s: seq<CloseRecord>) {
    forall i :: 0 <= i < |s| ==> DistinctTxids(s[i].txs)
  }

  lemma {:induction false} FoldMergeDistinct(first: CloseRecord, rest: seq<CloseRecord>)
    requires DistinctTxids(first.txs)
    ensures DistinctTxids(FoldMerge(first, rest).txs)
    decreases |rest|
  {
    if rest != [] {
      FoldMergeDistinct(first, rest[..|rest| - 1]);
      MergeKeepsDistinct(FoldMerge(first, rest[..|rest| - 1]), rest[|rest| - 1]);
    }
  }

  /** Merging a whole folded batch is folding its members in one by one. */
  lemma {:induction false} FoldMergeSplit(r: CloseRecord, first: CloseRecord, rest: seq<CloseRecord>)
    requires DistinctTxids(first.txs)
    ensures FoldMerge(Merge(r, first), rest) == Merge(r, FoldMerge(first, rest))
    decreases |rest|
  {
    if rest != [] {
      var front := rest[..|rest| - 1];
      FoldMergeSplit(r, first, front);
      FoldMergeDistinct(first, front);
      MergeAssociative(r, FoldMerge(first, front), rest[|rest| - 1]);
    }
  }

  lemma {:induction false} FoldMergeConcat(first: CloseRecord, s: seq<CloseRecord>, t: seq<CloseRecord>)
    ensures FoldMerge(first, s + t) == FoldMerge(FoldMerge(first, s), t)
    decreases |t|
  {
    if t == [] {
      assert s + t == s;
    } else {
      var n := |t| - 1;
      assert (s + t)[..|s + t| - 1] == s + t[..n];
      FoldMergeConcat(first, s, t[..n]);
    }
  }

  lemma FoldMergeCons(first: CloseRecord, next: CloseRecord, rest: seq<CloseRecord>)
    ensures FoldMerge(first, [next] + rest) == FoldMerge(Merge(first, next), rest)
  {
    FoldMergeConcat(first, [next], rest);
    assert [next][..0] == [];
    assert FoldMerge(first, [next]) == Merge(first, next);
  }

  lemma FoldMergeJoin(l: seq<CloseRecord>, r: seq<CloseRecord>)
    requires l != [] && r != [] && DistinctTxids(r[0].txs)
    ensures FoldMerge((l + r)[0], (l + r)[1..]) == Merge(FoldMerge(l[0], l[1..]), FoldMerge(r[0], r[1..]))
  {
    assert (l + r)[1..] == l[1..] + r;
    var a := FoldMerge(l[0], l[1..]);
    FoldMergeConcat(l[0], l[1..], r);
    assert [r[0]] + r[1..] == r;
    FoldMergeCons(a, r[0], r[1..]);
    FoldMergeSplit(a, r[0], r[1..]);
  }

  lemma AllDistinctParts(l: seq<CloseRecord>, r: seq<CloseRecord>)
    requires AllDistinct(l + r)
    ensures AllDistinct(l) && AllDistinct(r)
  {
    var both := l + r;
    assert forall i :: 0 <= i < |l| ==> both[i] == l[i];
    assert forall i :: 0 <= i < |r| ==> both[|l| + i] == r[i];
  }

  /** Any bracketing of a sequence of facts gives the record a store builds one fact at a time. */
  lemma {:induction false} AnyBracketingIsTheFold(t: Bracketing)
    requires AllDistinct(Leaves(t))
    ensures Evaluate(t) == FoldMerge(Leaves(t)[0], Leaves(t)[1..])
    decreases t
  {
    match t
    case Leaf(_) =>
    case Node(left, right) =>
      var l, r := Leaves(left), Leaves(right);
      AllDistinctParts(l, r);
      AnyBracketingIsTheFold(left);
      AnyBracketingIsTheFold(right);
      FoldMergeJoin(l, r);
  }

}
