/**
 The cached fee estimator: Esplora estimates (block count to sat/vB) become one sat/kW answer per
 confirmation target, clamped at a ceiling and raised to a floor per target.
 */
module Fees {
  import opened Prelude

  const FEERATE_FLOOR_SATS_PER_KW: U32 := 253
  const MAX_FEE_RATE_SAT_PER_KW: U32 := 500_000
  const U64_MAX: U64 := U64_SIZE - 1
  const SECOND: nat := 1_000_000_000
  const FEE_CACHE_TTL: nat := 60 * SECOND
  const FEE_REFRESH_BACKOFF: nat := 15 * SECOND

  /** A fee rate as the endpoint may report it. Rounding of the 64-bit format is not modelled. */
  datatype Rate = NaN | NegInf | PosInf | Fin(value: real)

  type Estimates = map<U16, Rate>
  type Entry = (U16, Rate)

  datatype Target =
    | MaximumFeeEstimate
    | UrgentOnChainSweep
    | MinAllowedAnchorChannelRemoteFee
    | MinAllowedNonAnchorChannelRemoteFee
    | AnchorChannelFee
    | NonAnchorChannelFee
    | ChannelCloseMinimum
    | OutputSpendingFee

  datatype Row = Row(target: Target, blocks: U16, floor: U32)

  const TARGET_TABLE: seq<Row> := [
    Row(MaximumFeeEstimate, 1, 50_000),
    Row(UrgentOnChainSweep, 3, 2_500),
    Row(MinAllowedAnchorChannelRemoteFee, 144, FEERATE_FLOOR_SATS_PER_KW),
    Row(MinAllowedNonAnchorChannelRemoteFee, 144, FEERATE_FLOOR_SATS_PER_KW),
    Row(AnchorChannelFee, 6, 2_500),
    Row(NonAnchorChannelFee, 6, 5_000),
    Row(ChannelCloseMinimum, 12, 1_000),
    Row(OutputSpendingFee, 12, 5_000)
  ]

  /** The cache slot of a target is the row that names it. */
  function TargetIndex(target: Target): (i: nat)
    ensures i < |TARGET_TABLE| && TARGET_TABLE[i].target == target
  {
    match target
    case MaximumFeeEstimate => 0
    case UrgentOnChainSweep => 1
    case MinAllowedAnchorChannelRemoteFee => 2
    case MinAllowedNonAnchorChannelRemoteFee => 3
    case AnchorChannelFee => 4
    case NonAnchorChannelFee => 5
    case ChannelCloseMinimum => 6
    case OutputSpendingFee => 7
  }

  // ----- Rates --------------------------------------------------------------------------

  /** IEEE `<=`: nothing compares with NaN. */
  predicate AtMost(a: Rate, b: Rate) {
    match (a, b)
    case (NaN, _) => false
    case (_, NaN) => false
    case (NegInf, _) => true
    case (_, PosInf) => true
    case (Fin(x), Fin(y)) => x <= y
    case _ => false
  }

  /** `rate.max(1.0)`: a NaN operand is ignored. */
  function AtLeastOne(rate: Rate): (r: Rate)
    ensures AtMost(Fin(1.0), r)
    ensures AtMost(Fin(1.0), rate) ==> r == rate
    ensures !AtMost(Fin(1.0), rate) ==> r == Fin(1.0)
  {
    match rate
    case NaN => Fin(1.0)
    case NegInf => Fin(1.0)
    case PosInf => PosInf
    case Fin(x) => Fin(if x <= 1.0 then 1.0 else x)
  }

  /** `(rate * 250.0).round() as u64`: half away from zero, then a saturating cast. */
  function SatPerKw(rate: Rate): U64 {
    match rate
    case NaN => 0
    case NegInf => 0
    case PosInf => U64_MAX
    case Fin(x) =>
      var n := (x * 250.0 + 0.5).Floor;
      if n <= 0 then 0 else if n <= U64_MAX then n else U64_MAX
  }

  function ClampAndFloor(rate: Rate, floor: U32): (r: U32)
    ensures Max(floor, 253) <= r <= Max(500_000, floor)
  {
    Max(Max(Min(SatPerKw(rate), MAX_FEE_RATE_SAT_PER_KW), floor), FEERATE_FLOOR_SATS_PER_KW)
  }

  /** Strictly between the bounds the answer is the integer nearest to 250 times the rate, ties rounded up. */
  lemma ClampIsNearest(x: real, floor: U32)
    requires 253 <= floor <= 500_000
    ensures var r := ClampAndFloor(Fin(x), floor);
            && (floor < r < 500_000 ==> r as real - 0.5 <= 250.0 * x < r as real + 0.5)
            && (r == floor < 500_000 <==> floor < 500_000 && 250.0 * x < floor as real + 0.5)
            && (floor < r == 500_000 <==> floor < 500_000 && 499_999.5 <= 250.0 * x)
  {
    var n := (x * 250.0 + 0.5).Floor;
    assert n as real <= x * 250.0 + 0.5 < n as real + 1.0;
  }

  lemma ClampIsMonotone(a: Rate, b: Rate, floor: U32)
    requires AtMost(a, b)
    ensures ClampAndFloor(a, floor) <= ClampAndFloor(b, floor)
  {
    if a.Fin? && b.Fin? {
      assert (a.value * 250.0 + 0.5).Floor <= (b.value * 250.0 + 0.5).Floor;
    }
  }

  // ----- Lookup -------------------------------------------------------------------------

  /** The simple form: the rate of the largest block count not above the target, scanning down; else 1. */
  function ScanDown(estimates: Estimates, target: U16): (r: Rate) {
    if target in estimates then AtLeastOne(estimates[target])
    else if target == 0 then Fin(1.0)
    else ScanDown(estimates, target - 1)
  }

  predicate LargestNotAbove(estimates: Estimates, target: U16, k: U16) {
    k in estimates && k <= target && forall j :: j in estimates && j <= target ==> j <= k
  }

  lemma {:induction false} ScanDownFinds(estimates: Estimates, target: U16, k: U16)
    requires LargestNotAbove(estimates, target, k)
    ensures ScanDown(estimates, target) == AtLeastOne(estimates[k])
  {
    if target !in estimates {
      ScanDownFinds(estimates, target - 1, k);
    }
  }

  lemma {:induction false} ScanDownDefaults(estimates: Estimates, target: U16)
    requires forall k :: k in estimates ==> target < k
    ensures ScanDown(estimates, target) == Fin(1.0)
  {
    if target > 0 {
      ScanDownDefaults(estimates, target - 1);
    }
  }

  predicate Ascending(entries: seq<Entry>) {
    forall i, j :: 0 <= i < j < |entries| ==> entries[i].0 < entries[j].0
  }

  /** `entries` lists exactly the bindings of `estimates` at keys in `taken`. */
  ghost predicate Lists(entries: seq<Entry>, estimates: Estimates, taken: set<U16>) {
    && (forall i :: 0 <= i < |entries| ==>
          entries[i].0 in taken && entries[i].0 in estimates && estimates[entries[i].0] == entries[i].1)
    && (forall k :: k in taken ==> exists i :: 0 <= i < |entries| && entries[i].0 == k)
  }

  /** The number of leading entries with at most `bound` blocks. */
  method PartitionPoint(sorted: seq<Entry>, bound: U16) returns (split: nat)
    requires Ascending(sorted)
    ensures split <= |sorted|
    ensures forall i :: 0 <= i < |sorted| ==> (i < split <==> sorted[i].0 <= bound)
  {
    var low, high := 0, |sorted|;
    while low < high
      invariant 0 <= low <= high <= |sorted|
      invariant forall i :: 0 <= i < low ==> sorted[i].0 <= bound
      invariant forall i :: high <= i < |sorted| ==> bound < sorted[i].0
    {
      var mid := (low + high) / 2;
      if sorted[mid].0 <= bound {
        low := mid + 1;
      } else {
        high := mid;
      }
    }
    split := low;
  }

  function InsertAt(entries: seq<Entry>, split: nat, e: Entry): (t: seq<Entry>)
    requires split <= |entries|
    ensures |t| == |entries| + 1 && t[split] == e
    ensures forall i :: 0 <= i < |t| ==>
              t[i] == if i < split then entries[i] else if i == split then e else entries[i - 1]
  {
    entries[..split] + [e] + entries[split..]
  }

  lemma InsertKeepsAscending(entries: seq<Entry>, split: nat, e: Entry)
    requires Ascending(entries) && split <= |entries|
    requires forall i :: 0 <= i < |entries| ==> entries[i].0 != e.0 && (i < split <==> entries[i].0 <= e.0)
    ensures Ascending(InsertAt(entries, split, e))
  {
  }

  lemma InsertKeepsListing(entries: seq<Entry>, estimates: Estimates, taken: set<U16>, k: U16, split: nat)
    requires Lists(entries, estimates, taken) && k in estimates && split <= |entries|
    ensures Lists(InsertAt(entries, split, (k, estimates[k])), estimates, taken + {k})
  {
    var t := InsertAt(entries, split, (k, estimates[k]));
    forall j | j in taken + {k} ensures exists i :: 0 <= i < |t| && t[i].0 == j {
      if j == k {
        assert t[split].0 == j;
      } else {
        var i :| 0 <= i < |entries| && entries[i].0 == j;
        var at := if i < split then i else i + 1;
        assert t[at].0 == j;
      }
    }
  }

  /** The hash map's entries, visited in any order and sorted by block count. */
  method SortedEntries(estimates: Estimates) returns (sorted: seq<Entry>)
    ensures Ascending(sorted) && Lists(sorted, estimates, estimates.Keys)
  {
    sorted := [];
    var taken: set<U16> := {};
    while taken != estimates.Keys
      invariant taken <= estimates.Keys && Ascending(sorted) && Lists(sorted, estimates, taken)
      decreases estimates.Keys - taken
    {
      assert exists k :: k in estimates.Keys && k !in taken;
      var k: U16 :| k in estimates.Keys && k !in taken;
      var split := PartitionPoint(sorted, k);
      InsertKeepsAscending(sorted, split, (k, estimates[k]));
      InsertKeepsListing(sorted, estimates, taken, k, split);
      sorted := InsertAt(sorted, split, (k, estimates[k]));
      taken := taken + {k};
    }
  }

  /** The fast form: the entry just before the partition point, or 1 without one. */
  method RateAtSplit(sorted: seq<Entry>, blocks: U16, ghost estimates: Estimates) returns (rate: Rate)
    requires Ascending(sorted) && Lists(sorted, estimates, estimates.Keys)
    ensures rate == ScanDown(estimates, blocks)
  {
    var split := PartitionPoint(sorted, blocks);
    if split == 0 {
      ScanDownDefaults(estimates, blocks);
      return Fin(1.0);
    }
    ScanDownFinds(estimates, blocks, sorted[split - 1].0);
    rate := AtLeastOne(sorted[split - 1].1);
  }

  /** The answer a refresh installs for a row of the table. */
  function Refreshed(estimates: Estimates, row: Row): (r: U32)
    ensures Max(row.floor, FEERATE_FLOOR_SATS_PER_KW) <= r <= Max(MAX_FEE_RATE_SAT_PER_KW, row.floor)
  {
    ClampAndFloor(ScanDown(estimates, row.blocks), row.floor)
  }

  /**
   The answer of one target: the rate of the largest block count not above `blocks`, at least 1 sat/vB, and 1 sat/vB
   without one; rounded, clamped and raised to the floor.
   */
  ghost predicate AnswersFor(estimates: Estimates, blocks: U16, floor: U32, answer: U32) {
    && (forall k: U16 :: LargestNotAbove(estimates, blocks, k) ==>
          answer == ClampAndFloor(AtLeastOne(estimates[k]), floor))
    && ((forall k :: k in estimates ==> blocks < k) ==> answer == ClampAndFloor(Fin(1.0), floor))
  }

  /** What each target owes: its confirmation target in blocks, and its floor in sat/kW. */
  ghost predicate AnswersTarget(estimates: Estimates, target: Target, answer: U32) {
    match target
    case MaximumFeeEstimate => AnswersFor(estimates, 1, 50_000, answer)
    case UrgentOnChainSweep => AnswersFor(estimates, 3, 2_500, answer)
    case MinAllowedAnchorChannelRemoteFee => AnswersFor(estimates, 144, 253, answer)
    case MinAllowedNonAnchorChannelRemoteFee => AnswersFor(estimates, 144, 253, answer)
    case AnchorChannelFee => AnswersFor(estimates, 6, 2_500, answer)
    case NonAnchorChannelFee => AnswersFor(estimates, 6, 5_000, answer)
    case ChannelCloseMinimum => AnswersFor(estimates, 12, 1_000, answer)
    case OutputSpendingFee => AnswersFor(estimates, 12, 5_000, answer)
  }

  lemma RefreshedAnswersFor(estimates: Estimates, row: Row)
    ensures AnswersFor(estimates, row.blocks, row.floor, Refreshed(estimates, row))
  {
    forall k: U16 | LargestNotAbove(estimates, row.blocks, k)
      ensures Refreshed(estimates, row) == ClampAndFloor(AtLeastOne(estimates[k]), row.floor)
    {
      ScanDownFinds(estimates, row.blocks, k);
    }
    if forall k :: k in estimates ==> row.blocks < k {
      ScanDownDefaults(estimates, row.blocks);
    }
  }

  /** Every target is looked up at its own block count and raised to its own floor. */
  lemma EveryTargetIsAnswered(estimates: Estimates, target: Target)
    ensures AnswersTarget(estimates, target, Refreshed(estimates, TARGET_TABLE[TargetIndex(target)]))
  {
    RefreshedAnswersFor(estimates, TARGET_TABLE[TargetIndex(target)]);
  }

  predicate WithinBounds(rates: seq<U32>) {
    && |rates| == |TARGET_TABLE|
    && forall i :: 0 <= i < |rates| ==> TARGET_TABLE[i].floor <= rates[i] <= MAX_FEE_RATE_SAT_PER_KW
  }

  method CacheFromEsploraEstimates(estimates: Estimates) returns (cache: seq<U32>)
    ensures |cache| == |TARGET_TABLE|
    ensures forall i :: 0 <= i < |cache| ==> cache[i] == Refreshed(estimates, TARGET_TABLE[i])
    ensures forall target :: AnswersTarget(estimates, target, cache[TargetIndex(target)])
    ensures WithinBounds(cache)
  {
    var sorted := SortedEntries(estimates);
    cache := [];
    for index := 0 to |TARGET_TABLE|
      invariant |cache| == index
      invariant forall i :: 0 <= i < index ==> cache[i] == Refreshed(estimates, TARGET_TABLE[i])
    {
      var row := TARGET_TABLE[index];
      var rate := RateAtSplit(sorted, row.blocks, estimates);
      cache := cache + [ClampAndFloor(rate, row.floor)];
    }
    forall target ensures AnswersTarget(estimates, target, cache[TargetIndex(target)]) {
      EveryTargetIsAnswered(estimates, target);
    }
  }

  /** Raising usable rates, block count by block count, never lowers an answer. */
  lemma {:induction false} RefreshedIsMonotone(lower: Estimates, higher: Estimates, row: Row)
    requires lower.Keys == higher.Keys
    requires forall k :: k in lower ==> AtMost(AtLeastOne(lower[k]), AtLeastOne(higher[k]))
    ensures Refreshed(lower, row) <= Refreshed(higher, row)
  {
    ScanDownIsMonotone(lower, higher, row.blocks);
    ClampIsMonotone(ScanDown(lower, row.blocks), ScanDown(higher, row.blocks), row.floor);
  }

  lemma {:induction false} ScanDownIsMonotone(lower: Estimates, higher: Estimates, target: U16)
    requires lower.Keys == higher.Keys
    requires forall k :: k in lower ==> AtMost(AtLeastOne(lower[k]), AtLeastOne(higher[k]))
    ensures AtMost(ScanDown(lower, target), ScanDown(higher, target))
  {
    if target !in lower && target > 0 {
      ScanDownIsMonotone(lower, higher, target - 1);
    }
  }

  // ----- Fallback -----------------------------------------------------------------------

  const DEFAULT_SAT_PER_VB: map<U16, real> := map[1 := 10.0, 6 := 5.0, 12 := 3.0, 144 := 2.0]

  function DefaultSatPerVb(blocks: U16): real {
    if blocks in DEFAULT_SAT_PER_VB then DEFAULT_SAT_PER_VB[blocks] else DEFAULT_SAT_PER_VB[6]
  }

  function FallbackSatPerKw(target: Target): (r: U32)
    ensures TARGET_TABLE[TargetIndex(target)].floor <= r <= MAX_FEE_RATE_SAT_PER_KW
  {
    var row := TARGET_TABLE[TargetIndex(target)];
    ClampAndFloor(Fin(DefaultSatPerVb(row.blocks)), row.floor)
  }

  /** What an offline start answers, target by target. */
  lemma OfflineAnswers()
    ensures FallbackSatPerKw(MaximumFeeEstimate) == 50_000
    ensures FallbackSatPerKw(UrgentOnChainSweep) == 2_500
    ensures FallbackSatPerKw(MinAllowedAnchorChannelRemoteFee) == 500
    ensures FallbackSatPerKw(MinAllowedNonAnchorChannelRemoteFee) == 500
    ensures FallbackSatPerKw(AnchorChannelFee) == 2_500
    ensures FallbackSatPerKw(NonAnchorChannelFee) == 5_000
    ensures FallbackSatPerKw(ChannelCloseMinimum) == 1_000
    ensures FallbackSatPerKw(OutputSpendingFee) == 5_000
  {
    assert (2.0 * 250.0 + 0.5).Floor == 500;
    assert (3.0 * 250.0 + 0.5).Floor == 750;
    assert (5.0 * 250.0 + 0.5).Floor == 1_250;
    assert (10.0 * 250.0 + 0.5).Floor == 2_500;
  }

  // ----- Refresh policy -----------------------------------------------------------------

  datatype Refresh = Refresh(fetchedAt: Option<nat>, failedAt: Option<nat>)

  predicate Due(s: Refresh, now: nat) {
    && (s.fetchedAt.Some? ==> SaturatingSub(now, s.fetchedAt.value) > FEE_CACHE_TTL)
    && (s.failedAt.Some? ==> SaturatingSub(now, s.failedAt.value) >= FEE_REFRESH_BACKOFF)
  }

  /** A refresh is due more than a minute after the last success, and from 15 seconds after the last failure. */
  lemma DueIff(s: Refresh, now: nat)
    ensures Due(s, now) <==>
            && (s.fetchedAt.Some? ==> s.fetchedAt.value + 60_000_000_000 < now)
            && (s.failedAt.Some? ==> now >= s.failedAt.value + 15_000_000_000)
  {
  }

  predicate Usable(fetched: Option<Estimates>, mainnet: bool) {
    fetched.Some? && !(mainnet && fetched.value == map[])
  }

  /** A fetch begun when a refresh was due, and how and when it ended. */
  datatype Attempt = Attempt(began: nat, ended: nat, ok: bool)

  function Record(s: Refresh, a: Attempt): Refresh {
    if a.ok then Refresh(Some(a.ended), None) else s.(failedAt := Some(a.ended))
  }

  function AfterAttempts(s: Refresh, attempts: seq<Attempt>): Refresh
    decreases |attempts|
  {
    if attempts == [] then s
    else Record(AfterAttempts(s, attempts[..|attempts| - 1]), attempts[|attempts| - 1])
  }

  /** Every attempt waits until a refresh is due. */
  predicate Polite(s: Refresh, attempts: seq<Attempt>) {
    forall i :: 0 <= i < |attempts| ==>
      attempts[i].began <= attempts[i].ended && Due(AfterAttempts(s, attempts[..i]), attempts[i].began)
  }

  lemma NextAttemptWaits(s: Refresh, attempts: seq<Attempt>, i: nat)
    requires Polite(s, attempts) && i + 1 < |attempts|
    ensures var wait := if attempts[i].ok then 60_000_000_001 else 15_000_000_000;
            attempts[i].ended + wait <= attempts[i + 1].began
  {
    assert attempts[..i + 1][..i] == attempts[..i];
    assert AfterAttempts(s, attempts[..i + 1]) == Record(AfterAttempts(s, attempts[..i]), attempts[i]);
    assert Due(AfterAttempts(s, attempts[..i + 1]), attempts[i + 1].began);
  }

  /** Each attempt begins at least one back-off period after the one before it. */
  predicate Spaced(attempts: seq<Attempt>) {
    forall i :: 0 < i < |attempts| ==> attempts[i - 1].began + 15_000_000_000 <= attempts[i].began
  }

  lemma {:induction false} SpacedAddsUp(attempts: seq<Attempt>, i: nat, j: nat)
    requires Spaced(attempts) && i <= j < |attempts|
    ensures attempts[i].began + 15_000_000_000 * (j - i) <= attempts[j].began
    decreases j
  {
    if i < j {
      SpacedAddsUp(attempts, i, j - 1);
    }
  }

  /** Over any run, whatever fails, `n` further attempts take at least `n` times the 15 seconds of the back-off. */
  lemma AttemptsAreSpaced(s: Refresh, attempts: seq<Attempt>, i: nat, j: nat)
    requires Polite(s, attempts) && i <= j < |attempts|
    ensures attempts[i].began + 15_000_000_000 * (j - i) <= attempts[j].began
  {
    forall k | 0 < k < |attempts| ensures attempts[k - 1].began + 15_000_000_000 <= attempts[k].began {
      NextAttemptWaits(s, attempts, k - 1);
    }
    SpacedAddsUp(attempts, i, j);
  }

  // ----- The estimator ------------------------------------------------------------------

  class CachedFeeEstimator {
    const cache: array<Option<U32>>
    var refresh: Refresh

    ghost predicate Shape()
      reads this
    {
      cache.Length == |TARGET_TABLE|
    }

    /** Every filled slot lies between its target's floor and the ceiling. */
    ghost predicate Valid()
      reads this, cache
    {
      Shape() && forall i :: 0 <= i < cache.Length && cache[i].Some? ==>
        TARGET_TABLE[i].floor <= cache[i].value <= MAX_FEE_RATE_SAT_PER_KW
    }

    constructor ()
      ensures Valid() && fresh(cache) && refresh == Refresh(None, None)
      ensures forall i :: 0 <= i < cache.Length ==> cache[i] == None
    {
      cache := new Option<U32>[8](_ => None);
      refresh := Refresh(None, None);
    }

    method SetCache(rates: seq<U32>, now: nat)
      requires Shape() && |rates| == |TARGET_TABLE|
      modifies this`refresh, cache
      ensures forall i :: 0 <= i < cache.Length ==> cache[i] == Some(rates[i])
      ensures refresh == Refresh(Some(now), None)
      ensures WithinBounds(rates) ==> Valid()
    {
      for i := 0 to cache.Length
        invariant forall k :: 0 <= k < i ==> cache[k] == Some(rates[k])
      {
        cache[i] := Some(rates[i]);
      }
      refresh := Refresh(Some(now), None);
    }

    method RecordFailure(now: nat)
      requires Valid()
      modifies this`refresh
      ensures Valid() && refresh == old(refresh).(failedAt := Some(now))
    {
      refresh := refresh.(failedAt := Some(now));
    }

    method NeedsRefresh(now: nat) returns (due: bool)
      requires Valid()
      ensures due <==> Due(refresh, now)
    {
      var stale := refresh.fetchedAt.None? || SaturatingSub(now, refresh.fetchedAt.value) > FEE_CACHE_TTL;
      var backedOff := refresh.failedAt.None? || SaturatingSub(now, refresh.failedAt.value) >= FEE_REFRESH_BACKOFF;
      due := stale && backedOff;
    }

    /** One round of the background task: `fetched` is the endpoint's answer; on mainnet an empty one is a failure. */
    method RefreshOnce(began: nat, ended: nat, fetched: Option<Estimates>, mainnet: bool)
      requires Valid() && began <= ended
      modifies this`refresh, cache
      ensures Valid()
      ensures var usable := fetched.Some? && !(mainnet && fetched.value == map[]);
              && refresh == (if Due(old(refresh), began) then Record(old(refresh), Attempt(began, ended, usable))
                             else old(refresh))
              && (Due(old(refresh), began) && usable ==>
                    forall t: Target :: AnswersTarget(fetched.value, t, Answer(t)))
              && (!(Due(old(refresh), began) && usable) ==> forall t: Target :: Answer(t) == old(Answer(t)))
    {
      var due := NeedsRefresh(began);
      if due {
        if Usable(fetched, mainnet) {
          var rates := CacheFromEsploraEstimates(fetched.value);
          SetCache(rates, ended);
        } else {
          RecordFailure(ended);
        }
      }
    }

    /** The answer path: cached, else the static fallback, within its bounds in every reachable state. */
    function Answer(target: Target): (r: U32)
      requires Valid()
      reads this, cache
      ensures TARGET_TABLE[TargetIndex(target)].floor <= r <= MAX_FEE_RATE_SAT_PER_KW
      ensures cache[TargetIndex(target)].None? ==> r == FallbackSatPerKw(target)
    {
      var slot := cache[TargetIndex(target)];
      Max(if slot.Some? then slot.value else FallbackSatPerKw(target), FEERATE_FLOOR_SATS_PER_KW)
    }
  }
}
