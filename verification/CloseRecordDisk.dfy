/**
 The close-record store between its critical sections. A call merges under one lock, encodes under another and
 writes outside both, and several tasks make such calls at once, so a write may carry bytes that are older
 than what is on disk. Every critical section and every write is a step here; a crash may follow any of them.
 Stored bytes are represented by the map they decode to.
 */
module CloseRecordDisk {
  import opened Prelude
  import opened CloseRecords
  import opened CloseRecordStore

  type Task = nat

  datatype Phase =
    | Idle
    | Merged(drop: Option<string>)                   // merged in memory, not encoded
    | Encoded(bytes: Records, drop: Option<string>)  // encoded, not written
    | Dropping(channelId: string)                    // about to remove a funding entry
    | Changed                                        // funding map changed in memory, not encoded
    | FundingEncoded(funding: FundingMap)            // encoded, not written

  /** `known`: ever in memory since the last crash; `durable`: ever on disk; `unfunded`: classified as off-chain. */
  datatype History = History(known: set<string>, durable: set<string>, unfunded: set<string>)

  datatype Mirror = Mirror(mem: State, disk: State, tasks: map<Task, Phase>, history: History)

  datatype Step =
    | MergeRecord(t: Task, record: CloseRecord, drop: bool)  // `upsert`; a close then drops the entry
    | AbsorbMap(t: Task, remote: Records)
    | EncodeRecords(t: Task)
    | WriteRecords(t: Task)
    | DropEntry(t: Task)
    | DropKnown(t: Task, channelId: string)                  // a pass finds a record for a vanished channel
    | DropUnfunded(t: Task, channelId: string)               // a close without on-chain transaction or record
    | RecordEntry(t: Task, channelId: string, entry: FundingEntry)
    | EncodeFunding(t: Task)
    | WriteFunding(t: Task)
    | Crash

  function PhaseOf(s: Mirror, t: Task): Phase {
    if t in s.tasks then s.tasks[t] else Idle
  }

  predicate Enabled(s: Mirror, step: Step) {
    match step
    case MergeRecord(t, _, _) => PhaseOf(s, t).Idle?
    case AbsorbMap(t, _) => PhaseOf(s, t).Idle?
    case EncodeRecords(t) => PhaseOf(s, t).Merged?
    case WriteRecords(t) => PhaseOf(s, t).Encoded?
    case DropEntry(t) => PhaseOf(s, t).Dropping?
    case DropKnown(t, c) => PhaseOf(s, t).Idle? && c in s.mem.records
    case DropUnfunded(t, c) => PhaseOf(s, t).Idle? && c !in s.mem.records
    case RecordEntry(t, _, _) => PhaseOf(s, t).Idle?
    case EncodeFunding(t) => PhaseOf(s, t).Changed?
    case WriteFunding(t) => PhaseOf(s, t).FundingEncoded?
    case Crash => true
  }

  function Become(s: Mirror, t: Task, phase: Phase): Mirror {
    s.(tasks := s.tasks[t := phase])
  }

  function Apply(s: Mirror, step: Step): Mirror
    requires Enabled(s, step)
  {
    var h := s.history;
    match step
    case MergeRecord(t, r, drop) =>
      Become(s, t, Merged(if drop then Some(r.channelId) else None)).(
        mem := s.mem.(records := UpsertInto(s.mem.records, r)))
    case AbsorbMap(t, remote) =>
      Become(s, t, Merged(None)).(mem := s.mem.(records := AbsorbInto(s.mem.records, remote)))
    case EncodeRecords(t) => Become(s, t, Encoded(s.mem.records, PhaseOf(s, t).drop))
    case WriteRecords(t) =>
      var drop := PhaseOf(s, t).drop;
      Become(s, t, if drop.Some? then Dropping(drop.value) else Idle).(
        disk := s.disk.(records := PhaseOf(s, t).bytes))
    case DropEntry(t) =>
      var c := PhaseOf(s, t).channelId;
      if c in s.mem.funding then Become(s, t, Changed).(mem := s.mem.(funding := s.mem.funding - {c}))
      else Become(s, t, Idle)
    case DropKnown(t, c) => Become(s, t, Dropping(c))
    case DropUnfunded(t, c) => Become(s, t, Dropping(c)).(history := h.(unfunded := h.unfunded + {c}))
    case RecordEntry(t, c, entry) =>
      if c in s.mem.funding && s.mem.funding[c] == entry then s
      else Become(s, t, Changed).(mem := s.mem.(funding := s.mem.funding[c := entry]),
                                  history := h.(known := h.known + {c}))
    case EncodeFunding(t) => Become(s, t, FundingEncoded(s.mem.funding))
    case WriteFunding(t) =>
      var bytes := PhaseOf(s, t).funding;
      Become(s, t, Idle).(disk := s.disk.(funding := bytes), history := h.(durable := h.durable + bytes.Keys))
    case Crash => s.(mem := s.disk, tasks := map[], history := h.(known := h.durable))
  }

  ghost predicate ValidRun(s: Mirror, steps: seq<Step>)
    decreases |steps|
  {
    steps == [] || (Enabled(s, steps[0]) && ValidRun(Apply(s, steps[0]), steps[1..]))
  }

  function After(s: Mirror, steps: seq<Step>): Mirror
    requires ValidRun(s, steps)
    decreases |steps|
  {
    if steps == [] then s else After(Apply(s, steps[0]), steps[1..])
  }

  /** A store just loaded. */
  function Loaded(disk: State): Mirror {
    Mirror(disk, disk, map[], History(disk.funding.Keys, disk.funding.Keys, {}))
  }

  /** A crash here loses the channel: its entry was on disk once, and now neither blob has a trace of it. */
  predicate Forgotten(s: Mirror, c: string) {
    && c in s.history.durable && c !in s.history.unfunded
    && c !in s.disk.funding && c !in s.disk.records
  }

  // ----- What holds in every run --------------------------------------------------------

  predicate Comparable(a: set<string>, b: set<string>) {
    a <= b || b <= a
  }

  /** The channels of the records bytes a task holds; none when it holds no bytes. */
  function Held(s: Mirror, t: Task): Option<set<string>> {
    if PhaseOf(s, t).Encoded? then Some(PhaseOf(s, t).bytes.Keys) else None
  }

  ghost predicate TaskFits(s: Mirror, t: Task) {
    match PhaseOf(s, t)
    case Merged(drop) => drop.Some? ==> drop.value in s.mem.records
    case Encoded(bytes, drop) =>
      && bytes.Keys <= s.mem.records.Keys
      && Comparable(bytes.Keys, s.disk.records.Keys)
      && (drop.Some? ==> drop.value in bytes)
    case FundingEncoded(funding) => funding.Keys <= s.history.known
    case _ => true
  }

  /** Every records map in flight or on disk is an earlier state of memory, so any two are comparable. */
  ghost predicate Inv(s: Mirror) {
    && s.disk.records.Keys <= s.mem.records.Keys
    && s.mem.funding.Keys <= s.history.known
    && s.disk.funding.Keys <= s.history.durable <= s.history.known
    && (forall t: Task :: TaskFits(s, t))
    && (forall t: Task, u: Task ::
          Held(s, t).Some? && Held(s, u).Some? ==> Comparable(Held(s, t).value, Held(s, u).value))
  }

  lemma StepKeepsTasks(s: Mirror, step: Step)
    requires Inv(s) && Enabled(s, step)
    ensures forall t: Task :: TaskFits(Apply(s, step), t)
  {
    var s' := Apply(s, step);
    forall t: Task ensures TaskFits(s', t) {
      assert TaskFits(s, t);
      if step.WriteRecords? && t != step.t && Held(s, t).Some? {
        assert Comparable(Held(s, t).value, Held(s, step.t).value);
      }
    }
  }

  lemma StepKeepsComparable(s: Mirror, step: Step)
    requires Inv(s) && Enabled(s, step)
    ensures var s' := Apply(s, step);
            forall t: Task, u: Task ::
              Held(s', t).Some? && Held(s', u).Some? ==> Comparable(Held(s', t).value, Held(s', u).value)
  {
    var s' := Apply(s, step);
    forall t: Task, u: Task | Held(s', t).Some? && Held(s', u).Some?
      ensures Comparable(Held(s', t).value, Held(s', u).value)
    {
      assert TaskFits(s, t) && TaskFits(s, u);
      if Held(s, t).Some? && Held(s, u).Some? {
        assert Comparable(Held(s, t).value, Held(s, u).value);
      }
    }
  }

  lemma StepKeepsInv(s: Mirror, step: Step)
    requires Inv(s) && Enabled(s, step)
    ensures Inv(Apply(s, step))
  {
    StepKeepsTasks(s, step);
    StepKeepsComparable(s, step);
    if step.WriteRecords? || step.WriteFunding? {
      assert TaskFits(s, step.t);
    }
  }

  lemma {:induction false} RunKeepsInv(s: Mirror, steps: seq<Step>)
    requires Inv(s) && ValidRun(s, steps)
    ensures Inv(After(s, steps))
    decreases |steps|
  {
    if steps != [] {
      StepKeepsInv(s, steps[0]);
      RunKeepsInv(Apply(s, steps[0]), steps[1..]);
    }
  }

  // ----- Writes in order ----------------------------------------------------------------

  lemma SmallerIsWithin(a: set<string>, b: set<string>)
    requires Comparable(a, b) && |a| <= |b|
    ensures a <= b
  {
    if b <= a {
      assert a == b + (a - b);
      assert |a| == |b| + |a - b|;
      assert a - b == {};
    }
  }

  /** A records write takes no channel off the disk exactly when it carries at least as many as the disk holds. */
  lemma WriteKeepsDiskIff(s: Mirror, t: Task)
    requires Inv(s) && Enabled(s, WriteRecords(t))
    ensures s.disk.records.Keys <= Apply(s, WriteRecords(t)).disk.records.Keys <==>
            |s.disk.records| <= |PhaseOf(s, t).bytes|
  {
    assert TaskFits(s, t);
    var d, b := s.disk.records, PhaseOf(s, t).bytes;
    assert |d| == |d.Keys| && |b| == |b.Keys|;
    if |d| <= |b| {
      SmallerIsWithin(d.Keys, b.Keys);
    }
    if d.Keys <= b.Keys {
      assert b.Keys == d.Keys + (b.Keys - d.Keys);
    }
  }

  /**
   The step does not overtake a newer write: records bytes hold at least as many records as the disk, funding
   bytes hold every entry the disk and memory both have, and an entry is dropped for a record that is on disk.
   */
  predicate InOrder(s: Mirror, step: Step)
    requires Enabled(s, step)
  {
    match step
    case WriteRecords(t) => |s.disk.records| <= |PhaseOf(s, t).bytes|
    case WriteFunding(t) => s.disk.funding.Keys * s.mem.funding.Keys <= PhaseOf(s, t).funding.Keys
    case DropKnown(_, c) => c in s.disk.records
    case _ => true
  }

  ghost predicate InOrderRun(s: Mirror, steps: seq<Step>)
    requires ValidRun(s, steps)
    decreases |steps|
  {
    steps == [] || (InOrder(s, steps[0]) && InOrderRun(Apply(s, steps[0]), steps[1..]))
  }

  /** An entry that is gone from memory has its record on disk. */
  ghost predicate EntriesCovered(s: Mirror) {
    forall c :: c in s.history.known && c !in s.history.unfunded && c !in s.mem.funding ==> c in s.disk.records
  }

  /** So has an entry that a task is about to drop. */
  ghost predicate DropCovered(s: Mirror, t: Task) {
    PhaseOf(s, t).Dropping? ==>
      PhaseOf(s, t).channelId in s.disk.records || PhaseOf(s, t).channelId in s.history.unfunded
  }

  ghost predicate Covered(s: Mirror) {
    && EntriesCovered(s)
    && (forall t: Task :: DropCovered(s, t))
    && (forall c :: !Forgotten(s, c))
  }

  lemma DiskOnlyGrows(s: Mirror, step: Step)
    requires Inv(s) && Enabled(s, step) && InOrder(s, step)
    ensures s.disk.records.Keys <= Apply(s, step).disk.records.Keys
  {
    if step.WriteRecords? {
      WriteKeepsDiskIff(s, step.t);
    }
  }

  lemma StepKeepsEntriesCovered(s: Mirror, step: Step)
    requires Inv(s) && Covered(s) && Enabled(s, step) && InOrder(s, step)
    ensures EntriesCovered(Apply(s, step))
  {
    var s' := Apply(s, step);
    DiskOnlyGrows(s, step);
    forall c | c in s'.history.known && c !in s'.history.unfunded && c !in s'.mem.funding ensures c in s'.disk.records {
      assert !Forgotten(s, c);
      if step.DropEntry? {
        assert DropCovered(s, step.t);
      }
    }
  }

  lemma StepKeepsDropsCovered(s: Mirror, step: Step, t: Task)
    requires Inv(s) && Covered(s) && Enabled(s, step) && InOrder(s, step)
    ensures DropCovered(Apply(s, step), t)
  {
    DiskOnlyGrows(s, step);
    assert DropCovered(s, t) && TaskFits(s, t);
  }

  lemma StepForgetsNothing(s: Mirror, step: Step, c: string)
    requires Inv(s) && Covered(s) && Enabled(s, step) && InOrder(s, step)
    ensures !Forgotten(Apply(s, step), c)
  {
    DiskOnlyGrows(s, step);
    assert !Forgotten(s, c);
    if step.WriteFunding? {
      assert TaskFits(s, step.t);
      assert c in s.disk.funding && c in s.mem.funding ==> c in PhaseOf(s, step.t).funding;
    }
  }

  lemma StepKeepsCovered(s: Mirror, step: Step)
    requires Inv(s) && Covered(s) && Enabled(s, step) && InOrder(s, step)
    ensures Covered(Apply(s, step))
  {
    StepKeepsEntriesCovered(s, step);
    forall t: Task ensures DropCovered(Apply(s, step), t) {
      StepKeepsDropsCovered(s, step, t);
    }
    forall c ensures !Forgotten(Apply(s, step), c) {
      StepForgetsNothing(s, step, c);
    }
  }

  lemma {:induction false} RunKeepsCovered(s: Mirror, steps: seq<Step>)
    requires Inv(s) && Covered(s) && ValidRun(s, steps) && InOrderRun(s, steps)
    ensures Covered(After(s, steps))
    decreases |steps|
  {
    if steps != [] {
      StepKeepsInv(s, steps[0]);
      StepKeepsCovered(s, steps[0]);
      RunKeepsCovered(Apply(s, steps[0]), steps[1..]);
    }
  }

  /**
   While no write overtakes a newer one, no crash point of any run, over any number of crashes and reloads,
   has forgotten a channel whose funding entry was ever on disk.
   */
  lemma InOrderForgetsNothing(disk: State, steps: seq<Step>, c: string)
    requires ValidRun(Loaded(disk), steps) && InOrderRun(Loaded(disk), steps)
    ensures !Forgotten(After(Loaded(disk), steps), c)
  {
    assert Inv(Loaded(disk)) && Covered(Loaded(disk));
    RunKeepsCovered(Loaded(disk), steps);
  }

  /** A call nothing else overlaps is in order, and does to memory and disk what the store does in one step. */
  lemma SerialUpsertIsAtomic(s: Mirror, t: Task, record: CloseRecord)
    requires Inv(s) && PhaseOf(s, t).Idle?
    ensures var steps := [MergeRecord(t, record, false), EncodeRecords(t), WriteRecords(t)];
            && ValidRun(s, steps) && InOrderRun(s, steps)
            && After(s, steps).mem == Do(s.mem, Upsert(record, None))
            && After(s, steps).disk == s.disk.(records := After(s, steps).mem.records)
            && PhaseOf(After(s, steps), t).Idle?
  {
    var a, b, c := MergeRecord(t, record, false), EncodeRecords(t), WriteRecords(t);
    var steps := [a, b, c];
    assert steps[1..] == [b, c] && [b, c][1..] == [c] && [c][1..] == [];
    var s1 := Apply(s, a);
    var s2 := Apply(s1, b);
    StepKeepsInv(s, a);
    StepKeepsInv(s1, b);
    WriteKeepsDiskIff(s2, t);
    assert ValidRun(s2, [c]) && InOrderRun(s2, [c]);
    assert ValidRun(s1, [b, c]) && InOrderRun(s1, [b, c]);
    assert After(s2, [c]) == Apply(s2, c);
    assert After(s, steps) == After(s1, [b, c]) == After(s2, [c]);
  }

  /** The same for an absorbed remote map. */
  lemma SerialAbsorbIsAtomic(s: Mirror, t: Task, remote: Records)
    requires Inv(s) && PhaseOf(s, t).Idle?
    ensures var steps := [AbsorbMap(t, remote), EncodeRecords(t), WriteRecords(t)];
            && ValidRun(s, steps)
            && After(s, steps).mem == Do(s.mem, Absorb(remote))
            && After(s, steps).disk == s.disk.(records := After(s, steps).mem.records)
            && PhaseOf(After(s, steps), t).Idle?
  {
    ThreeThen(s, AbsorbMap(t, remote), EncodeRecords(t), WriteRecords(t), []);
    var steps := [AbsorbMap(t, remote), EncodeRecords(t), WriteRecords(t)];
    assert steps + [] == steps;
  }

  /** And for a new funding entry. */
  lemma SerialEntryIsAtomic(s: Mirror, t: Task, c: string, entry: FundingEntry)
    requires PhaseOf(s, t).Idle? && !(c in s.mem.funding && s.mem.funding[c] == entry)
    ensures var steps := [RecordEntry(t, c, entry), EncodeFunding(t), WriteFunding(t)];
            && ValidRun(s, steps)
            && After(s, steps).mem == Do(s.mem, RecordFunding(c, entry))
            && After(s, steps).disk == s.disk.(funding := After(s, steps).mem.funding)
            && PhaseOf(After(s, steps), t).Idle?
  {
    ThreeThen(s, RecordEntry(t, c, entry), EncodeFunding(t), WriteFunding(t), []);
    var steps := [RecordEntry(t, c, entry), EncodeFunding(t), WriteFunding(t)];
    assert steps + [] == steps;
  }

  /** And for the removal of an entry that is there. */
  lemma SerialDropIsAtomic(s: Mirror, t: Task, c: string)
    requires PhaseOf(s, t) == Dropping(c) && c in s.mem.funding
    ensures var steps := [DropEntry(t), EncodeFunding(t), WriteFunding(t)];
            && ValidRun(s, steps)
            && After(s, steps).mem == Do(s.mem, RemoveFunding(c))
            && After(s, steps).disk == s.disk.(funding := After(s, steps).mem.funding)
            && PhaseOf(After(s, steps), t).Idle?
  {
    ThreeThen(s, DropEntry(t), EncodeFunding(t), WriteFunding(t), []);
    var steps := [DropEntry(t), EncodeFunding(t), WriteFunding(t)];
    assert steps + [] == steps;
  }

  /** A crash leaves what the disk holds, in memory too, and no call under way. */
  lemma CrashKeepsTheDisk(s: Mirror)
    ensures Apply(s, Crash).disk == s.disk && Apply(s, Crash).mem == s.disk
    ensures forall t: Task :: PhaseOf(Apply(s, Crash), t).Idle?
  {
  }

  /** A channel counts as stored once its entry is written, and as off-chain only when its close was classified so. */
  lemma MarksMean(s: Mirror, step: Step, c: string)
    requires Enabled(s, step)
    ensures var h, h' := s.history, Apply(s, step).history;
            && (c in h'.unfunded <==> c in h.unfunded || (step.DropUnfunded? && step.channelId == c))
            && (c in h'.durable <==> c in h.durable || (step.WriteFunding? && c in PhaseOf(s, step.t).funding))
  {
  }

  // ----- Exactly when a channel can still be forgotten ----------------------------------

  /** The channel's record is on disk, and no bytes still to be written lack it. */
  ghost predicate Settled(s: Mirror, c: string) {
    && c in s.disk.records && c in s.mem.records
    && forall t: Task :: PhaseOf(s, t).Encoded? ==> c in PhaseOf(s, t).bytes
  }

  lemma StepKeepsSettled(s: Mirror, step: Step, c: string)
    requires Settled(s, c) && Enabled(s, step)
    ensures Settled(Apply(s, step), c)
  {
    var s' := Apply(s, step);
    forall t: Task | PhaseOf(s', t).Encoded? ensures c in PhaseOf(s', t).bytes {
      assert PhaseOf(s, t).Encoded? ==> c in PhaseOf(s, t).bytes;
    }
  }

  lemma {:induction false} SettledIsNeverForgotten(s: Mirror, steps: seq<Step>, c: string)
    requires Settled(s, c) && ValidRun(s, steps)
    ensures !Forgotten(After(s, steps), c)
    decreases |steps|
  {
    if steps != [] {
      StepKeepsSettled(s, steps[0], c);
      SettledIsNeverForgotten(Apply(s, steps[0]), steps[1..], c);
    }
  }

  ghost predicate Reaches(s: Mirror, t: Mirror) {
    exists steps :: ValidRun(s, steps) && After(s, steps) == t
  }

  lemma ReachesItself(s: Mirror)
    ensures Reaches(s, s)
  {
    assert ValidRun(s, []) && After(s, []) == s;
  }

  lemma {:induction false} RunSnoc(s: Mirror, steps: seq<Step>, step: Step)
    requires ValidRun(s, steps) && Enabled(After(s, steps), step)
    ensures ValidRun(s, steps + [step]) && After(s, steps + [step]) == Apply(After(s, steps), step)
    decreases |steps|
  {
    var more := steps + [step];
    if steps == [] {
      assert more[1..] == [];
    } else {
      assert more[1..] == steps[1..] + [step];
      RunSnoc(Apply(s, steps[0]), steps[1..], step);
    }
  }

  lemma Then(s: Mirror, t: Mirror, step: Step)
    requires Reaches(s, t) && Enabled(t, step)
    ensures Reaches(s, Apply(t, step))
  {
    var steps :| ValidRun(s, steps) && After(s, steps) == t;
    RunSnoc(s, steps, step);
  }

  /** An idle task can store the entry of `c` in memory again; nothing of the records changes. */
  lemma EntryIntoMemory(s: Mirror, u: Task, c: string) returns (s': Mirror)
    requires PhaseOf(s, u).Idle?
    ensures Reaches(s, s') && c in s'.mem.funding && PhaseOf(s', u).Idle?
    ensures s'.mem.records == s.mem.records && s'.disk.records == s.disk.records
    ensures s'.history.unfunded == s.history.unfunded && s.history.durable <= s'.history.durable
    ensures forall t: Task :: t != u ==> PhaseOf(s', t) == PhaseOf(s, t)
  {
    s' := s;
    ReachesItself(s);
    if c !in s.mem.funding {
      var s1 := Apply(s, RecordEntry(u, c, FundingEntry("f", 0, None)));
      Then(s, s, RecordEntry(u, c, FundingEntry("f", 0, None)));
      var s2 := Apply(s1, EncodeFunding(u));
      Then(s, s1, EncodeFunding(u));
      s' := Apply(s2, WriteFunding(u));
      Then(s, s2, WriteFunding(u));
    }
  }

  /** A task about to drop the entry of `c` can take it off the disk. */
  lemma EntryOffDisk(s: Mirror, s0: Mirror, u: Task, c: string) returns (s': Mirror)
    requires Reaches(s, s0) && PhaseOf(s0, u) == Dropping(c) && c in s0.mem.funding
    ensures Reaches(s, s') && c !in s'.disk.funding && s'.disk.records == s0.disk.records
    ensures s'.history.unfunded == s0.history.unfunded && s0.history.durable <= s'.history.durable
    ensures forall t: Task :: t != u ==> PhaseOf(s', t) == PhaseOf(s0, t)
  {
    var s1 := Apply(s0, DropEntry(u));
    Then(s, s0, DropEntry(u));
    var s2 := Apply(s1, EncodeFunding(u));
    Then(s, s1, EncodeFunding(u));
    s' := Apply(s2, WriteFunding(u));
    Then(s, s2, WriteFunding(u));
  }

  /** Bytes in flight without `c` can overtake the close of `c`. */
  lemma StaleBytesForget(s: Mirror, t: Task, u: Task, c: string) returns (s': Mirror)
    requires PhaseOf(s, t).Encoded? && c !in PhaseOf(s, t).bytes
    requires t != u && PhaseOf(s, u).Idle? && c in s.history.durable && c !in s.history.unfunded
    ensures Reaches(s, s') && Forgotten(s', c)
  {
    var s0 := EntryIntoMemory(s, u, c);
    var record := Skeleton(c, 0);
    var s1 := Apply(s0, MergeRecord(u, record, true));
    Then(s, s0, MergeRecord(u, record, true));
    var s2 := Apply(s1, EncodeRecords(u));
    Then(s, s1, EncodeRecords(u));
    var s3 := Apply(s2, WriteRecords(u));
    Then(s, s2, WriteRecords(u));
    var s4 := EntryOffDisk(s, s3, u, c);
    assert PhaseOf(s4, t) == PhaseOf(s, t);
    s' := Apply(s4, WriteRecords(t));
    Then(s, s4, WriteRecords(t));
  }

  /** A record in memory but not on disk lets a pass drop the entry too early. */
  lemma UnwrittenRecordForgets(s: Mirror, s0: Mirror, u: Task, c: string) returns (s': Mirror)
    requires Reaches(s, s0) && c in s0.mem.records && c !in s0.disk.records && PhaseOf(s0, u).Idle?
    requires c in s0.history.durable && c !in s0.history.unfunded
    ensures Reaches(s, s') && Forgotten(s', c)
  {
    var s1 := EntryIntoMemory(s0, u, c);
    ReachesOn(s, s0, s1);
    var s2 := Apply(s1, DropKnown(u, c));
    Then(s, s1, DropKnown(u, c));
    s' := EntryOffDisk(s, s2, u, c);
  }

  lemma {:induction false} RunConcat(s: Mirror, a: seq<Step>, b: seq<Step>)
    requires ValidRun(s, a) && ValidRun(After(s, a), b)
    ensures ValidRun(s, a + b) && After(s, a + b) == After(After(s, a), b)
    decreases |a|
  {
    if a == [] {
      assert a + b == b;
    } else {
      assert (a + b)[1..] == a[1..] + b;
      RunConcat(Apply(s, a[0]), a[1..], b);
    }
  }

  lemma ReachesOn(s: Mirror, t: Mirror, u: Mirror)
    requires Reaches(s, t) && Reaches(t, u)
    ensures Reaches(s, u)
  {
    var a :| ValidRun(s, a) && After(s, a) == t;
    var b :| ValidRun(t, b) && After(t, b) == u;
    RunConcat(s, a, b);
  }

  lemma UnsettledCanBeForgotten(s: Mirror, u: Task, v: Task, c: string) returns (s': Mirror)
    requires Inv(s) && !Settled(s, c) && c in s.history.durable && c !in s.history.unfunded
    requires u != v && PhaseOf(s, u).Idle? && PhaseOf(s, v).Idle?
    ensures Reaches(s, s') && Forgotten(s', c)
  {
    if t: Task :| PhaseOf(s, t).Encoded? && c !in PhaseOf(s, t).bytes {
      s' := StaleBytesForget(s, t, u, c);
    } else {
      ReachesItself(s);
      if c in s.mem.records {
        s' := UnwrittenRecordForgets(s, s, u, c);
      } else {
        Then(s, s, MergeRecord(v, Skeleton(c, 0), false));
        s' := UnwrittenRecordForgets(s, Apply(s, MergeRecord(v, Skeleton(c, 0), false)), u, c);
      }
    }
  }

  /** A task number above every task in the set. */
  lemma {:induction false} FreshTask(tasks: set<Task>) returns (u: Task)
    ensures forall t :: t in tasks ==> t < u
    decreases |tasks|
  {
    if tasks == {} {
      u := 0;
    } else {
      var t :| t in tasks;
      var above := FreshTask(tasks - {t});
      u := Max(above, t + 1);
      forall x | x in tasks ensures x < u {
        assert x == t || x in tasks - {t};
      }
    }
  }

  /**
   The exact condition, at every point of every run: some continuation forgets a channel whose entry was on
   disk if and only if its record is not on disk yet or bytes without it are still to be written.
   */
  lemma ForgettableIffUnsettled(disk: State, steps: seq<Step>, c: string)
    requires ValidRun(Loaded(disk), steps)
    requires var h := After(Loaded(disk), steps).history; c in h.durable && c !in h.unfunded
    ensures var s := After(Loaded(disk), steps);
            (exists s' :: Reaches(s, s') && Forgotten(s', c)) <==> !Settled(s, c)
  {
    var s := After(Loaded(disk), steps);
    RunKeepsInv(Loaded(disk), steps);
    if Settled(s, c) {
      forall s' | Reaches(s, s') ensures !Forgotten(s', c) {
        var more :| ValidRun(s, more) && After(s, more) == s';
        SettledIsNeverForgotten(s, more, c);
      }
    } else {
      var u := FreshTask(s.tasks.Keys);
      assert u !in s.tasks && u + 1 !in s.tasks;
      var s' := UnsettledCanBeForgotten(s, u, u + 1, c);
    }
  }

  // ----- Two runs that lose a channel ---------------------------------------------------

  const START: Mirror := Loaded(State(map[], map["c2" := FundingEntry("f", 0, None)]))

  /** Task 1 has merged and encoded the record of "c1". */
  function FirstEncoded(): Mirror {
    Mirror(START.mem.(records := map["c1" := Skeleton("c1", 0)]), START.disk,
           map[1 := Encoded(map["c1" := Skeleton("c1", 0)], None)], START.history)
  }

  /** Task 2 has since recorded and written the close of "c2". */
  function SecondWritten(): Mirror {
    var both := map["c1" := Skeleton("c1", 0), "c2" := Skeleton("c2", 0)];
    FirstEncoded().(mem := START.mem.(records := both), disk := START.disk.(records := both),
                    tasks := FirstEncoded().tasks[2 := Dropping("c2")])
  }

  lemma FirstSteps()
    ensures Enabled(START, MergeRecord(1, Skeleton("c1", 0), false))
    ensures var s1 := Apply(START, MergeRecord(1, Skeleton("c1", 0), false));
            Enabled(s1, EncodeRecords(1)) && Apply(s1, EncodeRecords(1)) == FirstEncoded()
  {
  }

  lemma SecondSteps()
    ensures Enabled(FirstEncoded(), MergeRecord(2, Skeleton("c2", 0), true))
    ensures var s3 := Apply(FirstEncoded(), MergeRecord(2, Skeleton("c2", 0), true));
            && Enabled(s3, EncodeRecords(2))
            && Enabled(Apply(s3, EncodeRecords(2)), WriteRecords(2))
            && Apply(Apply(s3, EncodeRecords(2)), WriteRecords(2)) == SecondWritten()
  {
    assert "c1"[1] != "c2"[1];
    assert UpsertInto(FirstEncoded().mem.records, Skeleton("c2", 0))
        == map["c1" := Skeleton("c1", 0), "c2" := Skeleton("c2", 0)];
  }

  /** The entry of "c2" leaves the disk, and then task 1 writes what it encoded before. */
  lemma LastSteps()
    ensures var steps := [DropEntry(2), EncodeFunding(2), WriteFunding(2)] + [WriteRecords(1)];
            ValidRun(SecondWritten(), steps) && Forgotten(After(SecondWritten(), steps), "c2")
  {
    var s5 := SecondWritten();
    assert "c1"[1] != "c2"[1];
    var s8 := Apply(Apply(Apply(s5, DropEntry(2)), EncodeFunding(2)), WriteFunding(2));
    assert PhaseOf(s8, 1) == PhaseOf(s5, 1);
    var last := [WriteRecords(1)];
    assert last[1..] == [] && ValidRun(s8, last);
    ThreeThen(s5, DropEntry(2), EncodeFunding(2), WriteFunding(2), last);
  }

  /** Task 1 encodes, task 2 records and writes the close of "c2" and drops its entry, task 1 writes. */
  lemma OvertakenWriteForgetsTheChannel()
    ensures var steps := [MergeRecord(1, Skeleton("c1", 0), false), EncodeRecords(1)]
                       + ([MergeRecord(2, Skeleton("c2", 0), true), EncodeRecords(2), WriteRecords(2)]
                          + ([DropEntry(2), EncodeFunding(2), WriteFunding(2)] + [WriteRecords(1)]));
            ValidRun(START, steps) && Forgotten(After(START, steps), "c2")
  {
    var drop := [DropEntry(2), EncodeFunding(2), WriteFunding(2)] + [WriteRecords(1)];
    var second := [MergeRecord(2, Skeleton("c2", 0), true), EncodeRecords(2), WriteRecords(2)] + drop;
    LastSteps();
    SecondSteps();
    ThreeThen(FirstEncoded(), MergeRecord(2, Skeleton("c2", 0), true), EncodeRecords(2), WriteRecords(2), drop);
    FirstSteps();
    TwoThen(START, MergeRecord(1, Skeleton("c1", 0), false), EncodeRecords(1), second);
  }

  /** All writes in order: a pass drops the entry because memory has a record that is not on disk yet. */
  lemma EarlyDropForgetsTheChannel()
    ensures var s := Loaded(State(map[], map["c" := FundingEntry("f", 0, None)]));
            var steps := [MergeRecord(1, Skeleton("c", 0), true), DropKnown(2, "c"),
                          DropEntry(2), EncodeFunding(2), WriteFunding(2)];
            ValidRun(s, steps) && Forgotten(After(s, steps), "c")
  {
    var s0 := Loaded(State(map[], map["c" := FundingEntry("f", 0, None)]));
    var drop := [DropEntry(2), EncodeFunding(2), WriteFunding(2)] + [];
    var s2 := Apply(Apply(s0, MergeRecord(1, Skeleton("c", 0), true)), DropKnown(2, "c"));
    ThreeThen(s2, DropEntry(2), EncodeFunding(2), WriteFunding(2), []);
    TwoThen(s0, MergeRecord(1, Skeleton("c", 0), true), DropKnown(2, "c"), drop);
  }

  lemma TwoThen(s: Mirror, a: Step, b: Step, rest: seq<Step>)
    requires Enabled(s, a) && Enabled(Apply(s, a), b) && ValidRun(Apply(Apply(s, a), b), rest)
    ensures ValidRun(s, [a, b] + rest) && After(s, [a, b] + rest) == After(Apply(Apply(s, a), b), rest)
  {
    assert ([a, b] + rest)[1..] == [b] + rest && ([b] + rest)[1..] == rest;
  }

  lemma ThreeThen(s: Mirror, a: Step, b: Step, c: Step, rest: seq<Step>)
    requires Enabled(s, a) && Enabled(Apply(s, a), b) && Enabled(Apply(Apply(s, a), b), c)
    requires ValidRun(Apply(Apply(Apply(s, a), b), c), rest)
    ensures ValidRun(s, [a, b, c] + rest)
    ensures After(s, [a, b, c] + rest) == After(Apply(Apply(Apply(s, a), b), c), rest)
  {
    assert ([a, b, c] + rest)[1..] == [b, c] + rest;
    TwoThen(Apply(s, a), b, c, rest);
  }
}
