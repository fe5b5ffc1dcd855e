/** The persisted payment history: a status machine that writes the disk before it touches memory. */
module PaymentStore {
  import opened Prelude

  const RECONCILE_GRACE_MS: nat := 60_000
  const INTERRUPTED_REASON := "interrupted"

  datatype Direction = Inbound | Outbound
  datatype Status = Pending | Succeeded | Failed

  datatype Row = Row(
    paymentHash: string,
    direction: Direction,
    amountMsat: U64,
    status: Status,
    feePaidMsat: Option<U64>,
    createdAtMs: U64,
    failureReason: Option<string>)

  type Rows = map<string, Row>

  datatype Op =
    | RecordPending(id: string, direction: Direction, amountMsat: U64, nowMs: U64)
    | Settle(id: string, status: Status, feePaidMsat: Option<U64>, failureReason: Option<string>)
    | RecordClaimed(id: string, amountMsat: U64, nowMs: U64)

  /** Settling moves to a terminal status; its callers pass no other. */
  predicate WellFormedOp(op: Op) {
    op.Settle? ==> op.status != Pending
  }

  // ----- Specification ------------------------------------------------------------------

  /** The row the operation wants on disk, `None` when it leaves the store alone. */
  function Written(rows: Rows, op: Op): Option<Row> {
    match op
    case RecordPending(id, direction, amount, nowMs) =>
      if id in rows && rows[id].status != Failed then None
      else Some(Row(id, direction, amount, Pending, None, nowMs, None))
    case Settle(id, status, fee, reason) =>
      if id !in rows || rows[id].status != Pending then None
      else
        var row := rows[id];
        Some(row.(status := status, feePaidMsat := fee.Or(row.feePaidMsat),
                  failureReason := reason.Or(row.failureReason)))
    case RecordClaimed(id, amount, nowMs) =>
      if id in rows then None
      else Some(Row(id, Inbound, amount, Succeeded, None, nowMs, None))
  }

  datatype State = State(rows: Rows, disk: Rows)

  /** One call whose disk write succeeds or fails, or a crash that reloads the disk. */
  datatype Step = Call(op: Op, writeOk: bool) | CrashReload

  function Do(s: State, step: Step): State {
    match step
    case Call(op, writeOk) =>
      var row := Written(s.rows, op);
      if row.None? || !writeOk then s
      else State(s.rows[op.id := row.value], s.disk[row.value.paymentHash := row.value])
    case CrashReload => s.(rows := s.disk)
  }

  function DoAll(s: State, steps: seq<Step>): State
    decreases |steps|
  {
    if steps == [] then s else Do(DoAll(s, steps[..|steps| - 1]), steps[|steps| - 1])
  }

  ghost predicate Sound(s: State) {
    s.rows == s.disk && forall id :: id in s.rows ==> s.rows[id].paymentHash == id
  }

  ghost predicate WellFormedSteps(steps: seq<Step>) {
    forall i :: 0 <= i < |steps| && steps[i].Call? ==> WellFormedOp(steps[i].op)
  }

  function StatusOf(rows: Rows, id: string): Option<Status> {
    if id in rows then Some(rows[id].status) else None
  }

  /** The only ways a row's status moves. */
  predicate AllowedEdge(before: Option<Status>, after: Option<Status>) {
    || before == after
    || (before.None? && (after == Some(Pending) || after == Some(Succeeded)))
    || (before == Some(Pending) && (after == Some(Succeeded) || after == Some(Failed)))
    || (before == Some(Failed) && after == Some(Pending))
  }

  // ----- Every run ----------------------------------------------------------------------

  /** Memory equals disk in every state of every run, whatever writes fail and wherever it crashes. */
  lemma {:induction false} RunKeepsSound(s: State, steps: seq<Step>)
    requires Sound(s)
    ensures Sound(DoAll(s, steps))
    decreases |steps|
  {
    if steps != [] {
      RunKeepsSound(s, steps[..|steps| - 1]);
    }
  }

  /** The terms of a payment: who, how much, since when. */
  predicate SameTerms(a: Row, b: Row) {
    && a.paymentHash == b.paymentHash && a.direction == b.direction
    && a.amountMsat == b.amountMsat && a.createdAtMs == b.createdAtMs
  }

  /**
   A row's terms change only when a failed payment is dispatched again, and then to the terms of that
   dispatch; a known fee or reason is lost only then.
   */
  lemma StepKeepsTerms(s: State, step: Step, id: string)
    requires Sound(s) && id in s.rows
    ensures id in Do(s, step).rows
    ensures var before, after := s.rows[id], Do(s, step).rows[id];
            || (SameTerms(before, after)
                && (before.feePaidMsat.Some? ==> after.feePaidMsat.Some?)
                && (before.failureReason.Some? ==> after.failureReason.Some?))
            || (before.status == Failed && step.Call? && step.op.RecordPending? && step.op.id == id
                && after == Row(id, step.op.direction, step.op.amountMsat, Pending, None, step.op.nowMs, None))
  {
  }

  /** Over any run, a row that is never re-armed keeps its terms to the end. */
  lemma {:induction false} RunKeepsTerms(s: State, steps: seq<Step>, id: string)
    requires Sound(s) && id in s.rows
    requires forall i :: 0 <= i < |steps| && steps[i].Call? && steps[i].op.RecordPending? ==> steps[i].op.id != id
    ensures id in DoAll(s, steps).rows && SameTerms(s.rows[id], DoAll(s, steps).rows[id])
    decreases |steps|
  {
    if steps != [] {
      var front := steps[..|steps| - 1];
      RunKeepsSound(s, front);
      RunKeepsTerms(s, front, id);
      StepKeepsTerms(DoAll(s, front), steps[|steps| - 1], id);
    }
  }

  /** Each step of a run takes an allowed status edge. */
  lemma RunTakesAllowedEdges(s: State, steps: seq<Step>, k: nat, id: string)
    requires Sound(s) && WellFormedSteps(steps) && k < |steps|
    ensures AllowedEdge(StatusOf(DoAll(s, steps[..k]).rows, id), StatusOf(DoAll(s, steps[..k + 1]).rows, id))
  {
    RunKeepsSound(s, steps[..k]);
    assert steps[..k + 1][..k] == steps[..k];
  }

  /** A succeeded payment is frozen for the rest of every run. */
  lemma {:induction false} SucceededIsFrozen(s: State, steps: seq<Step>, id: string)
    requires Sound(s) && WellFormedSteps(steps)
    requires id in s.rows && s.rows[id].status == Succeeded
    ensures id in DoAll(s, steps).rows && DoAll(s, steps).rows[id] == s.rows[id]
    decreases |steps|
  {
    if steps != [] {
      var front := steps[..|steps| - 1];
      RunKeepsSound(s, front);
      SucceededIsFrozen(s, front, id);
    }
  }

  // ----- Replayed events ----------------------------------------------------------------

  /** The step dispatches the payment: a new one, or a failed one again, and the write succeeds. */
  predicate Dispatches(s: State, step: Step, id: string) {
    && step.Call? && step.writeOk && step.op.RecordPending? && step.op.id == id
    && (StatusOf(s.rows, id) == None || StatusOf(s.rows, id) == Some(Failed))
  }

  /** The step settles the payment: it is pending, and the write succeeds. */
  predicate Settles(s: State, step: Step, id: string) {
    && step.Call? && step.writeOk && step.op.Settle? && step.op.id == id
    && StatusOf(s.rows, id) == Some(Pending)
  }

  /** The step claims a payment the store did not know, and the write succeeds. */
  predicate Claims(s: State, step: Step, id: string) {
    && step.Call? && step.writeOk && step.op.RecordClaimed? && step.op.id == id
    && StatusOf(s.rows, id) == None
  }

  /** What each step leaves of the row: a dispatch starts it afresh, a settlement fills it in, a claim is paid. */
  lemma StepLeaves(s: State, step: Step, id: string)
    requires Sound(s)
    ensures var rows := Do(s, step).rows;
            && (Dispatches(s, step, id) ==>
                  && id in rows
                  && rows[id] == Row(id, step.op.direction, step.op.amountMsat, Pending, None, step.op.nowMs, None))
            && (Settles(s, step, id) ==>
                  && id in rows
                  && SameTerms(rows[id], s.rows[id]) && rows[id].status == step.op.status
                  && rows[id].feePaidMsat == step.op.feePaidMsat.Or(s.rows[id].feePaidMsat)
                  && rows[id].failureReason == step.op.failureReason.Or(s.rows[id].failureReason))
            && (Claims(s, step, id) ==>
                  id in rows && rows[id] == Row(id, Inbound, step.op.amountMsat, Succeeded, None, step.op.nowMs, None))
            && (!Dispatches(s, step, id) && !Settles(s, step, id) && !Claims(s, step, id) ==>
                  (id in rows <==> id in s.rows) && (id in rows ==> rows[id] == s.rows[id]))
  {
  }

  /** The status the step gives the payment, if it takes effect on it. */
  function Moves(s: State, step: Step, id: string): Option<Status> {
    if Dispatches(s, step, id) then Some(Pending)
    else if Settles(s, step, id) then Some(step.op.status)
    else if Claims(s, step, id) then Some(Succeeded)
    else None
  }

  /** The status the last step with an effect on the payment gave it. */
  function LastMove(s: State, steps: seq<Step>, id: string): Option<Status>
    decreases |steps|
  {
    if steps == [] then None
    else
      var front := steps[..|steps| - 1];
      Moves(DoAll(s, front), steps[|steps| - 1], id).Or(LastMove(s, front, id))
  }

  /** After every run, failed writes and crashes included, the status is that of the last step that took effect. */
  lemma {:induction false} StatusIsLastMove(s: State, steps: seq<Step>, id: string)
    requires Sound(s)
    ensures StatusOf(DoAll(s, steps).rows, id) == LastMove(s, steps, id).Or(StatusOf(s.rows, id))
    decreases |steps|
  {
    if steps != [] {
      var front := steps[..|steps| - 1];
      RunKeepsSound(s, front);
      StatusIsLastMove(s, front, id);
      StepLeaves(DoAll(s, front), steps[|steps| - 1], id);
    }
  }

  /** Some step claimed the payment or settled it as paid. */
  ghost predicate PaidBy(s: State, steps: seq<Step>, id: string) {
    exists i :: 0 <= i < |steps| && Moves(DoAll(s, steps[..i]), steps[i], id) == Some(Succeeded)
  }

  lemma PaidBySnoc(s: State, front: seq<Step>, step: Step, id: string)
    ensures PaidBy(s, front + [step], id) <==>
            PaidBy(s, front, id) || Moves(DoAll(s, front), step, id) == Some(Succeeded)
  {
    var steps := front + [step];
    assert steps[..|front|] == front;
    assert forall i :: 0 <= i < |front| ==> steps[i] == front[i] && steps[..i] == front[..i];
    if Moves(DoAll(s, front), step, id) == Some(Succeeded) {
      assert Moves(DoAll(s, steps[..|front|]), steps[|front|], id) == Some(Succeeded);
    }
    if PaidBy(s, front, id) {
      var i :| 0 <= i < |front| && Moves(DoAll(s, front[..i]), front[i], id) == Some(Succeeded);
      assert Moves(DoAll(s, steps[..i]), steps[i], id) == Some(Succeeded);
    }
  }

  /** A payment counts as paid after a run exactly when it did before or some step that took effect paid it. */
  lemma {:induction false} SucceededIff(s: State, steps: seq<Step>, id: string)
    requires Sound(s) && WellFormedSteps(steps)
    ensures StatusOf(DoAll(s, steps).rows, id) == Some(Succeeded) <==>
            StatusOf(s.rows, id) == Some(Succeeded) || PaidBy(s, steps, id)
    decreases |steps|
  {
    if steps != [] {
      var front, step := steps[..|steps| - 1], steps[|steps| - 1];
      assert steps == front + [step];
      RunKeepsSound(s, front);
      SucceededIff(s, front, id);
      PaidBySnoc(s, front, step, id);
      StepLeaves(DoAll(s, front), step, id);
    }
  }

  /** The payment was settled as failed by step `i` and not dispatched since. */
  ghost predicate FailedAt(s: State, steps: seq<Step>, i: nat, id: string) {
    && i < |steps| && Settles(DoAll(s, steps[..i]), steps[i], id) && steps[i].op.status == Failed
    && NotDispatched(s, steps, i + 1, id)
  }

  ghost predicate NotDispatched(s: State, steps: seq<Step>, from: nat, id: string) {
    forall j :: from <= j < |steps| ==> !Dispatches(DoAll(s, steps[..j]), steps[j], id)
  }

  lemma NotDispatchedSnoc(s: State, front: seq<Step>, step: Step, from: nat, id: string)
    requires from <= |front|
    ensures NotDispatched(s, front + [step], from, id) <==>
            NotDispatched(s, front, from, id) && !Dispatches(DoAll(s, front), step, id)
  {
    var steps := front + [step];
    assert steps[..|front|] == front;
    assert forall j :: 0 <= j < |front| ==> steps[j] == front[j] && steps[..j] == front[..j];
    if NotDispatched(s, steps, from, id) {
      assert !Dispatches(DoAll(s, steps[..|front|]), steps[|front|], id);
      forall j | from <= j < |front| ensures !Dispatches(DoAll(s, front[..j]), front[j], id) {
        assert !Dispatches(DoAll(s, steps[..j]), steps[j], id);
      }
    }
  }

  /** Failed at the end: it was so from the start, or became so by step `i`, and no dispatch followed. */
  ghost predicate StaysFailed(s: State, steps: seq<Step>, id: string) {
    || (StatusOf(s.rows, id) == Some(Failed) && NotDispatched(s, steps, 0, id))
    || exists i :: FailedAt(s, steps, i, id)
  }

  lemma FailedAtSnoc(s: State, front: seq<Step>, step: Step, i: nat, id: string)
    requires i < |front|
    ensures FailedAt(s, front + [step], i, id) <==>
            FailedAt(s, front, i, id) && !Dispatches(DoAll(s, front), step, id)
  {
    NotDispatchedSnoc(s, front, step, i + 1, id);
    assert (front + [step])[..i] == front[..i];
  }

  lemma FailsNow(s: State, front: seq<Step>, step: Step, id: string)
    ensures FailedAt(s, front + [step], |front|, id) <==>
            Settles(DoAll(s, front), step, id) && step.op.status == Failed
  {
    assert (front + [step])[..|front|] == front;
  }

  lemma StaysFailedSnoc(s: State, front: seq<Step>, step: Step, id: string)
    ensures StaysFailed(s, front + [step], id) <==>
            || (StaysFailed(s, front, id) && !Dispatches(DoAll(s, front), step, id))
            || (Settles(DoAll(s, front), step, id) && step.op.status == Failed)
  {
    NotDispatchedSnoc(s, front, step, 0, id);
    FailsNow(s, front, step, id);
    forall i: nat | i < |front|
      ensures FailedAt(s, front + [step], i, id) <==>
              FailedAt(s, front, i, id) && !Dispatches(DoAll(s, front), step, id)
    {
      FailedAtSnoc(s, front, step, i, id);
    }
  }

  /** A payment counts as failed after a run exactly when a settlement said so and it was not dispatched since. */
  lemma {:induction false} FailedIff(s: State, steps: seq<Step>, id: string)
    requires Sound(s) && WellFormedSteps(steps)
    ensures StatusOf(DoAll(s, steps).rows, id) == Some(Failed) <==> StaysFailed(s, steps, id)
    decreases |steps|
  {
    if steps != [] {
      var front, step := steps[..|steps| - 1], steps[|steps| - 1];
      assert steps == front + [step];
      RunKeepsSound(s, front);
      FailedIff(s, front, id);
      StaysFailedSnoc(s, front, step, id);
      StepLeaves(DoAll(s, front), step, id);
    }
  }

  /** `now` is the row `was` as this settlement left it. */
  predicate AsSettled(was: Row, now: Row, op: Op)
    requires op.Settle?
  {
    && SameTerms(was, now) && now.status == op.status
    && now.feePaidMsat == op.feePaidMsat.Or(was.feePaidMsat)
    && now.failureReason == op.failureReason.Or(was.failureReason)
  }

  /**
   The outcome, fee and reason of a settlement that took effect stand to the end of every run that does not
   dispatch the payment again; one that was paid cannot be.
   */
  lemma {:induction false} SettlementStands(s: State, steps: seq<Step>, i: nat, id: string)
    requires Sound(s) && WellFormedSteps(steps) && i < |steps|
    requires Settles(DoAll(s, steps[..i]), steps[i], id)
    requires steps[i].op.status == Failed ==> NotDispatched(s, steps, i + 1, id)
    ensures id in DoAll(s, steps[..i]).rows && id in DoAll(s, steps).rows
    ensures AsSettled(DoAll(s, steps[..i]).rows[id], DoAll(s, steps).rows[id], steps[i].op)
    decreases |steps|
  {
    var last := |steps| - 1;
    var front, step := steps[..last], steps[last];
    assert steps == front + [step];
    RunKeepsSound(s, front);
    StepLeaves(DoAll(s, front), step, id);
    if i < last {
      assert steps[..i] == front[..i] && steps[i] == front[i];
      NotDispatchedSnoc(s, front, step, i + 1, id);
      SettlementStands(s, front, i, id);
    }
  }

  /** Settling changes the store exactly when the row is pending and its write succeeds. */
  lemma SettleChangesIff(s: State, op: Op, writeOk: bool)
    requires op.Settle? && op.status != Pending
    ensures Do(s, Call(op, writeOk)) != s <==> writeOk && StatusOf(s.rows, op.id) == Some(Pending)
  {
    if writeOk && StatusOf(s.rows, op.id) == Some(Pending) {
      assert Do(s, Call(op, writeOk)).rows[op.id].status == op.status;
    }
  }

  /** The last dispatch of the run has not been settled since. */
  ghost predicate Unanswered(s: State, steps: seq<Step>, id: string) {
    exists i: nat :: DispatchedAt(s, steps, i, id)
  }

  ghost predicate DispatchedAt(s: State, steps: seq<Step>, i: nat, id: string) {
    && i < |steps| && Dispatches(DoAll(s, steps[..i]), steps[i], id)
    && forall j :: i < j < |steps| ==> !Settles(DoAll(s, steps[..j]), steps[j], id)
  }

  lemma UnansweredSnoc(s: State, front: seq<Step>, step: Step, id: string)
    ensures Unanswered(s, front + [step], id) <==>
            Dispatches(DoAll(s, front), step, id) || (Unanswered(s, front, id) && !Settles(DoAll(s, front), step, id))
  {
    var steps := front + [step];
    assert steps[..|front|] == front;
    assert forall j :: 0 <= j < |front| ==> steps[j] == front[j] && steps[..j] == front[..j];
    if i: nat :| DispatchedAt(s, steps, i, id) {
      if i < |front| {
        assert DispatchedAt(s, front, i, id);
        assert !Settles(DoAll(s, steps[..|front|]), steps[|front|], id);
      }
    }
    if Dispatches(DoAll(s, front), step, id) {
      assert DispatchedAt(s, steps, |front|, id);
    }
    if Unanswered(s, front, id) && !Settles(DoAll(s, front), step, id) {
      var i: nat :| DispatchedAt(s, front, i, id);
      assert DispatchedAt(s, steps, i, id);
    }
  }

  /** A row that was not pending is pending after a run exactly when the run dispatched it and left it unanswered. */
  lemma {:induction false} PendingIffUnanswered(s: State, steps: seq<Step>, id: string)
    requires Sound(s) && WellFormedSteps(steps) && StatusOf(s.rows, id) != Some(Pending)
    ensures StatusOf(DoAll(s, steps).rows, id) == Some(Pending) <==> Unanswered(s, steps, id)
    decreases |steps|
  {
    if steps != [] {
      var last := |steps| - 1;
      assert steps == steps[..last] + [steps[last]];
      RunKeepsSound(s, steps[..last]);
      PendingIffUnanswered(s, steps[..last], id);
      UnansweredSnoc(s, steps[..last], steps[last], id);
    }
  }

  /**
   A settlement replayed after any run, crashes and failing writes included, changes the store exactly when
   that run dispatched the payment again and left it unanswered: then it settles the new attempt.
   */
  lemma ReplayedSettleHitsIff(s: State, op: Op, steps: seq<Step>)
    requires Sound(s) && WellFormedSteps(steps) && op.Settle? && op.status != Pending
    ensures var once := Do(s, Call(op, true));
            var later := DoAll(once, steps);
            Do(later, Call(op, true)) != later <==> Unanswered(once, steps, op.id)
  {
    var once := Do(s, Call(op, true));
    RunKeepsSound(s, [Call(op, true)]);
    assert [Call(op, true)][..0] == [];
    PendingIffUnanswered(once, steps, op.id);
    SettleChangesIff(DoAll(once, steps), op, true);
  }

  /** So after any run that does not dispatch the payment again, the replay is a no-op. */
  lemma ReplayWithoutDispatchIsNoOp(s: State, op: Op, steps: seq<Step>, writeOk: bool)
    requires Sound(s) && WellFormedSteps(steps) && op.Settle? && op.status != Pending
    requires forall i :: 0 <= i < |steps| && steps[i].Call? && steps[i].op.RecordPending? ==> steps[i].op.id != op.id
    ensures var later := DoAll(Do(s, Call(op, true)), steps);
            Do(later, Call(op, writeOk)) == later
  {
    ReplayedSettleHitsIff(s, op, steps);
    SettleChangesIff(DoAll(Do(s, Call(op, true)), steps), op, writeOk);
  }

  /** A replayed claim or dispatch: the first never changes anything, the second exactly on a failed row. */
  lemma ReplayedRecordHitsIff(s: State, op: Op, steps: seq<Step>)
    requires Sound(s) && WellFormedSteps(steps) && !op.Settle?
    ensures var later := DoAll(Do(s, Call(op, true)), steps);
            && op.id in later.rows
            && (Do(later, Call(op, true)) != later <==> op.RecordPending? && later.rows[op.id].status == Failed)
  {
    var once := Do(s, Call(op, true));
    RunKeepsSound(s, [Call(op, true)]);
    assert [Call(op, true)][..0] == [];
    assert op.id in once.rows;
    RowStays(once, steps, op.id);
    var later := DoAll(once, steps);
    if op.RecordPending? && later.rows[op.id].status == Failed {
      assert Do(later, Call(op, true)).rows[op.id].status == Pending;
    }
  }

  lemma {:induction false} RowStays(s: State, steps: seq<Step>, id: string)
    requires Sound(s) && id in s.rows
    ensures id in DoAll(s, steps).rows
    decreases |steps|
  {
    if steps != [] {
      RunKeepsSound(s, steps[..|steps| - 1]);
      RowStays(s, steps[..|steps| - 1], id);
    }
  }

  /** A failure replayed after a fresh dispatch settles the new attempt instead. */
  lemma StaleFailureHitsTheNewAttempt(s: State, id: string, reason: string)
    requires Sound(s) && id in s.rows && s.rows[id].status == Pending
    ensures var failure := Settle(id, Failed, None, Some(reason));
            var redispatch := Call(RecordPending(id, Outbound, 1, 2), true);
            var later := DoAll(Do(s, Call(failure, true)), [redispatch]);
            Do(later, Call(failure, true)) != later
  {
    var failure := Settle(id, Failed, None, Some(reason));
    var redispatch := Call(RecordPending(id, Outbound, 1, 2), true);
    var once := Do(s, Call(failure, true));
    ReplayedSettleHitsIff(s, failure, [redispatch]);
    assert [redispatch][..0] == [];
    assert DispatchedAt(once, [redispatch], 0, id);
  }

  // ----- The startup reconcile ----------------------------------------------------------

  /** Pending rows without a live counterpart that are past the grace period. */
  predicate IsStale(rows: Rows, live: set<string>, nowMs: U64, id: string) {
    && id in rows
    && rows[id].status == Pending
    && rows[id].paymentHash !in live
    && SaturatingSub(nowMs, rows[id].createdAtMs) > RECONCILE_GRACE_MS
  }

  function StaleIds(rows: Rows, live: set<string>, nowMs: U64): set<string> {
    set id | id in rows && IsStale(rows, live, nowMs, id)
  }

  function Interrupt(id: string): Op {
    Settle(id, Failed, None, Some(INTERRUPTED_REASON))
  }

  /** A row is stale more than a minute after its dispatch, if it is pending and nothing is in flight for it. */
  lemma StaleIff(rows: Rows, live: set<string>, nowMs: U64, id: string)
    ensures id in StaleIds(rows, live, nowMs) <==>
            && StatusOf(rows, id) == Some(Pending) && rows[id].paymentHash !in live
            && rows[id].createdAtMs + 60_000 < nowMs
  {
  }

  /** A crash leaves what the disk holds, in memory too. */
  lemma CrashReloads(s: State)
    ensures Do(s, CrashReload) == State(s.disk, s.disk)
  {
  }

  /** The rows with exactly the ids in `done` marked interrupted. */
  function Interrupted(rows: Rows, done: set<string>): Rows {
    map id | id in rows ::
      if id in done then rows[id].(status := Failed, failureReason := Some(INTERRUPTED_REASON)) else rows[id]
  }

  // ----- The store ----------------------------------------------------------------------

  class Store {
    var rows: Rows
    var disk: Rows

    ghost function Current(): State
      reads this
    {
      State(rows, disk)
    }

    /** Loads every stored row under its key. */
    constructor (stored: Rows)
      ensures rows == stored && disk == stored
    {
      rows, disk := stored, stored;
    }

    method PersistRow(row: Row, writeOk: bool) returns (ok: bool)
      modifies this`disk
      ensures ok == writeOk
      ensures disk == if ok then old(disk)[row.paymentHash := row] else old(disk)
    {
      if writeOk {
        disk := disk[row.paymentHash := row];
      }
      ok := writeOk;
    }

    method RecordPending(id: string, direction: Direction, amountMsat: U64, nowMs: U64, writeOk: bool)
      returns (ok: bool)
      modifies this
      ensures Current() == Do(old(Current()), Call(Op.RecordPending(id, direction, amountMsat, nowMs), writeOk))
      ensures !ok <==> !writeOk && Written(old(rows), Op.RecordPending(id, direction, amountMsat, nowMs)).Some?
    {
      if id in rows {
        if rows[id].status != Failed {
          return true;
        }
      }
      var row := Row(id, direction, amountMsat, Pending, None, nowMs, None);
      ok := PersistRow(row, writeOk);
      if ok {
        rows := rows[id := row];
      }
    }

    method Settle(id: string, status: Status, fee: Option<U64>, reason: Option<string>, writeOk: bool)
      returns (ok: bool)
      modifies this
      ensures Current() == Do(old(Current()), Call(Op.Settle(id, status, fee, reason), writeOk))
      ensures !ok <==> !writeOk && Written(old(rows), Op.Settle(id, status, fee, reason)).Some?
    {
      if id !in rows || rows[id].status != Pending {
        return true;
      }
      var row := rows[id];
      row := row.(status := status);
      row := row.(feePaidMsat := fee.Or(row.feePaidMsat));
      row := row.(failureReason := reason.Or(row.failureReason));
      ok := PersistRow(row, writeOk);
      if ok {
        rows := rows[id := row];
      }
    }

    method RecordClaimed(hash: string, amountMsat: U64, nowMs: U64, writeOk: bool) returns (ok: bool)
      modifies this
      ensures Current() == Do(old(Current()), Call(Op.RecordClaimed(hash, amountMsat, nowMs), writeOk))
      ensures !ok <==> !writeOk && Written(old(rows), Op.RecordClaimed(hash, amountMsat, nowMs)).Some?
    {
      if hash in rows {
        return true;
      }
      var row := Row(hash, Inbound, amountMsat, Succeeded, None, nowMs, None);
      ok := PersistRow(row, writeOk);
      if ok {
        rows := rows[hash := row];
      }
    }

    /**
     Interrupts every stale row, stopping at the first failed write. `failing` holds the ids whose write
     would fail. On success exactly the counted rows changed and no stale row is left.
     */
    method ReconcilePending(live: set<string>, nowMs: U64, failing: set<string>) returns (count: Option<nat>)
      requires Sound(Current())
      modifies this
      ensures Sound(Current())
      ensures count.Some? <==> StaleIds(old(rows), live, nowMs) !! failing
      ensures count.Some? ==> count.value == |StaleIds(old(rows), live, nowMs)|
      ensures count.Some? ==> rows == Interrupted(old(rows), StaleIds(old(rows), live, nowMs))
      ensures count.Some? ==> forall id :: id in StaleIds(old(rows), live, nowMs) ==>
                id in rows && rows[id] == old(rows)[id].(status := Failed, failureReason := Some("interrupted"))
      ensures count.Some? ==> StaleIds(rows, live, nowMs) == {}
      ensures exists done :: done <= StaleIds(old(rows), live, nowMs) && rows == Interrupted(old(rows), done)
    {
      var stale := StaleIds(rows, live, nowMs);
      ghost var before := rows;
      var done: set<string> := {};
      assert rows == Interrupted(before, done);
      while done != stale
        invariant done <= stale && done !! failing
        invariant Sound(Current())
        invariant rows == Interrupted(before, done)
        decreases stale - done
      {
        assert exists id :: id in stale && id !in done;
        var id :| id in stale && id !in done;
        var ok := Settle(id, Failed, None, Some(INTERRUPTED_REASON), id !in failing);
        if !ok {
          return None;
        }
        done := done + {id};
      }
      count := Some(|stale|);
    }
  }

}
