/**
 * The columns of one task's row over its whole life: which of them a step may change, to what,
 * and what follows for deadlines, outcomes and the order of events.
 */
module RowHistory {
  import opened Wrappers
  import opened Schema
  import opened Lifecycle
  import opened LifecycleTheorems
  import Retry = HttpRetry

  // ---- One step ----------------------------------------------------------------------------

  /** A worker claims the task: the deadline starts anew. */
  predicate IsClaimed(row: Row, row': Row) {
    && row.status == PENDING && row'.processingStartedAt.Some?
    && row' == row.(status := PROCESSING, processingStartedAt := row'.processingStartedAt,
                    expiresAt := Some(row'.processingStartedAt.value + 1000 * row.timeoutSeconds))
  }

  predicate IsCompleted(row: Row, row': Row) {
    && row.status == PROCESSING && row'.result.Some? && row'.completedAt.Some?
    && row' == row.(status := COMPLETED, result := row'.result, completedAt := row'.completedAt)
  }

  predicate IsFailed(row: Row, row': Row) {
    && row.status == PROCESSING && row'.error.Some? && row'.completedAt.Some?
    && row' == row.(status := FAILED, error := row'.error, completedAt := row'.completedAt)
  }

  predicate IsCancelled(row: Row, row': Row) {
    && (row.status == PENDING || row.status == PROCESSING) && row'.completedAt.Some?
    && row' == row.(status := CANCELLED, completedAt := row'.completedAt)
  }

  /** Everything that can ever happen to a row, short of its deletion. */
  predicate RowStep(row: Row, row': Row) {
    || row' == row.(progress := row'.progress)
    || IsClaimed(row, row') || IsCompleted(row, row') || IsFailed(row, row') || IsCancelled(row, row')
  }

  /** A locked row will be cancelled, or timed out past its deadline, and not otherwise changed. */
  predicate LockColumns(c: Cell) {
    match c.rowLock
    case Free => true
    case ByCancel(_, updated) => c.row.Some? && IsCancelled(c.row.value, updated)
    case BySweep(_, updated, _) =>
      c.row.Some? && IsFailed(c.row.value, updated) &&
      updated.error == Some(TaskError("BUSINESS_TIMEOUT", TIMEOUT_ERROR.message)) &&
      c.row.value.expiresAt.Some? && c.row.value.expiresAt.value < updated.completedAt.value
  }

  lemma RequestKeepsLock(c: Cell, a: Action)
    requires Inv(c) && Enabled(c, a) && LockColumns(c) && IsRequestAction(a)
    ensures LockColumns(Step(c, a))
  {
  }

  lemma OtherKeepsLock(c: Cell, a: Action)
    requires Inv(c) && Enabled(c, a) && LockColumns(c) && !IsRequestAction(a)
    ensures LockColumns(Step(c, a))
  {
  }

  lemma StepKeepsLock(c: Cell, a: Action)
    requires Inv(c) && Enabled(c, a) && LockColumns(c)
    ensures LockColumns(Step(c, a))
  {
    if IsRequestAction(a) {
      RequestKeepsLock(c, a);
    } else {
      OtherKeepsLock(c, a);
    }
  }

  lemma RequestRowStep(c: Cell, a: Action)
    requires Inv(c) && Enabled(c, a) && LockColumns(c) && IsRequestAction(a) && c.row.Some?
    ensures Step(c, a).row.Some? && RowStep(c.row.value, Step(c, a).row.value)
  {
    if a.EndDispatch? {
      EndDispatchRowStep(c, a.r, a.now);
    } else if a.InsertEvent? {
      assert RequestInv(c, a.r, c.requests[a.r]);
    }
  }

  lemma EndDispatchRowStep(c: Cell, r: RequestId, now: Time)
    requires Inv(c) && Enabled(c, EndDispatch(r, now)) && c.row.Some?
    ensures Step(c, EndDispatch(r, now)).row.Some? && RowStep(c.row.value, Step(c, EndDispatch(r, now)).row.value)
  {
    var outcome := Retry.Decide(c.requests[r].trace, DISPATCH_ATTEMPTS).outcome;
    Retry.ThrowsOnlyItsOwnErrors(c.requests[r].trace, DISPATCH_ATTEMPTS, outcome);
  }

  lemma OtherRowStep(c: Cell, a: Action)
    requires Enabled(c, a) && LockColumns(c) && !IsRequestAction(a) && c.row.Some?
    ensures Step(c, a).row.Some? ==> RowStep(c.row.value, Step(c, a).row.value)
  {
  }

  // ---- Before the claim --------------------------------------------------------------------

  /** Until a task is claimed, all that can happen to it is its cancellation. */
  ghost predicate Unclaimed(c: Cell) {
    c.claims == 0 ==>
      && (c.row.Some? ==> c.row.value.status == PENDING || c.row.value.status == CANCELLED)
      && (forall r :: r in c.requests ==> c.requests[r].Cancel? || c.requests[r].Finished?)
      && (forall e :: e in c.ever ==> e.body == Cancelled)
  }

  lemma RequestKeepsUnclaimed(c: Cell, a: Action)
    requires Inv(c) && Enabled(c, a) && Unclaimed(c) && LockColumns(c) && IsRequestAction(a)
    ensures Unclaimed(Step(c, a))
  {
    if a.InsertEvent? {
      assert RequestInv(c, a.r, c.requests[a.r]);
    }
  }

  lemma OtherKeepsUnclaimed(c: Cell, a: Action)
    requires Inv(c) && Enabled(c, a) && Unclaimed(c) && LockColumns(c) && !IsRequestAction(a)
    ensures Unclaimed(Step(c, a))
  {
  }

  // ---- Swept rows --------------------------------------------------------------------------

  /** A row the sweep has failed was past its deadline when it did. */
  predicate SweptLate(c: Cell) {
    c.row.Some? && c.verdict.Some? && c.verdict.value.author.TheSweep? ==>
      && c.row.value.error == Some(TaskError("BUSINESS_TIMEOUT", TIMEOUT_ERROR.message))
      && c.row.value.expiresAt.Some? && c.row.value.completedAt.Some?
      && c.row.value.expiresAt.value < c.row.value.completedAt.value
  }

  lemma RequestKeepsSweptLate(c: Cell, a: Action)
    requires Inv(c) && Enabled(c, a) && SweptLate(c) && IsRequestAction(a)
    ensures SweptLate(Step(c, a))
  {
    if a.InsertEvent? {
      assert RequestInv(c, a.r, c.requests[a.r]);
    }
  }

  lemma OtherKeepsSweptLate(c: Cell, a: Action)
    requires Inv(c) && Enabled(c, a) && SweptLate(c) && LockColumns(c) && !IsRequestAction(a)
    ensures SweptLate(Step(c, a))
  {
  }

  // ---- Whole lives -------------------------------------------------------------------------

  ghost predicate ColumnsInv(c: Cell) {
    LockColumns(c) && Unclaimed(c) && SweptLate(c)
  }

  lemma StepKeepsColumns(c: Cell, a: Action)
    requires Inv(c) && Enabled(c, a) && ColumnsInv(c)
    ensures ColumnsInv(Step(c, a))
    ensures c.row.Some? && Step(c, a).row.Some? ==> RowStep(c.row.value, Step(c, a).row.value)
  {
    StepKeepsLock(c, a);
    if IsRequestAction(a) {
      RequestKeepsUnclaimed(c, a);
      RequestKeepsSweptLate(c, a);
      if c.row.Some? {
        RequestRowStep(c, a);
      }
    } else {
      OtherKeepsUnclaimed(c, a);
      OtherKeepsSweptLate(c, a);
      if c.row.Some? {
        OtherRowStep(c, a);
      }
    }
  }

  lemma NextKeepsColumns(c: Cell, c': Cell)
    requires Inv(c) && Next(c, c') && ColumnsInv(c)
    ensures ColumnsInv(c')
    ensures c.row.Some? && c'.row.Some? ==> RowStep(c.row.value, c'.row.value)
  {
    if c' != c {
      var a :| Enabled(c, a) && c' == Step(c, a);
      StepKeepsColumns(c, a);
    }
  }

  lemma {:induction false} BehaviorColumns(b: seq<Cell>, i: nat)
    requires Behavior(b) && i < |b|
    ensures ColumnsInv(b[i])
  {
    if i > 0 {
      BehaviorColumns(b, i - 1);
      BehaviorInv(b, i - 1);
      assert Next(b[i - 1], b[i - 1 + 1]);
      NextKeepsColumns(b[i - 1], b[i]);
    }
  }

  /** At every step of every run, a row that stays changes in one of five ways, column by column, if at all. */
  lemma EveryRowStep(b: seq<Cell>, i: nat)
    requires Behavior(b) && i < |b| - 1 && b[i].row.Some? && b[i + 1].row.Some?
    ensures RowStep(b[i].row.value, b[i + 1].row.value)
  {
    BehaviorColumns(b, i);
    BehaviorInv(b, i);
    assert Next(b[i], b[i + 1]);
    NextKeepsColumns(b[i], b[i + 1]);
  }

  /** What two moments of one row have in common. */
  ghost predicate SameTask(row: Row, row': Row) {
    && row'.idempotencyKey == row.idempotencyKey && row'.webhookUrl == row.webhookUrl
    && row'.timeoutSeconds == row.timeoutSeconds && row'.createdAt == row.createdAt
    && (row.processingStartedAt.Some? ==>
          row'.processingStartedAt == row.processingStartedAt && row'.expiresAt == row.expiresAt)
    && (row.status != PENDING && row.status != PROCESSING ==> row' == row.(progress := row'.progress))
  }

  lemma RowStepIsSameTask(row: Row, row': Row)
    requires ValidRow(row) && RowStep(row, row')
    ensures SameTask(row, row')
  {
  }

  /**
   * Key, webhook, timeout and creation time never change; the start and the deadline of a claim
   * never change after it; and of a terminal row nothing changes but the progress figure, which
   * is written whatever the status.
   */
  lemma {:induction false} RowsStayTheSame(b: seq<Cell>, i: nat, j: nat)
    requires Behavior(b) && i <= j < |b| && b[i].row.Some? && b[j].row.Some?
    ensures SameTask(b[i].row.value, b[j].row.value)
    decreases j
  {
    if i < j {
      LogGrows(b, j - 1, j);
      RowsStayTheSame(b, i, j - 1);
      EveryRowStep(b, j - 1);
      LifecycleSafety(b, j - 1, j - 1);
      RowStepIsSameTask(b[j - 1].row.value, b[j].row.value);
      SameTaskTransitive(b[i].row.value, b[j - 1].row.value, b[j].row.value);
    }
  }

  lemma SameTaskTransitive(x: Row, y: Row, z: Row)
    requires SameTask(x, y) && SameTask(y, z)
    ensures SameTask(x, z)
  {
  }

  /** The deadline: as created until the task is claimed, and `timeoutSeconds` after the claim from then on. */
  predicate DeadlineIs(row: Row, created: Row) {
    row.expiresAt == match row.processingStartedAt
                     case None => created.expiresAt
                     case Some(start) => Some(start + 1000 * created.timeoutSeconds)
  }

  lemma DeadlineStep(row: Row, row': Row, created: Row)
    requires ValidRow(row) && RowStep(row, row')
    requires DeadlineIs(row, created) && row.timeoutSeconds == created.timeoutSeconds
    ensures DeadlineIs(row', created) && row'.timeoutSeconds == created.timeoutSeconds
  {
  }

  lemma {:induction false} DeadlineSinceCreation(b: seq<Cell>, i: nat)
    requires Behavior(b) && i < |b| && b[i].row.Some?
    ensures b[0].row.Some? && DeadlineIs(b[i].row.value, b[0].row.value)
    ensures b[i].row.value.timeoutSeconds == b[0].row.value.timeoutSeconds
  {
    if i > 0 {
      LogGrows(b, i - 1, i);
      DeadlineSinceCreation(b, i - 1);
      EveryRowStep(b, i - 1);
      LifecycleSafety(b, i - 1, i - 1);
      DeadlineStep(b[i - 1].row.value, b[i].row.value, b[0].row.value);
    } else {
      var row :| ValidRow(row) && row.status == PENDING && b[0] == NewCell(row);
    }
  }

  /**
   * A running task times out `timeoutSeconds` after its claim, to the millisecond; a waiting one
   * still has the deadline it was created with.
   */
  lemma DeadlineOfEveryRow(b: seq<Cell>, i: nat)
    requires Behavior(b) && i < |b| && b[i].row.Some?
    ensures var row := b[i].row.value;
            && b[0].row.Some?
            && (row.status == PROCESSING ==>
                  && row.processingStartedAt.Some?
                  && row.expiresAt == Some(row.processingStartedAt.value + 1000 * row.timeoutSeconds))
            && (row.status == PENDING ==> row.expiresAt == b[0].row.value.expiresAt)
  {
    DeadlineSinceCreation(b, i);
    LifecycleSafety(b, i, i);
  }

  /**
   * The guard at work: until a task has been claimed its row is PENDING or CANCELLED, and its log
   * holds nothing but the cancellation - no result, no progress and no timeout.
   */
  lemma NothingBeforeTheClaim(b: seq<Cell>, i: nat)
    requires Behavior(b) && i < |b| && b[i].claims == 0
    ensures b[i].row.Some? ==> b[i].row.value.status == PENDING || b[i].row.value.status == CANCELLED
    ensures forall e :: e in b[i].ever ==> e.body == Cancelled
  {
    BehaviorColumns(b, i);
  }

  /** No task is ever timed out before its deadline. */
  lemma SweptRowsWereLate(b: seq<Cell>, i: nat)
    requires Behavior(b) && i < |b| && b[i].row.Some? && b[i].verdict.Some? && b[i].verdict.value.author.TheSweep?
    ensures var row := b[i].row.value;
            && row.status == FAILED && row.error == Some(TaskError("BUSINESS_TIMEOUT", TIMEOUT_ERROR.message))
            && row.expiresAt.Some? && row.completedAt.Some? && row.expiresAt.value < row.completedAt.value
  {
    BehaviorColumns(b, i);
    BehaviorInv(b, i);
  }
}
