/**
 * What holds over whole lives of a task: every reachable cell, and every pair of moments of one
 * run.
 */
module LifecycleTheorems {
  import opened Wrappers
  import opened Schema
  import opened Lifecycle
  import Retry = HttpRetry
  import Sse

  /**
   * Actions of callbacks, cancellations and dispatch jobs; the rest are the sweeper, deletions,
   * webhooks and streams.
   */
  predicate IsRequestAction(a: Action) {
    a.GuardResult? || a.GuardReport? || a.WriteResult? || a.WriteProgress? || a.StartCancel? || a.TakeAdvisory? ||
    a.InsertEvent? || a.Publish? || a.EnqueueWebhook? || a.Crash? || a.Claim? || a.PostOnce? || a.EndDispatch?
  }

  lemma RequestActionKeepsInv(c: Cell, a: Action)
    requires Inv(c) && Enabled(c, a) && IsRequestAction(a)
    ensures Inv(Step(c, a))
  {
    match a
    case GuardResult(r, dto) => KeepGuardResult(c, r, dto);
    case GuardReport(r, percent) => KeepGuardReport(c, r, percent);
    case WriteResult(r, now) => KeepWriteResult(c, r, now);
    case WriteProgress(r) => KeepWriteProgress(c, r);
    case StartCancel(r, now) => KeepStartCancel(c, r, now);
    case TakeAdvisory(r) => KeepTakeAdvisory(c, r);
    case InsertEvent(r) => KeepInsertEvent(c, r);
    case Publish(r) => KeepPublish(c, r);
    case EnqueueWebhook(r) => KeepEnqueueWebhook(c, r);
    case Crash(r) => KeepCrash(c, r);
    case Claim(r, now) => KeepClaim(c, r, now);
    case PostOnce(r, reply) => KeepPostOnce(c, r, reply);
    case EndDispatch(r, now) => KeepEndDispatch(c, r, now);
  }

  lemma OtherActionKeepsInv(c: Cell, a: Action)
    requires Inv(c) && Enabled(c, a) && !IsRequestAction(a)
    ensures Inv(Step(c, a))
  {
    match a
    case SweepLock(sweep, now) => KeepSweepLock(c, sweep, now);
    case SweepRead(sweep) => KeepSweepRead(c, sweep);
    case SweepCommit(sweep) => KeepSweepCommit(c, sweep);
    case SweepRollback(sweep) => KeepSweepRollback(c, sweep);
    case SweepPublish => KeepSweepPublish(c);
    case RollBackCreation => KeepRollBackCreation(c);
    case Prune => KeepPrune(c);
    case BuildPayload => KeepBuildPayload(c);
    case OpenStream(i, afterSeq) => KeepOpenStream(c, i, afterSeq);
    case QueryHistory(i) => KeepQueryHistory(c, i);
    case Callback(i, input) => KeepCallback(c, i, input);
  }

  /** Every action of every participant keeps the invariant. */
  lemma StepKeepsInv(c: Cell, a: Action)
    requires Inv(c) && Enabled(c, a)
    ensures Inv(Step(c, a))
  {
    if IsRequestAction(a) {
      RequestActionKeepsInv(c, a);
    } else {
      OtherActionKeepsInv(c, a);
    }
  }

  /** What one moment of a task's life promises about every later one. */
  ghost predicate Later(c: Cell, c': Cell) {
    && c.ever <= c'.ever
    && (c.row.None? ==> c'.row.None?)
    && (c.verdict.Some? ==> c'.verdict == c.verdict)
    && c.claims <= c'.claims && c.posts <= c'.posts && c.webhookJobs <= c'.webhookJobs
    && (forall i :: i in c.streams ==> i in c'.streams && StreamLater(c.streams[i], c'.streams[i]))
  }

  ghost predicate StreamLater(s: Stream, s': Stream) {
    && s.afterSeq == s'.afterSeq
    && s.conn.out <= s'.conn.out
    && (!s.conn.end.Open? ==> s'.conn.out == s.conn.out && s'.conn.end == s.conn.end)
  }

  lemma WriteResultIsLater(c: Cell, r: RequestId, now: Time)
    requires Inv(c) && Enabled(c, WriteResult(r, now))
    ensures Later(c, Step(c, WriteResult(r, now)))
  {
    assert RequestInv(c, r, c.requests[r]);
    assert Step(c, WriteResult(r, now)) == WriteResultStep(c, r, now);
  }

  lemma ClaimIsLater(c: Cell, r: RequestId, now: Time)
    requires Inv(c) && Enabled(c, Claim(r, now))
    ensures Later(c, Step(c, Claim(r, now)))
  {
    assert Step(c, Claim(r, now)) == ClaimStep(c, r, now);
  }

  lemma EndDispatchIsLater(c: Cell, r: RequestId, now: Time)
    requires Inv(c) && Enabled(c, EndDispatch(r, now))
    ensures Later(c, Step(c, EndDispatch(r, now)))
  {
    var c' := EndDispatchStep(c, r, now);
    assert Step(c, EndDispatch(r, now)) == c';
    assert RequestInv(c, r, c.requests[r]);
    assert c' == c.(row := c'.row, verdict := c'.verdict, requests := c'.requests);
  }

  lemma RequestActionIsLater(c: Cell, a: Action)
    requires Inv(c) && Enabled(c, a) && IsRequestAction(a)
    requires !a.InsertEvent? && !a.WriteResult? && !a.Claim? && !a.EndDispatch?
    ensures Later(c, Step(c, a))
  {
  }

  /** Committing an event; a cancellation's row lock means the task had no verdict before. */
  lemma InsertEventIsLater(c: Cell, r: RequestId)
    requires Inv(c) && Enabled(c, InsertEvent(r))
    ensures Later(c, Step(c, InsertEvent(r)))
  {
    var q := c.requests[r];
    assert RequestInv(c, r, q);
    if SeqTaken(c.log, q.phase.num) {
      assert Step(c, InsertEvent(r)) == ReleaseAll(Goto(c, r, Finished), r);
    } else if q.Cancel? {
      VerdictlessHasNoTerminal(c);
    }
  }

  lemma SweepActionIsLater(c: Cell, a: Action)
    requires Inv(c) && Enabled(c, a)
    requires a.SweepLock? || a.SweepRead? || a.SweepCommit? || a.SweepRollback? || a.SweepPublish?
    ensures Later(c, Step(c, a))
  {
    if a.SweepCommit? {
      VerdictlessHasNoTerminal(c);
    }
  }

  lemma StreamActionIsLater(c: Cell, a: Action)
    requires Enabled(c, a) && (a.OpenStream? || a.QueryHistory?)
    ensures Later(c, Step(c, a))
  {
  }

  lemma OtherActionIsLater(c: Cell, a: Action)
    requires Enabled(c, a) && (a.RollBackCreation? || a.Prune? || a.BuildPayload?)
    ensures Later(c, Step(c, a))
  {
  }

  lemma StepIsLater(c: Cell, a: Action)
    requires Inv(c) && Enabled(c, a)
    ensures Later(c, Step(c, a))
  {
    if a.InsertEvent? {
      InsertEventIsLater(c, a.r);
    } else if a.Callback? {
      CallbackIsLater(c, a.i, a.input);
    } else if a.WriteResult? {
      WriteResultIsLater(c, a.r, a.now);
    } else if a.Claim? {
      ClaimIsLater(c, a.r, a.now);
    } else if a.EndDispatch? {
      EndDispatchIsLater(c, a.r, a.now);
    } else if IsRequestAction(a) {
      RequestActionIsLater(c, a);
    } else if a.OpenStream? || a.QueryHistory? {
      StreamActionIsLater(c, a);
    } else if a.RollBackCreation? || a.Prune? || a.BuildPayload? {
      OtherActionIsLater(c, a);
    } else {
      SweepActionIsLater(c, a);
    }
  }

  lemma CallbackIsLater(c: Cell, i: StreamId, input: Sse.Input)
    requires Inv(c) && Enabled(c, Callback(i, input))
    ensures Later(c, Step(c, Callback(i, input)))
  {
    var s := c.streams[i];
    assert StreamInv(s, c.ever);
    Sse.StepExtendsOutput(s.conn, input);
    if !s.conn.end.Open? {
      Sse.EndedIsFinal(s.conn, input, s.afterSeq);
    }
  }

  /** Events are removed by retention alone, and rows by retention and the rollback of a creation alone. */
  lemma RequestRemovesNothing(c: Cell, a: Action)
    requires Enabled(c, a) && IsRequestAction(a)
    ensures c.log <= Step(c, a).log && c.published <= Step(c, a).published
    ensures c.row.Some? ==> Step(c, a).row.Some?
  {
  }

  lemma OtherRemovesNothing(c: Cell, a: Action)
    requires Enabled(c, a) && !IsRequestAction(a)
    ensures c.published <= Step(c, a).published
    ensures a.Prune? || c.log <= Step(c, a).log
    ensures a.Prune? || a.RollBackCreation? || (c.row.Some? ==> Step(c, a).row.Some?)
  {
  }

  // ---- Whole runs --------------------------------------------------------------------------

  ghost predicate Next(c: Cell, c': Cell) {
    c' == c || exists a :: Enabled(c, a) && c' == Step(c, a)
  }

  /** A life of a task from its insertion, under any interleaving. */
  ghost predicate Behavior(b: seq<Cell>) {
    && |b| > 0
    && (exists row :: ValidRow(row) && row.status == PENDING && b[0] == NewCell(row))
    && (forall i :: 0 <= i < |b| - 1 ==> Next(b[i], b[i + 1]))
  }

  lemma NextKeepsInv(c: Cell, c': Cell)
    requires Inv(c) && Next(c, c')
    ensures Inv(c') && Later(c, c')
  {
    if c' != c {
      var a :| Enabled(c, a) && c' == Step(c, a);
      StepKeepsInv(c, a);
      StepIsLater(c, a);
    }
  }

  lemma {:induction false} BehaviorInv(b: seq<Cell>, i: nat)
    requires Behavior(b) && i < |b|
    ensures Inv(b[i])
  {
    if i == 0 {
      var row :| ValidRow(row) && row.status == PENDING && b[0] == NewCell(row);
      InitInv(row);
    } else {
      BehaviorInv(b, i - 1);
      assert Next(b[i - 1], b[i - 1 + 1]);
      NextKeepsInv(b[i - 1], b[i]);
    }
  }

  lemma LaterTransitive(x: Cell, y: Cell, z: Cell)
    requires Later(x, y) && Later(y, z)
    ensures Later(x, z)
  {
    forall i | i in x.streams ensures i in z.streams && StreamLater(x.streams[i], z.streams[i]) {
      assert StreamLater(x.streams[i], y.streams[i]) && StreamLater(y.streams[i], z.streams[i]);
    }
  }

  lemma {:induction false} BehaviorLater(b: seq<Cell>, i: nat, j: nat)
    requires Behavior(b) && i <= j < |b|
    ensures Later(b[i], b[j])
    decreases j
  {
    if i < j {
      BehaviorLater(b, i, j - 1);
      BehaviorInv(b, j - 1);
      assert Next(b[j - 1], b[j - 1 + 1]);
      NextKeepsInv(b[j - 1], b[j]);
      LaterTransitive(b[i], b[j - 1], b[j]);
    }
  }

  /**
   * Lifecycle safety: every row satisfies the CHECK and has exactly the outcome columns of its
   * status, and a terminal row keeps its status and outcome for the rest of its life.
   */
  lemma LifecycleSafety(b: seq<Cell>, i: nat, j: nat)
    requires Behavior(b) && i <= j < |b| && b[i].row.Some? && b[j].row.Some?
    ensures ValidStateData(b[i].row.value) && ValidOutcome(b[i].row.value)
    ensures !InFlight(b[i].row.value) ==>
              b[j].row.value.status == b[i].row.value.status &&
              b[j].row.value.result == b[i].row.value.result && b[j].row.value.error == b[i].row.value.error
  {
    BehaviorInv(b, i);
    BehaviorInv(b, j);
    BehaviorLater(b, i, j);
  }

  /** A deleted row never comes back. */
  lemma DeletionIsFinal(b: seq<Cell>, i: nat, j: nat)
    requires Behavior(b) && i <= j < |b| && b[i].row.None?
    ensures b[j].row.None?
  {
    BehaviorLater(b, i, j);
  }

  /**
   * Terminal event agreement: over the whole history of a task, deletions included, at most one
   * terminal event is ever committed, whatever races; while the row exists, the event's type
   * and contents are the row's.
   */
  lemma TerminalEventAgreement(b: seq<Cell>, i: nat)
    requires Behavior(b) && i < |b|
    ensures AtMostOneTerminal(b[i].ever)
    ensures forall e :: e in b[i].log ==> e in b[i].ever
    ensures b[i].row.Some? ==> forall e :: e in b[i].ever && IsTerminal(e) ==> Matches(b[i].row.value, e.body)
  {
    BehaviorInv(b, i);
  }

  /** Sequence contiguity: while a task exists, its committed seqs are exactly 1..n, in commit order. */
  lemma SequenceContiguity(b: seq<Cell>, i: nat)
    requires Behavior(b) && i < |b| && b[i].row.Some?
    ensures Contiguous(b[i].log)
  {
    BehaviorInv(b, i);
  }

  /** And the log of an existing task only grows. */
  lemma LogGrows(b: seq<Cell>, i: nat, j: nat)
    requires Behavior(b) && i <= j < |b| && b[j].row.Some?
    ensures b[i].row.Some? && b[i].log <= b[j].log
  {
    BehaviorInv(b, i);
    BehaviorInv(b, j);
    BehaviorLater(b, i, j);
  }

  /**
   * Writers that take the advisory lock never conflict with each other: an insert under the lock
   * finds its seq taken exactly when a sweep has committed that seq since the lock was taken.
   */
  lemma LockedInsertConflictsIffSwept(b: seq<Cell>, i: nat, r: RequestId)
    requires Behavior(b) && i < |b| && IsLocked(b[i], r) && b[i].row.Some?
    ensures SeqTaken(b[i].log, b[i].requests[r].phase.num)
       <==> SweptAt(b[i].verdict, b[i].verdictEvent) == Some(b[i].requests[r].phase.num)
    ensures b[i].advisory == Some(r)
  {
    BehaviorInv(b, i);
    var c := b[i];
    assert RequestInv(c, r, c.requests[r]);
  }

  /** The sweeper's unlocked read commits exactly when nothing was logged since; a stale one is always rejected. */
  lemma SweepCommitsIffReadIsFresh(b: seq<Cell>, i: nat, sweep: nat)
    requires Behavior(b) && i < |b| && b[i].rowLock.BySweep? && b[i].rowLock.sweep == sweep && b[i].rowLock.read.Some?
    ensures Enabled(b[i], SweepCommit(sweep)) <==> b[i].rowLock.read.value == |b[i].log| + 1
  {
    BehaviorInv(b, i);
    var c := b[i];
    if c.rowLock.read.value <= |c.log| {
      ContiguousTaken(c.log, c.rowLock.read.value);
    } else {
      MaxSeqIsLength(c.log);
    }
  }

  /**
   * Single dispatch: however often its job is delivered and whatever crashes, a task is claimed
   * at most once, its executor gets at most three POSTs in all, and once claimed it is never
   * PENDING again.
   */
  lemma SingleDispatch(b: seq<Cell>, i: nat, j: nat)
    requires Behavior(b) && i <= j < |b|
    ensures b[j].claims <= 1 && b[j].posts <= 3
    ensures b[i].claims == 1 && b[j].row.Some? ==> b[j].row.value.status != PENDING
  {
    BehaviorInv(b, j);
    BehaviorLater(b, i, j);
  }

  /**
   * Webhook consistency: at most one webhook job per task, enqueued by the result submission
   * that won the conditional update; every payload ever built says COMPLETED with only a result
   * or FAILED with only an error.
   */
  lemma WebhookConsistency(b: seq<Cell>, i: nat)
    requires Behavior(b) && i < |b|
    ensures b[i].webhookJobs <= 1
    ensures b[i].webhookJobs == 1 ==> b[i].verdict.Some? && b[i].verdict.value.author.TheResult?
    ensures forall p :: p in b[i].payloads ==>
              b[i].verdict.Some? && Carries(p, b[i].verdict.value.body) && GoodPayload(p)
  {
    BehaviorInv(b, i);
  }

  /**
   * Every stream of a reachable task emits strictly increasing ids, ends at most once, and only
   * ever emits committed events.
   */
  lemma StreamsAreSound(b: seq<Cell>, i: nat, k: StreamId)
    requires Behavior(b) && i < |b| && k in b[i].streams
    ensures Sse.Ordered(b[i].streams[k].conn.out, b[i].streams[k].afterSeq)
    ensures Sse.TerminalOnlyLast(b[i].streams[k].conn.out)
    ensures forall e :: e in b[i].streams[k].conn.out ==> e in b[i].ever
  {
    BehaviorInv(b, i);
    assert StreamInv(b[i].streams[k], b[i].ever);
  }

  /**
   * End to end: once any stream has delivered a terminal event, at that moment and at every
   * later one the row, if it still exists, holds exactly that outcome.
   */
  lemma DeliveredTerminalIsDurable(b: seq<Cell>, i: nat, j: nat, k: StreamId, e: Event)
    requires Behavior(b) && i <= j < |b| && k in b[i].streams
    requires e in b[i].streams[k].conn.out && IsTerminal(e)
    ensures b[j].row.Some? ==> Matches(b[j].row.value, e.body)
  {
    StreamsAreSound(b, i, k);
    BehaviorLater(b, i, j);
    BehaviorInv(b, j);
    assert e in b[j].ever;
  }
}
