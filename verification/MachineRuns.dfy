/**
 * An uninterrupted call of a service or worker is a run of the interleaved machine: taken one
 * after the other, with nothing else happening to the task, the machine's actions do to its row,
 * log, channel and queues what the method does.
 */
module MachineRuns {
  import opened Wrappers
  import opened Schema
  import opened Database
  import opened Lifecycle
  import opened LifecycleTheorems
  import opened Services
  import SseRefinement
  import SseService
  import Sse
  import Retry = HttpRetry

  /** No transaction is open on the task and the request is new. */
  predicate Quiet(c: Cell, r: RequestId) {
    c.rowLock.Free? && c.advisory.None? && !Has(c, r)
  }

  /** MAX + 1 is free: an insert that is not raced always commits. */
  lemma NextSeqIsFree(log: seq<Event>)
    ensures !SeqTaken(log, MaxSeq(log) + 1)
  {
  }

  predicate Takes(c: Cell, a: Action, c': Cell) {
    Enabled(c, a) && c' == Step(c, a)
  }

  /** The cells an uninterrupted sequence of actions passes through. */
  ghost predicate IsTrace(cells: seq<Cell>, actions: seq<Action>) {
    |cells| == |actions| + 1 && forall i :: 0 <= i < |actions| ==> Takes(cells[i], actions[i], cells[i + 1])
  }

  lemma Trace4(c0: Cell, a0: Action, c1: Cell, a1: Action, c2: Cell, a2: Action, c3: Cell, a3: Action, c4: Cell)
    requires Takes(c0, a0, c1) && Takes(c1, a1, c2) && Takes(c2, a2, c3) && Takes(c3, a3, c4)
    ensures IsTrace([c0, c1, c2, c3, c4], [a0, a1, a2, a3])
  {
    hide Takes;
  }

  lemma Trace6(c0: Cell, a0: Action, c1: Cell, a1: Action, c2: Cell, a2: Action, c3: Cell, a3: Action, c4: Cell,
               a4: Action, c5: Cell, a5: Action, c6: Cell)
    requires Takes(c0, a0, c1) && Takes(c1, a1, c2) && Takes(c2, a2, c3)
    requires Takes(c3, a3, c4) && Takes(c4, a4, c5) && Takes(c5, a5, c6)
    ensures IsTrace([c0, c1, c2, c3, c4, c5, c6], [a0, a1, a2, a3, a4, a5])
  {
    hide Takes;
  }

  /** From the row update on, the steps that both executor callbacks share. */
  lemma LogAndPublish(c: Cell, r: RequestId, q: Request) returns (c1: Cell, c2: Cell, c3: Cell)
    requires c.advisory.None? && Has(c, r) && c.requests[r] == q && (q.Result? || q.Report?) && q.phase == RowWritten
    ensures Takes(c, TakeAdvisory(r), c1) && Takes(c1, InsertEvent(r), c2) && Takes(c2, Publish(r), c3)
    ensures var e := NextEvent(c.log, EventOf(q));
            c3.row == c.row && c3.log == c.log + [e] && c3.published == c.published + [e] &&
            c3.webhookJobs == c.webhookJobs && Has(c3, r) &&
            c3.requests[r] == (if q.Result? then Advance(q, Phase.Published) else Finished)
  {
    NextSeqIsFree(c.log);
    var e := NextEvent(c.log, EventOf(q));
    c1 := Step(c, TakeAdvisory(r));
    assert c1.requests[r] == Advance(q, Locked(e.num));
    assert EventOf(c1.requests[r]) == EventOf(q);
    c2 := Step(c1, InsertEvent(r));
    assert c2.requests[r] == Advance(c1.requests[r], Logged(e));
    c3 := Step(c2, Publish(r));
  }

  lemma GuardAndWrite(c: Cell, r: RequestId, dto: EventBody, now: Time) returns (c1: Cell, c2: Cell)
    requires Quiet(c, r) && GuardPasses(c) && ValidRow(c.row.value) && (dto.Completed? || dto.Failed?)
    ensures Takes(c, GuardResult(r, dto), c1) && Takes(c1, WriteResult(r, now), c2)
    ensures c2.row == Some(WithResult(c.row.value, dto, now))
    ensures c2.log == c.log && c2.published == c.published
    ensures c2.advisory.None? && c2.webhookJobs == c.webhookJobs
    ensures Has(c2, r) && c2.requests[r] == Result(dto, c.row.value.webhookUrl.Some?, RowWritten)
  {
    c1 := Step(c, GuardResult(r, dto));
    assert c1.requests[r] == Result(dto, c.row.value.webhookUrl.Some?, Guarded);
    ResultUpdateFacts(c.row.value, dto, now);
    c2 := Step(c1, WriteResult(r, now));
  }

  lemma Webhook(c: Cell, r: RequestId) returns (c': Cell)
    requires InPhase(c, r, Phase.Published) && c.requests[r].Result?
    ensures Takes(c, EnqueueWebhook(r), c') && c'.row == c.row && c'.log == c.log && c'.published == c.published
    ensures c'.webhookJobs == c.webhookJobs + (if c.requests[r].hasWebhook then 1 else 0)
  {
    c' := Step(c, EnqueueWebhook(r));
  }

  function SubmitActions(r: RequestId, dto: EventBody, now: Time): seq<Action> {
    [GuardResult(r, dto), WriteResult(r, now), TakeAdvisory(r), InsertEvent(r), Publish(r), EnqueueWebhook(r)]
  }

  /**
   * The six machine actions of one result submission, taken without interruption on a PROCESSING
   * task, do to its row, log, channel and webhook queue what `ExecutorService.SubmitResult` does.
   */
  lemma SubmitResultIsMachineRun(c: Cell, r: RequestId, dto: EventBody, now: Time) returns (cells: seq<Cell>)
    requires Quiet(c, r) && GuardPasses(c) && ValidRow(c.row.value) && (dto.Completed? || dto.Failed?)
    ensures IsTrace(cells, SubmitActions(r, dto, now)) && cells[0] == c
    ensures var e := Event(MaxSeq(c.log) + 1, dto);
            var c' := cells[6];
            && c'.row == Some(WithResult(c.row.value, dto, now))
            && c'.log == c.log + [e] && c'.published == c.published + [e]
            && c'.webhookJobs == c.webhookJobs + (if c.row.value.webhookUrl.Some? then 1 else 0)
  {
    hide Takes, IsTrace;
    var c1, c2 := GuardAndWrite(c, r, dto, now);
    var c3, c4, c5 := LogAndPublish(c2, r, c2.requests[r]);
    var c6 := Webhook(c5, r);
    Trace6(c, GuardResult(r, dto), c1, WriteResult(r, now), c2, TakeAdvisory(r), c3, InsertEvent(r), c4, Publish(r), c5,
           EnqueueWebhook(r), c6);
    cells := [c, c1, c2, c3, c4, c5, c6];
  }

  lemma GuardAndReport(c: Cell, r: RequestId, percent: int) returns (c1: Cell, c2: Cell)
    requires Quiet(c, r) && GuardPasses(c)
    ensures Takes(c, GuardReport(r, percent), c1) && Takes(c1, WriteProgress(r), c2)
    ensures c2.row == Some(c.row.value.(progress := percent)) && c2.log == c.log && c2.published == c.published
    ensures c2.advisory.None? && c2.webhookJobs == c.webhookJobs
    ensures Has(c2, r) && c2.requests[r] == Report(percent, RowWritten)
  {
    c1 := Step(c, GuardReport(r, percent));
    assert c1.requests[r] == Report(percent, Guarded);
    c2 := Step(c1, WriteProgress(r));
  }

  /** Likewise for a progress report and `ExecutorService.UpdateProgress`. */
  lemma UpdateProgressIsMachineRun(c: Cell, r: RequestId, percent: int) returns (cells: seq<Cell>)
    requires Quiet(c, r) && GuardPasses(c)
    ensures IsTrace(cells, [GuardReport(r, percent), WriteProgress(r), TakeAdvisory(r), InsertEvent(r), Publish(r)])
    ensures cells[0] == c
    ensures var e := Event(MaxSeq(c.log) + 1, Progress(percent));
            var c' := cells[5];
            && c'.row == Some(c.row.value.(progress := percent)) && c'.log == c.log + [e]
            && c'.published == c.published + [e] && c'.webhookJobs == c.webhookJobs
  {
    hide Takes;
    var c1, c2 := GuardAndReport(c, r, percent);
    var c3, c4, c5 := LogAndPublish(c2, r, c2.requests[r]);
    cells := [c, c1, c2, c3, c4, c5];
  }

  lemma CancelLocks(c: Cell, r: RequestId, now: Time) returns (c1: Cell)
    requires Quiet(c, r) && c.row.Some? && ValidRow(c.row.value) && InFlight(c.row.value)
    ensures Takes(c, StartCancel(r, now), c1)
    ensures c1 == c.(requests := c.requests[r := Request.Cancel(RowWritten)],
                     rowLock := ByCancel(r, SetColumns(c.row.value, ToCancelled(now))))
  {
    CancelUpdateFacts(c.row.value, now);
    c1 := Step(c, StartCancel(r, now));
  }

  lemma CancelCommits(c1: Cell, r: RequestId) returns (c2: Cell, c3: Cell)
    requires Has(c1, r) && c1.requests[r] == Request.Cancel(RowWritten) && c1.advisory.None? && c1.rowLock.ByCancel?
    ensures Takes(c1, TakeAdvisory(r), c2) && Takes(c2, InsertEvent(r), c3)
    ensures var e := NextEvent(c1.log, Cancelled);
            c3.row == Some(c1.rowLock.updated) && c3.log == c1.log + [e] && IsLogged(c3, r) &&
            c3.requests[r].phase.event == e && c3.rowLock.Free?
  {
    NextSeqIsFree(c1.log);
    var e := NextEvent(c1.log, Cancelled);
    c2 := Step(c1, TakeAdvisory(r));
    assert c2.requests[r] == Request.Cancel(Locked(e.num));
    c3 := Step(c2, InsertEvent(r));
  }

  /**
   * Likewise for a cancellation: its transaction takes the row lock, then the advisory lock, and
   * commits both writes at once.
   */
  lemma CancelIsMachineRun(c: Cell, r: RequestId, now: Time) returns (cells: seq<Cell>)
    requires Quiet(c, r) && c.row.Some? && ValidRow(c.row.value) && InFlight(c.row.value)
    ensures IsTrace(cells, [StartCancel(r, now), TakeAdvisory(r), InsertEvent(r)]) && cells[0] == c
    ensures var e := Event(MaxSeq(c.log) + 1, Cancelled);
            var c' := cells[3];
            && c'.row == Some(WithCancellation(c.row.value, now)) && c'.log == c.log + [e]
            && IsLogged(c', r) && c'.requests[r].phase.event == e && c'.rowLock.Free?
  {
    hide Takes;
    var c1 := CancelLocks(c, r, now);
    var c2, c3 := CancelCommits(c1, r);
    cells := [c, c1, c2, c3];
  }

  // ---- Dispatch ----------------------------------------------------------------------------

  /** The cells of a dispatch job: the claim, one POST for each reply, and the end. */
  ghost predicate IsDispatch(cells: seq<Cell>, r: RequestId, replies: nat -> Retry.Reply, posts: nat, now: Time,
                             later: Time) {
    && |cells| == posts + 3
    && Takes(cells[0], Claim(r, now), cells[1])
    && (forall k :: 0 <= k < posts ==> Takes(cells[k + 1], PostOnce(r, replies(k)), cells[k + 2]))
    && Takes(cells[posts + 1], EndDispatch(r, later), cells[posts + 2])
  }

  lemma {:induction false} PostAll(c: Cell, r: RequestId, replies: nat -> Retry.Reply, posts: nat)
    returns (cells: seq<Cell>)
    requires Has(c, r) && c.requests[r] == Dispatch([])
    requires posts <= DISPATCH_ATTEMPTS && forall k :: 0 <= k < posts - 1 ==> Retry.IsRetryable(replies(k))
    ensures |cells| == posts + 1 && cells[0] == c
    ensures forall k :: 0 <= k < posts ==> Takes(cells[k], PostOnce(r, replies(k)), cells[k + 1])
    ensures cells[posts] == c.(requests := c.requests[r := Dispatch(Retry.Prefix(replies, posts))],
                               posts := c.posts + posts)
  {
    if posts == 0 {
      assert Retry.Prefix(replies, 0) == [];
      assert c.requests[r := Dispatch([])] == c.requests;
      cells := [c];
    } else {
      cells := PostAll(c, r, replies, posts - 1);
      var before := cells[posts - 1];
      assert before.requests[r] == Dispatch(Retry.Prefix(replies, posts - 1));
      GoesOn(replies, posts - 1);
      assert Enabled(before, PostOnce(r, replies(posts - 1)));
      var after := Step(before, PostOnce(r, replies(posts - 1)));
      assert Retry.Prefix(replies, posts) == Retry.Prefix(replies, posts - 1) + [replies(posts - 1)];
      assert after.requests == c.requests[r := Dispatch(Retry.Prefix(replies, posts))];
      cells := cells + [after];
    }
  }

  /** After n retryable failures out of fewer attempts the loop goes on. */
  lemma GoesOn(replies: nat -> Retry.Reply, n: nat)
    requires n < DISPATCH_ATTEMPTS && forall k :: 0 <= k < n ==> Retry.IsRetryable(replies(k))
    ensures Retry.Decide(Retry.Prefix(replies, n), DISPATCH_ATTEMPTS).Continue?
  {
  }

  /** The row of a claimed task as the machine's last step of a dispatch leaves it. */
  lemma DispatchEnds(c: Cell, r: RequestId, replies: nat -> Retry.Reply, posts: nat, later: Time)
    requires IsDelivery(replies, posts, DISPATCH_ATTEMPTS)
    requires Has(c, r) && c.requests[r] == Dispatch(Retry.Prefix(replies, posts)) && c.rowLock.Free?
    requires c.row.Some? && ValidRow(c.row.value) && c.row.value.status == PROCESSING
    ensures Enabled(c, EndDispatch(r, later))
    ensures var c' := Step(c, EndDispatch(r, later));
            && c'.row == Some(AfterDispatch(c.row.value, replies(posts - 1), later))
            && c'.log == c.log && c'.posts == c.posts && c'.claims == c.claims
  {
    var trace := Retry.Prefix(replies, posts);
    assert trace[|trace| - 1] == replies(posts - 1);
    var outcome := Retry.Decide(trace, DISPATCH_ATTEMPTS).outcome;
    Retry.ThrowsOnlyItsOwnErrors(trace, DISPATCH_ATTEMPTS, outcome);
  }

  lemma WorkerClaims(c: Cell, r: RequestId, now: Time) returns (c1: Cell)
    requires Quiet(c, r) && c.row.Some? && ValidRow(c.row.value) && c.row.value.status == PENDING
    ensures Takes(c, Claim(r, now), c1)
    ensures c1 == c.(row := Some(WithClaim(c.row.value, c.row.value.timeoutSeconds, now)),
                     requests := c.requests[r := Dispatch([])], claims := c.claims + 1, claimant := Some(r))
    ensures ValidRow(c1.row.value)
  {
    ClaimFacts(c.row.value, now, now + 1000 * c.row.value.timeoutSeconds);
    c1 := Step(c, Claim(r, now));
  }

  lemma DispatchAssembled(c: Cell, middle: seq<Cell>, c3: Cell, r: RequestId, replies: nat -> Retry.Reply, posts: nat,
                          now: Time, later: Time)
    requires |middle| == posts + 1 && Takes(c, Claim(r, now), middle[0])
    requires forall k :: 0 <= k < posts ==> Takes(middle[k], PostOnce(r, replies(k)), middle[k + 1])
    requires Takes(middle[posts], EndDispatch(r, later), c3)
    ensures IsDispatch([c] + middle + [c3], r, replies, posts, now, later)
  {
    hide Takes;
    var cells := [c] + middle + [c3];
    forall k | 0 <= k < posts ensures Takes(cells[k + 1], PostOnce(r, replies(k)), cells[k + 2]) {
      assert cells[k + 1] == middle[k] && cells[k + 2] == middle[k + 1];
    }
  }

  /** Likewise for a dispatch job and `DispatchProcessor.Process`, whatever the executor replies. */
  lemma DispatchIsMachineRun(c: Cell, r: RequestId, replies: nat -> Retry.Reply, posts: nat, now: Time, later: Time)
    returns (cells: seq<Cell>)
    requires Quiet(c, r) && c.row.Some? && ValidRow(c.row.value) && c.row.value.status == PENDING
    requires IsDelivery(replies, posts, 3)
    ensures IsDispatch(cells, r, replies, posts, now, later) && cells[0] == c
    ensures var claimed := WithClaim(c.row.value, c.row.value.timeoutSeconds, now);
            var c' := cells[posts + 2];
            && c'.row == Some(AfterDispatch(claimed, replies(posts - 1), later))
            && c'.log == c.log && c'.posts == c.posts + posts && c'.claims == c.claims + 1
  {
    var c1 := WorkerClaims(c, r, now);
    var middle := PostAll(c1, r, replies, posts);
    DispatchEnds(middle[posts], r, replies, posts, later);
    var c3 := Step(middle[posts], EndDispatch(r, later));
    DispatchAssembled(c, middle, c3, r, replies, posts, now, later);
    cells := [c] + middle + [c3];
  }

  // ---- Sweep and webhook -------------------------------------------------------------------

  function WithTimeout(row: Row, now: Time): Row {
    var error := TaskError("BUSINESS_TIMEOUT", TIMEOUT_ERROR.message);
    row.(status := FAILED, error := Some(error), completedAt := Some(now))
  }

  lemma SweepLocks(c: Cell, s: nat, now: Time) returns (c1: Cell, c2: Cell)
    requires c.rowLock.Free? && c.row.Some? && ValidRow(c.row.value) && c.row.value.status == PROCESSING
    requires c.row.value.expiresAt.Some? && c.row.value.expiresAt.value < now
    ensures Takes(c, SweepLock(s, now), c1) && Takes(c1, SweepRead(s), c2)
    ensures c2 == c.(rowLock := BySweep(s, WithTimeout(c.row.value, now), Some(MaxSeq(c.log) + 1)))
  {
    ResultUpdateFacts(c.row.value, Failed(TIMEOUT_ERROR), now);
    c1 := Step(c, SweepLock(s, now));
    c2 := Step(c1, SweepRead(s));
  }

  lemma SweepCommits(c2: Cell, s: nat, updated: Row) returns (c3: Cell, c4: Cell)
    requires c2.rowLock == BySweep(s, updated, Some(MaxSeq(c2.log) + 1))
    ensures Takes(c2, SweepCommit(s), c3) && Takes(c3, SweepPublish, c4)
    ensures var e := Event(MaxSeq(c2.log) + 1, Failed(TaskError("BUSINESS_TIMEOUT", TIMEOUT_ERROR.message)));
            c4.row == Some(updated) && c4.log == c2.log + [e] && c4.published == c2.published + [e] && c4.rowLock.Free?
  {
    NextSeqIsFree(c2.log);
    c3 := Step(c2, SweepCommit(s));
    c4 := Step(c3, SweepPublish);
  }

  /**
   * Likewise for the sweep of one late PROCESSING task: the lock, the read of MAX and the commit
   * do to its row and log what a batch of `Maintenance` does, and leave the message to publish.
   */
  lemma SweepIsMachineRun(c: Cell, s: nat, now: Time) returns (cells: seq<Cell>)
    requires c.rowLock.Free? && c.row.Some? && ValidRow(c.row.value) && c.row.value.status == PROCESSING
    requires c.row.value.expiresAt.Some? && c.row.value.expiresAt.value < now
    ensures IsTrace(cells, [SweepLock(s, now), SweepRead(s), SweepCommit(s), SweepPublish]) && cells[0] == c
    ensures var e := Event(MaxSeq(c.log) + 1, Failed(TaskError("BUSINESS_TIMEOUT", TIMEOUT_ERROR.message)));
            var c' := cells[4];
            && c'.row == Some(WithTimeout(c.row.value, now))
            && c'.log == c.log + [e] && c'.published == c.published + [e] && c'.rowLock.Free?
  {
    hide Takes, IsTrace;
    var c1, c2 := SweepLocks(c, s, now);
    var c3, c4 := SweepCommits(c2, s, WithTimeout(c.row.value, now));
    Trace4(c, SweepLock(s, now), c1, SweepRead(s), c2, SweepCommit(s), c3, SweepPublish, c4);
    cells := [c, c1, c2, c3, c4];
  }

  /** Likewise for a webhook job: the payload is built from the row's columns at that moment. */
  lemma WebhookIsMachineStep(c: Cell)
    requires c.webhookJobs > 0
    ensures Enabled(c, BuildPayload)
    ensures Step(c, BuildPayload).payloads ==
              if c.row.Some? && c.row.value.webhookUrl.Some?
              then c.payloads + [Payload(c.row.value.status, c.row.value.result, c.row.value.error)]
              else c.payloads
  {
  }

  // ---- Streams -----------------------------------------------------------------------------

  /**
   * Likewise for `SseService`: a stream that is opened and gets its history before it hears
   * anything emits exactly the specification.
   */
  lemma StreamIsMachineRun(c: Cell, i: StreamId, afterSeq: nat) returns (c1: Cell, c2: Cell, c3: Cell)
    requires c.row.Some? && i !in c.streams && Contiguous(c.log)
    ensures Takes(c, OpenStream(i, afterSeq), c1) && Takes(c1, QueryHistory(i), c2)
    ensures Takes(c2, Callback(i, Sse.OnHistory(FindEventsSince(c.log, afterSeq))), c3)
    ensures i in c3.streams && c3.streams[i].conn.out == SseRefinement.Spec(c.log, afterSeq)
    ensures c3 == c.(streams := c3.streams) && c3.streams - {i} == c.streams
  {
    c1 := Step(c, OpenStream(i, afterSeq));
    c2 := Step(c1, QueryHistory(i));
    c3 := Step(c2, Callback(i, Sse.OnHistory(FindEventsSince(c.log, afterSeq))));
    SseService.HistoryIsSpec(c.log, afterSeq);
  }
}
