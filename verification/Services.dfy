/**
 * The services and workers that string repository calls together: ExecutorService,
 * TasksService.cancel, the dispatch processor and the webhook processor, each as one
 * uninterrupted call.  `MachineRuns` shows that such a call is what the interleaved machine of
 * `Lifecycle` does when nothing else happens to the task.
 */
module Services {
  import opened Wrappers
  import opened Schema
  import opened Database
  import opened Lifecycle
  import Retry = HttpRetry

  /** The row after the executor's final result: three columns change. */
  function WithResult(row: Row, dto: EventBody, now: Time): Row {
    match dto
    case Completed(data) => row.(status := COMPLETED, result := Some(data), completedAt := Some(now))
    case Failed(error) => row.(status := FAILED, error := Some(error), completedAt := Some(now))
    case _ => row
  }

  lemma ResultWrites(row: Option<Row>, dto: EventBody, now: Time)
    requires dto.Completed? || dto.Failed?
    ensures var won := row.Some? && row.value.status == PROCESSING && row.value.processingStartedAt.Some?;
            var u := ConditionalUpdate(row, {PROCESSING}, ResultChange(dto, now));
            (u.Updated? <==> won) && (won ==> u.row == WithResult(row.value, dto, now))
  {
  }

  class ExecutorService {
    const db: Database
    var published: seq<(TaskId, Event)>
    var webhookQueue: seq<TaskId>

    constructor (db: Database)
      ensures this.db == db && published == [] && webhookQueue == []
    {
      this.db := db;
      published, webhookQueue := [], [];
    }

    /**
     * The executor's final result.  Either the conditional update matches, and the row, the log,
     * the channel and - if the task has a webhook - its queue all get exactly one entry, or
     * nothing changes at all.
     */
    method SubmitResult(id: TaskId, task: Row, dto: EventBody, now: Time)
      requires dto.Completed? || dto.Failed?
      modifies this`published, this`webhookQueue, db
      ensures var row := RowOf(old(db.tasks), id);
              var won := row.Some? && row.value.status == PROCESSING && row.value.processingStartedAt.Some?;
              var e := Event(MaxSeq(LogOf(old(db.events), id)) + 1, dto);
              if won then
                && db.tasks == old(db.tasks)[id := WithResult(row.value, dto, now)]
                && db.events == old(db.events)[id := LogOf(old(db.events), id) + [e]]
                && published == old(published) + [(id, e)]
                && webhookQueue == old(webhookQueue) + (if task.webhookUrl.Some? then [id] else [])
              else
                && db.tasks == old(db.tasks) && db.events == old(db.events)
                && published == old(published) && webhookQueue == old(webhookQueue)
    {
      ResultWrites(RowOf(db.tasks, id), dto, now);
      hide WithResult, ConditionalUpdate;
      match dto {
        case Completed(data) =>
          var updated := db.UpdateStatus(id, {PROCESSING}, ToCompleted(data, now));
          if !updated.Updated? {
            return;
          }
          var event := db.InsertEvent(id, Completed(data));
          published := published + [(id, event)];
        case Failed(error) =>
          var updated := db.UpdateStatus(id, {PROCESSING}, ToFailed(error, now));
          if !updated.Updated? {
            return;
          }
          var event := db.InsertEvent(id, Failed(error));
          published := published + [(id, event)];
      }
      if task.webhookUrl.Some? {
        webhookQueue := webhookQueue + [id];
      }
    }

    /** Progress is written whatever the status, and logged even if the row is gone. */
    method UpdateProgress(id: TaskId, percent: int)
      modifies this`published, db
      ensures var e := Event(MaxSeq(LogOf(old(db.events), id)) + 1, Progress(percent));
              && db.tasks == (if id in old(db.tasks)
                              then old(db.tasks)[id := old(db.tasks)[id].(progress := percent)]
                              else old(db.tasks))
              && db.events == old(db.events)[id := LogOf(old(db.events), id) + [e]]
              && published == old(published) + [(id, e)]
    {
      db.UpdateProgress(id, percent);
      var event := db.InsertEvent(id, Progress(percent));
      published := published + [(id, event)];
    }
  }

  function WithCancellation(row: Row, now: Time): Row {
    row.(status := CANCELLED, completedAt := Some(now))
  }

  class CancelService {
    const db: Database
    var published: seq<(TaskId, Event)>
    var cancelQueue: seq<TaskId>

    constructor (db: Database)
      ensures this.db == db && published == [] && cancelQueue == []
    {
      this.db := db;
      published, cancelQueue := [], [];
    }

    /** TasksService.cancel: 204, 404 or 409. */
    method Cancel(id: TaskId, hasCancelUrl: bool, now: Time) returns (status: int)
      modifies this`published, this`cancelQueue, db
      ensures status == if id !in old(db.tasks) then 404
                        else if old(db.tasks)[id].status == PENDING || old(db.tasks)[id].status == PROCESSING then 204
                        else 409
      ensures status != 204 ==> db.tasks == old(db.tasks) && db.events == old(db.events)
      ensures status != 204 ==> published == old(published) && cancelQueue == old(cancelQueue)
      ensures var e := Event(MaxSeq(LogOf(old(db.events), id)) + 1, Cancelled);
              status == 204 ==>
                && db.tasks == old(db.tasks)[id := WithCancellation(old(db.tasks)[id], now)]
                && db.events == old(db.events)[id := LogOf(old(db.events), id) + [e]]
                && published == old(published) + [(id, e)]
                && cancelQueue == old(cancelQueue) + (if hasCancelUrl then [id] else [])
    {
      var result := db.CancelTask(id, now);
      if result.None? {
        var current := db.FindById(id);
        if current.None? {
          return 404;
        }
        return 409;
      }
      published := published + [(id, result.value)];
      if hasCancelUrl {
        cancelQueue := cancelQueue + [id];
      }
      return 204;
    }
  }

  /** The row of a task its worker has claimed: status, start and a new deadline. */
  function WithClaim(row: Row, timeoutSeconds: nat, now: Time): Row {
    row.(status := PROCESSING, processingStartedAt := Some(now), expiresAt := Some(now + 1000 * timeoutSeconds))
  }

  /**
   * The row of a claimed task once its dispatch is over, by the last reply: unchanged after a
   * success; failed as rejected by the executor if that reply had a status no retry can fix; and
   * failed as undeliverable otherwise.
   */
  function AfterDispatch(claimed: Row, last: Retry.Reply, later: Time): Row {
    match last
    case Success(_) => claimed
    case Failure(err) =>
      var rejected := err.status.Some? && !Retry.IsRetryable(last);
      var code := if rejected then "EXECUTOR_REJECTED" else "DISPATCH_FAILED";
      claimed.(status := FAILED, error := Some(TaskError(code, "")), completedAt := Some(later))
  }

  /** Which calls a delivery makes: all but the last failed in a way a retry may fix, and then it is over. */
  ghost predicate IsDelivery(replies: nat -> Retry.Reply, posts: nat, attempts: nat) {
    && 1 <= posts <= attempts
    && (forall k :: 0 <= k < posts - 1 ==> Retry.IsRetryable(replies(k)))
    && (posts == attempts || !Retry.IsRetryable(replies(posts - 1)))
  }

  /** What it sleeps between them. */
  ghost predicate IsBackoff(sleeps: seq<nat>, posts: nat, jitter: nat -> nat, baseDelayMs: nat, maxDelayMs: nat) {
    && |sleeps| == posts - 1
    && (forall k :: 0 <= k < |sleeps| ==> sleeps[k] == Retry.ComputeDelay(k, baseDelayMs, maxDelayMs, jitter(k)))
  }

  class DispatchProcessor {
    const db: Database

    constructor (db: Database)
      ensures this.db == db
    {
      this.db := db;
    }

    /**
     * One dispatch job.  It posts only if it claims the task, at most three times, and leaves
     * the row PROCESSING or FAILED - never PENDING again, because `post` throws nothing that
     * would take the revert branch.
     */
    method Process(id: TaskId, timeoutSeconds: nat, now: Time, later: Time, replies: nat -> Retry.Reply,
                   jitter: nat -> nat)
      returns (posts: nat, sleeps: seq<nat>, rethrown: bool)
      requires id in db.tasks ==> ValidRow(db.tasks[id])
      modifies db`tasks
      ensures !rethrown
      ensures posts > 0 <==> id in old(db.tasks) && old(db.tasks)[id].status == PENDING
      ensures posts == 0 ==> db.tasks == old(db.tasks) && sleeps == []
      ensures posts > 0 ==> IsDelivery(replies, posts, 3) && IsBackoff(sleeps, posts, jitter, 500, 30_000)
      ensures posts > 0 ==>
                var claimed := WithClaim(old(db.tasks)[id], timeoutSeconds, now);
                db.tasks == old(db.tasks)[id := AfterDispatch(claimed, replies(posts - 1), later)]
    {
      var u := db.UpdateStatus(id, {PENDING}, ToProcessing(now, now + 1000 * timeoutSeconds));
      if !u.Updated? {
        return 0, [], false;
      }
      var outcome;
      outcome, posts, sleeps := Retry.Post(replies, jitter, 3, 500, 30_000);
      Retry.OutcomeByLastReply(replies, 3, posts, outcome);
      rethrown := false;
      match outcome {
        case Returned(_) =>
        case Threw(error) =>
          if error.DispatchFailed? || error.NonRetryable? {
            var failed := db.UpdateStatus(id, {PROCESSING}, ToFailed(DispatchError(error), later));
          } else {
            var reverted := db.UpdateStatus(id, {PROCESSING}, ToPending);
            rethrown := true;
          }
      }
    }
  }

  class WebhookProcessor {
    const db: Database

    constructor (db: Database)
      ensures this.db == db
    {
      this.db := db;
    }

    /**
     * One webhook job: it re-reads the row and posts its outcome, at most five times, or skips a
     * task that is gone or has no webhook.
     */
    method Process(id: TaskId, replies: nat -> Retry.Reply, jitter: nat -> nat)
      returns (payload: Option<Payload>, posts: nat, sleeps: seq<nat>, rethrown: bool)
      ensures payload.Some? <==> id in db.tasks && db.tasks[id].webhookUrl.Some?
      ensures payload.Some? ==> payload.value == Payload(db.tasks[id].status, db.tasks[id].result, db.tasks[id].error)
      ensures payload.Some? && ValidRow(db.tasks[id]) && db.tasks[id].status in {COMPLETED, FAILED} ==>
                GoodPayload(payload.value)
      ensures !rethrown && (payload.None? ==> posts == 0 && sleeps == [])
      ensures payload.Some? ==> IsDelivery(replies, posts, 5) && IsBackoff(sleeps, posts, jitter, 1_000, 60_000)
    {
      var task := db.FindById(id);
      if task.None? || task.value.webhookUrl.None? {
        return None, 0, [], false;
      }
      payload := Some(Payload(task.value.status, task.value.result, task.value.error));
      var outcome;
      outcome, posts, sleeps := Retry.Post(replies, jitter, 5, 1_000, 60_000);
      Retry.OutcomeByLastReply(replies, 5, posts, outcome);
      rethrown := outcome.Threw? && !outcome.error.NonRetryable? && !outcome.error.DispatchFailed?;
    }
  }
}
