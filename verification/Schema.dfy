/**
 * The two tables, their constraints, and the single-row effects of the SQL statements.
 * Every write to a task row in the other modules goes through `ConditionalUpdate`.
 */
module Schema {
  import opened Wrappers

  type TaskId = nat
  type Time = int
  type Data = string

  datatype TaskError = TaskError(code: string, message: string)

  datatype Status = PENDING | PROCESSING | COMPLETED | FAILED | CANCELLED

  const IN_FLIGHT: set<Status> := {PENDING, PROCESSING}

  const TIMEOUT_ERROR: TaskError :=
    TaskError("BUSINESS_TIMEOUT", "Task exceeded its configured timeout and was automatically failed.")

  datatype Row = Row(
    idempotencyKey: Option<string>,
    status: Status,
    webhookUrl: Option<string>,
    result: Option<Data>,
    error: Option<TaskError>,
    progress: int,
    timeoutSeconds: nat,
    processingStartedAt: Option<Time>,
    expiresAt: Option<Time>,
    completedAt: Option<Time>,
    createdAt: Time)

  predicate InFlight(row: Row) {
    row.status in IN_FLIGHT
  }

  /** WHERE status IN ('PENDING', 'PROCESSING') AND expires_at < now. */
  predicate Expired(row: Row, now: Time) {
    InFlight(row) && row.expiresAt.Some? && row.expiresAt.value < now
  }

  /** CHECK tasks_valid_state_data. */
  predicate ValidStateData(row: Row) {
    match row.status
    case PENDING => row.processingStartedAt.None? && row.completedAt.None?
    case PROCESSING => row.processingStartedAt.Some? && row.completedAt.None?
    case COMPLETED => row.processingStartedAt.Some? && row.completedAt.Some?
    case FAILED => row.processingStartedAt.Some? && row.completedAt.Some?
    case CANCELLED => row.completedAt.Some?
  }

  /** What the code keeps about the outcome columns beyond the CHECK. */
  predicate ValidOutcome(row: Row) {
    match row.status
    case COMPLETED => row.result.Some? && row.error.None?
    case FAILED => row.error.Some? && row.result.None?
    case _ => row.result.None? && row.error.None?
  }

  predicate ValidRow(row: Row) {
    ValidStateData(row) && ValidOutcome(row)
  }

  /** A freshly inserted row: column defaults, with the deadline the service computes. */
  function NewRow(key: Option<string>, webhookUrl: Option<string>, timeoutSeconds: nat, now: Time): (r: Row)
    ensures ValidRow(r) && InFlight(r)
  {
    Row(key, PENDING, webhookUrl, None, None, 0, timeoutSeconds, None, Some(now + 1000 * timeoutSeconds), None, now)
  }

  /** The SET lists used by the code: target status plus the columns that go with it. */
  datatype Change =
    | ToProcessing(startedAt: Time, deadline: Time)
    | ToCompleted(result: Data, at: Time)
    | ToFailed(error: TaskError, at: Time)
    | ToCancelled(at: Time)
    | ToPending

  function SetColumns(row: Row, change: Change): Row {
    match change
    case ToProcessing(startedAt, deadline) =>
      row.(status := PROCESSING, processingStartedAt := Some(startedAt), expiresAt := Some(deadline))
    case ToCompleted(result, at) => row.(status := COMPLETED, result := Some(result), completedAt := Some(at))
    case ToFailed(error, at) => row.(status := FAILED, error := Some(error), completedAt := Some(at))
    case ToCancelled(at) => row.(status := CANCELLED, completedAt := Some(at))
    case ToPending => row.(status := PENDING, processingStartedAt := None, expiresAt := None)
  }

  datatype UpdateResult = NoMatch | Updated(row: Row) | CheckFailed

  /** UPDATE ... WHERE id = $id AND status IN from, with the CHECK applied to the new row. */
  function ConditionalUpdate(row: Option<Row>, from: set<Status>, change: Change): UpdateResult {
    if row.None? || row.value.status !in from then NoMatch
    else if ValidStateData(SetColumns(row.value, change)) then Updated(SetColumns(row.value, change))
    else CheckFailed
  }

  /**
   * The CHECK rejects an update of a well-formed in-flight row in exactly one case: completing
   * or failing a task that was never claimed.
   */
  lemma CheckRejectsExactlyUnclaimed(row: Row, from: set<Status>, change: Change)
    requires ValidRow(row) && InFlight(row) && row.status in from
    ensures ConditionalUpdate(Some(row), from, change) == CheckFailed
       <==> (row.status == PENDING && (change.ToCompleted? || change.ToFailed?))
    ensures ConditionalUpdate(Some(row), from, change).Updated? ==> ValidRow(SetColumns(row, change))
  {
  }

  // ---- Events ----------------------------------------------------------------------------

  datatype EventBody =
    | Progress(percent: int)
    | Completed(data: Data)
    | Failed(error: TaskError)
    | Cancelled

  /** `num` is the column seq. */
  datatype Event = Event(num: nat, body: EventBody)

  predicate IsTerminal(e: Event) {
    !e.body.Progress?
  }

  ghost predicate NoTerminal(log: seq<Event>) {
    forall e :: e in log ==> !IsTerminal(e)
  }

  ghost predicate AtMostOneTerminal(log: seq<Event>) {
    forall i, j :: 0 <= i < j < |log| && IsTerminal(log[i]) ==> !IsTerminal(log[j])
  }

  /** Committed seqs are exactly 1..n, in commit order. */
  ghost predicate Contiguous(log: seq<Event>) {
    forall i :: 0 <= i < |log| ==> log[i].num == i + 1
  }

  ghost predicate Increasing(log: seq<Event>) {
    forall i, j :: 0 <= i < j < |log| ==> log[i].num < log[j].num
  }

  /** COALESCE(MAX(seq), 0). */
  function MaxSeq(log: seq<Event>): (m: nat)
    ensures forall e :: e in log ==> e.num <= m
    ensures m == 0 || exists e :: e in log && e.num == m
  {
    if log == [] then 0
    else
      var rest := MaxSeq(log[..|log| - 1]);
      var last := log[|log| - 1].num;
      assert log == log[..|log| - 1] + [log[|log| - 1]];
      assert last > rest ==> log[|log| - 1] in log && log[|log| - 1].num == last;
      if last > rest then last else rest
  }

  predicate SeqTaken(log: seq<Event>, n: nat) {
    exists e :: e in log && e.num == n
  }

  /** SELECT ... WHERE seq > afterSeq ORDER BY seq, on a log whose commit order is its seq order. */
  function FindEventsSince(log: seq<Event>, afterSeq: nat): seq<Event> {
    if log == [] then []
    else
      var front := FindEventsSince(log[..|log| - 1], afterSeq);
      var last := log[|log| - 1];
      if last.num > afterSeq then front + [last] else front
  }

  lemma {:induction false} FindEventsSinceMembers(log: seq<Event>, afterSeq: nat)
    ensures forall e :: e in FindEventsSince(log, afterSeq) <==> e in log && e.num > afterSeq
  {
    if log != [] {
      FindEventsSinceMembers(log[..|log| - 1], afterSeq);
      assert log == log[..|log| - 1] + [log[|log| - 1]];
    }
  }

  lemma {:induction false} FindEventsSinceOrdered(log: seq<Event>, afterSeq: nat)
    requires Increasing(log)
    ensures Increasing(FindEventsSince(log, afterSeq))
  {
    if log != [] {
      FindEventsSinceOrdered(log[..|log| - 1], afterSeq);
      FindEventsSinceMembers(log[..|log| - 1], afterSeq);
      var front := FindEventsSince(log[..|log| - 1], afterSeq);
      forall i | 0 <= i < |front| ensures front[i].num < log[|log| - 1].num {
        assert front[i] in front;
      }
    }
  }

  lemma {:induction false} FindEventsSinceIsSuffix(log: seq<Event>, afterSeq: nat)
    requires Contiguous(log)
    ensures FindEventsSince(log, afterSeq) == if afterSeq <= |log| then log[afterSeq..] else []
  {
    if log != [] {
      var n := |log| - 1;
      FindEventsSinceIsSuffix(log[..n], afterSeq);
      assert log[n].num == n + 1;
      if afterSeq <= n {
        assert log[afterSeq..] == log[..n][afterSeq..] + [log[n]];
      } else if afterSeq == n + 1 {
        assert log[afterSeq..] == [];
      }
    }
  }

  lemma {:induction false} MaxSeqIsLength(log: seq<Event>)
    requires Contiguous(log)
    ensures MaxSeq(log) == |log|
  {
    if log != [] {
      MaxSeqIsLength(log[..|log| - 1]);
    }
  }
}
