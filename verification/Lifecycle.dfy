/**
 * The life of one task: its row, its event log, and everything that concurrently acts on them.
 *
 * A `Cell` is the slice of the whole system that belongs to one task id: the committed row and
 * log, the row lock and the advisory lock held by open transactions, every request in progress,
 * what has been published, and the open SSE connections.  One action is one SQL statement or
 * commit, one Redis command, one HTTP reply, or one synchronous callback; actions of any number
 * of requests interleave freely, and any request may crash between two of its actions.
 * A transaction's reads may be stale by the time it commits: the sweeper reads MAX(seq) without
 * the advisory lock, so only the unique (taskId, seq) index stands between it and a writer.
 *
 * The fields after `webhookJobs` are history variables: no action's guard reads them.
 */
module Lifecycle {
  import opened Wrappers
  import opened Schema
  import Retry = HttpRetry
  import Sse

  type RequestId = nat
  type StreamId = nat

  /** How far a request is. `Updated` has written the row, `Locked` has read MAX(seq) + 1 under the advisory lock. */
  datatype Phase = Guarded | RowWritten | Locked(num: nat) | Logged(event: Event) | Published

  datatype Request =
    | Result(dto: EventBody, hasWebhook: bool, phase: Phase)  // POST /tasks/:id/result
    | Report(percent: int, phase: Phase)                      // PATCH /tasks/:id/progress
    | Cancel(phase: Phase)                                    // cancelTask and its publication
    | Dispatch(trace: seq<Retry.Reply>)                       // a dispatch job that claimed the task
    | Finished

  /** A row held by an open transaction, with the row it will commit. */
  datatype RowLock =
    | Free
    | ByCancel(request: RequestId, updated: Row)
    | BySweep(sweep: nat, updated: Row, read: Option<nat>)

  datatype Stream = Stream(afterSeq: nat, snapshot: Option<seq<Event>>, answered: bool, conn: Sse.Conn)

  /** The body of a webhook call; absent columns are left out of it. */
  datatype Payload = Payload(status: Status, result: Option<Data>, error: Option<TaskError>)

  datatype Agent = TheResult(request: RequestId) | TheCancel | TheSweep | TheDispatch

  /** Who moved the row to a terminal status, and what the matching event says. */
  datatype Verdict = Verdict(body: EventBody, author: Agent)

  datatype Cell = Cell(
    row: Option<Row>,
    log: seq<Event>,
    rowLock: RowLock,
    advisory: Option<RequestId>,
    requests: map<RequestId, Request>,
    published: seq<Event>,
    streams: map<StreamId, Stream>,
    webhookJobs: nat,
    payloads: seq<Payload>,
    ever: seq<Event>,
    verdict: Option<Verdict>,
    verdictEvent: Option<Event>,
    claims: nat,
    claimant: Option<RequestId>,
    posts: nat)

  datatype Action =
    // executor callbacks
    | GuardResult(r: RequestId, dto: EventBody)
    | GuardReport(r: RequestId, percent: int)
    | WriteResult(r: RequestId, now: Time)
    | WriteProgress(r: RequestId)
    // cancellation
    | StartCancel(r: RequestId, now: Time)
    // shared by every caller of insertEventInTx
    | TakeAdvisory(r: RequestId)
    | InsertEvent(r: RequestId)
    | Publish(r: RequestId)
    | EnqueueWebhook(r: RequestId)
    | Crash(r: RequestId)
    // dispatch
    | Claim(r: RequestId, now: Time)
    | PostOnce(r: RequestId, reply: Retry.Reply)
    | EndDispatch(r: RequestId, now: Time)
    // timeout sweeper, one task of its batch
    | SweepLock(sweep: nat, now: Time)
    | SweepRead(sweep: nat)
    | SweepCommit(sweep: nat)
    | SweepRollback(sweep: nat)
    | SweepPublish
    // deletions
    | RollBackCreation
    | Prune
    // webhook worker
    | BuildPayload
    // SSE
    | OpenStream(i: StreamId, afterSeq: nat)
    | QueryHistory(i: StreamId)
    | Callback(i: StreamId, input: Sse.Input)

  const DISPATCH_ATTEMPTS := 3

  function NewCell(row: Row): Cell {
    Cell(Some(row), [], Free, None, map[], [], map[], 0, [], [], None, None, 0, None, 0)
  }

  // ---- Guards ------------------------------------------------------------------------------

  predicate Has(c: Cell, r: RequestId) {
    r in c.requests
  }

  predicate InPhase(c: Cell, r: RequestId, phase: Phase) {
    Has(c, r) && (c.requests[r].Result? || c.requests[r].Report? || c.requests[r].Cancel?) &&
    c.requests[r].phase == phase
  }

  predicate IsLocked(c: Cell, r: RequestId) {
    Has(c, r) && (c.requests[r].Result? || c.requests[r].Report? || c.requests[r].Cancel?) &&
    c.requests[r].phase.Locked?
  }

  predicate IsLogged(c: Cell, r: RequestId) {
    Has(c, r) && (c.requests[r].Result? || c.requests[r].Report? || c.requests[r].Cancel?) &&
    c.requests[r].phase.Logged?
  }

  /** The guard's read: the task exists and is PROCESSING at this moment. */
  predicate GuardPasses(c: Cell) {
    c.row.Some? && c.row.value.status == PROCESSING
  }

  predicate Enabled(c: Cell, a: Action) {
    match a
    case GuardResult(r, dto) => !Has(c, r) && GuardPasses(c) && (dto.Completed? || dto.Failed?)
    case GuardReport(r, percent) => !Has(c, r) && GuardPasses(c)
    case WriteResult(r, now) => InPhase(c, r, Guarded) && c.requests[r].Result? && c.rowLock.Free?
    case WriteProgress(r) => InPhase(c, r, Guarded) && c.requests[r].Report? && c.rowLock.Free?
    case StartCancel(r, now) => !Has(c, r) && c.rowLock.Free?
    case TakeAdvisory(r) => InPhase(c, r, RowWritten) && c.advisory.None?
    case InsertEvent(r) => IsLocked(c, r)
    case Publish(r) => IsLogged(c, r)
    case EnqueueWebhook(r) => InPhase(c, r, Published) && c.requests[r].Result?
    case Crash(r) => Has(c, r)
    case Claim(r, now) => !Has(c, r) && c.rowLock.Free?
    case PostOnce(r, reply) =>
      Has(c, r) && c.requests[r].Dispatch? && Retry.Decide(c.requests[r].trace, DISPATCH_ATTEMPTS).Continue?
    case EndDispatch(r, now) =>
      Has(c, r) && c.requests[r].Dispatch? && Retry.Decide(c.requests[r].trace, DISPATCH_ATTEMPTS).Stop? &&
      c.rowLock.Free?
    case SweepLock(sweep, now) =>
      c.rowLock.Free? && c.row.Some? && Expired(c.row.value, now) && SweepUpdate(c, now).Updated?
    case SweepRead(sweep) => c.rowLock.BySweep? && c.rowLock.sweep == sweep && c.rowLock.read.None?
    case SweepCommit(sweep) =>
      c.rowLock.BySweep? && c.rowLock.sweep == sweep && c.rowLock.read.Some? && !SeqTaken(c.log, c.rowLock.read.value)
    case SweepRollback(sweep) => c.rowLock.BySweep? && c.rowLock.sweep == sweep
    case SweepPublish => SweptAt(c.verdict, c.verdictEvent).Some?
    case RollBackCreation => c.rowLock.Free?
    case Prune => c.rowLock.Free?
    case BuildPayload => c.webhookJobs > 0
    case OpenStream(i, afterSeq) => i !in c.streams && c.row.Some?
    case QueryHistory(i) => i in c.streams && c.streams[i].snapshot.None?
    case Callback(i, input) =>
      i in c.streams &&
      match input
      case OnMessage(message) => message.Parsed? ==> message.event in c.published
      case OnHistory(rows) => !c.streams[i].answered && c.streams[i].snapshot == Some(rows)
      case OnQueryFailed => !c.streams[i].answered
      case _ => true
  }

  // ---- Effects -----------------------------------------------------------------------------

  function Goto(c: Cell, r: RequestId, q: Request): Cell {
    c.(requests := c.requests[r := q])
  }

  function Append(c: Cell, e: Event): Cell {
    c.(log := c.log + [e], ever := c.ever + [e], verdictEvent := if IsTerminal(e) then Some(e) else c.verdictEvent)
  }

  function Advance(q: Request, phase: Phase): Request
    requires q.Result? || q.Report? || q.Cancel?
  {
    match q
    case Result(dto, hook, _) => Result(dto, hook, phase)
    case Report(percent, _) => Report(percent, phase)
    case Cancel(_) => Cancel(phase)
    case _ => q
  }

  function ResultChange(dto: EventBody, now: Time): Change
    requires dto.Completed? || dto.Failed?
  {
    if dto.Completed? then ToCompleted(dto.data, now) else ToFailed(dto.error, now)
  }

  function SweepUpdate(c: Cell, now: Time): UpdateResult {
    ConditionalUpdate(c.row, IN_FLIGHT, ToFailed(TIMEOUT_ERROR, now))
  }

  function EventOf(q: Request): EventBody {
    match q
    case Result(dto, _, _) => dto
    case Report(percent, _) => Progress(percent)
    case _ => Cancelled
  }

  /** updateStatus(PROCESSING -> COMPLETED | FAILED); no match ends the request. */
  function WriteResultStep(c: Cell, r: RequestId, now: Time): Cell
    requires Enabled(c, WriteResult(r, now))
  {
    var q := c.requests[r];
    if !(q.dto.Completed? || q.dto.Failed?) then c
    else
      match ConditionalUpdate(c.row, {PROCESSING}, ResultChange(q.dto, now))
      case Updated(row) =>
        Goto(c, r, Advance(q, RowWritten)).(row := Some(row), verdict := Some(Verdict(q.dto, TheResult(r))))
      case _ => Goto(c, r, Finished)
  }

  /** Unconditional: it writes whatever the status, and nothing if the row is gone. */
  function WriteProgressStep(c: Cell, r: RequestId): Cell
    requires Enabled(c, WriteProgress(r))
  {
    var q := c.requests[r];
    Goto(c, r, Advance(q, RowWritten)).(
      row := if c.row.Some? then Some(c.row.value.(progress := q.percent)) else None)
  }

  function StartCancelStep(c: Cell, r: RequestId, now: Time): Cell {
    match ConditionalUpdate(c.row, IN_FLIGHT, ToCancelled(now))
    case Updated(row) => Goto(c, r, Cancel(RowWritten)).(rowLock := ByCancel(r, row))
    case _ => Goto(c, r, Finished)
  }

  /** The INSERT and the COMMIT; a taken seq aborts the whole transaction. */
  function InsertEventStep(c: Cell, r: RequestId): Cell
    requires Enabled(c, InsertEvent(r))
  {
    var q := c.requests[r];
    var e := Event(q.phase.num, EventOf(q));
    if SeqTaken(c.log, e.num) then ReleaseAll(Goto(c, r, Finished), r)
    else
      var logged := Append(Goto(c, r, Advance(q, Logged(e))), e).(advisory := None);
      if q.Cancel? && c.rowLock.ByCancel? then
        logged.(row := Some(c.rowLock.updated), rowLock := Free, verdict := Some(Verdict(Cancelled, TheCancel)))
      else logged
  }

  function ReleaseAll(c: Cell, r: RequestId): Cell {
    c.(advisory := if c.advisory == Some(r) then None else c.advisory,
       rowLock := if c.rowLock.ByCancel? && c.rowLock.request == r then Free else c.rowLock)
  }

  function PublishStep(c: Cell, r: RequestId): Cell
    requires Enabled(c, Publish(r))
  {
    var q := c.requests[r];
    Goto(c, r, if q.Result? then Advance(q, Phase.Published) else Finished).(published := c.published + [q.phase.event])
  }

  function EnqueueWebhookStep(c: Cell, r: RequestId): Cell
    requires Enabled(c, EnqueueWebhook(r))
  {
    Goto(c, r, Finished).(webhookJobs := if c.requests[r].hasWebhook then c.webhookJobs + 1 else c.webhookJobs)
  }

  function ClaimStep(c: Cell, r: RequestId, now: Time): Cell {
    if c.row.None? then Goto(c, r, Finished)
    else
      match ConditionalUpdate(c.row, {PENDING}, ToProcessing(now, now + 1000 * c.row.value.timeoutSeconds))
      case Updated(row) =>
        Goto(c, r, Dispatch([])).(row := Some(row), claims := c.claims + 1, claimant := Some(r))
      case _ => Goto(c, r, Finished)
  }

  /** After `post` returned or threw: nothing, fail the task, or revert it to PENDING and rethrow. */
  function EndDispatchStep(c: Cell, r: RequestId, now: Time): Cell
    requires Enabled(c, EndDispatch(r, now))
  {
    var done := Goto(c, r, Finished);
    match Retry.Decide(c.requests[r].trace, DISPATCH_ATTEMPTS).outcome
    case Returned(_) => done
    case Threw(error) =>
      if error.OtherError? then
        match ConditionalUpdate(c.row, {PROCESSING}, ToPending)
        case Updated(row) => done.(row := Some(row))
        case _ => done
      else
        var taskError := DispatchError(error);
        match ConditionalUpdate(c.row, {PROCESSING}, ToFailed(taskError, now))
        case Updated(row) => done.(row := Some(row), verdict := Some(Verdict(Failed(taskError), TheDispatch)))
        case _ => done
  }

  function DispatchError(error: Retry.Thrown): TaskError {
    TaskError(if error.NonRetryable? then "EXECUTOR_REJECTED" else "DISPATCH_FAILED", "")
  }

  function SweepCommitStep(c: Cell): Cell
    requires c.rowLock.BySweep? && c.rowLock.read.Some?
  {
    var num := c.rowLock.read.value;
    Append(c, Event(num, Failed(TIMEOUT_ERROR))).(
      row := Some(c.rowLock.updated), rowLock := Free,
      verdict := Some(Verdict(Failed(TIMEOUT_ERROR), TheSweep)))
  }

  /** A webhook job re-reads the row; a deleted row, or one without a URL, is skipped. */
  function BuildPayloadStep(c: Cell): Cell {
    if c.row.None? || c.row.value.webhookUrl.None? then c
    else c.(payloads := c.payloads + [Payload(c.row.value.status, c.row.value.result, c.row.value.error)])
  }

  function CallbackStep(c: Cell, i: StreamId, input: Sse.Input): Cell
    requires i in c.streams
  {
    var s := c.streams[i];
    var answered := s.answered || input.OnHistory? || input.OnQueryFailed?;
    c.(streams := c.streams[i := s.(conn := Sse.StepConn(s.conn, input), answered := answered)])
  }

  function Step(c: Cell, a: Action): Cell
    requires Enabled(c, a)
  {
    match a
    case GuardResult(r, dto) => Goto(c, r, Result(dto, c.row.value.webhookUrl.Some?, Guarded))
    case GuardReport(r, percent) => Goto(c, r, Report(percent, Guarded))
    case WriteResult(r, now) => WriteResultStep(c, r, now)
    case WriteProgress(r) => WriteProgressStep(c, r)
    case StartCancel(r, now) => StartCancelStep(c, r, now)
    case TakeAdvisory(r) => Goto(c, r, Advance(c.requests[r], Locked(MaxSeq(c.log) + 1))).(advisory := Some(r))
    case InsertEvent(r) => InsertEventStep(c, r)
    case Publish(r) => PublishStep(c, r)
    case EnqueueWebhook(r) => EnqueueWebhookStep(c, r)
    case Crash(r) => ReleaseAll(Goto(c, r, Finished), r)
    case Claim(r, now) => ClaimStep(c, r, now)
    case PostOnce(r, reply) => Goto(c, r, Dispatch(c.requests[r].trace + [reply])).(posts := c.posts + 1)
    case EndDispatch(r, now) => EndDispatchStep(c, r, now)
    case SweepLock(sweep, now) => c.(rowLock := BySweep(sweep, SweepUpdate(c, now).row, None))
    case SweepRead(sweep) => c.(rowLock := c.rowLock.(read := Some(MaxSeq(c.log) + 1)))
    case SweepCommit(sweep) => SweepCommitStep(c)
    case SweepRollback(sweep) => c.(rowLock := Free)
    case SweepPublish => c.(published := c.published + [c.verdictEvent.value])
    case RollBackCreation => c.(row := None)
    case Prune => c.(row := None, log := [])
    case BuildPayload => BuildPayloadStep(c)
    case OpenStream(i, afterSeq) => c.(streams := c.streams[i := Stream(afterSeq, None, false, Sse.Fresh(afterSeq))])
    case QueryHistory(i) =>
      c.(streams := c.streams[i := c.streams[i].(snapshot := Some(FindEventsSince(c.log, c.streams[i].afterSeq)))])
    case Callback(i, input) => CallbackStep(c, i, input)
  }

  // ---- The invariant -----------------------------------------------------------------------

  /** The seq of the event a sweep has logged, if one has. */
  function SweptAt(verdict: Option<Verdict>, verdictEvent: Option<Event>): Option<nat> {
    if verdict.Some? && verdict.value.author.TheSweep? && verdictEvent.Some? then Some(verdictEvent.value.num) else None
  }

  /** The terminal columns of a row agree with a verdict. */
  predicate Matches(row: Row, body: EventBody) {
    match body
    case Completed(data) => row.status == COMPLETED && row.result == Some(data) && row.error.None?
    case Failed(error) => row.status == FAILED && row.error == Some(error) && row.result.None?
    case Cancelled => row.status == CANCELLED && row.result.None? && row.error.None?
    case Progress(_) => false
  }

  ghost predicate LogInv(row: Option<Row>, log: seq<Event>, ever: seq<Event>) {
    && Increasing(log)
    && (forall e :: e in log ==> e in ever)
    && (row.Some? ==> log == ever && Contiguous(log))
  }

  ghost predicate VerdictInv(ever: seq<Event>, verdict: Option<Verdict>, verdictEvent: Option<Event>) {
    && AtMostOneTerminal(ever)
    && (forall e :: e in ever && IsTerminal(e) ==> verdictEvent == Some(e))
    && (verdictEvent.Some? ==>
          verdictEvent.value in ever && IsTerminal(verdictEvent.value) && verdict.Some? &&
          verdictEvent.value.body == verdict.value.body && !verdict.value.author.TheDispatch?)
    && (verdict.Some? ==> !verdict.value.body.Progress?)
    && (verdict.Some? && (verdict.value.author.TheCancel? || verdict.value.author.TheSweep?) ==> verdictEvent.Some?)
  }

  ghost predicate RowInv(row: Option<Row>, verdict: Option<Verdict>) {
    row.Some? ==>
      && ValidRow(row.value)
      && (verdict.None? <==> InFlight(row.value))
      && (verdict.Some? ==> Matches(row.value, verdict.value.body))
  }

  ghost predicate LockInv(row: Option<Row>, length: nat, rowLock: RowLock) {
    match rowLock
    case Free => true
    case ByCancel(r, updated) =>
      row.Some? && InFlight(row.value) && ValidRow(updated) && Matches(updated, Cancelled)
    case BySweep(_, updated, read) =>
      && row.Some? && row.value.status == PROCESSING
      && ValidRow(updated) && Matches(updated, Failed(TIMEOUT_ERROR))
      && (read.Some? ==> 1 <= read.value <= length + 1)
  }

  /**
   * The seq read under the advisory lock is still the next free one, unless a sweep has taken
   * exactly that one since.
   */
  ghost predicate LockedRead(c: Cell, num: nat) {
    && num >= 1
    && (num > MaxSeq(c.log) || (SweptAt(c.verdict, c.verdictEvent) == Some(num) && num == MaxSeq(c.log)))
    && (c.row.Some? ==> num <= MaxSeq(c.log) + 1)
  }

  /** A request that won the conditional update and has not logged its event yet. */
  ghost predicate OwesEvent(c: Cell, r: RequestId, dto: EventBody) {
    c.verdict == Some(Verdict(dto, TheResult(r))) && c.verdictEvent.None? && c.webhookJobs == 0
  }

  ghost predicate PhaseInv(c: Cell, r: RequestId, phase: Phase) {
    && (phase.Locked? ==> c.advisory == Some(r) && LockedRead(c, phase.num))
    && (phase.Logged? ==> phase.event in c.ever)
  }

  ghost predicate RequestInv(c: Cell, r: RequestId, q: Request) {
    match q
    case Result(dto, _, phase) =>
      && (dto.Completed? || dto.Failed?)
      && PhaseInv(c, r, phase)
      && (phase.RowWritten? || phase.Locked? ==> OwesEvent(c, r, dto))
      && (phase.Logged? || phase.Published? ==>
            c.verdict == Some(Verdict(dto, TheResult(r))) && c.verdictEvent.Some? && c.webhookJobs == 0)
    case Report(_, phase) => PhaseInv(c, r, phase)
    case Cancel(phase) =>
      && PhaseInv(c, r, phase)
      && (phase.RowWritten? || phase.Locked? ==> c.rowLock.ByCancel? && c.rowLock.request == r)
    case Dispatch(trace) => c.claimant == Some(r) && c.posts == |trace|
    case Finished => true
  }

  ghost predicate RequestsInv(c: Cell) {
    forall r :: r in c.requests ==> RequestInv(c, r, c.requests[r])
  }

  ghost predicate DispatchInv(row: Option<Row>, claims: nat, claimant: Option<RequestId>, posts: nat) {
    && claims <= 1 && posts <= DISPATCH_ATTEMPTS
    && (claimant.None? <==> claims == 0)
    && (claims == 0 ==> posts == 0)
    && (row.Some? && row.value.status == PENDING ==> claims == 0)
  }

  predicate GoodPayload(p: Payload) {
    || (p.status == COMPLETED && p.result.Some? && p.error.None?)
    || (p.status == FAILED && p.error.Some? && p.result.None?)
  }

  /** A payload that carries exactly the outcome a verdict decided. */
  predicate Carries(p: Payload, body: EventBody) {
    match body
    case Completed(data) => p == Payload(COMPLETED, Some(data), None)
    case Failed(error) => p == Payload(FAILED, None, Some(error))
    case _ => false
  }

  ghost predicate WebhookInv(webhookJobs: nat, payloads: seq<Payload>, verdict: Option<Verdict>) {
    && webhookJobs <= 1
    && (webhookJobs > 0 ==> verdict.Some? && verdict.value.author.TheResult? &&
                            (verdict.value.body.Completed? || verdict.value.body.Failed?))
    && (forall p :: p in payloads ==> verdict.Some? && Carries(p, verdict.value.body))
  }

  ghost predicate AllIn(events: seq<Event>, ever: seq<Event>) {
    forall e :: e in events ==> e in ever
  }

  ghost predicate StreamInv(s: Stream, ever: seq<Event>) {
    && Sse.ConnInv(s.conn, s.afterSeq)
    && (s.snapshot.Some? ==> Sse.Ordered(s.snapshot.value, s.afterSeq) && AllIn(s.snapshot.value, ever))
    && (!s.answered ==> !s.conn.historyLoaded)
    && AllIn(s.conn.out, ever) && AllIn(s.conn.liveBuffer, ever)
  }

  ghost predicate StreamsInv(streams: map<StreamId, Stream>, ever: seq<Event>) {
    forall i :: i in streams ==> StreamInv(streams[i], ever)
  }

  ghost predicate Inv(c: Cell) {
    && LogInv(c.row, c.log, c.ever)
    && VerdictInv(c.ever, c.verdict, c.verdictEvent)
    && RowInv(c.row, c.verdict)
    && LockInv(c.row, |c.log|, c.rowLock)
    && RequestsInv(c)
    && DispatchInv(c.row, c.claims, c.claimant, c.posts)
    && WebhookInv(c.webhookJobs, c.payloads, c.verdict)
    && AllIn(c.published, c.ever)
    && StreamsInv(c.streams, c.ever)
  }

  lemma InitInv(row: Row)
    requires ValidRow(row) && row.status == PENDING
    ensures Inv(NewCell(row))
  {
  }

  lemma KeepGuardResult(c: Cell, r: RequestId, dto: EventBody)
    requires Inv(c) && Enabled(c, GuardResult(r, dto))
    ensures Inv(Step(c, GuardResult(r, dto)))
  {
  }

  lemma KeepGuardReport(c: Cell, r: RequestId, percent: int)
    requires Inv(c) && Enabled(c, GuardReport(r, percent))
    ensures Inv(Step(c, GuardReport(r, percent)))
  {
  }

  lemma ResultUpdateFacts(row: Row, dto: EventBody, now: Time)
    requires ValidRow(row) && row.status == PROCESSING && (dto.Completed? || dto.Failed?)
    ensures
      var u := ConditionalUpdate(Some(row), {PROCESSING}, ResultChange(dto, now));
      u.Updated? && ValidRow(u.row) && Matches(u.row, dto) && !InFlight(u.row)
  {
  }

  lemma VerdictlessHasNoTerminal(c: Cell)
    requires VerdictInv(c.ever, c.verdict, c.verdictEvent) && RowInv(c.row, c.verdict)
    requires c.row.Some? && InFlight(c.row.value)
    ensures c.verdict.None? && c.verdictEvent.None?
  {
  }

  lemma KeepWriteResult(c: Cell, r: RequestId, now: Time)
    requires Inv(c) && Enabled(c, WriteResult(r, now))
    ensures Inv(Step(c, WriteResult(r, now)))
  {
    var q := c.requests[r];
    var c' := Step(c, WriteResult(r, now));
    assert RequestInv(c, r, q);
    if c.row.Some? && c.row.value.status == PROCESSING {
      ResultUpdateFacts(c.row.value, q.dto, now);
      VerdictlessHasNoTerminal(c);
      KeepRowWrite(c, c', r, c'.row.value, c'.requests[r]);
    } else {
      KeepFinish(c, r);
    }
  }

  lemma KeepWriteProgress(c: Cell, r: RequestId)
    requires Inv(c) && Enabled(c, WriteProgress(r))
    ensures Inv(Step(c, WriteProgress(r)))
  {
    assert RequestInv(c, r, c.requests[r]);
    KeepRequest(c, Step(c, WriteProgress(r)), r, Advance(c.requests[r], RowWritten));
  }

  lemma CancelUpdateFacts(row: Row, now: Time)
    requires ValidRow(row) && InFlight(row)
    ensures
      var u := ConditionalUpdate(Some(row), IN_FLIGHT, ToCancelled(now));
      u.Updated? && ValidRow(u.row) && Matches(u.row, Cancelled)
  {
  }

  lemma KeepCancelLock(c: Cell, r: RequestId, updated: Row)
    requires Inv(c) && c.rowLock.Free? && c.row.Some? && InFlight(c.row.value)
    requires ValidRow(updated) && Matches(updated, Cancelled)
    ensures Inv(Goto(c, r, Cancel(RowWritten)).(rowLock := ByCancel(r, updated)))
  {
    var c' := Goto(c, r, Cancel(RowWritten)).(rowLock := ByCancel(r, updated));
    forall r2 | r2 in c'.requests ensures RequestInv(c', r2, c'.requests[r2]) {
      if r2 != r {
        assert RequestInv(c, r2, c.requests[r2]);
      }
    }
  }

  lemma KeepStartCancel(c: Cell, r: RequestId, now: Time)
    requires Inv(c) && Enabled(c, StartCancel(r, now))
    ensures Inv(Step(c, StartCancel(r, now)))
  {
    var c' := Step(c, StartCancel(r, now));
    if c.row.Some? && InFlight(c.row.value) {
      CancelUpdateFacts(c.row.value, now);
      KeepCancelLock(c, r, c'.rowLock.updated);
    } else {
      KeepFinish(c, r);
    }
  }

  /**
   * Actions that move one request on and touch nothing of the log, the row lock or the verdict:
   * only the advisory lock, the row's progress, the publications, the webhook queue or the
   * POST count may change, and the latter two only on behalf of their owner.
   */
  lemma KeepRequest(c: Cell, c': Cell, r: RequestId, q: Request)
    requires Inv(c)
    requires c' == c.(requests := c.requests[r := q], advisory := c'.advisory, row := c'.row,
                      published := c'.published, webhookJobs := c'.webhookJobs, posts := c'.posts)
    requires RequestInv(c', r, q)
    requires c'.row == c.row ||
             (c.row.Some? && c.rowLock.Free? && exists p :: c'.row == Some(c.row.value.(progress := p)))
    requires c'.advisory == c.advisory || c.advisory.None?
    requires AllIn(c'.published, c.ever)
    requires c'.webhookJobs == c.webhookJobs ||
             (c.webhookJobs == 0 && c'.webhookJobs == 1 && c.verdict.Some? && c.verdict.value.author == TheResult(r) &&
              (c.verdict.value.body.Completed? || c.verdict.value.body.Failed?))
    requires c'.posts == c.posts || (c.claimant == Some(r) && c'.posts <= DISPATCH_ATTEMPTS)
    ensures Inv(c')
  {
    forall r2 | r2 in c'.requests ensures RequestInv(c', r2, c'.requests[r2]) {
      if r2 != r {
        assert RequestInv(c, r2, c.requests[r2]);
      }
    }
  }

  lemma KeepTakeAdvisory(c: Cell, r: RequestId)
    requires Inv(c) && Enabled(c, TakeAdvisory(r))
    ensures Inv(Step(c, TakeAdvisory(r)))
  {
    assert RequestInv(c, r, c.requests[r]);
    KeepRequest(c, Step(c, TakeAdvisory(r)), r, Advance(c.requests[r], Locked(MaxSeq(c.log) + 1)));
  }

  lemma KeepRelease(c: Cell, r: RequestId)
    requires Inv(c)
    ensures Inv(ReleaseAll(Goto(c, r, Finished), r))
  {
    var c' := ReleaseAll(Goto(c, r, Finished), r);
    forall r2 | r2 in c'.requests ensures RequestInv(c', r2, c'.requests[r2]) {
      if r2 != r {
        assert RequestInv(c, r2, c.requests[r2]);
      }
    }
  }

  lemma MaxSeqAppend(log: seq<Event>, e: Event)
    requires e.num > MaxSeq(log)
    ensures MaxSeq(log + [e]) == e.num
  {
    assert (log + [e])[..|log|] == log;
  }

  /** A free seq that is no lower than the maximum read is above it. */
  lemma FreeSeqIsNext(row: Option<Row>, log: seq<Event>, ever: seq<Event>, num: nat)
    requires LogInv(row, log, ever) && num >= 1 && num >= MaxSeq(log) && !SeqTaken(log, num)
    ensures num > MaxSeq(log)
  {
  }

  lemma AppendKeepsLog(row: Option<Row>, log: seq<Event>, ever: seq<Event>, e: Event)
    requires LogInv(row, log, ever) && e.num > MaxSeq(log) && (row.Some? ==> e.num == MaxSeq(log) + 1)
    ensures LogInv(row, log + [e], ever + [e])
  {
    forall i | 0 <= i < |log| ensures log[i].num < e.num {
      assert log[i] in log;
    }
    if row.Some? {
      MaxSeqIsLength(log);
    }
  }

  lemma AppendKeepsVerdict(ever: seq<Event>, verdict: Option<Verdict>, verdictEvent: Option<Event>, e: Event,
                           verdict': Option<Verdict>)
    requires VerdictInv(ever, verdict, verdictEvent)
    requires if IsTerminal(e)
             then verdictEvent.None? && verdict'.Some? && verdict'.value.body == e.body &&
                  !verdict'.value.author.TheDispatch?
             else verdict' == verdict
    ensures VerdictInv(ever + [e], verdict', if IsTerminal(e) then Some(e) else verdictEvent)
  {
  }

  lemma GrowsKeepsStreams(streams: map<StreamId, Stream>, ever: seq<Event>, e: Event)
    requires StreamsInv(streams, ever)
    ensures StreamsInv(streams, ever + [e])
  {
    forall i | i in streams ensures StreamInv(streams[i], ever + [e]) {
      assert StreamInv(streams[i], ever);
    }
  }

  /** Committing an event under the advisory lock does not disturb the other requests. */
  lemma AppendKeepsOther(c: Cell, c': Cell, r: RequestId, e: Event, r2: RequestId, q2: Request)
    requires r2 != r && RequestInv(c, r2, q2) && c.advisory == Some(r)
    requires c'.log == c.log + [e] && c'.ever == c.ever + [e] &&
             c'.verdictEvent == (if IsTerminal(e) then Some(e) else c.verdictEvent)
    requires c'.webhookJobs == c.webhookJobs && c'.claimant == c.claimant && c'.posts == c.posts
    requires c'.verdict == c.verdict || c.verdict.None?
    requires IsTerminal(e) ==> c.verdict.None? || c.verdict.value.author == TheResult(r)
    requires SweptAt(c'.verdict, c'.verdictEvent) == SweptAt(c.verdict, c.verdictEvent)
    requires c'.rowLock == c.rowLock || (c.rowLock.ByCancel? && c.rowLock.request == r)
    ensures RequestInv(c', r2, q2)
  {
  }

  lemma AppendKeepsOthers(c: Cell, c': Cell, r: RequestId, e: Event)
    requires RequestsInv(c) && c.advisory == Some(r)
    requires forall r2 :: r2 in c'.requests && r2 != r ==> r2 in c.requests && c'.requests[r2] == c.requests[r2]
    requires r in c'.requests && RequestInv(c', r, c'.requests[r])
    requires c'.log == c.log + [e] && c'.ever == c.ever + [e]
    requires c'.verdictEvent == (if IsTerminal(e) then Some(e) else c.verdictEvent)
    requires c'.webhookJobs == c.webhookJobs && c'.claimant == c.claimant && c'.posts == c.posts
    requires c'.verdict == c.verdict || c.verdict.None?
    requires IsTerminal(e) ==> c.verdict.None? || c.verdict.value.author == TheResult(r)
    requires SweptAt(c'.verdict, c'.verdictEvent) == SweptAt(c.verdict, c.verdictEvent)
    requires c'.rowLock == c.rowLock || (c.rowLock.ByCancel? && c.rowLock.request == r)
    ensures RequestsInv(c')
  {
    forall r2 | r2 in c'.requests ensures RequestInv(c', r2, c'.requests[r2]) {
      if r2 != r {
        AppendKeepsOther(c, c', r, e, r2, c.requests[r2]);
      }
    }
  }

  lemma KeepPlainCommit(c: Cell, r: RequestId, e: Event)
    requires Inv(c) && Enabled(c, InsertEvent(r)) && RequestInv(c, r, c.requests[r])
    requires e == Event(c.requests[r].phase.num, EventOf(c.requests[r])) && e.num > MaxSeq(c.log)
    requires !c.requests[r].Cancel?
    ensures Inv(Append(Goto(c, r, Advance(c.requests[r], Logged(e))), e).(advisory := None))
  {
    var c' := Append(Goto(c, r, Advance(c.requests[r], Logged(e))), e).(advisory := None);
    AppendKeepsLog(c.row, c.log, c.ever, e);
    AppendKeepsVerdict(c.ever, c.verdict, c.verdictEvent, e, c.verdict);
    GrowsKeepsStreams(c.streams, c.ever, e);
    AppendKeepsOthers(c, c', r, e);
  }

  lemma KeepCancelCommit(c: Cell, r: RequestId, e: Event, updated: Row)
    requires Inv(c) && c.rowLock == ByCancel(r, updated) && c.advisory == Some(r)
    requires e.body == Cancelled && e.num == MaxSeq(c.log) + 1
    ensures Inv(Append(Goto(c, r, Cancel(Logged(e))), e).(
                  advisory := None, row := Some(updated), rowLock := Free,
                  verdict := Some(Verdict(Cancelled, TheCancel))))
  {
    var v := Some(Verdict(Cancelled, TheCancel));
    var c' := Append(Goto(c, r, Cancel(Logged(e))), e).(
      advisory := None, row := Some(updated), rowLock := Free, verdict := v);
    VerdictlessHasNoTerminal(c);
    AppendKeepsLog(c.row, c.log, c.ever, e);
    AppendKeepsVerdict(c.ever, c.verdict, c.verdictEvent, e, v);
    GrowsKeepsStreams(c.streams, c.ever, e);
    AppendKeepsOthers(c, c', r, e);
  }

  lemma KeepInsertEvent(c: Cell, r: RequestId)
    requires Inv(c) && Enabled(c, InsertEvent(r))
    ensures Inv(Step(c, InsertEvent(r)))
  {
    var q := c.requests[r];
    var e := Event(q.phase.num, EventOf(q));
    assert RequestInv(c, r, q);
    if SeqTaken(c.log, e.num) {
      KeepRelease(c, r);
    } else {
      FreeSeqIsNext(c.row, c.log, c.ever, e.num);
      if q.Cancel? {
        KeepCancelCommit(c, r, e, c.rowLock.updated);
      } else {
        KeepPlainCommit(c, r, e);
      }
    }
  }

  lemma KeepPublish(c: Cell, r: RequestId)
    requires Inv(c) && Enabled(c, Publish(r))
    ensures Inv(Step(c, Publish(r)))
  {
    assert RequestInv(c, r, c.requests[r]);
    var c' := Step(c, Publish(r));
    KeepRequest(c, c', r, c'.requests[r]);
  }

  lemma KeepEnqueueWebhook(c: Cell, r: RequestId)
    requires Inv(c) && Enabled(c, EnqueueWebhook(r))
    ensures Inv(Step(c, EnqueueWebhook(r)))
  {
    assert RequestInv(c, r, c.requests[r]);
    KeepRequest(c, Step(c, EnqueueWebhook(r)), r, Finished);
  }

  lemma KeepCrash(c: Cell, r: RequestId)
    requires Inv(c) && Enabled(c, Crash(r))
    ensures Inv(Step(c, Crash(r)))
  {
    KeepRelease(c, r);
  }

  /**
   * Actions that rewrite the row of a live task, the state of one request and the dispatch
   * history, but neither log nor locks.
   */
  lemma KeepRowWrite(c: Cell, c': Cell, r: RequestId, row: Row, q: Request)
    requires Inv(c) && c.row.Some? && c.rowLock.Free?
    requires c' == c.(row := Some(row), requests := c.requests[r := q], verdict := c'.verdict,
                      claims := c'.claims, claimant := c'.claimant)
    requires RowInv(Some(row), c'.verdict) && VerdictInv(c.ever, c'.verdict, c.verdictEvent)
    requires WebhookInv(c.webhookJobs, c.payloads, c'.verdict)
    requires DispatchInv(c'.row, c'.claims, c'.claimant, c.posts)
    requires RequestInv(c', r, q)
    requires c'.verdict == c.verdict || c.verdict.None?
    requires c'.claimant == c.claimant || c.claimant.None?
    ensures Inv(c')
  {
    forall r2 | r2 in c'.requests ensures RequestInv(c', r2, c'.requests[r2]) {
      if r2 != r {
        assert RequestInv(c, r2, c.requests[r2]);
      }
    }
  }

  lemma ClaimFacts(row: Row, now: Time, deadline: Time)
    requires ValidRow(row) && row.status == PENDING
    ensures
      var u := ConditionalUpdate(Some(row), {PENDING}, ToProcessing(now, deadline));
      u.Updated? && ValidRow(u.row) && u.row.status == PROCESSING
  {
  }

  lemma KeepClaim(c: Cell, r: RequestId, now: Time)
    requires Inv(c) && Enabled(c, Claim(r, now))
    ensures Inv(Step(c, Claim(r, now)))
  {
    var c' := Step(c, Claim(r, now));
    if c.row.Some? && c.row.value.status == PENDING {
      ClaimFacts(c.row.value, now, now + 1000 * c.row.value.timeoutSeconds);
      KeepRowWrite(c, c', r, c'.row.value, Dispatch([]));
    } else {
      KeepFinish(c, r);
    }
  }

  lemma KeepFinish(c: Cell, r: RequestId)
    requires Inv(c)
    ensures Inv(Goto(c, r, Finished))
  {
  }

  lemma KeepPostOnce(c: Cell, r: RequestId, reply: Retry.Reply)
    requires Inv(c) && Enabled(c, PostOnce(r, reply))
    ensures Inv(Step(c, PostOnce(r, reply)))
  {
    assert RequestInv(c, r, c.requests[r]);
    var q := Dispatch(c.requests[r].trace + [reply]);
    KeepRequest(c, Step(c, PostOnce(r, reply)), r, q);
  }

  lemma KeepEndDispatch(c: Cell, r: RequestId, now: Time)
    requires Inv(c) && Enabled(c, EndDispatch(r, now))
    ensures Inv(Step(c, EndDispatch(r, now)))
  {
    var c' := Step(c, EndDispatch(r, now));
    var outcome := Retry.Decide(c.requests[r].trace, DISPATCH_ATTEMPTS).outcome;
    Retry.ThrowsOnlyItsOwnErrors(c.requests[r].trace, DISPATCH_ATTEMPTS, outcome);
    if outcome.Threw? && c.row.Some? && c.row.value.status == PROCESSING {
      VerdictlessHasNoTerminal(c);
      ResultUpdateFacts(c.row.value, Failed(DispatchError(outcome.error)), now);
      KeepRowWrite(c, c', r, c'.row.value, Finished);
    } else {
      KeepFinish(c, r);
    }
  }

  lemma KeepSweepLock(c: Cell, sweep: nat, now: Time)
    requires Inv(c) && Enabled(c, SweepLock(sweep, now))
    ensures Inv(Step(c, SweepLock(sweep, now)))
  {
  }

  lemma KeepSweepRead(c: Cell, sweep: nat)
    requires Inv(c) && Enabled(c, SweepRead(sweep))
    ensures Inv(Step(c, SweepRead(sweep)))
  {
  }

  lemma ContiguousTaken(log: seq<Event>, num: nat)
    requires Contiguous(log) && 1 <= num <= |log|
    ensures SeqTaken(log, num)
  {
    assert log[num - 1] in log;
  }

  /** In a contiguous log, a free seq within reach is the next one: a stale read cannot commit. */
  lemma FreeIsLast(log: seq<Event>, num: nat)
    requires Contiguous(log) && 1 <= num <= |log| + 1 && !SeqTaken(log, num)
    ensures num == |log| + 1 && num == MaxSeq(log) + 1
  {
    if num <= |log| {
      ContiguousTaken(log, num);
    }
    MaxSeqIsLength(log);
  }

  /**
   * A sweep that commits between another writer's read and its insert takes exactly the seq
   * that writer has read.
   */
  lemma SweepKeepsOther(c: Cell, c': Cell, e: Event, r: RequestId, q: Request)
    requires RequestInv(c, r, q) && c.row.Some? && c'.row.Some? && c.verdict.None?
    requires e.num == MaxSeq(c.log) + 1 && c.rowLock.BySweep?
    requires c'.log == c.log + [e] && c'.ever == c.ever + [e] && SweptAt(c'.verdict, c'.verdictEvent) == Some(e.num)
    requires c'.webhookJobs == c.webhookJobs && c'.claimant == c.claimant && c'.posts == c.posts
    requires c'.advisory == c.advisory
    ensures RequestInv(c', r, q)
  {
    MaxSeqAppend(c.log, e);
  }

  lemma SweepKeepsOthers(c: Cell, c': Cell, e: Event)
    requires RequestsInv(c) && c'.requests == c.requests
    requires c.row.Some? && c'.row.Some? && c.verdict.None?
    requires e.num == MaxSeq(c.log) + 1 && c.rowLock.BySweep?
    requires c'.log == c.log + [e] && c'.ever == c.ever + [e] && SweptAt(c'.verdict, c'.verdictEvent) == Some(e.num)
    requires c'.webhookJobs == c.webhookJobs && c'.claimant == c.claimant && c'.posts == c.posts
    requires c'.advisory == c.advisory
    ensures RequestsInv(c')
  {
    forall r | r in c'.requests ensures RequestInv(c', r, c'.requests[r]) {
      SweepKeepsOther(c, c', e, r, c.requests[r]);
    }
  }

  lemma SweepCommitFacts(c: Cell, sweep: nat)
    requires Inv(c) && Enabled(c, SweepCommit(sweep))
    ensures c.row.Some? && c.verdict.None? && c.verdictEvent.None?
    ensures c.rowLock.read.value == MaxSeq(c.log) + 1
    ensures Matches(c.rowLock.updated, Failed(TIMEOUT_ERROR)) && ValidRow(c.rowLock.updated)
  {
    VerdictlessHasNoTerminal(c);
    FreeIsLast(c.log, c.rowLock.read.value);
  }

  lemma KeepSweepCommit(c: Cell, sweep: nat)
    requires Inv(c) && Enabled(c, SweepCommit(sweep))
    ensures Inv(Step(c, SweepCommit(sweep)))
  {
    // Three parts of the invariant are kept by lemmas, as wholes.
    hide VerdictInv, RequestsInv, StreamsInv;
    var c' := SweepCommitStep(c);
    var e := Event(c.rowLock.read.value, Failed(TIMEOUT_ERROR));
    SweepCommitFacts(c, sweep);
    AppendKeepsLog(c.row, c.log, c.ever, e);
    AppendKeepsVerdict(c.ever, c.verdict, c.verdictEvent, e, c'.verdict);
    GrowsKeepsStreams(c.streams, c.ever, e);
    SweepKeepsOthers(c, c', e);
    assert RowInv(c'.row, c'.verdict) && LockInv(c'.row, |c'.log|, c'.rowLock);
    assert DispatchInv(c'.row, c'.claims, c'.claimant, c'.posts);
    assert WebhookInv(c'.webhookJobs, c'.payloads, c'.verdict) && AllIn(c'.published, c'.ever);
  }

  lemma KeepSweepRollback(c: Cell, sweep: nat)
    requires Inv(c) && Enabled(c, SweepRollback(sweep))
    ensures Inv(Step(c, SweepRollback(sweep)))
  {
  }

  lemma KeepSweepPublish(c: Cell)
    requires Inv(c) && Enabled(c, SweepPublish)
    ensures Inv(Step(c, SweepPublish))
  {
  }

  lemma KeepRollBackCreation(c: Cell)
    requires Inv(c) && Enabled(c, RollBackCreation)
    ensures Inv(Step(c, RollBackCreation))
  {
  }

  lemma KeepPrune(c: Cell)
    requires Inv(c) && Enabled(c, Prune)
    ensures Inv(Step(c, Prune))
  {
  }

  lemma KeepBuildPayload(c: Cell)
    requires Inv(c) && Enabled(c, BuildPayload)
    ensures Inv(Step(c, BuildPayload))
  {
  }

  lemma KeepOpenStream(c: Cell, i: StreamId, afterSeq: nat)
    requires Inv(c) && Enabled(c, OpenStream(i, afterSeq))
    ensures Inv(Step(c, OpenStream(i, afterSeq)))
  {
    KeepStreamUpdate(c, i, Stream(afterSeq, None, false, Sse.Fresh(afterSeq)));
  }

  lemma SnapshotIsOrdered(log: seq<Event>, afterSeq: nat)
    requires Increasing(log)
    ensures Sse.Ordered(FindEventsSince(log, afterSeq), afterSeq)
    ensures AllIn(FindEventsSince(log, afterSeq), log)
  {
    FindEventsSinceOrdered(log, afterSeq);
    FindEventsSinceMembers(log, afterSeq);
    var rows := FindEventsSince(log, afterSeq);
    forall i | 0 <= i < |rows| ensures afterSeq < rows[i].num {
      assert rows[i] in rows;
    }
  }

  lemma KeepQueryHistory(c: Cell, i: StreamId)
    requires Inv(c) && Enabled(c, QueryHistory(i))
    ensures Inv(Step(c, QueryHistory(i)))
  {
    var s := c.streams[i];
    assert StreamInv(s, c.ever);
    SnapshotIsOrdered(c.log, s.afterSeq);
    KeepStreamUpdate(c, i, s.(snapshot := Some(FindEventsSince(c.log, s.afterSeq))));
  }

  lemma {:induction false} ReplayWithin(conn: Sse.Conn, rows: seq<Event>, ever: seq<Event>)
    requires AllIn(conn.out, ever) && AllIn(rows, ever)
    ensures AllIn(Sse.Replay(conn, rows).out, ever) && Sse.Replay(conn, rows).liveBuffer == conn.liveBuffer
    decreases |rows|
  {
    if rows != [] && !IsTerminal(rows[0]) {
      var highest := if rows[0].num > conn.highestHistorySeq then rows[0].num else conn.highestHistorySeq;
      ReplayWithin(Sse.Emit(conn.(highestHistorySeq := highest), rows[0]), rows[1..], ever);
    }
  }

  lemma {:induction false} DrainWithin(conn: Sse.Conn, events: seq<Event>, ever: seq<Event>)
    requires AllIn(conn.out, ever) && AllIn(events, ever)
    ensures AllIn(Sse.Drain(conn, events).out, ever)
    decreases |events|
  {
    if events != [] && !Sse.EmitIfNew(conn, events[0]).isDone {
      DrainWithin(Sse.EmitIfNew(conn, events[0]), events[1..], ever);
    }
  }

  lemma KeepStream(s: Stream, ever: seq<Event>, published: seq<Event>, input: Sse.Input)
    requires StreamInv(s, ever) && AllIn(published, ever)
    requires input.OnMessage? && input.message.Parsed? ==> input.message.event in published
    requires input.OnHistory? ==> !s.answered && s.snapshot == Some(input.rows)
    ensures var answered := s.answered || input.OnHistory? || input.OnQueryFailed?;
            StreamInv(s.(conn := Sse.StepConn(s.conn, input), answered := answered), ever)
  {
    Sse.StepKeepsConnInv(s.conn, input, s.afterSeq);
    if input.OnHistory? && !s.conn.isDone {
      ReplayWithin(s.conn, input.rows, ever);
      var replayed := Sse.Replay(s.conn, input.rows);
      if !replayed.isDone {
        DrainWithin(replayed.(historyLoaded := true), replayed.liveBuffer, ever);
      }
    }
  }

  lemma KeepStreamUpdate(c: Cell, i: StreamId, s: Stream)
    requires Inv(c) && StreamInv(s, c.ever)
    ensures Inv(c.(streams := c.streams[i := s]))
  {
  }

  lemma KeepCallback(c: Cell, i: StreamId, input: Sse.Input)
    requires Inv(c) && Enabled(c, Callback(i, input))
    ensures Inv(Step(c, Callback(i, input)))
  {
    var s := c.streams[i];
    assert StreamInv(s, c.ever);
    KeepStream(s, c.ever, c.published, input);
    var answered := s.answered || input.OnHistory? || input.OnQueryFailed?;
    KeepStreamUpdate(c, i, s.(conn := Sse.StepConn(s.conn, input), answered := answered));
  }

}
