/**
 * The two maintenance loops, run without other writers: the timeout sweep
 * (timeout-sweeper.processor.ts over expireTimedOutTasksBatch) and the retention delete
 * (deleteOldData).  SELECT ... LIMIT has no ORDER BY, so each batch is an arbitrary subset.
 */
module Maintenance {
  import opened Wrappers
  import opened Schema
  import opened Database
  import opened Collections
  import P = Proxy

  ghost predicate TableValid(tasks: map<TaskId, Row>) {
    forall t :: t in tasks ==> ValidRow(tasks[t])
  }

  /** SELECT id ... LIMIT n: some n of the eligible ids, or all of them if there are fewer. */
  method SelectLimit(eligible: set<TaskId>, limit: nat) returns (batch: set<TaskId>)
    ensures batch <= eligible && |batch| == Min(limit, |eligible|)
    ensures |eligible| <= limit ==> batch == eligible
  {
    SubsetOfSize(eligible, Min(limit, |eligible|));
    batch :| batch <= eligible && |batch| == Min(limit, |eligible|);
    SubsetSize(batch, eligible);
  }

  // ---- Timeout sweep -----------------------------------------------------------------------

  function ExpiredIds(tasks: map<TaskId, Row>, now: Time): set<TaskId> {
    set t | t in tasks && Expired(tasks[t], now)
  }

  function InFlightIds(tasks: map<TaskId, Row>): set<TaskId> {
    set t | t in tasks && InFlight(tasks[t])
  }

  function Timeout(row: Row, now: Time): Row {
    SetColumns(row, ToFailed(TIMEOUT_ERROR, now))
  }

  function TimeoutEvent(log: seq<Event>): Event {
    NextEvent(log, Failed(TIMEOUT_ERROR))
  }

  /** The UPDATE and the INSERT of one sweep transaction, on a batch of ids. */
  function FailAll(tasks: map<TaskId, Row>, batch: set<TaskId>, now: Time): map<TaskId, Row> {
    map t | t in tasks :: if t in batch then Timeout(tasks[t], now) else tasks[t]
  }

  function LogAll(events: map<TaskId, seq<Event>>, batch: set<TaskId>): map<TaskId, seq<Event>> {
    map t | t in events.Keys + batch ::
      if t in batch then LogOf(events, t) + [TimeoutEvent(LogOf(events, t))] else events[t]
  }

  predicate HasPending(tasks: map<TaskId, Row>, ids: set<TaskId>) {
    exists t :: t in ids && t in tasks && tasks[t].status == PENDING
  }

  /** In a table that satisfies its CHECK, the update of a batch is rejected exactly for a PENDING row. */
  lemma CheckRejectsPending(tasks: map<TaskId, Row>, batch: set<TaskId>, now: Time)
    requires TableValid(tasks) && batch <= ExpiredIds(tasks, now)
    ensures (exists t :: t in batch && !ValidStateData(Timeout(tasks[t], now))) <==> HasPending(tasks, batch)
    ensures !HasPending(tasks, batch) ==> TableValid(FailAll(tasks, batch, now))
  {
    forall t | t in batch ensures ValidStateData(Timeout(tasks[t], now)) <==> tasks[t].status != PENDING {
    }
  }

  datatype BatchResult = Committed(ids: set<TaskId>, events: set<(TaskId, Event)>) | CheckViolation

  /** What a sweep does to one task that timed out at `now`. */
  ghost predicate Swept(row: Row, row': Row, log: seq<Event>, log': seq<Event>, now: Time) {
    Expired(row, now) && row.status == PROCESSING && row' == Timeout(row, now) && log' == log + [TimeoutEvent(log)]
  }

  /** One task after k batches: untouched, or swept at one of their clocks. */
  ghost predicate Outcome(row: Row, row': Row, log: seq<Event>, log': seq<Event>, clock: nat -> Time, k: nat) {
    || (row' == row && log' == log)
    || exists j: nat :: j < k && Swept(row, row', log, log', clock(j))
  }

  ghost predicate SweptSoFar(tasks: map<TaskId, Row>, tasks': map<TaskId, Row>,
                           events: map<TaskId, seq<Event>>, events': map<TaskId, seq<Event>>, clock: nat -> Time,
                           k: nat) {
    && tasks'.Keys == tasks.Keys
    && (forall t :: t !in tasks ==> LogOf(events', t) == LogOf(events, t))
    && forall t {:trigger Outcome(tasks[t], tasks'[t], LogOf(events, t), LogOf(events', t), clock, k)} ::
         t in tasks ==> Outcome(tasks[t], tasks'[t], LogOf(events, t), LogOf(events', t), clock, k)
  }

  function Changed(tasks: map<TaskId, Row>, tasks': map<TaskId, Row>): set<TaskId> {
    set t | t in tasks && t in tasks' && tasks'[t] != tasks[t]
  }

  /** The messages that go with a sweep: one per changed task, at its MAX + 1. */
  function Notices(ids: set<TaskId>, events: map<TaskId, seq<Event>>): set<(TaskId, Event)> {
    set t | t in ids :: (t, TimeoutEvent(LogOf(events, t)))
  }

  lemma SweptIsFinal(row: Row, row': Row, log: seq<Event>, log': seq<Event>, clock: nat -> Time, k: nat)
    requires Outcome(row, row', log, log', clock, k)
    ensures InFlight(row') ==> row' == row && log' == log
    ensures row' != row ==> InFlight(row) && !InFlight(row') && log' == log + [TimeoutEvent(log)]
  {
  }

  lemma OutcomeGrows(row: Row, row': Row, log: seq<Event>, log': seq<Event>, clock: nat -> Time, k: nat)
    requires Outcome(row, row', log, log', clock, k)
    ensures Outcome(row, row', log, log', clock, k + 1)
  {
  }

  lemma UntouchedBefore(tasks: map<TaskId, Row>, tasks': map<TaskId, Row>, events: map<TaskId, seq<Event>>,
                        events': map<TaskId, seq<Event>>, clock: nat -> Time, k: nat, t: TaskId)
    requires SweptSoFar(tasks, tasks', events, events', clock, k) && t in tasks' && InFlight(tasks'[t])
    ensures t in tasks && tasks'[t] == tasks[t] && LogOf(events', t) == LogOf(events, t)
  {
    SweptIsFinal(tasks[t], tasks'[t], LogOf(events, t), LogOf(events', t), clock, k);
  }

  /** A batch takes tasks no earlier batch has touched. */
  lemma BatchSweeps(tasks: map<TaskId, Row>, tasks': map<TaskId, Row>, events: map<TaskId, seq<Event>>,
                    events': map<TaskId, seq<Event>>, clock: nat -> Time, k: nat, batch: set<TaskId>)
    requires SweptSoFar(tasks, tasks', events, events', clock, k)
    requires batch <= ExpiredIds(tasks', clock(k)) && !HasPending(tasks', batch)
    ensures SweptSoFar(tasks, FailAll(tasks', batch, clock(k)), events, LogAll(events', batch), clock, k + 1)
  {
    var tasks2, events2 := FailAll(tasks', batch, clock(k)), LogAll(events', batch);
    forall t | t in tasks
      ensures Outcome(tasks[t], tasks2[t], LogOf(events, t), LogOf(events2, t), clock, k + 1)
    {
      if t in batch {
        UntouchedBefore(tasks, tasks', events, events', clock, k, t);
        assert Swept(tasks[t], tasks2[t], LogOf(events, t), LogOf(events2, t), clock(k));
      } else {
        OutcomeGrows(tasks[t], tasks'[t], LogOf(events, t), LogOf(events', t), clock, k);
      }
    }
  }

  /** So it adds its members to the changed tasks and its notices to theirs, and leaves fewer in flight. */
  lemma BatchAdds(tasks: map<TaskId, Row>, tasks': map<TaskId, Row>, events: map<TaskId, seq<Event>>,
                  events': map<TaskId, seq<Event>>, clock: nat -> Time, k: nat, batch: set<TaskId>)
    requires SweptSoFar(tasks, tasks', events, events', clock, k)
    requires batch <= ExpiredIds(tasks', clock(k))
    ensures Changed(tasks, FailAll(tasks', batch, clock(k))) == Changed(tasks, tasks') + batch
    ensures Changed(tasks, tasks') !! batch
    ensures Notices(batch, events') == Notices(batch, events)
  {
    var tasks2 := FailAll(tasks', batch, clock(k));
    forall t | t in tasks ensures t in Changed(tasks, tasks2) <==> t in Changed(tasks, tasks') || t in batch {
      if t in batch {
        UntouchedBefore(tasks, tasks', events, events', clock, k, t);
      }
    }
    forall t | t in batch ensures t !in Changed(tasks, tasks') && LogOf(events', t) == LogOf(events, t) {
      UntouchedBefore(tasks, tasks', events, events', clock, k, t);
    }
  }

  lemma NoticesUnion(a: set<TaskId>, b: set<TaskId>, events: map<TaskId, seq<Event>>)
    ensures Notices(a + b, events) == Notices(a, events) + Notices(b, events)
  {
  }

  lemma EmptyBatch(tasks: map<TaskId, Row>, events: map<TaskId, seq<Event>>, batch: set<TaskId>, now: Time)
    ensures |batch| == 0 ==> FailAll(tasks, batch, now) == tasks && LogAll(events, batch) == events
  {
  }

  lemma BatchShrinksInFlight(tasks: map<TaskId, Row>, batch: set<TaskId>, now: Time)
    requires batch <= ExpiredIds(tasks, now)
    ensures |InFlightIds(FailAll(tasks, batch, now))| == |InFlightIds(tasks)| - |batch|
  {
    var rest := InFlightIds(FailAll(tasks, batch, now));
    assert InFlightIds(tasks) == rest + batch && rest !! batch;
  }

  /** The loop invariant of the sweep: k batches done, n tasks changed. */
  ghost predicate SweepState(tasks: map<TaskId, Row>, tasks': map<TaskId, Row>, events: map<TaskId, seq<Event>>,
                             events': map<TaskId, seq<Event>>, clock: nat -> Time, k: nat, n: nat) {
    && TableValid(tasks')
    && SweptSoFar(tasks, tasks', events, events', clock, k)
    && n == |Changed(tasks, tasks')|
    && (k == 0 ==> tasks' == tasks && events' == events)
    && (k > 0 ==> !FirstBatchRejected(tasks, clock(0)))
  }

  lemma SweepStarts(tasks: map<TaskId, Row>, events: map<TaskId, seq<Event>>, clock: nat -> Time)
    requires TableValid(tasks)
    ensures SweepState(tasks, tasks, events, events, clock, 0, 0) && Notices(Changed(tasks, tasks), events) == {}
  {
    assert Changed(tasks, tasks) == {};
  }

  /** What one sweep transaction commits: a batch of expired tasks without a PENDING one, or nothing. */
  ghost predicate BatchEffect(tasks: map<TaskId, Row>, tasks': map<TaskId, Row>, events: map<TaskId, seq<Event>>,
                              events': map<TaskId, seq<Event>>, now: Time, batchSize: nat, r: BatchResult) {
    match r
    case Committed(ids, inserted) =>
      && tasks' == FailAll(tasks, ids, now) && events' == LogAll(events, ids)
      && ids <= ExpiredIds(tasks, now) && !HasPending(tasks, ids)
      && inserted == Notices(ids, events)
      && |ids| == Min(batchSize, |ExpiredIds(tasks, now)|)
      && (|ExpiredIds(tasks, now)| <= batchSize ==> ids == ExpiredIds(tasks, now))
    case CheckViolation =>
      tasks' == tasks && events' == events && HasPending(tasks, ExpiredIds(tasks, now))
  }

  ghost predicate Monotone(clock: nat -> Time) {
    forall i: nat, j: nat :: i <= j ==> clock(i) <= clock(j)
  }

  /** With a clock that does not run backwards, the tasks swept are exactly those expired at its last reading. */
  lemma SweptAreTheExpired(tasks: map<TaskId, Row>, tasks': map<TaskId, Row>, events: map<TaskId, seq<Event>>,
                           events': map<TaskId, seq<Event>>, clock: nat -> Time, last: nat)
    requires SweptSoFar(tasks, tasks', events, events', clock, last) && Monotone(clock)
    requires ExpiredIds(tasks', clock(last)) == {}
    ensures Changed(tasks, tasks') == ExpiredIds(tasks, clock(last))
  {
    forall t | t in tasks ensures t in Changed(tasks, tasks') <==> t in ExpiredIds(tasks, clock(last)) {
      assert Outcome(tasks[t], tasks'[t], LogOf(events, t), LogOf(events', t), clock, last);
      if tasks'[t] != tasks[t] {
        var j: nat :| j < last && Swept(tasks[t], tasks'[t], LogOf(events, t), LogOf(events', t), clock(j));
        assert clock(j) <= clock(last);
      } else {
        assert t !in ExpiredIds(tasks', clock(last));
      }
    }
  }

  /** All that is expired fits one batch, and some of it is PENDING. */
  ghost predicate FirstBatchRejected(tasks: map<TaskId, Row>, now: Time) {
    |ExpiredIds(tasks, now)| <= P.SWEEP_BATCH_SIZE && HasPending(tasks, ExpiredIds(tasks, now))
  }

  datatype SweepResult = Done(total: nat) | Threw

  /**
   * What a sweep job does whose last batch is number `last`.  Every changed task went from
   * PROCESSING to FAILED with exactly one more event, at its MAX + 1, and one message.  A normal
   * end leaves nothing past its deadline at the last batch's clock.  The job throws exactly if a
   * PENDING row was past its deadline then - with nothing swept if the first batch is rejected.
   */
  ghost predicate SweepOutcome(tasks: map<TaskId, Row>, tasks': map<TaskId, Row>, events: map<TaskId, seq<Event>>,
                               events': map<TaskId, seq<Event>>, sent: set<(TaskId, Event)>,
                               clock: nat -> Time, last: nat, r: SweepResult) {
    && TableValid(tasks')
    && SweptSoFar(tasks, tasks', events, events', clock, last)
    && sent == Notices(Changed(tasks, tasks'), events)
    && (r.Done? ==>
          && ExpiredIds(tasks', clock(last)) == {}
          && r.total == |Changed(tasks, tasks')|
          && (Monotone(clock) ==> Changed(tasks, tasks') == ExpiredIds(tasks, clock(last))))
    && (r.Threw? <==> HasPending(tasks, ExpiredIds(tasks, clock(last))))
    && (FirstBatchRejected(tasks, clock(0)) ==> r.Threw? && tasks' == tasks && events' == events)
  }

  /** A sweep never touches a PENDING row, so it cannot end normally while one is past its deadline. */
  lemma NoPendingLeft(tasks: map<TaskId, Row>, tasks': map<TaskId, Row>, events: map<TaskId, seq<Event>>,
                      events': map<TaskId, seq<Event>>, clock: nat -> Time, k: nat)
    requires SweptSoFar(tasks, tasks', events, events', clock, k) && ExpiredIds(tasks', clock(k)) == {}
    ensures !HasPending(tasks, ExpiredIds(tasks, clock(k)))
  {
    forall t | t in ExpiredIds(tasks, clock(k)) ensures tasks[t].status != PENDING {
      assert Outcome(tasks[t], tasks'[t], LogOf(events, t), LogOf(events', t), clock, k);
      assert t !in ExpiredIds(tasks', clock(k));
    }
  }

  lemma SweepEnds(tasks: map<TaskId, Row>, tasks': map<TaskId, Row>, events: map<TaskId, seq<Event>>,
                  events': map<TaskId, seq<Event>>, sent: set<(TaskId, Event)>, clock: nat -> Time, k: nat, n: nat)
    requires SweepState(tasks, tasks', events, events', clock, k, n) && sent == Notices(Changed(tasks, tasks'), events)
    ensures ExpiredIds(tasks', clock(k)) == {} ==>
              SweepOutcome(tasks, tasks', events, events', sent, clock, k, Done(n))
    ensures HasPending(tasks', ExpiredIds(tasks', clock(k))) ==>
              SweepOutcome(tasks, tasks', events, events', sent, clock, k, Threw)
  {
    if ExpiredIds(tasks', clock(k)) == {} {
      NoPendingLeft(tasks, tasks', events, events', clock, k);
      if Monotone(clock) {
        SweptAreTheExpired(tasks, tasks', events, events', clock, k);
      }
    }
    if HasPending(tasks', ExpiredIds(tasks', clock(k))) {
      var t :| t in ExpiredIds(tasks', clock(k)) && tasks'[t].status == PENDING;
      SweptIsFinal(tasks[t], tasks'[t], LogOf(events, t), LogOf(events', t), clock, k);
      assert t in ExpiredIds(tasks, clock(k));
    }
  }

  /** A batch that commits, seen from the tables before the job. */
  lemma NextBatch(tasks: map<TaskId, Row>, tasks1: map<TaskId, Row>, events: map<TaskId, seq<Event>>,
                  events1: map<TaskId, seq<Event>>, clock: nat -> Time, k: nat, n: nat, ids: set<TaskId>)
    requires SweepState(tasks, tasks1, events, events1, clock, k, n)
    requires ids <= ExpiredIds(tasks1, clock(k)) && !HasPending(tasks1, ids)
    requires |ExpiredIds(tasks1, clock(k))| <= P.SWEEP_BATCH_SIZE ==> ids == ExpiredIds(tasks1, clock(k))
    ensures SweepState(tasks, FailAll(tasks1, ids, clock(k)), events, LogAll(events1, ids), clock, k + 1, n + |ids|)
    ensures Notices(Changed(tasks, FailAll(tasks1, ids, clock(k))), events)
         == Notices(Changed(tasks, tasks1), events) + Notices(ids, events1)
  {
    CheckRejectsPending(tasks1, ids, clock(k));
    BatchSweeps(tasks, tasks1, events, events1, clock, k, ids);
    BatchAdds(tasks, tasks1, events, events1, clock, k, ids);
    NoticesUnion(Changed(tasks, tasks1), ids, events);
  }

  /** One turn of the loop: it ends the job, or leaves fewer tasks in flight. */
  lemma SweepTurn(tasks: map<TaskId, Row>, tasks1: map<TaskId, Row>, tasks2: map<TaskId, Row>,
                  events: map<TaskId, seq<Event>>, events1: map<TaskId, seq<Event>>, events2: map<TaskId, seq<Event>>,
                  sent: set<(TaskId, Event)>, clock: nat -> Time, k: nat, n: nat, r: BatchResult)
    requires SweepState(tasks, tasks1, events, events1, clock, k, n) && sent == Notices(Changed(tasks, tasks1), events)
    requires BatchEffect(tasks1, tasks2, events1, events2, clock(k), P.SWEEP_BATCH_SIZE, r)
    ensures r.CheckViolation? ==> SweepOutcome(tasks, tasks2, events, events2, sent, clock, k, Threw)
    ensures r.Committed? && |r.ids| == 0 ==> SweepOutcome(tasks, tasks2, events, events2, sent, clock, k, Done(n))
    ensures r.Committed? && |r.ids| > 0 ==>
              && SweepState(tasks, tasks2, events, events2, clock, k + 1, n + |r.ids|)
              && sent + r.events == Notices(Changed(tasks, tasks2), events)
              && |InFlightIds(tasks2)| < |InFlightIds(tasks1)|
  {
    SweepEnds(tasks, tasks1, events, events1, sent, clock, k, n);
    if r.Committed? {
      EmptyBatch(tasks1, events1, r.ids, clock(k));
      if |r.ids| > 0 {
        NextBatch(tasks, tasks1, events, events1, clock, k, n, r.ids);
        BatchShrinksInFlight(tasks1, r.ids, clock(k));
      }
    }
  }

  // ---- The sweep in columns ----------------------------------------------------------------

  /** What the sweep does to one task at time `at`: four columns and one event, and nothing else. */
  ghost predicate TimedOut(row: Row, row': Row, log: seq<Event>, log': seq<Event>, at: Time) {
    var error := TaskError("BUSINESS_TIMEOUT", TIMEOUT_ERROR.message);
    && row.status == PROCESSING && row.expiresAt.Some? && row.expiresAt.value < at
    && row' == row.(status := FAILED, error := Some(error), completedAt := Some(at))
    && log' == log + [Event(MaxSeq(log) + 1, Failed(error))]
  }

  /** PENDING or PROCESSING past its deadline. */
  ghost predicate IsLate(row: Row, now: Time) {
    (row.status == PENDING || row.status == PROCESSING) && row.expiresAt.Some? && row.expiresAt.value < now
  }

  /** The transaction: it fails its batch, all of whose tasks were PROCESSING and late, or changes nothing. */
  ghost predicate BatchInColumns(tasks: map<TaskId, Row>, tasks': map<TaskId, Row>, events: map<TaskId, seq<Event>>,
                                 events': map<TaskId, seq<Event>>, now: Time, batchSize: nat, r: BatchResult) {
    match r
    case Committed(ids, inserted) =>
      && tasks'.Keys == tasks.Keys && ids <= tasks.Keys && |ids| <= batchSize
      && (forall t :: t in ids ==> TimedOut(tasks[t], tasks'[t], LogOf(events, t), LogOf(events', t), now))
      && (forall t :: t in tasks && t !in ids ==> tasks'[t] == tasks[t])
      && (forall t :: t !in ids ==> LogOf(events', t) == LogOf(events, t))
      && (forall t, e :: (t, e) in inserted <==> t in ids && LogOf(events', t) == LogOf(events, t) + [e])
      && (|ids| < batchSize ==> forall t :: t in tasks && IsLate(tasks[t], now) ==> t in ids)
    case CheckViolation =>
      && tasks' == tasks && events' == events
      && exists t :: t in tasks && tasks[t].status == PENDING && IsLate(tasks[t], now)
  }

  /**
   * The job, whose last batch is number `last`.  Each task is untouched or timed out at one of
   * the batches' clocks, with one message for its one event.  A normal end leaves no PENDING or
   * PROCESSING row late at the last clock; with a clock that does not run backwards, the tasks
   * timed out are exactly those late at its last reading.  The job throws exactly if a PENDING
   * row was late by then, and if all late rows fit the first batch of 500 and one is PENDING,
   * it throws with nothing done.
   */
  ghost predicate SweepInColumns(tasks: map<TaskId, Row>, tasks': map<TaskId, Row>, events: map<TaskId, seq<Event>>,
                                 events': map<TaskId, seq<Event>>, sent: set<(TaskId, Event)>, clock: nat -> Time,
                                 last: nat, r: SweepResult) {
    && EachTimedOutOrKept(tasks, tasks', events, events', clock, last)
    && (forall t, e :: (t, e) in sent <==>
          t in tasks && tasks'[t] != tasks[t] && LogOf(events', t) == LogOf(events, t) + [e])
    && (r.Done? ==> NothingLateLeft(tasks, tasks', clock, last, r.total))
    && (r.Threw? <==> exists t :: t in tasks && tasks[t].status == PENDING && IsLate(tasks[t], clock(last)))
    && (|set t | t in tasks && IsLate(tasks[t], clock(0))| <= 500
        && (exists t :: t in tasks && tasks[t].status == PENDING && IsLate(tasks[t], clock(0))) ==>
          r.Threw? && tasks' == tasks && events' == events)
  }

  ghost predicate EachTimedOutOrKept(tasks: map<TaskId, Row>, tasks': map<TaskId, Row>,
                                     events: map<TaskId, seq<Event>>, events': map<TaskId, seq<Event>>,
                                     clock: nat -> Time, last: nat) {
    && tasks'.Keys == tasks.Keys
    && (forall t :: t in tasks ==>
          || (tasks'[t] == tasks[t] && LogOf(events', t) == LogOf(events, t))
          || exists j: nat :: j < last && TimedOut(tasks[t], tasks'[t], LogOf(events, t), LogOf(events', t), clock(j)))
    && (forall t :: t !in tasks ==> LogOf(events', t) == LogOf(events, t))
  }

  ghost predicate NothingLateLeft(tasks: map<TaskId, Row>, tasks': map<TaskId, Row>, clock: nat -> Time, last: nat,
                                  total: nat)
    requires tasks'.Keys == tasks.Keys
  {
    && (forall t :: t in tasks' ==> !IsLate(tasks'[t], clock(last)))
    && total == |set t | t in tasks && tasks'[t] != tasks[t]|
    && (Monotone(clock) ==> forall t :: t in tasks ==> (tasks'[t] != tasks[t] <==> IsLate(tasks[t], clock(last))))
  }

  lemma SweptIsTimedOut(row: Row, row': Row, log: seq<Event>, log': seq<Event>, at: Time)
    ensures Swept(row, row', log, log', at) <==> TimedOut(row, row', log, log', at)
  {
  }

  lemma ExpiredIsLate(tasks: map<TaskId, Row>, now: Time)
    ensures ExpiredIds(tasks, now) == set t | t in tasks && IsLate(tasks[t], now)
    ensures forall t :: t in tasks ==> (t in ExpiredIds(tasks, now) <==> IsLate(tasks[t], now))
    ensures HasPending(tasks, ExpiredIds(tasks, now)) <==>
              exists t :: t in tasks && tasks[t].status == PENDING && IsLate(tasks[t], now)
  {
  }

  lemma AppendedEvent(log: seq<Event>, e: Event, f: Event)
    ensures log + [e] == log + [f] <==> e == f
  {
    assert (log + [e])[|log|] == e && (log + [f])[|log|] == f;
  }

  lemma BatchEffectInColumns(tasks: map<TaskId, Row>, tasks': map<TaskId, Row>, events: map<TaskId, seq<Event>>,
                             events': map<TaskId, seq<Event>>, now: Time, batchSize: nat, r: BatchResult)
    requires BatchEffect(tasks, tasks', events, events', now, batchSize, r)
    ensures BatchInColumns(tasks, tasks', events, events', now, batchSize, r)
  {
    ExpiredIsLate(tasks, now);
    if r.Committed? {
      FailAllInColumns(tasks, events, now, r.ids);
      forall t, e ensures (t, e) in r.events <==> t in r.ids && LogOf(events', t) == LogOf(events, t) + [e] {
        AppendedEvent(LogOf(events, t), TimeoutEvent(LogOf(events, t)), e);
      }
    }
  }

  lemma FailAllInColumns(tasks: map<TaskId, Row>, events: map<TaskId, seq<Event>>, now: Time, ids: set<TaskId>)
    requires ids <= ExpiredIds(tasks, now) && !HasPending(tasks, ids)
    ensures FailAll(tasks, ids, now).Keys == tasks.Keys
    ensures forall t :: t in ids ==>
              TimedOut(tasks[t], FailAll(tasks, ids, now)[t], LogOf(events, t), LogOf(LogAll(events, ids), t), now)
    ensures forall t :: t in tasks && t !in ids ==> FailAll(tasks, ids, now)[t] == tasks[t]
    ensures forall t :: t !in ids ==> LogOf(LogAll(events, ids), t) == LogOf(events, t)
  {
  }

  lemma OutcomeInColumns(row: Row, row': Row, log: seq<Event>, log': seq<Event>, clock: nat -> Time, k: nat)
    requires Outcome(row, row', log, log', clock, k)
    ensures (row' == row && log' == log) || exists j: nat :: j < k && TimedOut(row, row', log, log', clock(j))
  {
    if !(row' == row && log' == log) {
      var j: nat :| j < k && Swept(row, row', log, log', clock(j));
      SweptIsTimedOut(row, row', log, log', clock(j));
    }
  }

  lemma NoticesInColumns(tasks: map<TaskId, Row>, tasks': map<TaskId, Row>, events: map<TaskId, seq<Event>>,
                         events': map<TaskId, seq<Event>>, clock: nat -> Time, last: nat)
    requires SweptSoFar(tasks, tasks', events, events', clock, last)
    ensures forall t, e :: (t, e) in Notices(Changed(tasks, tasks'), events) <==>
              t in tasks && tasks'[t] != tasks[t] && LogOf(events', t) == LogOf(events, t) + [e]
  {
    forall t, e
      ensures (t, e) in Notices(Changed(tasks, tasks'), events) <==>
                t in tasks && tasks'[t] != tasks[t] && LogOf(events', t) == LogOf(events, t) + [e]
    {
      if t in tasks && tasks'[t] != tasks[t] {
        SweptIsFinal(tasks[t], tasks'[t], LogOf(events, t), LogOf(events', t), clock, last);
        AppendedEvent(LogOf(events, t), TimeoutEvent(LogOf(events, t)), e);
      }
    }
  }

  lemma TasksInColumns(tasks: map<TaskId, Row>, tasks': map<TaskId, Row>, events: map<TaskId, seq<Event>>,
                       events': map<TaskId, seq<Event>>, clock: nat -> Time, last: nat)
    requires SweptSoFar(tasks, tasks', events, events', clock, last)
    ensures EachTimedOutOrKept(tasks, tasks', events, events', clock, last)
  {
    forall t | t in tasks
      ensures (tasks'[t] == tasks[t] && LogOf(events', t) == LogOf(events, t)) ||
              exists j: nat :: j < last && TimedOut(tasks[t], tasks'[t], LogOf(events, t), LogOf(events', t), clock(j))
    {
      OutcomeInColumns(tasks[t], tasks'[t], LogOf(events, t), LogOf(events', t), clock, last);
    }
  }

  lemma EndInColumns(tasks: map<TaskId, Row>, tasks': map<TaskId, Row>, clock: nat -> Time, last: nat)
    requires tasks'.Keys == tasks.Keys && ExpiredIds(tasks', clock(last)) == {}
    requires Monotone(clock) ==> Changed(tasks, tasks') == ExpiredIds(tasks, clock(last))
    ensures NothingLateLeft(tasks, tasks', clock, last, |Changed(tasks, tasks')|)
  {
    ExpiredIsLate(tasks, clock(last));
    ExpiredIsLate(tasks', clock(last));
    assert Changed(tasks, tasks') == set t | t in tasks && tasks'[t] != tasks[t];
    if Monotone(clock) {
      forall t | t in tasks ensures tasks'[t] != tasks[t] <==> IsLate(tasks[t], clock(last)) {
        assert t in Changed(tasks, tasks') <==> t in ExpiredIds(tasks, clock(last));
      }
    }
  }

  lemma SweepOutcomeInColumns(tasks: map<TaskId, Row>, tasks': map<TaskId, Row>, events: map<TaskId, seq<Event>>,
                              events': map<TaskId, seq<Event>>, sent: set<(TaskId, Event)>, clock: nat -> Time,
                              last: nat, r: SweepResult)
    requires SweepOutcome(tasks, tasks', events, events', sent, clock, last, r)
    ensures SweepInColumns(tasks, tasks', events, events', sent, clock, last, r)
  {
    TasksInColumns(tasks, tasks', events, events', clock, last);
    NoticesInColumns(tasks, tasks', events, events', clock, last);
    ExpiredIsLate(tasks, clock(0));
    ExpiredIsLate(tasks, clock(last));
    if r.Done? {
      EndInColumns(tasks, tasks', clock, last);
    }
  }

  class TimeoutSweeper {
    const db: Database
    // What the job publishes; a publish that Redis refuses is logged and not repeated.
    var published: set<(TaskId, Event)>

    constructor (db: Database)
      ensures this.db == db && published == {}
    {
      this.db := db;
      published := {};
    }

    /** One transaction; a row the CHECK rejects throws and rolls all of it back. */
    method ExpireTimedOutTasksBatch(now: Time, batchSize: nat) returns (r: BatchResult)
      requires TableValid(db.tasks)
      modifies db
      ensures TableValid(db.tasks)
      ensures BatchEffect(old(db.tasks), db.tasks, old(db.events), db.events, now, batchSize, r)
      ensures BatchInColumns(old(db.tasks), db.tasks, old(db.events), db.events, now, batchSize, r)
    {
      ghost var tasks, events := db.tasks, db.events;
      var eligible := ExpiredIds(db.tasks, now);
      var batch := SelectLimit(eligible, batchSize);
      CheckRejectsPending(db.tasks, batch, now);
      if exists t :: t in batch && !ValidStateData(Timeout(db.tasks[t], now)) {
        BatchEffectInColumns(tasks, tasks, events, events, now, batchSize, CheckViolation);
        return CheckViolation;
      }
      var inserted := Notices(batch, db.events);
      db.tasks := FailAll(db.tasks, batch, now);
      db.events := LogAll(db.events, batch);
      r := Committed(batch, inserted);
      BatchEffectInColumns(tasks, db.tasks, events, db.events, now, batchSize, r);
    }

    /** The sweep job: batches until one expires nothing; `clock(k)` is what `new Date()` returns in batch k. */
    method Process(clock: nat -> Time) returns (r: SweepResult, ghost last: nat, ghost sent: set<(TaskId, Event)>)
      requires TableValid(db.tasks)
      modifies this`published, db
      ensures TableValid(db.tasks)
      ensures SweepInColumns(old(db.tasks), db.tasks, old(db.events), db.events, sent, clock, last, r)
      ensures published == old(published) + sent
    {
      // The loop uses these only as wholes, through SweepTurn.
      hide BatchEffect, BatchInColumns, SweptSoFar, SweepInColumns, Changed, Notices;
      ghost var tasks, events := db.tasks, db.events;
      var totalExpired: nat := 0;
      var k: nat := 0;
      sent := {};
      SweepStarts(tasks, events, clock);
      while true
        invariant SweepState(tasks, db.tasks, events, db.events, clock, k, totalExpired)
        invariant sent == Notices(Changed(tasks, db.tasks), events) && published == old(published) + sent
        decreases |InFlightIds(db.tasks)|
      {
        ghost var tasks1, events1 := db.tasks, db.events;
        var result := ExpireTimedOutTasksBatch(clock(k), P.SWEEP_BATCH_SIZE);
        SweepTurn(tasks, tasks1, db.tasks, events, events1, db.events, sent, clock, k, totalExpired, result);
        if result.CheckViolation? {
          SweepOutcomeInColumns(tasks, db.tasks, events, db.events, sent, clock, k, Threw);
          return Threw, k, sent;
        }
        if |result.ids| == 0 {
          SweepOutcomeInColumns(tasks, db.tasks, events, db.events, sent, clock, k, Done(totalExpired));
          return Done(totalExpired), k, sent;
        }
        totalExpired := totalExpired + |result.ids|;
        published := published + result.events;
        sent := sent + result.events;
        k := k + 1;
      }
    }
  }

  // ---- Data retention ----------------------------------------------------------------------

  /** Terminal tasks created before the cutoff. */
  function OldIds(tasks: map<TaskId, Row>, cutoff: Time): set<TaskId> {
    set t | t in tasks && !InFlight(tasks[t]) && tasks[t].createdAt < cutoff
  }

  /** The event rows of a set of tasks, as (task, position) pairs, so that their number can be counted. */
  function EventsOf(events: map<TaskId, seq<Event>>, ids: set<TaskId>): set<(TaskId, nat)> {
    set t, i: nat | t in ids && 0 <= i < |LogOf(events, t)| :: (t, i)
  }

  lemma EventsOfUnion(events: map<TaskId, seq<Event>>, a: set<TaskId>, b: set<TaskId>)
    requires a !! b
    ensures |EventsOf(events, a + b)| == |EventsOf(events, a)| + |EventsOf(events, b)|
  {
    assert EventsOf(events, a + b) == EventsOf(events, a) + EventsOf(events, b);
    assert EventsOf(events, a) !! EventsOf(events, b);
  }

  lemma EventsOfRest(events: map<TaskId, seq<Event>>, gone: set<TaskId>, ids: set<TaskId>)
    requires gone !! ids
    ensures EventsOf(events - gone, ids) == EventsOf(events, ids)
  {
    assert forall t :: t in ids ==> LogOf(events - gone, t) == LogOf(events, t);
  }

  /** The loop invariant of the delete: the tasks `gone` are deleted, and counted with their events. */
  ghost predicate DeleteState(tasks: map<TaskId, Row>, tasks': map<TaskId, Row>, events: map<TaskId, seq<Event>>,
                              events': map<TaskId, seq<Event>>, cutoff: Time, gone: set<TaskId>, nEvents: nat,
                              nTasks: nat) {
    && gone <= OldIds(tasks, cutoff)
    && tasks' == tasks - gone && events' == events - gone
    && nTasks == |gone| && nEvents == |EventsOf(events, gone)|
  }

  lemma BatchDeletes(tasks: map<TaskId, Row>, tasks': map<TaskId, Row>, events: map<TaskId, seq<Event>>,
                     events': map<TaskId, seq<Event>>, cutoff: Time, gone: set<TaskId>, nEvents: nat, nTasks: nat,
                     batch: set<TaskId>)
    requires DeleteState(tasks, tasks', events, events', cutoff, gone, nEvents, nTasks) &&
             batch <= OldIds(tasks', cutoff)
    ensures DeleteState(tasks, tasks' - batch, events, events' - batch, cutoff, gone + batch,
                        nEvents + |EventsOf(events', batch)|, nTasks + |batch|)
  {
    EventsOfUnion(events, gone, batch);
    EventsOfRest(events, gone, batch);
    assert (tasks - gone) - batch == tasks - (gone + batch);
    assert (events - gone) - batch == events - (gone + batch);
  }

  lemma BatchShrinksOld(tasks: map<TaskId, Row>, cutoff: Time, batch: set<TaskId>)
    requires batch <= OldIds(tasks, cutoff)
    ensures OldIds(tasks - batch, cutoff) == OldIds(tasks, cutoff) - batch
    ensures |OldIds(tasks - batch, cutoff)| == |OldIds(tasks, cutoff)| - |batch|
  {
    assert OldIds(tasks, cutoff) == OldIds(tasks - batch, cutoff) + batch;
  }

  /** When nothing old is left, what is gone is exactly what was old. */
  lemma AllOldGone(tasks: map<TaskId, Row>, tasks': map<TaskId, Row>, events: map<TaskId, seq<Event>>,
                   events': map<TaskId, seq<Event>>, cutoff: Time, gone: set<TaskId>, nEvents: nat, nTasks: nat)
    requires DeleteState(tasks, tasks', events, events', cutoff, gone, nEvents, nTasks) && OldIds(tasks', cutoff) == {}
    ensures gone == OldIds(tasks, cutoff)
  {
    forall t | t in OldIds(tasks, cutoff) ensures t in gone {
      assert t !in OldIds(tasks', cutoff);
    }
  }

  lemma GoneInColumns(tasks: map<TaskId, Row>, events: map<TaskId, seq<Event>>, cutoff: Time)
    ensures var gone := OldIds(tasks, cutoff);
            && tasks.Keys - (tasks - gone).Keys == gone
            && EventsOf(events, gone) == (set t: TaskId, i: nat | t in gone && i < |LogOf(events, t)| :: (t, i))
            && (forall t :: t in tasks ==>
                  (t in tasks - gone <==>
                     tasks[t].status == PENDING || tasks[t].status == PROCESSING || tasks[t].createdAt >= cutoff))
            && (forall t :: t !in gone ==> LogOf(events - gone, t) == LogOf(events, t))
  {
  }

  class DataRetention {
    const db: Database

    constructor (db: Database)
      ensures this.db == db
    {
      this.db := db;
    }

    /**
     * The batched delete removes exactly the terminal tasks older than the cutoff, with all
     * their events, and reports how many rows of each table that were.
     */
    method DeleteOldData(cutoff: Time) returns (deletedEvents: nat, deletedTasks: nat)
      modifies db
      ensures forall t :: t in old(db.tasks) ==>
                var row := old(db.tasks)[t];
                t in db.tasks <==> row.status == PENDING || row.status == PROCESSING || row.createdAt >= cutoff
      ensures forall t :: t in db.tasks ==> t in old(db.tasks) && db.tasks[t] == old(db.tasks)[t]
      ensures forall t :: t in old(db.tasks) && t !in db.tasks ==> t !in db.events
      ensures forall t :: t !in old(db.tasks) || t in db.tasks ==> LogOf(db.events, t) == LogOf(old(db.events), t)
      ensures deletedTasks == |old(db.tasks).Keys - db.tasks.Keys|
      ensures deletedEvents == |set t: TaskId, i: nat |
                t in old(db.tasks).Keys - db.tasks.Keys && i < |LogOf(old(db.events), t)| :: (t, i)|
    {
      ghost var tasks, events := db.tasks, db.events;
      ghost var gone: set<TaskId> := {};
      deletedEvents, deletedTasks := 0, 0;
      var more := true;
      while more
        invariant DeleteState(tasks, db.tasks, events, db.events, cutoff, gone, deletedEvents, deletedTasks)
        invariant !more ==> OldIds(db.tasks, cutoff) == {}
        decreases |OldIds(db.tasks, cutoff)|, more
      {
        var batch := SelectLimit(OldIds(db.tasks, cutoff), P.RETENTION_DELETE_BATCH_SIZE);
        if |batch| == 0 {
          assert |OldIds(db.tasks, cutoff)| == 0;
          break;
        }
        BatchDeletes(tasks, db.tasks, events, db.events, cutoff, gone, deletedEvents, deletedTasks, batch);
        BatchShrinksOld(db.tasks, cutoff, batch);
        deletedEvents := deletedEvents + |EventsOf(db.events, batch)|;
        deletedTasks := deletedTasks + |batch|;
        gone := gone + batch;
        db.events := db.events - batch;
        db.tasks := db.tasks - batch;
        more := |batch| >= P.RETENTION_DELETE_BATCH_SIZE;
      }
      AllOldGone(tasks, db.tasks, events, db.events, cutoff, gone, deletedEvents, deletedTasks);
      GoneInColumns(tasks, events, cutoff);
    }
  }
}
