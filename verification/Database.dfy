/**
 * The repositories over the two tables (tasks.repository.ts, events.repository.ts), in place.
 * Each method is one statement or one transaction, run without interference; `Lifecycle` has
 * the same statements interleaved.
 */
module Database {
  import opened Wrappers
  import opened Schema

  function RowOf(tasks: map<TaskId, Row>, id: TaskId): Option<Row> {
    if id in tasks then Some(tasks[id]) else None
  }

  function LogOf(events: map<TaskId, seq<Event>>, id: TaskId): seq<Event> {
    if id in events then events[id] else []
  }

  /** The event that MAX(seq) + 1 assignment appends. */
  function NextEvent(log: seq<Event>, body: EventBody): Event {
    Event(MaxSeq(log) + 1, body)
  }

  /** The unique index on the key: NULLs are not compared, the empty string is a key like any other. */
  predicate KeyInUse(tasks: map<TaskId, Row>, key: Option<string>) {
    key.Some? && exists t :: t in tasks && tasks[t].idempotencyKey == key
  }

  ghost predicate UniqueKeys(tasks: map<TaskId, Row>) {
    forall t, u ::
      && t in tasks && u in tasks
      && tasks[t].idempotencyKey.Some? && tasks[t].idempotencyKey == tasks[u].idempotencyKey ==>
        t == u
  }

  class Database {
    var tasks: map<TaskId, Row>
    var events: map<TaskId, seq<Event>>

    constructor ()
      ensures tasks == map[] && events == map[]
    {
      tasks, events := map[], map[];
    }

    /** INSERT ... RETURNING; false when the unique index rejects it. */
    method Insert(id: TaskId, row: Row) returns (ok: bool)
      requires id !in tasks
      modifies this`tasks
      ensures ok <==> row.idempotencyKey.None? ||
                      forall t :: t in old(tasks) ==> old(tasks)[t].idempotencyKey != row.idempotencyKey
      ensures tasks == if ok then old(tasks)[id := row] else old(tasks)
      ensures UniqueKeys(old(tasks)) ==> UniqueKeys(tasks)
    {
      ok := !KeyInUse(tasks, row.idempotencyKey);
      if ok {
        tasks := tasks[id := row];
      }
    }

    method FindById(id: TaskId) returns (row: Option<Row>)
      ensures row == RowOf(tasks, id)
    {
      row := if id in tasks then Some(tasks[id]) else None;
    }

    method DeleteById(id: TaskId)
      modifies this`tasks
      ensures tasks == old(tasks) - {id}
    {
      tasks := tasks - {id};
    }

    method UpdateProgress(id: TaskId, percent: int)
      modifies this`tasks
      ensures tasks == if id in old(tasks) then old(tasks)[id := old(tasks)[id].(progress := percent)] else old(tasks)
    {
      if id in tasks {
        tasks := tasks[id := tasks[id].(progress := percent)];
      }
    }

    /** UPDATE ... WHERE id AND status IN from RETURNING; a failed CHECK throws and changes nothing. */
    method UpdateStatus(id: TaskId, from: set<Status>, change: Change) returns (r: UpdateResult)
      modifies this`tasks
      ensures r == ConditionalUpdate(RowOf(old(tasks), id), from, change)
      ensures r.NoMatch? <==> id !in old(tasks) || old(tasks)[id].status !in from
      ensures tasks == if r.Updated? then old(tasks)[id := r.row] else old(tasks)
    {
      if id !in tasks || tasks[id].status !in from {
        return NoMatch;
      }
      var row := SetColumns(tasks[id], change);
      if !ValidStateData(row) {
        return CheckFailed;
      }
      tasks := tasks[id := row];
      return Updated(row);
    }

    method InsertEvent(id: TaskId, body: EventBody) returns (e: Event)
      modifies this`events
      ensures e == Event(MaxSeq(LogOf(old(events), id)) + 1, body) && !SeqTaken(LogOf(old(events), id), e.num)
      ensures events == old(events)[id := LogOf(old(events), id) + [e]]
    {
      var log := if id in events then events[id] else [];
      e := Event(MaxSeq(log) + 1, body);
      events := events[id := log + [e]];
    }

    /** The status change and its event commit together or not at all. */
    method CancelTask(id: TaskId, now: Time) returns (r: Option<Event>)
      modifies this
      ensures var inFlight := id in old(tasks) &&
                              (old(tasks)[id].status == PENDING || old(tasks)[id].status == PROCESSING);
              var e := Event(MaxSeq(LogOf(old(events), id)) + 1, Cancelled);
              if inFlight then
                && r == Some(e)
                && tasks == old(tasks)[id := old(tasks)[id].(status := CANCELLED, completedAt := Some(now))]
                && events == old(events)[id := LogOf(old(events), id) + [e]]
              else r == None && tasks == old(tasks) && events == old(events)
    {
      var u := UpdateStatus(id, IN_FLIGHT, ToCancelled(now));
      if !u.Updated? {
        return None;
      }
      var e := InsertEvent(id, Cancelled);
      return Some(e);
    }

    method SelectEventsSince(id: TaskId, afterSeq: nat) returns (rows: seq<Event>)
      ensures rows == FindEventsSince(LogOf(events, id), afterSeq)
    {
      var log := if id in events then events[id] else [];
      rows := FindEventsSince(log, afterSeq);
    }
  }
}
