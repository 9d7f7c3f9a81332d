/**
 * SseService.stream over the two tables: the lookup, the new connection, and the history query
 * that feeds it.
 */
module SseService {
  import opened Wrappers
  import opened Collections
  import opened Schema
  import opened Database
  import opened Sse
  import opened SseRefinement

  class SseService {
    const db: Database

    constructor (db: Database)
      ensures this.db == db
    {
      this.db := db;
    }

    /** A stream on a task that does not exist is refused; otherwise its connection has emitted nothing yet. */
    method Open(id: TaskId, afterSeq: nat) returns (conn: SseConnection?)
      ensures conn == null <==> id !in db.tasks
      ensures conn != null ==> fresh(conn) && conn.State() == Fresh(afterSeq)
    {
      var task := db.FindById(id);
      if task.None? {
        return null;
      }
      conn := new SseConnection(afterSeq);
    }

    /**
     * The history query and its callback.  On a connection that has heard nothing yet they
     * deliver the whole specification, and complete it exactly if it holds a terminal event.
     */
    method LoadHistory(conn: SseConnection, id: TaskId, afterSeq: nat)
      modifies conn
      ensures var rows := FindEventsSince(LogOf(db.events, id), afterSeq);
              conn.State() == StepConn(old(conn.State()), OnHistory(rows))
      ensures var log := LogOf(db.events, id);
              Contiguous(log) && old(conn.State()) == Fresh(afterSeq) ==>
                && conn.out == Spec(log, afterSeq)
                && (conn.end.Completed? <==> !NoTerminal(Spec(log, afterSeq)))
    {
      var rows := db.SelectEventsSince(id, afterSeq);
      ghost var before := conn.State();
      conn.HandleHistory(rows);
      if Contiguous(LogOf(db.events, id)) && before == Fresh(afterSeq) {
        HistoryIsSpec(LogOf(db.events, id), afterSeq);
      }
    }
  }

  lemma HistoryIsSpec(log: seq<Event>, afterSeq: nat)
    requires Contiguous(log)
    ensures
      var c := StepConn(Fresh(afterSeq), OnHistory(FindEventsSince(log, afterSeq)));
      c.out == Spec(log, afterSeq) && (c.end.Completed? <==> !NoTerminal(c.out))
  {
    var start := Fresh(afterSeq);
    assert log[..|log|] == log;
    SnapshotRows(log, |log|, afterSeq);
    ReplayOfRows(start, log, |log|, afterSeq);
    TracksMeansSpec(Replay(start, Rows(log, |log|, afterSeq)), log, afterSeq, |log|);
  }
}
