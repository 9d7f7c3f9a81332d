/**
 * The streams of a running system are connections in the sense of `SseRefinement`: what a stream
 * has emitted at any moment of any run is measured against the log of that moment.
 */
module StreamRefinement {
  import opened Wrappers
  import opened Collections
  import opened Schema
  import opened Sse
  import opened SseRefinement
  import opened Lifecycle
  import opened LifecycleTheorems

  ghost predicate NoHistory(inputs: seq<Input>) {
    forall i :: 0 <= i < |inputs| ==> !inputs[i].OnHistory?
  }

  /** A stream's connection is the outcome of `inputs`, its snapshot the log's first n events. */
  ghost predicate Explains(inputs: seq<Input>, n: nat, s: Stream, log: seq<Event>) {
    && n <= |log| && ValidRun(Fresh(s.afterSeq), inputs, log, s.afterSeq, n)
    && s.conn == Feed(Fresh(s.afterSeq), inputs)
    && (s.snapshot.None? ==> NoHistory(inputs))
    && (s.snapshot.Some? ==> s.snapshot.value == FindEventsSince(log[..n], s.afterSeq))
  }

  lemma {:induction false} ValidRunAppend(c: Conn, inputs: seq<Input>, input: Input, log: seq<Event>, afterSeq: nat,
                                          n: nat)
    requires n <= |log| && ValidRun(c, inputs, log, afterSeq, n)
    requires ValidInput(Feed(c, inputs), input, log, afterSeq, n)
    ensures ValidRun(c, inputs + [input], log, afterSeq, n)
    ensures Feed(c, inputs + [input]) == StepConn(Feed(c, inputs), input)
    decreases |inputs|
  {
    if inputs == [] {
      assert inputs + [input] == [input];
      assert [input][1..] == [];
    } else {
      assert (inputs + [input])[1..] == inputs[1..] + [input];
      ValidRunAppend(StepConn(c, inputs[0]), inputs[1..], input, log, afterSeq, n);
    }
  }

  /** A longer log keeps a run valid. */
  lemma {:induction false} ValidRunGrows(c: Conn, inputs: seq<Input>, log: seq<Event>, log': seq<Event>, afterSeq: nat,
                                         n: nat)
    requires n <= |log| && log <= log' && ValidRun(c, inputs, log, afterSeq, n)
    ensures ValidRun(c, inputs, log', afterSeq, n)
    decreases |inputs|
  {
    assert log'[..n] == log[..n];
    if inputs != [] {
      ValidRunGrows(StepConn(c, inputs[0]), inputs[1..], log, log', afterSeq, n);
    }
  }

  /** Before the query is answered the snapshot is of no consequence. */
  lemma {:induction false} ValidRunAnySnapshot(c: Conn, inputs: seq<Input>, log: seq<Event>, afterSeq: nat,
                                               n: nat, n': nat)
    requires n <= |log| && n' <= |log| && ValidRun(c, inputs, log, afterSeq, n) && NoHistory(inputs)
    ensures ValidRun(c, inputs, log, afterSeq, n')
    decreases |inputs|
  {
    if inputs != [] {
      ValidRunAnySnapshot(StepConn(c, inputs[0]), inputs[1..], log, afterSeq, n, n');
    }
  }

  lemma ExplainsGrows(inputs: seq<Input>, n: nat, s: Stream, log: seq<Event>, log': seq<Event>)
    requires Explains(inputs, n, s, log) && log <= log'
    ensures Explains(inputs, n, s, log')
  {
    ValidRunGrows(Fresh(s.afterSeq), inputs, log, log', s.afterSeq, n);
    assert log'[..n] == log[..n];
  }

  lemma CallbackIsExplained(c: Cell, k: StreamId, input: Input, inputs: seq<Input>, n: nat)
    requires Inv(c) && c.row.Some? && Enabled(c, Callback(k, input)) && Explains(inputs, n, c.streams[k], c.log)
    ensures Explains(inputs + [input], n, Step(c, Callback(k, input)).streams[k], c.log)
  {
    var s := c.streams[k];
    assert StreamInv(s, c.ever);
    assert ValidInput(s.conn, input, c.log, s.afterSeq, n);
    ValidRunAppend(Fresh(s.afterSeq), inputs, input, c.log, s.afterSeq, n);
  }

  lemma QueryIsExplained(c: Cell, k: StreamId, inputs: seq<Input>, n: nat)
    requires Enabled(c, QueryHistory(k)) && Explains(inputs, n, c.streams[k], c.log)
    ensures Explains(inputs, |c.log|, Step(c, QueryHistory(k)).streams[k], c.log)
  {
    var s := c.streams[k];
    ValidRunAnySnapshot(Fresh(s.afterSeq), inputs, c.log, s.afterSeq, n, |c.log|);
    assert c.log[..|c.log|] == c.log;
  }

  /** One step of the task: only its own actions change a stream. */
  lemma StepIsExplained(c: Cell, a: Action, k: StreamId, inputs: seq<Input>, n: nat)
    returns (inputs': seq<Input>, n': nat)
    requires Inv(c) && Enabled(c, a) && c.row.Some? && Step(c, a).row.Some? && k in Step(c, a).streams
    requires k in c.streams ==> Explains(inputs, n, c.streams[k], c.log)
    ensures Explains(inputs', n', Step(c, a).streams[k], c.log)
  {
    hide Explains, Inv, Enabled, Step;
    inputs', n' := inputs, n;
    if k !in c.streams {
      OnlyOpened(c, a, k);
      inputs', n' := [], 0;
    } else if a.QueryHistory? && a.i == k {
      QueryIsExplained(c, k, inputs, n);
      n' := |c.log|;
    } else if a.Callback? && a.i == k {
      CallbackIsExplained(c, k, a.input, inputs, n);
      inputs' := inputs + [a.input];
    } else {
      Untouched(c, a, k);
    }
  }

  lemma OnlyOpened(c: Cell, a: Action, k: StreamId)
    requires Enabled(c, a) && k !in c.streams && k in Step(c, a).streams
    ensures Explains([], 0, Step(c, a).streams[k], c.log)
  {
    assert a.OpenStream? && a.i == k;
  }

  lemma Untouched(c: Cell, a: Action, k: StreamId)
    requires Enabled(c, a) && k in c.streams && !((a.QueryHistory? || a.Callback?) && a.i == k)
    ensures k in Step(c, a).streams && Step(c, a).streams[k] == c.streams[k]
  {
  }

  /** Every stream of a live task, at any moment of a run, is a valid connection to its log. */
  lemma {:induction false} StreamIsConnection(b: seq<Cell>, j: nat, k: StreamId) returns (inputs: seq<Input>, n: nat)
    requires Behavior(b) && j < |b| && b[j].row.Some? && k in b[j].streams
    ensures Explains(inputs, n, b[j].streams[k], b[j].log)
  {
    inputs, n := [], 0;
    if j > 0 {
      LogGrows(b, j - 1, j);
      BehaviorInv(b, j - 1);
      assert Next(b[j - 1], b[j - 1 + 1]);
      if k in b[j - 1].streams {
        inputs, n := StreamIsConnection(b, j - 1, k);
      }
      if b[j] != b[j - 1] {
        var a :| Enabled(b[j - 1], a) && b[j] == Step(b[j - 1], a);
        inputs, n := StepIsExplained(b[j - 1], a, k, inputs, n);
      }
      ExplainsGrows(inputs, n, b[j].streams[k], b[j - 1].log, b[j].log);
    }
  }

  /**
   * SSE refinement in the running system: at every moment of every run, what a stream of a live
   * task has emitted is a gap-free slice of the task's log, cut at the first terminal event, if
   * and only if the events it has heard came in time; and if it has completed, it is all of it.
   */
  lemma StreamGapFreeIff(b: seq<Cell>, j: nat, k: StreamId) returns (inputs: seq<Input>, n: nat)
    requires Behavior(b) && j < |b| && b[j].row.Some? && k in b[j].streams
    ensures
      var s := b[j].streams[k];
      && Explains(inputs, n, s, b[j].log)
      && (s.conn.out <= Spec(b[j].log, s.afterSeq) <==> LiveInTime(inputs, s.afterSeq, n))
      && (LiveInTime(inputs, s.afterSeq, n) && s.conn.end.Completed? ==> s.conn.out == Spec(b[j].log, s.afterSeq))
  {
    inputs, n := StreamIsConnection(b, j, k);
    SequenceContiguity(b, j);
    GapFreeIff(inputs, b[j].log, b[j].streams[k].afterSeq, n);
    if LiveInTime(inputs, b[j].streams[k].afterSeq, n) {
      ConnectionRefines(inputs, b[j].log, b[j].streams[k].afterSeq, n);
    }
  }
}
