/**
 * What a client reads over any number of connections, each one broken at any point and resumed
 * with the id last seen.
 */
module SseSessions {
  import opened Wrappers
  import opened Collections
  import opened Schema
  import opened Sse
  import opened SseRefinement

  /**
   * One connection of a client: all its callbacks, how much of the log its history query saw,
   * and how many of the events the server emitted reached the client.
   */
  datatype Attempt = Attempt(inputs: seq<Input>, snapshot: nat, delivered: nat)

  function Connect(a: Attempt, afterSeq: nat): Conn {
    Feed(Fresh(afterSeq), a.inputs)
  }

  /** Last-Event-ID: the id of the last event received, or the one the connection started with. */
  function LastEventId(out: seq<Event>, afterSeq: nat): nat {
    if out == [] then afterSeq else out[|out| - 1].num
  }

  /** What reaches the client of one connection, which may break in the middle of a replay. */
  function Seen(a: Attempt, out: seq<Event>): seq<Event> {
    if a.delivered < |out| then out[..a.delivered] else out
  }

  /** The client has seen the stream complete, and so does not reconnect. */
  predicate Finished(a: Attempt, afterSeq: nat) {
    var c := Connect(a, afterSeq);
    c.end.Completed? && Seen(a, c.out) == c.out
  }

  /** The id the client resumes with. */
  function Resume(a: Attempt, afterSeq: nat): nat {
    LastEventId(Seen(a, Connect(a, afterSeq).out), afterSeq)
  }

  /** All a client reads: it reconnects with the last id it has seen until it has seen a stream complete. */
  function Session(attempts: seq<Attempt>, afterSeq: nat): seq<Event>
    decreases |attempts|
  {
    if attempts == [] then []
    else
      var seen := Seen(attempts[0], Connect(attempts[0], afterSeq).out);
      if Finished(attempts[0], afterSeq) then seen
      else seen + Session(attempts[1..], Resume(attempts[0], afterSeq))
  }

  ghost predicate ValidAttempt(a: Attempt, log: seq<Event>, afterSeq: nat) {
    a.snapshot <= |log| && ValidRun(Fresh(afterSeq), a.inputs, log, afterSeq, a.snapshot)
  }

  /** Every connection of the session is a valid one, and its live events come in time. */
  ghost predicate InTimeThroughout(attempts: seq<Attempt>, log: seq<Event>, afterSeq: nat)
    decreases |attempts|
  {
    attempts == [] ||
    (&& ValidAttempt(attempts[0], log, afterSeq)
     && LiveInTime(attempts[0].inputs, afterSeq, attempts[0].snapshot)
     && (!Finished(attempts[0], afterSeq) ==>
           InTimeThroughout(attempts[1..], log, Resume(attempts[0], afterSeq))))
  }

  /** A prefix of the specification is a slice of the log, and its last id says where it stops. */
  lemma PrefixIsSlice(log: seq<Event>, afterSeq: nat, read: seq<Event>)
    requires Contiguous(log) && read <= Spec(log, afterSeq) && read != []
    ensures afterSeq + |read| <= |log|
    ensures read == log[afterSeq..afterSeq + |read|]
    ensures LastEventId(read, afterSeq) == afterSeq + |read|
  {
    SpecShape(log, afterSeq);
    assert read[|read| - 1] == log[afterSeq + |read| - 1];
  }

  /** Reading on from the last id of a prefix of the specification yields the rest of it. */
  lemma SpecResumes(log: seq<Event>, afterSeq: nat, read: seq<Event>)
    requires Contiguous(log) && read <= Spec(log, afterSeq) && NoTerminal(read)
    ensures Spec(log, afterSeq) == read + Spec(log, LastEventId(read, afterSeq))
    ensures LastEventId(read, afterSeq) == afterSeq + |read|
  {
    if read == [] {
      assert read + Spec(log, afterSeq) == Spec(log, afterSeq);
    } else {
      var k := afterSeq + |read|;
      PrefixIsSlice(log, afterSeq, read);
      calc {
        Spec(log, afterSeq);
        { SplitAt(log, afterSeq, k); }
        UpToTerminal(read + log[k..]);
        { UpToTerminalConcat(read, log[k..]); }
        read + UpToTerminal(log[k..]);
        read + Spec(log, k);
      }
    }
  }

  /**
   * Until a client has seen its stream complete, it has seen no terminal event, and only a
   * prefix of what it should.
   */
  lemma UnfinishedReading(a: Attempt, log: seq<Event>, afterSeq: nat)
    requires Contiguous(log) && ValidAttempt(a, log, afterSeq) && LiveInTime(a.inputs, afterSeq, a.snapshot)
    ensures
      var seen := Seen(a, Connect(a, afterSeq).out);
      && seen <= Spec(log, afterSeq) && (!Finished(a, afterSeq) ==> NoTerminal(seen))
      && (Finished(a, afterSeq) ==> seen == Spec(log, afterSeq))
  {
    GapFreeIff(a.inputs, log, afterSeq, a.snapshot);
    ConnectionRefines(a.inputs, log, afterSeq, a.snapshot);
    SpecShape(log, afterSeq);
  }

  /**
   * SSE refinement across reconnects: for any sequence of connections whose live events come in
   * time, broken at any point, the concatenation of everything received is a prefix of the
   * specification - no gap, no duplicate, nothing past the first terminal event.
   */
  lemma {:induction false} SessionRefines(attempts: seq<Attempt>, log: seq<Event>, afterSeq: nat)
    requires Contiguous(log) && InTimeThroughout(attempts, log, afterSeq)
    ensures Session(attempts, afterSeq) <= Spec(log, afterSeq)
    decreases |attempts|
  {
    if attempts != [] {
      UnfinishedReading(attempts[0], log, afterSeq);
      if !Finished(attempts[0], afterSeq) {
        SpecResumes(log, afterSeq, Seen(attempts[0], Connect(attempts[0], afterSeq).out));
        SessionRefines(attempts[1..], log, Resume(attempts[0], afterSeq));
      }
    }
  }

  /** A session of which nothing is known but that all its connections are valid and deliver what they emit. */
  ghost predicate DeliveredThroughout(attempts: seq<Attempt>, log: seq<Event>, afterSeq: nat)
    decreases |attempts|
  {
    attempts == [] ||
    (&& ValidAttempt(attempts[0], log, afterSeq)
     && |Connect(attempts[0], afterSeq).out| <= attempts[0].delivered
     && (!Finished(attempts[0], afterSeq) ==>
           DeliveredThroughout(attempts[1..], log, Resume(attempts[0], afterSeq))))
  }

  /** For those the condition is exact: one live event out of time on any connection is a gap for good. */
  lemma {:induction false} SessionGapFreeIff(attempts: seq<Attempt>, log: seq<Event>, afterSeq: nat)
    requires Contiguous(log) && DeliveredThroughout(attempts, log, afterSeq)
    ensures Session(attempts, afterSeq) <= Spec(log, afterSeq) <==> InTimeThroughout(attempts, log, afterSeq)
    decreases |attempts|
  {
    if attempts != [] {
      var a := attempts[0];
      var seen := Seen(a, Connect(a, afterSeq).out);
      GapFreeIff(a.inputs, log, afterSeq, a.snapshot);
      assert seen <= Session(attempts, afterSeq);
      if LiveInTime(a.inputs, afterSeq, a.snapshot) && !Finished(a, afterSeq) {
        UnfinishedReading(a, log, afterSeq);
        SpecResumes(log, afterSeq, seen);
        SessionGapFreeIff(attempts[1..], log, Resume(a, afterSeq));
        PrefixAfter(seen, Session(attempts[1..], Resume(a, afterSeq)), Spec(log, Resume(a, afterSeq)));
      }
    }
  }

  lemma PrefixAfter(xs: seq<Event>, ys: seq<Event>, zs: seq<Event>)
    ensures xs + ys <= xs + zs <==> ys <= zs
  {
    if xs + ys <= xs + zs {
      forall i | 0 <= i < |ys| ensures ys[i] == zs[i] {
        assert (xs + ys)[|xs| + i] == (xs + zs)[|xs| + i];
      }
    }
  }

  /** A connection that got past its history, heard of the end of the log, and delivered all it emitted. */
  ghost predicate ReadsToTheEnd(a: Attempt, log: seq<Event>, afterSeq: nat) {
    && Connect(a, afterSeq).historyLoaded && a.delivered >= |log|
    && Reach(a.snapshot, Heard(Fresh(afterSeq), a.inputs)) == |log|
  }

  /** The session ends with a stream seen to complete, or with a connection that reads to the end of the log. */
  ghost predicate EndsWell(attempts: seq<Attempt>, log: seq<Event>, afterSeq: nat)
    decreases |attempts|
  {
    attempts != [] &&
    (|| Finished(attempts[0], afterSeq)
     || (|attempts| == 1 && ReadsToTheEnd(attempts[0], log, afterSeq))
     || EndsWell(attempts[1..], log, Resume(attempts[0], afterSeq)))
  }

  /** And nothing is missed: such a session has read the whole specification. */
  lemma {:induction false} SessionCompletes(attempts: seq<Attempt>, log: seq<Event>, afterSeq: nat)
    requires Contiguous(log) && InTimeThroughout(attempts, log, afterSeq) && EndsWell(attempts, log, afterSeq)
    ensures Session(attempts, afterSeq) == Spec(log, afterSeq)
    decreases |attempts|
  {
    UnfinishedReading(attempts[0], log, afterSeq);
    if !Finished(attempts[0], afterSeq) {
      var seen := Seen(attempts[0], Connect(attempts[0], afterSeq).out);
      if EndsWell(attempts[1..], log, Resume(attempts[0], afterSeq)) {
        SpecResumes(log, afterSeq, seen);
        SessionCompletes(attempts[1..], log, Resume(attempts[0], afterSeq));
      } else {
        LastConnectionReadsAll(attempts[0], log, afterSeq);
        assert Session(attempts[1..], Resume(attempts[0], afterSeq)) == [];
      }
    }
  }

  lemma LastConnectionReadsAll(a: Attempt, log: seq<Event>, afterSeq: nat)
    requires Contiguous(log) && ValidAttempt(a, log, afterSeq) && LiveInTime(a.inputs, afterSeq, a.snapshot)
    requires ReadsToTheEnd(a, log, afterSeq)
    ensures Seen(a, Connect(a, afterSeq).out) == Spec(log, afterSeq)
  {
    ConnectionRefines(a.inputs, log, afterSeq, a.snapshot);
    assert log[..|log|] == log;
  }
}
