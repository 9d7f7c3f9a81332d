/**
 * SSE refinement: what a client reads, over any number of connections, is the event log after
 * its first id, cut at the first terminal event - exactly as long as each live event that gets
 * through finds its predecessors already there.
 *
 * Nothing is assumed about the channel: messages are any events of the log, in any order, lost
 * or repeated.  `log` is the final log of a task; because it only grows, every earlier state of
 * it is a prefix, and a position in it describes the snapshot a history query saw.
 */
module SseRefinement {
  import opened Wrappers
  import opened Schema
  import opened Sse
  import opened Collections

  /** The simple specification: read on and stop after the first terminal event. */
  function UpToTerminal(events: seq<Event>): (r: seq<Event>)
    ensures r <= events
    decreases |events|
  {
    if events == [] then []
    else if IsTerminal(events[0]) then [events[0]]
    else [events[0]] + UpToTerminal(events[1..])
  }

  function Spec(log: seq<Event>, afterSeq: nat): seq<Event> {
    if afterSeq <= |log| then UpToTerminal(log[afterSeq..]) else []
  }

  lemma {:induction false} UpToTerminalNone(events: seq<Event>)
    requires NoTerminal(events)
    ensures UpToTerminal(events) == events
    decreases |events|
  {
    if events != [] {
      UpToTerminalNone(events[1..]);
    }
  }

  lemma {:induction false} UpToTerminalConcat(xs: seq<Event>, ys: seq<Event>)
    ensures UpToTerminal(xs + ys) == if NoTerminal(xs) then xs + UpToTerminal(ys) else UpToTerminal(xs)
    decreases |xs|
  {
    if xs == [] {
      assert xs + ys == ys;
    } else {
      assert (xs + ys)[1..] == xs[1..] + ys;
      UpToTerminalConcat(xs[1..], ys);
      assert NoTerminal(xs) <==> !IsTerminal(xs[0]) && NoTerminal(xs[1..]) by {
        assert forall e :: e in xs <==> e == xs[0] || e in xs[1..];
      }
    }
  }

  /** The specification is itself a contiguous slice that stops at the first terminal event. */
  lemma SpecShape(log: seq<Event>, afterSeq: nat)
    requires Contiguous(log)
    ensures
      var r := Spec(log, afterSeq);
      (forall i :: 0 <= i < |r| ==> r[i].num == afterSeq + 1 + i) && TerminalOnlyLast(r) &&
      (afterSeq + |r| < |log| ==> r != [] && IsTerminal(r[|r| - 1]))
  {
    if afterSeq <= |log| {
      UpToTerminalShape(log[afterSeq..]);
    }
  }

  lemma {:induction false} UpToTerminalShape(events: seq<Event>)
    ensures
      var r := UpToTerminal(events);
      TerminalOnlyLast(r) && (|r| < |events| ==> r != [] && IsTerminal(r[|r| - 1]))
    decreases |events|
  {
    if events != [] && !IsTerminal(events[0]) {
      UpToTerminalShape(events[1..]);
      var rest := UpToTerminal(events[1..]);
      var r := UpToTerminal(events);
      assert r == [events[0]] + rest;
      forall i | 0 <= i < |r| - 1 ensures !IsTerminal(r[i]) {
        if i > 0 {
          assert r[i] == rest[i - 1];
        }
      }
    }
  }

  // ---- One connection ----------------------------------------------------------------------

  /**
   * The connection has emitted exactly the log after `afterSeq` up to its highest seq, and is
   * open as long as no terminal event was among it.
   */
  ghost predicate Tracks(c: Conn, log: seq<Event>, afterSeq: nat) {
    && afterSeq <= c.highestHistorySeq
    && (c.out == [] || c.highestHistorySeq <= |log|)
    && (c.highestHistorySeq <= |log| ==> c.out == log[afterSeq..c.highestHistorySeq])
    && (c.isDone <==> !c.end.Open?)
    && (c.end.Open? ==> NoTerminal(c.out))
    && (c.end.Completed? ==> c.out == Spec(log, afterSeq) && !NoTerminal(c.out))
    && (c.end.Open? || c.end.Completed?)
  }

  lemma SplitAt(log: seq<Event>, i: nat, k: nat)
    requires i <= k <= |log|
    ensures log[i..] == log[i..k] + log[k..]
  {
  }

  lemma SplitWithin(log: seq<Event>, i: nat, k: nat, n: nat)
    requires i <= k <= n <= |log|
    ensures log[..n][i..] == log[i..k] + log[k..n]
  {
  }

  lemma SliceStep(log: seq<Event>, h: nat, n: nat)
    requires h < n <= |log|
    ensures log[h..n][0] == log[h] && log[h..n][1..] == log[h + 1..n]
  {
  }

  /** The first terminal event after `afterSeq` ends the specification. */
  lemma SpecAtTerminal(log: seq<Event>, afterSeq: nat, h: nat)
    requires afterSeq <= h < |log| && NoTerminal(log[afterSeq..h]) && IsTerminal(log[h])
    ensures Spec(log, afterSeq) == log[afterSeq..h] + [log[h]]
  {
    SplitAt(log, afterSeq, h);
    UpToTerminalConcat(log[afterSeq..h], log[h..]);
  }

  /** Emitting the log's next event keeps the connection in step with the log. */
  lemma EmitNextTracks(c: Conn, log: seq<Event>, afterSeq: nat)
    requires Contiguous(log) && Tracks(c, log, afterSeq) && c.end.Open? && c.highestHistorySeq < |log|
    ensures
      var e := log[c.highestHistorySeq];
      var r := Emit(c.(highestHistorySeq := e.num), e);
      && Tracks(r, log, afterSeq) && (r.isDone <==> IsTerminal(e))
      && e.num == c.highestHistorySeq + 1
      && r == c.(highestHistorySeq := e.num, out := r.out, end := r.end, isDone := r.isDone)
  {
    var h := c.highestHistorySeq;
    var e := log[h];
    var r := Emit(c.(highestHistorySeq := e.num), e);
    assert e.num == h + 1;
    SliceGrows(log, afterSeq, h);
    NoTerminalAppend(c.out, e);
    assert r.out == log[afterSeq..h + 1];
    if IsTerminal(e) {
      SpecAtTerminal(log, afterSeq, h);
      assert r.end.Completed? && r.isDone;
    } else {
      assert r.end.Open? && !r.isDone;
    }
  }

  lemma SliceGrows(log: seq<Event>, i: nat, h: nat)
    requires i <= h < |log|
    ensures log[i..h] + [log[h]] == log[i..h + 1]
  {
  }

  lemma NoTerminalAppend(xs: seq<Event>, e: Event)
    ensures NoTerminal(xs + [e]) <==> NoTerminal(xs) && !IsTerminal(e)
  {
    assert e in xs + [e];
    assert forall x :: x in xs ==> x in xs + [e];
  }

  /** Replaying the rows log[h..n] brings the connection to position n, or to the first terminal event. */
  lemma {:induction false} ReplayTracks(c: Conn, log: seq<Event>, afterSeq: nat, n: nat)
    requires Contiguous(log) && Tracks(c, log, afterSeq) && c.end.Open? && c.highestHistorySeq <= n <= |log|
    ensures
      var r := Replay(c, log[c.highestHistorySeq..n]);
      && Tracks(r, log, afterSeq) && r.liveBuffer == c.liveBuffer && r.historyLoaded == c.historyLoaded
      && r.highestHistorySeq <= n && (r.end.Open? ==> r.highestHistorySeq == n)
    decreases n - c.highestHistorySeq
  {
    var h := c.highestHistorySeq;
    if h < n {
      var e := log[h];
      var next := Emit(c.(highestHistorySeq := e.num), e);
      EmitNextTracks(c, log, afterSeq);
      SliceStep(log, h, n);
      assert Replay(c, log[h..n]) == if IsTerminal(e) then next else Replay(next, log[h + 1..n]);
      if !IsTerminal(e) {
        ReplayTracks(next, log, afterSeq, n);
      }
    }
  }

  lemma TracksMeansSpec(c: Conn, log: seq<Event>, afterSeq: nat, reached: nat)
    requires Contiguous(log) && Tracks(c, log, afterSeq) && reached <= |log|
    requires c.highestHistorySeq <= Max(afterSeq, reached)
    requires c.end.Open? ==> c.highestHistorySeq == Max(afterSeq, reached)
    ensures c.out <= Spec(log, afterSeq) && c.out == Spec(log[..reached], afterSeq)
  {
    var h := c.highestHistorySeq;
    if afterSeq < h {
      assert c.out == log[afterSeq..h];
      SplitAt(log, afterSeq, h);
      SplitWithin(log, afterSeq, h, reached);
      UpToTerminalConcat(c.out, log[h..reached]);
      UpToTerminalConcat(c.out, log[h..]);
      if c.end.Open? {
        assert UpToTerminal(log[h..reached]) == [];
      }
    } else {
      assert c.out == [];
    }
  }

  /** The rows the history query returns for a snapshot. */
  function Rows(log: seq<Event>, snapshot: nat, afterSeq: nat): seq<Event>
    requires snapshot <= |log|
  {
    if afterSeq <= snapshot then log[afterSeq..snapshot] else []
  }

  lemma SnapshotRows(log: seq<Event>, n: nat, afterSeq: nat)
    requires Contiguous(log) && n <= |log|
    ensures FindEventsSince(log[..n], afterSeq) == Rows(log, n, afterSeq)
  {
    FindEventsSinceIsSuffix(log[..n], afterSeq);
    if afterSeq <= n {
      assert log[..n][afterSeq..] == log[afterSeq..n];
    }
  }

  lemma ReplayOfRows(c: Conn, log: seq<Event>, n: nat, afterSeq: nat)
    requires Contiguous(log) && n <= |log|
    requires c == Fresh(afterSeq).(liveBuffer := c.liveBuffer)
    ensures
      var r := Replay(c, Rows(log, n, afterSeq));
      && Tracks(r, log, afterSeq) && r.liveBuffer == c.liveBuffer && r.historyLoaded == c.historyLoaded
      && r.highestHistorySeq <= Max(afterSeq, n) && (r.end.Open? ==> r.highestHistorySeq == Max(afterSeq, n))
      && (r.end.Open? <==> NoTerminal(Rows(log, n, afterSeq)))
      && (r.end.Open? ==> r.out == Rows(log, n, afterSeq))
  {
    if afterSeq <= n {
      ReplayTracks(c, log, afterSeq, n);
      var r := Replay(c, Rows(log, n, afterSeq));
      TracksMeansSpec(r, log, afterSeq, n);
      assert log[..n][afterSeq..] == Rows(log, n, afterSeq);
      if NoTerminal(Rows(log, n, afterSeq)) {
        UpToTerminalNone(Rows(log, n, afterSeq));
      }
    }
  }

  /** What has been emitted in step with the log is a prefix of the specification. */
  lemma TracksIsPrefix(c: Conn, log: seq<Event>, afterSeq: nat)
    requires Tracks(c, log, afterSeq)
    ensures c.out <= Spec(log, afterSeq)
  {
    if c.end.Open? && c.out != [] {
      SplitAt(log, afterSeq, c.highestHistorySeq);
      UpToTerminalConcat(c.out, log[c.highestHistorySeq..]);
    }
  }

  // ---- Live events: when the drain leaves no gap -------------------------------------------

  ghost predicate AllFrom(events: seq<Event>, log: seq<Event>) {
    forall e :: e in events ==> e in log
  }

  /**
   * From position `h` of the log on, each live event is an old one or the very next one, up to
   * the terminal event that ends the stream.
   */
  predicate InTime(h: nat, live: seq<Event>)
    decreases |live|
  {
    live == [] ||
    if live[0].num <= h then InTime(h, live[1..])
    else live[0].num == h + 1 && (IsTerminal(live[0]) || InTime(h + 1, live[1..]))
  }

  /** The highest seq among `h` and the live events. */
  function Reach(h: nat, live: seq<Event>): nat
    decreases |live|
  {
    if live == [] then h else Reach(Max(h, live[0].num), live[1..])
  }

  lemma {:induction false} ReachBounds(h: nat, live: seq<Event>, a: nat, n: nat)
    ensures h <= Reach(h, live) && Reach(Max(a, h), live) == Max(a, Reach(h, live))
    ensures h <= n && (forall e :: e in live ==> e.num <= n) ==> Reach(h, live) <= n
    decreases |live|
  {
    if live != [] {
      var next := Max(h, live[0].num);
      assert Max(a, next) == Max(Max(a, h), live[0].num);
      ReachBounds(next, live[1..], a, n);
    }
  }

  /** Live events in time keep the connection in step with the log. */
  lemma {:induction false} DrainInTime(c: Conn, log: seq<Event>, afterSeq: nat, live: seq<Event>)
    requires Contiguous(log) && Tracks(c, log, afterSeq) && c.end.Open? && AllFrom(live, log)
    requires InTime(c.highestHistorySeq, live)
    ensures
      var r := Drain(c, live);
      && Tracks(r, log, afterSeq) && r.highestHistorySeq <= Reach(c.highestHistorySeq, live)
      && (r.end.Open? ==> r.highestHistorySeq == Reach(c.highestHistorySeq, live))
    decreases |live|
  {
    if live != [] {
      var e := live[0];
      var next := EmitIfNew(c, e);
      assert e in log;
      if e.num > c.highestHistorySeq {
        EventAt(log, e);
        EmitNextTracks(c, log, afterSeq);
      }
      if !next.isDone {
        DrainInTime(next, log, afterSeq, live[1..]);
      } else {
        ReachBounds(e.num, live[1..], 0, 0);
      }
    }
  }

  lemma EventAt(log: seq<Event>, e: Event)
    requires Contiguous(log) && e in log
    ensures 1 <= e.num <= |log| && log[e.num - 1] == e
  {
  }

  /** An event that skips one is emitted all the same, and the output has a gap for good. */
  lemma {:induction false} DrainNotInTime(c: Conn, log: seq<Event>, afterSeq: nat, live: seq<Event>)
    requires Contiguous(log) && Tracks(c, log, afterSeq) && c.end.Open? && AllFrom(live, log)
    requires !InTime(c.highestHistorySeq, live)
    ensures !(Drain(c, live).out <= Spec(log, afterSeq))
    decreases |live|
  {
    var e := live[0];
    var next := EmitIfNew(c, e);
    assert e in log;
    EventAt(log, e);
    if e.num <= c.highestHistorySeq {
      DrainNotInTime(c, log, afterSeq, live[1..]);
    } else if e.num == c.highestHistorySeq + 1 {
      EmitNextTracks(c, log, afterSeq);
      DrainNotInTime(next, log, afterSeq, live[1..]);
    } else {
      SpecShape(log, afterSeq);
      assert next.out == c.out + [e] && |c.out| == c.highestHistorySeq - afterSeq;
      if !next.isDone {
        DrainExtends(next, live[1..]);
      }
      assert next.out <= Drain(c, live).out && Drain(c, live).out[|c.out|] == e;
    }
  }

  /**
   * For any live events of the log, in any order, lost or repeated: the output has no gap
   * exactly if they come in time.
   */
  lemma DrainGapFreeIff(c: Conn, log: seq<Event>, afterSeq: nat, live: seq<Event>)
    requires Contiguous(log) && Tracks(c, log, afterSeq) && c.end.Open? && AllFrom(live, log)
    ensures Drain(c, live).out <= Spec(log, afterSeq) <==> InTime(c.highestHistorySeq, live)
  {
    if InTime(c.highestHistorySeq, live) {
      DrainInTime(c, log, afterSeq, live);
      TracksIsPrefix(Drain(c, live), log, afterSeq);
    } else {
      DrainNotInTime(c, log, afterSeq, live);
    }
  }

  // ---- The condition in other words --------------------------------------------------------

  ghost predicate EndedWithin(h: nat, live: seq<Event>) {
    exists e :: e in live && e.num > h && IsTerminal(e)
  }

  /** Until the stream has ended, no event above `h` arrives before one of its predecessors above `h`. */
  ghost predicate PredecessorsFirst(h: nat, live: seq<Event>) {
    forall i: nat, k: nat {:trigger SeqTaken(live[..i], k)} ::
      i < |live| && h < k < live[i].num && !EndedWithin(h, live[..i]) ==> SeqTaken(live[..i], k)
  }

  /** Coming in time is exactly arriving after all predecessors that were not replayed. */
  lemma {:induction false} InTimeIffPredecessorsFirst(log: seq<Event>, h: nat, live: seq<Event>)
    requires Contiguous(log) && AllFrom(live, log)
    ensures InTime(h, live) <==> PredecessorsFirst(h, live)
    decreases |live|
  {
    if live != [] {
      var e, rest := live[0], live[1..];
      assert e in log;
      var h' := if e.num == h + 1 then h + 1 else h;
      if e.num > h + 1 {
        assert live[..0] == [] && !SeqTaken(live[..0], h + 1);
      } else if e.num == h + 1 && IsTerminal(e) {
        forall i: nat | 0 < i < |live| ensures EndedWithin(h, live[..i]) {
          assert live[..i][0] == e;
        }
      } else {
        InTimeIffPredecessorsFirst(log, h', rest);
        PredecessorsOfRest(log, h, live);
      }
    }
  }

  lemma PredecessorsOfRest(log: seq<Event>, h: nat, live: seq<Event>)
    requires Contiguous(log) && AllFrom(live, log) && live != []
    requires live[0].num <= h || (live[0].num == h + 1 && !IsTerminal(live[0]))
    ensures PredecessorsFirst(h, live) <==> PredecessorsFirst(if live[0].num == h + 1 then h + 1 else h, live[1..])
  {
    var e, rest := live[0], live[1..];
    var h' := if e.num == h + 1 then h + 1 else h;
    forall i: nat | i < |rest|
      ensures live[..i + 1] == [e] + rest[..i] && live[i + 1] == rest[i]
      ensures EndedWithin(h, live[..i + 1]) <==> EndedWithin(h', rest[..i])
    {
      assert live[..i + 1] == [e] + rest[..i];
      SameEnd(log, h, e, rest[..i]);
    }
    if PredecessorsFirst(h, live) {
      forall i: nat, k: nat | i < |rest| && h' < k < rest[i].num && !EndedWithin(h', rest[..i])
        ensures SeqTaken(rest[..i], k)
      {
        assert SeqTaken(live[..i + 1], k);
      }
    }
    if PredecessorsFirst(h', rest) {
      forall i: nat, k: nat | i < |live| && h < k < live[i].num && !EndedWithin(h, live[..i])
        ensures SeqTaken(live[..i], k)
      {
        assert i > 0;
        if k == h + 1 && h' == h + 1 {
          assert live[..i][0] == e;
        } else {
          assert SeqTaken(rest[..i - 1], k);
          assert live[..i - 1 + 1] == live[..i];
        }
      }
    }
  }

  /** An event that does not end the stream can be left out of account, since a seq names one event of the log. */
  lemma SameEnd(log: seq<Event>, h: nat, e: Event, xs: seq<Event>)
    requires Contiguous(log) && e in log && AllFrom(xs, log)
    requires e.num <= h || (e.num == h + 1 && !IsTerminal(e))
    ensures EndedWithin(h, [e] + xs) <==> EndedWithin(if e.num == h + 1 then h + 1 else h, xs)
  {
    EventAt(log, e);
    var h' := if e.num == h + 1 then h + 1 else h;
    if EndedWithin(h, [e] + xs) {
      var t :| t in [e] + xs && t.num > h && IsTerminal(t);
      assert t in xs && t in log;
      EventAt(log, t);
      assert t.num > h';
    }
    if EndedWithin(h', xs) {
      var t :| t in xs && t.num > h' && IsTerminal(t);
      assert t in [e] + xs;
    }
  }

  // ---- Channels that keep, delay, lose or swap events --------------------------------------

  /**
   * A stretch of the log delivered in order, from no later than `h` on, moves the position to
   * its end or ends the stream.
   */
  lemma {:induction false} InOrderThen(log: seq<Event>, h: nat, s: nat, p: nat, rest: seq<Event>)
    requires Contiguous(log) && s <= p <= |log| && s <= h
    ensures InTime(h, log[s..p] + rest) <==>
              if p <= h then InTime(h, rest) else !NoTerminal(log[h..p]) || InTime(p, rest)
    decreases p - s
  {
    var live := log[s..p] + rest;
    if s == p {
      assert live == rest;
    } else {
      assert live[0] == log[s] && live[1..] == log[s + 1..p] + rest;
      if s < h {
        InOrderThen(log, h, s + 1, p, rest);
      } else {
        NoTerminalHead(log, h, p);
        if !IsTerminal(log[h]) {
          InOrderThen(log, h + 1, s + 1, p, rest);
          if p == h + 1 {
            assert log[h + 1..p] == [];
          }
        }
      }
    }
  }

  lemma NoTerminalHead(log: seq<Event>, h: nat, p: nat)
    requires h < p <= |log|
    ensures NoTerminal(log[h..p]) <==> !IsTerminal(log[h]) && NoTerminal(log[h + 1..p])
  {
    assert log[h..p] == [log[h]] + log[h + 1..p];
  }

  /**
   * An ordered, lossless channel comes in time exactly if the subscription was early enough, or
   * nothing came at all.
   */
  lemma LosslessInTimeIff(log: seq<Event>, h: nat, s: nat, r: nat)
    requires Contiguous(log) && s <= r <= |log|
    ensures InTime(h, log[s..r]) <==> s <= h || s == r
  {
    if s <= h {
      InOrderThen(log, h, s, r, []);
      assert log[s..r] + [] == log[s..r];
    } else if s < r {
      assert log[s..r][0] == log[s];
    }
  }

  /**
   * A single lost event leaves a gap exactly if it was still needed, something follows it, and
   * the stream had not ended.
   */
  lemma LossInTimeIff(log: seq<Event>, h: nat, s: nat, p: nat, r: nat)
    requires Contiguous(log) && s <= p < r <= |log| && s <= h
    ensures InTime(h, log[s..p] + log[p + 1..r]) <==> p < h || p + 1 == r || !NoTerminal(log[h..p])
  {
    InOrderThen(log, h, s, p, log[p + 1..r]);
    LosslessInTimeIff(log, Max(h, p), p + 1, r);
    if p == h {
      assert log[h..p] == [];
    }
  }

  /**
   * Two consecutive events published in the wrong order leave a gap exactly if the first of them
   * was still needed and the stream had not ended: publishing is not part of the commit.
   */
  lemma SwapInTimeIff(log: seq<Event>, h: nat, s: nat, p: nat, r: nat)
    requires Contiguous(log) && s <= p && p + 2 <= r <= |log| && s <= h
    ensures InTime(h, log[s..p] + ([log[p + 1], log[p]] + log[p + 2..r])) <==> p < h || !NoTerminal(log[h..p])
  {
    var swapped := [log[p + 1], log[p]] + log[p + 2..r];
    InOrderThen(log, h, s, p, swapped);
    assert swapped[1..] == [log[p]] + log[p + 2..r] && swapped[1..][1..] == log[p + 2..r];
    LosslessInTimeIff(log, Max(h, p + 2), p + 2, r);
    if p == h {
      assert log[h..p] == [];
    }
  }

  // ---- One connection, whatever happens to it ----------------------------------------------

  /** The parsed messages that reach a connection while it is open. */
  function Heard(c: Conn, inputs: seq<Input>): seq<Event>
    decreases |inputs|
  {
    if inputs == [] then [] else HeardNow(c, inputs[0]) + Heard(StepConn(c, inputs[0]), inputs[1..])
  }

  function HeardNow(c: Conn, input: Input): seq<Event> {
    if !c.isDone && input.OnMessage? && input.message.Parsed? then [input.message.event] else []
  }

  /** Messages are events of the log; the history query answers once, with a snapshot of the log's first n events. */
  ghost predicate ValidInput(c: Conn, input: Input, log: seq<Event>, afterSeq: nat, n: nat)
    requires n <= |log|
  {
    match input
    case OnMessage(message) => message.Parsed? ==> message.event in log
    case OnHistory(rows) => !c.historyLoaded && rows == FindEventsSince(log[..n], afterSeq)
    case _ => true
  }

  ghost predicate ValidRun(c: Conn, inputs: seq<Input>, log: seq<Event>, afterSeq: nat, n: nat)
    requires n <= |log|
    decreases |inputs|
  {
    inputs == [] ||
    (ValidInput(c, inputs[0], log, afterSeq, n) && ValidRun(StepConn(c, inputs[0]), inputs[1..], log, afterSeq, n))
  }

  /** An open connection right after its history was replayed. */
  function Loaded(log: seq<Event>, afterSeq: nat, n: nat): Conn
    requires n <= |log|
  {
    Replay(Fresh(afterSeq), Rows(log, n, afterSeq)).(historyLoaded := true)
  }

  /** A connection is its replayed history with everything heard drained into it, however the two interleaved. */
  ghost predicate Recorded(c: Conn, log: seq<Event>, afterSeq: nat, n: nat, heard: seq<Event>)
    requires n <= |log|
  {
    var loaded := Loaded(log, afterSeq, n);
    && (c.isDone <==> !c.end.Open?)
    && (!c.historyLoaded && c.end.Open? ==> c == Fresh(afterSeq).(liveBuffer := heard))
    && (!c.historyLoaded && !c.end.Open? ==> c.out == [] || c.out == loaded.out)
    && (c.historyLoaded ==> loaded.end.Open? && c.out == Drain(loaded, heard).out)
    && (c.historyLoaded && c.end.Open? ==> c == Drain(loaded, heard).(liveBuffer := []))
  }

  lemma {:induction false} ReplayIgnoresBuffer(c: Conn, rows: seq<Event>, buffer: seq<Event>)
    ensures Replay(c.(liveBuffer := buffer), rows) == Replay(c, rows).(liveBuffer := buffer)
    decreases |rows|
  {
    if rows != [] && !IsTerminal(rows[0]) {
      var highest := if rows[0].num > c.highestHistorySeq then rows[0].num else c.highestHistorySeq;
      ReplayIgnoresBuffer(Emit(c.(highestHistorySeq := highest), rows[0]), rows[1..], buffer);
    }
  }

  lemma {:induction false} DrainIgnoresBuffer(c: Conn, events: seq<Event>, buffer: seq<Event>)
    ensures Drain(c.(liveBuffer := buffer), events) == Drain(c, events).(liveBuffer := buffer)
    decreases |events|
  {
    if events != [] && !EmitIfNew(c, events[0]).isDone {
      DrainIgnoresBuffer(EmitIfNew(c, events[0]), events[1..], buffer);
    }
  }

  lemma {:induction false} DrainAppend(c: Conn, events: seq<Event>, e: Event)
    requires !c.isDone
    ensures Drain(c, events + [e]) ==
              if Drain(c, events).isDone then Drain(c, events) else EmitIfNew(Drain(c, events), e)
    decreases |events|
  {
    if events == [] {
      assert events + [e] == [e];
    } else {
      assert (events + [e])[0] == events[0] && (events + [e])[1..] == events[1..] + [e];
      if !EmitIfNew(c, events[0]).isDone {
        DrainAppend(EmitIfNew(c, events[0]), events[1..], e);
      }
    }
  }

  lemma {:induction false} DrainKeepsLoaded(c: Conn, events: seq<Event>)
    requires c.isDone <==> !c.end.Open?
    ensures Drain(c, events).historyLoaded == c.historyLoaded
    ensures Drain(c, events).isDone <==> !Drain(c, events).end.Open?
    decreases |events|
  {
    if events != [] && !EmitIfNew(c, events[0]).isDone {
      DrainKeepsLoaded(EmitIfNew(c, events[0]), events[1..]);
    }
  }

  lemma HistoryKeepsRecorded(c: Conn, log: seq<Event>, afterSeq: nat, n: nat, heard: seq<Event>)
    requires Contiguous(log) && n <= |log| && Recorded(c, log, afterSeq, n, heard) && !c.isDone && !c.historyLoaded
    ensures Recorded(HistoryStep(c, Rows(log, n, afterSeq)), log, afterSeq, n, heard)
  {
    var rows := Rows(log, n, afterSeq);
    var loaded := Loaded(log, afterSeq, n);
    ReplayIgnoresBuffer(Fresh(afterSeq), rows, heard);
    ReplayOfRows(Fresh(afterSeq), log, n, afterSeq);
    var replayed := Replay(c, rows);
    assert replayed == Replay(Fresh(afterSeq), rows).(liveBuffer := heard);
    if !replayed.isDone {
      DrainIgnoresBuffer(loaded, heard, heard);
      assert replayed.(historyLoaded := true) == loaded.(liveBuffer := heard);
      DrainKeepsLoaded(loaded, heard);
    }
  }

  lemma MessageKeepsRecorded(c: Conn, log: seq<Event>, afterSeq: nat, n: nat, heard: seq<Event>, e: Event)
    requires Contiguous(log) && n <= |log| && Recorded(c, log, afterSeq, n, heard) && !c.isDone
    ensures Recorded(MessageStep(c, Parsed(e)), log, afterSeq, n, heard + [e])
  {
    if c.historyLoaded {
      var loaded := Loaded(log, afterSeq, n);
      ReplayOfRows(Fresh(afterSeq), log, n, afterSeq);
      DrainKeepsLoaded(loaded, heard);
      DrainKeepsLoaded(loaded, heard + [e]);
      DrainAppend(loaded, heard, e);
    }
  }

  lemma StepKeepsRecorded(c: Conn, input: Input, log: seq<Event>, afterSeq: nat, n: nat, heard: seq<Event>)
    requires Contiguous(log) && n <= |log| && Recorded(c, log, afterSeq, n, heard)
    requires ValidInput(c, input, log, afterSeq, n)
    ensures Recorded(StepConn(c, input), log, afterSeq, n, heard + HeardNow(c, input))
  {
    assert heard + [] == heard;
    if !c.isDone {
      if input.OnHistory? {
        SnapshotRows(log, n, afterSeq);
        HistoryKeepsRecorded(c, log, afterSeq, n, heard);
      } else if input.OnMessage? && input.message.Parsed? {
        MessageKeepsRecorded(c, log, afterSeq, n, heard, input.message.event);
      }
    }
  }

  lemma {:induction false} FeedKeepsRecorded(c: Conn, inputs: seq<Input>, log: seq<Event>, afterSeq: nat, n: nat,
                                             heard: seq<Event>)
    requires Contiguous(log) && n <= |log| && Recorded(c, log, afterSeq, n, heard)
    requires ValidRun(c, inputs, log, afterSeq, n)
    ensures Recorded(Feed(c, inputs), log, afterSeq, n, heard + Heard(c, inputs))
    decreases |inputs|
  {
    if inputs == [] {
      assert heard + Heard(c, inputs) == heard;
    } else {
      var next, rest := StepConn(c, inputs[0]), inputs[1..];
      var now := HeardNow(c, inputs[0]);
      StepKeepsRecorded(c, inputs[0], log, afterSeq, n, heard);
      FeedKeepsRecorded(next, rest, log, afterSeq, n, heard + now);
      Associates(heard, now, Heard(next, rest));
    }
  }

  lemma Associates(xs: seq<Event>, ys: seq<Event>, zs: seq<Event>)
    ensures (xs + ys) + zs == xs + (ys + zs)
  {
  }

  lemma {:induction false} HeardIsFromLog(c: Conn, inputs: seq<Input>, log: seq<Event>, afterSeq: nat, n: nat)
    requires n <= |log| && ValidRun(c, inputs, log, afterSeq, n)
    ensures AllFrom(Heard(c, inputs), log)
    decreases |inputs|
  {
    if inputs != [] {
      HeardIsFromLog(StepConn(c, inputs[0]), inputs[1..], log, afterSeq, n);
    }
  }

  lemma ConnectionIsRecorded(inputs: seq<Input>, log: seq<Event>, afterSeq: nat, n: nat)
    requires Contiguous(log) && n <= |log| && ValidRun(Fresh(afterSeq), inputs, log, afterSeq, n)
    ensures Recorded(Feed(Fresh(afterSeq), inputs), log, afterSeq, n, Heard(Fresh(afterSeq), inputs))
    ensures AllFrom(Heard(Fresh(afterSeq), inputs), log)
  {
    FeedKeepsRecorded(Fresh(afterSeq), inputs, log, afterSeq, n, []);
    assert [] + Heard(Fresh(afterSeq), inputs) == Heard(Fresh(afterSeq), inputs);
    HeardIsFromLog(Fresh(afterSeq), inputs, log, afterSeq, n);
  }

  /** No live event skips one; a connection that never got past its history has no use for live events. */
  ghost predicate LiveInTime(inputs: seq<Input>, afterSeq: nat, n: nat) {
    Feed(Fresh(afterSeq), inputs).historyLoaded ==> InTime(Max(afterSeq, n), Heard(Fresh(afterSeq), inputs))
  }

  /**
   * For any messages - reordered, lost, repeated, malformed - and any faults at any point, the
   * output of a connection is a gap-free slice of the log from afterSeq + 1, cut at the first
   * terminal event, if and only if its live events come in time.
   */
  lemma {:induction false} GapFreeIff(inputs: seq<Input>, log: seq<Event>, afterSeq: nat, n: nat)
    requires Contiguous(log) && n <= |log| && ValidRun(Fresh(afterSeq), inputs, log, afterSeq, n)
    ensures Feed(Fresh(afterSeq), inputs).out <= Spec(log, afterSeq) <==> LiveInTime(inputs, afterSeq, n)
  {
    var c := Feed(Fresh(afterSeq), inputs);
    ConnectionIsRecorded(inputs, log, afterSeq, n);
    ReplayOfRows(Fresh(afterSeq), log, n, afterSeq);
    var loaded := Loaded(log, afterSeq, n);
    if c.historyLoaded {
      DrainGapFreeIff(loaded, log, afterSeq, Heard(Fresh(afterSeq), inputs));
    } else {
      TracksIsPrefix(loaded, log, afterSeq);
    }
  }

  /** And then it is complete as far as the connection got, and ends exactly where the specification does. */
  lemma {:induction false} ConnectionRefines(inputs: seq<Input>, log: seq<Event>, afterSeq: nat, n: nat)
    requires Contiguous(log) && n <= |log| && ValidRun(Fresh(afterSeq), inputs, log, afterSeq, n)
    requires LiveInTime(inputs, afterSeq, n)
    ensures
      var c := Feed(Fresh(afterSeq), inputs);
      var reached := Reach(n, Heard(Fresh(afterSeq), inputs));
      && (c.end.Completed? <==> !NoTerminal(c.out))
      && (c.end.Completed? ==> c.out == Spec(log, afterSeq))
      && (c.historyLoaded ==> reached <= |log| && c.out == Spec(log[..reached], afterSeq))
      && (!c.historyLoaded && !c.end.Completed? ==> c.out == [])
  {
    var c := Feed(Fresh(afterSeq), inputs);
    var heard := Heard(Fresh(afterSeq), inputs);
    var loaded := Loaded(log, afterSeq, n);
    GapFreeIff(inputs, log, afterSeq, n);
    ValidIsAllowed(Fresh(afterSeq), inputs, log, afterSeq, n);
    OrderTheorem(afterSeq, inputs);
    FeedKeepsConnInv(Fresh(afterSeq), inputs, afterSeq);
    CompletedIsWhole(c, log, afterSeq);
    ConnectionIsRecorded(inputs, log, afterSeq, n);
    if c.historyLoaded {
      var drained := Drain(loaded, heard);
      ReplayOfRows(Fresh(afterSeq), log, n, afterSeq);
      DrainInTime(loaded, log, afterSeq, heard);
      forall e | e in heard ensures e.num <= |log| {
        EventAt(log, e);
      }
      ReachBounds(n, heard, afterSeq, |log|);
      TracksMeansSpec(drained, log, afterSeq, Reach(n, heard));
    }
  }

  lemma CompletedIsWhole(c: Conn, log: seq<Event>, afterSeq: nat)
    requires Contiguous(log) && c.out <= Spec(log, afterSeq) && TerminalOnlyLast(c.out)
    requires c.end.Completed? <==> c.out != [] && IsTerminal(c.out[|c.out| - 1])
    ensures c.end.Completed? <==> !NoTerminal(c.out)
    ensures c.end.Completed? ==> c.out == Spec(log, afterSeq)
  {
    SpecShape(log, afterSeq);
    if c.end.Completed? {
      assert IsTerminal(Spec(log, afterSeq)[|c.out| - 1]);
    }
  }

  lemma {:induction false} ValidIsAllowed(c: Conn, inputs: seq<Input>, log: seq<Event>, afterSeq: nat, n: nat)
    requires Contiguous(log) && n <= |log| && ValidRun(c, inputs, log, afterSeq, n)
    ensures AllowedRun(c, inputs, afterSeq)
    decreases |inputs|
  {
    if inputs != [] {
      SnapshotRows(log, n, afterSeq);
      ValidIsAllowed(StepConn(c, inputs[0]), inputs[1..], log, afterSeq, n);
    }
  }

  /** On an ordered, lossless channel: the exact condition on the subscription. */
  lemma SubscriptionInTimeIff(inputs: seq<Input>, log: seq<Event>, afterSeq: nat, n: nat, s: nat, r: nat)
    requires Contiguous(log) && n <= |log| && ValidRun(Fresh(afterSeq), inputs, log, afterSeq, n)
    requires s <= r <= |log| && Heard(Fresh(afterSeq), inputs) == log[s..r]
    ensures var c := Feed(Fresh(afterSeq), inputs);
            c.out <= Spec(log, afterSeq) <==> !c.historyLoaded || s <= Max(afterSeq, n) || s == r
  {
    GapFreeIff(inputs, log, afterSeq, n);
    LosslessInTimeIff(log, Max(afterSeq, n), s, r);
  }

  // ---- Every channel can happen ------------------------------------------------------------

  function Messages(events: seq<Event>): seq<Input> {
    seq(|events|, i requires 0 <= i < |events| => OnMessage(Parsed(events[i])))
  }

  /** The run whose history query saw n events and was answered before `live` arrived. */
  function HistoryThenLive(log: seq<Event>, afterSeq: nat, n: nat, live: seq<Event>): seq<Input>
    requires n <= |log|
  {
    [OnHistory(FindEventsSince(log[..n], afterSeq))] + Messages(live)
  }

  /** Once the history is loaded, receiving messages is draining them. */
  lemma {:induction false} LiveIsDrained(c: Conn, live: seq<Event>, log: seq<Event>, afterSeq: nat, n: nat)
    requires n <= |log| && AllFrom(live, log) && c.historyLoaded && (c.isDone <==> !c.end.Open?)
    ensures ValidRun(c, Messages(live), log, afterSeq, n)
    ensures Feed(c, Messages(live)) == if c.isDone then c else Drain(c, live)
    decreases |live|
  {
    if live != [] {
      assert Messages(live)[0] == OnMessage(Parsed(live[0])) && Messages(live)[1..] == Messages(live[1..]);
      assert live[0] in log;
      LiveIsDrained(StepConn(c, Messages(live)[0]), live[1..], log, afterSeq, n);
    }
  }

  /**
   * Any events of the log, in any order, can be what a connection hears after its history; and
   * then the output has a gap exactly if they do not come in time.
   */
  lemma {:induction false} AnyLiveEvents(log: seq<Event>, afterSeq: nat, n: nat, live: seq<Event>)
    requires Contiguous(log) && n <= |log| && NoTerminal(Rows(log, n, afterSeq)) && AllFrom(live, log)
    ensures
      var inputs := HistoryThenLive(log, afterSeq, n, live);
      && ValidRun(Fresh(afterSeq), inputs, log, afterSeq, n)
      && (Feed(Fresh(afterSeq), inputs).out <= Spec(log, afterSeq) <==> InTime(Max(afterSeq, n), live))
  {
    var inputs := HistoryThenLive(log, afterSeq, n, live);
    var loaded := Loaded(log, afterSeq, n);
    SnapshotRows(log, n, afterSeq);
    ReplayOfRows(Fresh(afterSeq), log, n, afterSeq);
    assert inputs[0].OnHistory? && inputs[1..] == Messages(live);
    assert StepConn(Fresh(afterSeq), inputs[0]) == loaded;
    LiveIsDrained(loaded, live, log, afterSeq, n);
    DrainGapFreeIff(loaded, log, afterSeq, live);
  }

  /** Since the subscription is not awaited: whatever the log, one that starts behind the snapshot can lose events. */
  lemma {:induction false} LateSubscriptionLeavesGap(log: seq<Event>, afterSeq: nat, n: nat, s: nat)
    requires Contiguous(log) && n <= |log| && NoTerminal(Rows(log, n, afterSeq)) && Max(afterSeq, n) < s < |log|
    ensures
      var inputs := HistoryThenLive(log, afterSeq, n, log[s..]);
      && ValidRun(Fresh(afterSeq), inputs, log, afterSeq, n)
      && !(Feed(Fresh(afterSeq), inputs).out <= Spec(log, afterSeq))
  {
    AnyLiveEvents(log, afterSeq, n, log[s..]);
    LosslessInTimeIff(log, Max(afterSeq, n), s, |log|);
    assert log[s..|log|] == log[s..];
  }

  /** Since publishing is not part of the commit: whatever the log, two events published in the wrong order lose one. */
  lemma SwapLeavesGap(log: seq<Event>, afterSeq: nat, p: nat)
    requires Contiguous(log) && afterSeq <= p && p + 2 <= |log| && NoTerminal(log[afterSeq..p])
    ensures
      var inputs := HistoryThenLive(log, afterSeq, p, [log[p + 1], log[p]]);
      && ValidRun(Fresh(afterSeq), inputs, log, afterSeq, p)
      && !(Feed(Fresh(afterSeq), inputs).out <= Spec(log, afterSeq))
  {
    AnyLiveEvents(log, afterSeq, p, [log[p + 1], log[p]]);
    SwapInTimeIff(log, p, p, p, p + 2);
    assert log[p..p] + ([log[p + 1], log[p]] + log[p + 2..p + 2]) == [log[p + 1], log[p]];
    assert log[p..p] == [];
  }
}
