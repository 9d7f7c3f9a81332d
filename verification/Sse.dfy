/**
 * One SSE connection (src/modules/delivery/sse.service.ts).
 *
 * `Conn` is the state the callbacks share, `StepConn` the effect of one callback, and the class
 * `SseConnection` the imperative form proved against it.  The observer is its output list and
 * one end flag; following RxJS, a closed observer ignores everything, and ending it runs the
 * teardown, which sets `isDone`.
 */
module Sse {
  import opened Wrappers
  import opened Schema

  const MAX_LIVE_BUFFER_SIZE := 500

  datatype Message = Parsed(event: Event) | Malformed

  datatype End = Open | Completed | Errored | Unsubscribed

  datatype Conn = Conn(
    isDone: bool,
    historyLoaded: bool,
    highestHistorySeq: nat,
    liveBuffer: seq<Event>,
    out: seq<Event>,
    end: End)

  /** The callbacks of a connection. */
  datatype Input =
    | OnMessage(message: Message)
    | OnHistory(rows: seq<Event>)
    | OnQueryFailed
    | OnRedisError
    | OnUnsubscribe

  function Fresh(afterSeq: nat): Conn {
    Conn(false, false, afterSeq, [], [], Open)
  }

  function Finish(c: Conn, end: End): Conn {
    if c.end.Open? then c.(end := end, isDone := true) else c
  }

  /** `subscriber.next`, and `isDone = true; subscriber.complete()` after a terminal event. */
  function Emit(c: Conn, e: Event): Conn {
    var sent := if c.end.Open? then c.(out := c.out + [e]) else c;
    if IsTerminal(e) then Finish(sent.(isDone := true), End.Completed) else sent
  }

  function EmitIfNew(c: Conn, e: Event): Conn {
    if e.num > c.highestHistorySeq then Emit(c.(highestHistorySeq := e.num), e) else c
  }

  /** The loop over the history rows; it stops at the first terminal event. */
  function Replay(c: Conn, rows: seq<Event>): Conn
    decreases |rows|
  {
    if rows == [] then c
    else
      var e := rows[0];
      var highest := if e.num > c.highestHistorySeq then e.num else c.highestHistorySeq;
      var next := Emit(c.(highestHistorySeq := highest), e);
      if IsTerminal(e) then next else Replay(next, rows[1..])
  }

  /** The loop over the buffered live events; it stops at the first new terminal event. */
  function Drain(c: Conn, events: seq<Event>): Conn
    decreases |events|
  {
    if events == [] then c
    else
      var next := EmitIfNew(c, events[0]);
      if next.isDone then next else Drain(next, events[1..])
  }

  function HistoryStep(c: Conn, rows: seq<Event>): Conn {
    if c.isDone then c
    else
      var replayed := Replay(c, rows);
      if replayed.isDone then replayed
      else
        Drain(replayed.(historyLoaded := true), replayed.liveBuffer).(liveBuffer := [])
  }

  function MessageStep(c: Conn, message: Message): Conn {
    if c.isDone || message.Malformed? then c
    else if !c.historyLoaded then
      if |c.liveBuffer| >= MAX_LIVE_BUFFER_SIZE then Finish(c.(isDone := true), Errored)
      else c.(liveBuffer := c.liveBuffer + [message.event])
    else EmitIfNew(c, message.event)
  }

  function StepConn(c: Conn, input: Input): Conn {
    match input
    case OnMessage(message) => MessageStep(c, message)
    case OnHistory(rows) => HistoryStep(c, rows)
    case OnQueryFailed => if c.isDone then c else Finish(c, Errored)
    case OnRedisError => Finish(c, Errored)
    case OnUnsubscribe => Finish(c, Unsubscribed)
  }

  function Feed(c: Conn, inputs: seq<Input>): Conn
    decreases |inputs|
  {
    if inputs == [] then c else Feed(StepConn(c, inputs[0]), inputs[1..])
  }

  lemma {:induction false} FeedConcat(c: Conn, xs: seq<Input>, ys: seq<Input>)
    ensures Feed(c, xs + ys) == Feed(Feed(c, xs), ys)
    decreases |xs|
  {
    if xs == [] {
      assert xs + ys == ys;
    } else {
      assert (xs + ys)[1..] == xs[1..] + ys;
      FeedConcat(StepConn(c, xs[0]), xs[1..], ys);
    }
  }

  // ---- What every connection keeps, with nothing assumed about Pub/Sub ---------------------

  /** Ids strictly increase from above `afterSeq`. */
  ghost predicate Ordered(out: seq<Event>, afterSeq: nat) {
    && (forall i, j :: 0 <= i < j < |out| ==> out[i].num < out[j].num)
    && (forall i :: 0 <= i < |out| ==> afterSeq < out[i].num)
  }

  ghost predicate TerminalOnlyLast(out: seq<Event>) {
    forall i :: 0 <= i < |out| - 1 ==> !IsTerminal(out[i])
  }

  ghost predicate ConnInv(c: Conn, afterSeq: nat) {
    && Ordered(c.out, afterSeq)
    && afterSeq <= c.highestHistorySeq
    && (forall i :: 0 <= i < |c.out| ==> c.out[i].num <= c.highestHistorySeq)
    && TerminalOnlyLast(c.out)
    && (c.end.Completed? <==> c.out != [] && IsTerminal(c.out[|c.out| - 1]))
    && (c.isDone <==> !c.end.Open?)
    && |c.liveBuffer| <= MAX_LIVE_BUFFER_SIZE
    && (!c.historyLoaded && c.end != End.Completed ==> c.out == [])
    && (c.historyLoaded ==> c.liveBuffer == [])
    && (!c.historyLoaded && !c.isDone ==> c.highestHistorySeq == afterSeq)
  }

  /** The history query answers once, with rows in seq order above `afterSeq`. */
  ghost predicate AllowedInput(c: Conn, input: Input, afterSeq: nat) {
    match input
    case OnHistory(rows) => !c.historyLoaded && Ordered(rows, afterSeq)
    case _ => true
  }

  ghost predicate AllowedRun(c: Conn, inputs: seq<Input>, afterSeq: nat)
    decreases |inputs|
  {
    inputs == [] ||
    (AllowedInput(c, inputs[0], afterSeq) && AllowedRun(StepConn(c, inputs[0]), inputs[1..], afterSeq))
  }

  /** The part of `ConnInv` that holds in the middle of the history callback. */
  ghost predicate LoopInv(c: Conn, afterSeq: nat) {
    && Ordered(c.out, afterSeq)
    && afterSeq <= c.highestHistorySeq
    && (forall i :: 0 <= i < |c.out| ==> c.out[i].num <= c.highestHistorySeq)
    && TerminalOnlyLast(c.out)
    && (c.end.Completed? <==> c.out != [] && IsTerminal(c.out[|c.out| - 1]))
    && (c.isDone <==> !c.end.Open?)
  }

  lemma EmitKeeps(c: Conn, e: Event, afterSeq: nat)
    requires LoopInv(c, afterSeq) && !c.isDone && e.num > c.highestHistorySeq
    ensures
      var r := Emit(c.(highestHistorySeq := e.num), e);
      LoopInv(r, afterSeq) && r.out == c.out + [e] && (r.isDone <==> IsTerminal(e)) && (r.isDone ==> r.end.Completed?)
  {
  }

  lemma {:induction false} ReplayKeeps(c: Conn, rows: seq<Event>, afterSeq: nat)
    requires LoopInv(c, afterSeq) && !c.isDone && Ordered(rows, c.highestHistorySeq)
    ensures
      var r := Replay(c, rows);
      LoopInv(r, afterSeq) && (r.isDone ==> r.end.Completed?) &&
      r.liveBuffer == c.liveBuffer && r.historyLoaded == c.historyLoaded
    decreases |rows|
  {
    if rows != [] {
      EmitKeeps(c, rows[0], afterSeq);
      if !IsTerminal(rows[0]) {
        ReplayKeeps(Emit(c.(highestHistorySeq := rows[0].num), rows[0]), rows[1..], afterSeq);
      }
    }
  }

  lemma {:induction false} DrainKeeps(c: Conn, events: seq<Event>, afterSeq: nat)
    requires LoopInv(c, afterSeq) && !c.isDone
    ensures
      var r := Drain(c, events);
      LoopInv(r, afterSeq) && (r.isDone ==> r.end.Completed?) && r.historyLoaded == c.historyLoaded
    decreases |events|
  {
    if events != [] {
      if events[0].num > c.highestHistorySeq {
        EmitKeeps(c, events[0], afterSeq);
      }
      var next := EmitIfNew(c, events[0]);
      if !next.isDone {
        DrainKeeps(next, events[1..], afterSeq);
      }
    }
  }

  /** Every callback keeps the invariant, whatever Pub/Sub delivers. */
  lemma StepKeepsConnInv(c: Conn, input: Input, afterSeq: nat)
    requires ConnInv(c, afterSeq) && AllowedInput(c, input, afterSeq)
    ensures ConnInv(StepConn(c, input), afterSeq)
  {
    if c.isDone {
    } else if input.OnHistory? {
      ReplayKeeps(c, input.rows, afterSeq);
      var replayed := Replay(c, input.rows);
      if !replayed.isDone {
        DrainKeeps(replayed.(historyLoaded := true), replayed.liveBuffer, afterSeq);
      }
    } else if input.OnMessage? && input.message.Parsed? && c.historyLoaded {
      if input.message.event.num > c.highestHistorySeq {
        EmitKeeps(c, input.message.event, afterSeq);
      }
    }
  }

  /** Once ended, a connection never emits, ends or errors again. */
  lemma EndedIsFinal(c: Conn, input: Input, afterSeq: nat)
    requires ConnInv(c, afterSeq) && !c.end.Open?
    ensures StepConn(c, input).out == c.out && StepConn(c, input).end == c.end
  {
  }

  lemma {:induction false} FeedKeepsConnInv(c: Conn, inputs: seq<Input>, afterSeq: nat)
    requires ConnInv(c, afterSeq) && AllowedRun(c, inputs, afterSeq)
    ensures ConnInv(Feed(c, inputs), afterSeq)
    ensures c.out <= Feed(c, inputs).out
    ensures !c.end.Open? ==> Feed(c, inputs).out == c.out && Feed(c, inputs).end == c.end
    decreases |inputs|
  {
    if inputs != [] {
      StepKeepsConnInv(c, inputs[0], afterSeq);
      StepExtendsOutput(c, inputs[0]);
      if !c.end.Open? {
        EndedIsFinal(c, inputs[0], afterSeq);
      }
      FeedKeepsConnInv(StepConn(c, inputs[0]), inputs[1..], afterSeq);
    }
  }

  lemma {:induction false} ReplayExtends(c: Conn, rows: seq<Event>)
    ensures c.out <= Replay(c, rows).out
    decreases |rows|
  {
    if rows != [] && !IsTerminal(rows[0]) {
      var highest := if rows[0].num > c.highestHistorySeq then rows[0].num else c.highestHistorySeq;
      ReplayExtends(Emit(c.(highestHistorySeq := highest), rows[0]), rows[1..]);
    }
  }

  lemma {:induction false} DrainExtends(c: Conn, events: seq<Event>)
    ensures c.out <= Drain(c, events).out
    decreases |events|
  {
    if events != [] && !EmitIfNew(c, events[0]).isDone {
      DrainExtends(EmitIfNew(c, events[0]), events[1..]);
    }
  }

  lemma StepExtendsOutput(c: Conn, input: Input)
    ensures c.out <= StepConn(c, input).out
  {
    if input.OnHistory? && !c.isDone {
      ReplayExtends(c, input.rows);
      var replayed := Replay(c, input.rows);
      if !replayed.isDone {
        DrainExtends(replayed.(historyLoaded := true), replayed.liveBuffer);
      }
    }
  }

  /**
   * SSE order: for any messages in any order, lost, repeated or malformed, and any faults, the
   * emitted ids strictly increase from above `afterSeq`, nothing follows a terminal event, the
   * stream completes exactly when it has emitted one, and the live buffer stays within its cap.
   */
  lemma OrderTheorem(afterSeq: nat, inputs: seq<Input>)
    requires AllowedRun(Fresh(afterSeq), inputs, afterSeq)
    ensures
      var c := Feed(Fresh(afterSeq), inputs);
      Ordered(c.out, afterSeq) && TerminalOnlyLast(c.out) &&
      (c.end.Completed? <==> c.out != [] && IsTerminal(c.out[|c.out| - 1])) &&
      |c.liveBuffer| <= MAX_LIVE_BUFFER_SIZE
  {
    FeedKeepsConnInv(Fresh(afterSeq), inputs, afterSeq);
  }

  /** Completion or error happens at most once: after the end, no further input has any visible effect. */
  lemma EndsOnce(afterSeq: nat, before: seq<Input>, after: seq<Input>)
    requires AllowedRun(Fresh(afterSeq), before + after, afterSeq)
    requires !Feed(Fresh(afterSeq), before).end.Open?
    ensures Feed(Fresh(afterSeq), before + after).out == Feed(Fresh(afterSeq), before).out
    ensures Feed(Fresh(afterSeq), before + after).end == Feed(Fresh(afterSeq), before).end
  {
    AllowedRunSplit(Fresh(afterSeq), before, after, afterSeq);
    FeedConcat(Fresh(afterSeq), before, after);
    FeedKeepsConnInv(Feed(Fresh(afterSeq), before), after, afterSeq);
  }

  lemma {:induction false} AllowedRunSplit(c: Conn, xs: seq<Input>, ys: seq<Input>, afterSeq: nat)
    requires AllowedRun(c, xs + ys, afterSeq) && ConnInv(c, afterSeq)
    ensures AllowedRun(c, xs, afterSeq) && AllowedRun(Feed(c, xs), ys, afterSeq)
    ensures ConnInv(Feed(c, xs), afterSeq)
    decreases |xs|
  {
    if xs == [] {
      assert xs + ys == ys;
    } else {
      assert (xs + ys)[0] == xs[0] && (xs + ys)[1..] == xs[1..] + ys;
      StepKeepsConnInv(c, xs[0], afterSeq);
      AllowedRunSplit(StepConn(c, xs[0]), xs[1..], ys, afterSeq);
    }
  }

  /**
   * Overflow safety: a message that ends the stream in error does so before any event has been
   * emitted, and only with a full buffer, so reconnecting with the same id skips nothing.
   */
  lemma OverflowSafety(afterSeq: nat, inputs: seq<Input>, message: Message)
    requires AllowedRun(Fresh(afterSeq), inputs, afterSeq)
    requires
      var c := Feed(Fresh(afterSeq), inputs);
      c.end.Open? && StepConn(c, OnMessage(message)).end.Errored?
    ensures
      var c := Feed(Fresh(afterSeq), inputs);
      c.out == [] && StepConn(c, OnMessage(message)).out == [] && |c.liveBuffer| == MAX_LIVE_BUFFER_SIZE
  {
    FeedKeepsConnInv(Fresh(afterSeq), inputs, afterSeq);
  }

  // ---- The imperative form -----------------------------------------------------------------

  /** The connection is done for the given reason if it was open, and has emitted nothing more. */
  predicate EndsWith(reason: End, before: Conn, after: Conn) {
    && after.isDone && after.out == before.out && after.end == (if before.end.Open? then reason else before.end)
    && after.historyLoaded == before.historyLoaded && after.highestHistorySeq == before.highestHistorySeq
    && after.liveBuffer == before.liveBuffer
  }

  class SseConnection {
    var isDone: bool
    var historyLoaded: bool
    var highestHistorySeq: nat
    var liveBuffer: seq<Event>
    var out: seq<Event>
    var end: End

    ghost function State(): Conn
      reads this
    {
      Conn(isDone, historyLoaded, highestHistorySeq, liveBuffer, out, end)
    }

    constructor (afterSeq: nat)
      ensures State() == Fresh(afterSeq)
    {
      isDone, historyLoaded, highestHistorySeq := false, false, afterSeq;
      liveBuffer, out, end := [], [], Open;
    }

    /** `subscriber.next`. */
    method Next(e: Event)
      modifies this`out
      ensures State() == if old(end).Open? then old(State()).(out := old(out) + [e]) else old(State())
    {
      if end.Open? {
        out := out + [e];
      }
    }

    /** `subscriber.complete`, `subscriber.error` or unsubscription, with the teardown they trigger. */
    method Close(reason: End)
      modifies this`end, this`isDone
      ensures State() == Finish(old(State()), reason)
    {
      if end.Open? {
        end := reason;
        isDone := true;
      }
    }

    /**
     * One Pub/Sub message.  A done connection, a malformed message and an event already seen
     * change nothing; before the history, an event fills the buffer or, past 500, ends the stream
     * in error; after it, a new event is emitted, and a terminal one completes the stream.
     */
    method HandleMessage(message: Message)
      modifies this
      ensures State() == StepConn(old(State()), OnMessage(message))
      ensures old(isDone) || message.Malformed? ==> State() == old(State())
      ensures !old(isDone) && message.Parsed? && !old(historyLoaded) && |old(liveBuffer)| < 500 ==>
                State() == old(State()).(liveBuffer := old(liveBuffer) + [message.event])
      ensures !old(isDone) && message.Parsed? && !old(historyLoaded) && |old(liveBuffer)| >= 500 ==>
                EndsWith(Errored, old(State()), State())
      ensures !old(isDone) && message.Parsed? && old(historyLoaded) && message.event.num <= old(highestHistorySeq) ==>
                State() == old(State())
      ensures !old(isDone) && message.Parsed? && old(historyLoaded) && message.event.num > old(highestHistorySeq) &&
              old(end).Open? ==>
                var emitted := old(State()).(highestHistorySeq := message.event.num, out := old(out) + [message.event]);
                if message.event.body.Progress? then State() == emitted
                else State() == emitted.(isDone := true, end := End.Completed)
    {
      if isDone {
        return;
      }
      match message {
        case Malformed =>
        case Parsed(event) =>
          if !historyLoaded {
            if |liveBuffer| >= MAX_LIVE_BUFFER_SIZE {
              isDone := true;
              Close(Errored);
              return;
            }
            liveBuffer := liveBuffer + [event];
            return;
          }
          if event.num > highestHistorySeq {
            highestHistorySeq := event.num;
            Next(event);
            if IsTerminal(event) {
              isDone := true;
              Close(End.Completed);
            }
          }
      }
    }

    method HandleHistory(rows: seq<Event>)
      modifies this
      ensures State() == StepConn(old(State()), OnHistory(rows))
      ensures old(isDone) ==> State() == old(State())
    {
      if isDone {
        return;
      }
      ghost var before := State();
      for i := 0 to |rows|
        invariant !isDone
        invariant Replay(before, rows) == Replay(State(), rows[i..])
      {
        var event := rows[i];
        assert rows[i..][0] == event && rows[i..][1..] == rows[i + 1..];
        highestHistorySeq := if event.num > highestHistorySeq then event.num else highestHistorySeq;
        Next(event);
        if IsTerminal(event) {
          isDone := true;
          Close(End.Completed);
          return;
        }
      }
      historyLoaded := true;
      ghost var loaded := State();
      ghost var buffered := liveBuffer;
      for i := 0 to |liveBuffer|
        invariant !isDone && liveBuffer == buffered
        invariant Drain(loaded, buffered) == Drain(State(), buffered[i..])
      {
        var event := liveBuffer[i];
        assert buffered[i..][0] == event && buffered[i..][1..] == buffered[i + 1..];
        if event.num > highestHistorySeq {
          highestHistorySeq := event.num;
          Next(event);
          if IsTerminal(event) {
            isDone := true;
            ghost var stopping := State();
            liveBuffer := [];
            Close(End.Completed);
            assert State() == Finish(stopping, End.Completed).(liveBuffer := []);
            return;
          }
        }
      }
      liveBuffer := [];
    }

    /** A failed history query ends an open stream in error, with nothing more emitted; a done one stays as it is. */
    method HandleQueryFailed()
      modifies this
      ensures State() == StepConn(old(State()), OnQueryFailed)
      ensures !old(isDone) && old(end).Open? ==> EndsWith(Errored, old(State()), State())
      ensures old(isDone) || !old(end).Open? ==> State() == old(State())
    {
      if !isDone {
        Close(Errored);
      }
    }

    /** A Redis error ends an open stream in error, and so lets the client reconnect. */
    method HandleRedisError()
      modifies this
      ensures State() == StepConn(old(State()), OnRedisError)
      ensures old(end).Open? ==> EndsWith(Errored, old(State()), State())
      ensures !old(end).Open? ==> State() == old(State())
    {
      Close(Errored);
    }

    /** The teardown of a client that goes away. */
    method Unsubscribe()
      modifies this
      ensures State() == StepConn(old(State()), OnUnsubscribe)
      ensures old(end).Open? ==> EndsWith(Unsubscribed, old(State()), State())
      ensures !old(end).Open? ==> State() == old(State())
    {
      Close(Unsubscribed);
    }
  }
}
