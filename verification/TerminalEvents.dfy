/**
 * Which terminal rows have their terminal event, which of the others still can get it, and what
 * that means for the streams of a task.
 */
module TerminalEvents {
  import opened Wrappers
  import opened Schema
  import opened Lifecycle
  import opened LifecycleTheorems
  import Retry = HttpRetry
  import Sse

  /** The result request r has committed its event, and nothing after that yet. */
  predicate ResultLogged(c: Cell, r: RequestId) {
    IsLogged(c, r) && c.requests[r].Result?
  }

  lemma OthersCommitNothing(c: Cell, a: Action)
    requires Enabled(c, a) && !a.InsertEvent? && !a.SweepCommit?
    ensures Step(c, a).verdictEvent == c.verdictEvent
  {
  }

  lemma InsertCommits(c: Cell, r: RequestId)
    requires Enabled(c, InsertEvent(r)) && RequestInv(c, r, c.requests[r]) && c.verdictEvent.None?
    ensures
      var c' := Step(c, InsertEvent(r));
      c'.verdictEvent.Some? ==>
        c'.verdict.Some? &&
        (c'.verdict.value.author.TheCancel? || (c'.verdict.value.author == TheResult(r) && ResultLogged(c', r)))
  {
  }

  /** Only three actions commit a terminal event, each on behalf of the verdict's author. */
  lemma {:induction false} WhoCommits(c: Cell, a: Action)
    requires Inv(c) && Enabled(c, a) && c.verdictEvent.None? && Step(c, a).verdictEvent.Some?
    ensures
      var c' := Step(c, a);
      c'.verdict.Some? &&
      match c'.verdict.value.author
      case TheResult(r) => ResultLogged(c', r)
      case TheDispatch => false
      case _ => true
  {
    if a.InsertEvent? {
      InsertCommits(c, a.r);
    } else if !a.SweepCommit? {
      OthersCommitNothing(c, a);
    }
  }

  lemma CommitStep(c: Cell, c': Cell)
    requires Inv(c) && Next(c, c') && c'.verdictEvent.Some?
    ensures c'.verdict.Some? && (c.verdictEvent.Some? ==> c.verdict == c'.verdict)
    ensures c.verdictEvent.None? && c'.verdict.value.author.TheResult? ==>
              ResultLogged(c', c'.verdict.value.author.request)
  {
    if c' != c {
      var a :| Enabled(c, a) && c' == Step(c, a);
      StepIsLater(c, a);
      if c.verdictEvent.None? {
        WhoCommits(c, a);
      }
    }
  }

  lemma {:induction false} CommitOfResult(b: seq<Cell>, i: nat) returns (k: nat)
    requires Behavior(b) && i < |b| && b[i].verdictEvent.Some?
    requires b[i].verdict.Some? && b[i].verdict.value.author.TheResult?
    ensures k <= i && ResultLogged(b[k], b[i].verdict.value.author.request)
  {
    assert b[0].verdictEvent.None?;
    BehaviorInv(b, i - 1);
    assert Next(b[i - 1], b[i - 1 + 1]);
    CommitStep(b[i - 1], b[i]);
    if b[i - 1].verdictEvent.Some? {
      k := CommitOfResult(b, i - 1);
    } else {
      k := i;
    }
  }

  lemma LoggedIsTerminal(b: seq<Cell>, k: nat, i: nat, r: RequestId)
    requires Behavior(b) && k <= i < |b| && ResultLogged(b[k], r) && b[i].row.Some?
    ensures !NoTerminal(b[i].log)
  {
    BehaviorInv(b, k);
    BehaviorInv(b, i);
    BehaviorLater(b, k, i);
    assert RequestInv(b[k], r, b[k].requests[r]);
    assert b[k].verdictEvent.value in b[i].ever;
  }

  /**
   * A terminal row has its terminal event if and only if it was cancelled, swept, or finished by
   * a result request that got as far as committing the event in its second transaction.
   */
  lemma TerminalRowHasEventIff(b: seq<Cell>, i: nat)
    requires Behavior(b) && i < |b| && b[i].row.Some? && !InFlight(b[i].row.value)
    ensures b[i].verdict.Some?
    ensures
      var author := b[i].verdict.value.author;
      !NoTerminal(b[i].log) <==>
        || author.TheCancel? || author.TheSweep?
        || (author.TheResult? && exists k: nat :: k <= i && ResultLogged(b[k], author.request))
  {
    BehaviorInv(b, i);
    var c := b[i];
    var author := c.verdict.value.author;
    assert NoTerminal(c.log) <==> c.verdictEvent.None?;
    if author.TheResult? {
      if c.verdictEvent.Some? {
        var k := CommitOfResult(b, i);
      }
      if k: nat :| k <= i && ResultLogged(b[k], author.request) {
        LoggedIsTerminal(b, k, i, author.request);
      }
    }
  }

  // ---- Rows that never get their event -----------------------------------------------------

  /** The verdict's event is not there, and whoever should commit it is gone or never does. */
  predicate Silenced(c: Cell) {
    && c.verdict.Some? && c.verdictEvent.None?
    && match c.verdict.value.author
       case TheDispatch => true
       case TheResult(r) => Has(c, r) && c.requests[r].Finished?
       case _ => false
  }

  lemma StepKeepsSilence(c: Cell, a: Action)
    requires Inv(c) && Enabled(c, a) && Silenced(c)
    ensures Silenced(Step(c, a))
  {
    StepIsLater(c, a);
    if Step(c, a).verdictEvent.Some? {
      WhoCommits(c, a);
    }
    FinishedStays(c, a);
  }

  lemma NextKeepsSilence(c: Cell, c': Cell)
    requires Inv(c) && Next(c, c') && Silenced(c)
    ensures Silenced(c')
  {
    if c' != c {
      var a :| Enabled(c, a) && c' == Step(c, a);
      StepKeepsSilence(c, a);
    }
  }

  lemma FinishedStays(c: Cell, a: Action)
    requires Enabled(c, a)
    ensures forall r :: Has(c, r) && c.requests[r].Finished? ==> Has(Step(c, a), r) && Step(c, a).requests[r].Finished?
  {
  }

  lemma {:induction false} SilenceLasts(b: seq<Cell>, i: nat, j: nat)
    requires Behavior(b) && i <= j < |b| && Silenced(b[i])
    ensures Silenced(b[j])
    decreases j
  {
    if i < j {
      SilenceLasts(b, i, j - 1);
      BehaviorInv(b, j - 1);
      assert Next(b[j - 1], b[j - 1 + 1]);
      NextKeepsSilence(b[j - 1], b[j]);
    }
  }

  /** A stream completes only on the task's terminal event. */
  lemma CompletedNeedsEvent(c: Cell, k: StreamId)
    requires Inv(c) && k in c.streams && c.streams[k].conn.end.Completed?
    ensures c.verdictEvent.Some?
  {
    var out := c.streams[k].conn.out;
    assert StreamInv(c.streams[k], c.ever);
    assert out[|out| - 1] in out;
  }

  /**
   * Dispatch failures, and results whose request died between its two transactions: from then on
   * the log never holds a terminal event and no stream of the task ever completes.
   */
  lemma SilencedForGood(b: seq<Cell>, i: nat, j: nat)
    requires Behavior(b) && i <= j < |b| && Silenced(b[i])
    ensures NoTerminal(b[j].log)
    ensures forall k :: k in b[j].streams ==> !b[j].streams[k].conn.end.Completed?
  {
    SilenceLasts(b, i, j);
    BehaviorInv(b, j);
    forall k | k in b[j].streams ensures !b[j].streams[k].conn.end.Completed? {
      if b[j].streams[k].conn.end.Completed? {
        CompletedNeedsEvent(b[j], k);
      }
    }
  }

  /** In particular a stream of a task that failed in dispatch never ends by itself. */
  lemma DispatchFailureIsForGood(b: seq<Cell>, i: nat, j: nat)
    requires Behavior(b) && i <= j < |b| && b[i].verdict.Some? && b[i].verdict.value.author.TheDispatch?
    ensures NoTerminal(b[j].log)
    ensures forall k :: k in b[j].streams ==> !b[j].streams[k].conn.end.Completed?
  {
    BehaviorInv(b, i);
    SilencedForGood(b, i, j);
  }

  // ---- Rows that can still get it ----------------------------------------------------------

  /** The result request behind a verdict has written the row; the advisory lock has a holder. */
  ghost predicate AuthorInv(c: Cell) {
    AuthorWrote(c) && AdvisoryHeld(c)
  }

  ghost predicate AuthorWrote(c: Cell) {
    c.verdict.Some? && c.verdict.value.author.TheResult? ==>
      var r := c.verdict.value.author.request;
      Has(c, r) && (c.requests[r].Finished? || (c.requests[r].Result? && !c.requests[r].phase.Guarded?))
  }

  ghost predicate AdvisoryHeld(c: Cell) {
    c.advisory.Some? ==> IsLocked(c, c.advisory.value)
  }

  lemma StepKeepsAuthor(c: Cell, a: Action)
    requires Enabled(c, a) && AuthorWrote(c)
    ensures AuthorWrote(Step(c, a))
  {
  }

  lemma StepKeepsAdvisory(c: Cell, a: Action)
    requires Enabled(c, a) && AdvisoryHeld(c)
    ensures AdvisoryHeld(Step(c, a))
  {
  }

  lemma {:induction false} BehaviorAuthor(b: seq<Cell>, i: nat)
    requires Behavior(b) && i < |b|
    ensures AuthorInv(b[i])
  {
    if i > 0 {
      BehaviorAuthor(b, i - 1);
      assert Next(b[i - 1], b[i - 1 + 1]);
      if b[i] != b[i - 1] {
        var a :| Enabled(b[i - 1], a) && b[i] == Step(b[i - 1], a);
        StepKeepsAuthor(b[i - 1], a);
        StepKeepsAdvisory(b[i - 1], a);
      }
    }
  }

  lemma OneMore(b: seq<Cell>, a: Action) returns (b': seq<Cell>)
    requires Behavior(b) && Enabled(b[|b| - 1], a)
    ensures Behavior(b') && |b'| == |b| + 1 && b <= b' && b'[|b'| - 1] == Step(b[|b| - 1], a)
  {
    b' := b + [Step(b[|b| - 1], a)];
    forall i | 0 <= i < |b'| - 1 ensures Next(b'[i], b'[i + 1]) {
      if i < |b| - 1 {
        assert Next(b[i], b[i + 1]);
      }
    }
    assert b'[0] == b[0];
  }

  /** A request that holds the advisory lock for its verdict's event can commit it at once. */
  lemma LockedCommits(c: Cell, r: RequestId)
    requires Inv(c) && Has(c, r) && c.requests[r].Result? && c.requests[r].phase.Locked?
    ensures Enabled(c, InsertEvent(r)) && Step(c, InsertEvent(r)).verdictEvent.Some?
    ensures Step(c, InsertEvent(r)).row == c.row
  {
    assert RequestInv(c, r, c.requests[r]);
    var e := Event(c.requests[r].phase.num, EventOf(c.requests[r]));
    assert !SeqTaken(c.log, e.num);
    assert IsTerminal(e);
  }

  /** One that waits for the lock gets it once its holder is gone. */
  lemma WaitingLocks(b: seq<Cell>, r: RequestId) returns (b': seq<Cell>)
    requires Behavior(b) && AuthorInv(b[|b| - 1])
    requires var c := b[|b| - 1]; Has(c, r) && c.requests[r].Result? && c.requests[r].phase.RowWritten?
    ensures Behavior(b') && b <= b' && b'[|b'| - 1].row == b[|b| - 1].row
    ensures var c' := b'[|b'| - 1]; Has(c', r) && c'.requests[r].Result? && c'.requests[r].phase.Locked?
  {
    b' := b;
    if b[|b| - 1].advisory.Some? {
      b' := OneMore(b, Crash(b[|b| - 1].advisory.value));
    }
    b' := OneMore(b', TakeAdvisory(r));
  }

  /**
   * A terminal row without its event can still get it, in some continuation of the run, if and
   * only if it is not silenced: the result request that owes the event is still alive.
   */
  lemma EventStillPossibleIff(b: seq<Cell>)
    requires Behavior(b)
    requires var c := b[|b| - 1]; c.row.Some? && !InFlight(c.row.value) && NoTerminal(c.log)
    ensures (exists b': seq<Cell> :: Behavior(b') && b <= b' && !NoTerminal(b'[|b'| - 1].log)) <==>
              !Silenced(b[|b| - 1])
  {
    var c := b[|b| - 1];
    if Silenced(c) {
      forall b': seq<Cell> | Behavior(b') && b <= b' ensures NoTerminal(b'[|b'| - 1].log) {
        assert b'[|b| - 1] == c;
        SilencedForGood(b', |b| - 1, |b'| - 1);
      }
    } else {
      var b' := OwedEventComes(b);
    }
  }

  /** A terminal row without its event that is not silenced is owed it by a live result request. */
  lemma WhoOwesIt(c: Cell)
    requires Inv(c) && AuthorInv(c) && c.row.Some? && !InFlight(c.row.value) && NoTerminal(c.log) && !Silenced(c)
    ensures c.verdict.Some? && c.verdict.value.author.TheResult?
    ensures
      var r := c.verdict.value.author.request;
      Has(c, r) && c.requests[r].Result? && (c.requests[r].phase.RowWritten? || c.requests[r].phase.Locked?)
  {
    assert c.verdictEvent.None?;
    assert RequestInv(c, c.verdict.value.author.request, c.requests[c.verdict.value.author.request]);
  }

  lemma EventIsLogged(c: Cell)
    requires Inv(c) && c.row.Some? && c.verdictEvent.Some?
    ensures !NoTerminal(c.log)
  {
    assert c.verdictEvent.value in c.log;
  }

  lemma OwedEventComes(b: seq<Cell>) returns (b': seq<Cell>)
    requires Behavior(b)
    requires var c := b[|b| - 1]; c.row.Some? && !InFlight(c.row.value) && NoTerminal(c.log) && !Silenced(c)
    ensures Behavior(b') && b <= b' && !NoTerminal(b'[|b'| - 1].log)
  {
    BehaviorInv(b, |b| - 1);
    BehaviorAuthor(b, |b| - 1);
    WhoOwesIt(b[|b| - 1]);
    var r := b[|b| - 1].verdict.value.author.request;
    b' := b;
    if b[|b| - 1].requests[r].phase.RowWritten? {
      b' := WaitingLocks(b, r);
    }
    b' := LockedRequestCommits(b', r);
  }

  lemma LockedRequestCommits(b: seq<Cell>, r: RequestId) returns (b': seq<Cell>)
    requires Behavior(b)
    requires var c := b[|b| - 1]; c.row.Some? && Has(c, r) && c.requests[r].Result? && c.requests[r].phase.Locked?
    ensures Behavior(b') && b <= b' && !NoTerminal(b'[|b'| - 1].log)
  {
    BehaviorInv(b, |b| - 1);
    LockedCommits(b[|b| - 1], r);
    b' := OneMore(b, InsertEvent(r));
    BehaviorInv(b', |b'| - 1);
    EventIsLogged(b'[|b'| - 1]);
  }

  // ---- Both kinds of silence happen --------------------------------------------------------

  predicate EndsFailedAndSilent(c: Cell) {
    c.row.Some? && c.row.value.status == FAILED && c.log == []
  }

  lemma ClaimThenRefusal(row: Row) returns (c1: Cell, c2: Cell, c3: Cell)
    requires ValidRow(row) && row.status == PENDING
    ensures Next(NewCell(row), c1) && Next(c1, c2) && Next(c2, c3) && EndsFailedAndSilent(c3)
  {
    var c0 := NewCell(row);
    assert Enabled(c0, Claim(1, 5));
    c1 := Step(c0, Claim(1, 5));
    ClaimFacts(row, 5, 5 + 1000 * row.timeoutSeconds);
    assert c1.requests[1] == Dispatch([]) && c1.rowLock.Free?;
    c2, c3 := RefusedDispatch(c1);
  }

  lemma RefusedDispatch(c1: Cell) returns (c2: Cell, c3: Cell)
    requires Has(c1, 1) && c1.requests[1] == Dispatch([]) && c1.rowLock.Free? && c1.log == []
    requires c1.row.Some? && ValidRow(c1.row.value) && c1.row.value.status == PROCESSING
    ensures Next(c1, c2) && Next(c2, c3) && EndsFailedAndSilent(c3)
  {
    var refused := Retry.Failure(Retry.CallError(Some(404), true, None));
    assert Enabled(c1, PostOnce(1, refused));
    c2 := Step(c1, PostOnce(1, refused));
    assert c2.requests[1].trace == [refused];
    assert Retry.Decide([refused], DISPATCH_ATTEMPTS) == Retry.Stop(Retry.Threw(Retry.NonRetryable(404)));
    ResultUpdateFacts(c2.row.value, Failed(DispatchError(Retry.NonRetryable(404))), 9);
    assert Enabled(c2, EndDispatch(1, 9));
    c3 := Step(c2, EndDispatch(1, 9));
  }

  /** A dispatch failure leaves a FAILED row and an empty log, so a stream on it never ends by itself. */
  lemma DispatchFailureLeavesNoEvent()
    ensures exists b: seq<Cell> :: Behavior(b) && EndsFailedAndSilent(b[|b| - 1])
  {
    var row := NewRow(None, None, 300, 0);
    var c1, c2, c3 := ClaimThenRefusal(row);
    var b := [NewCell(row), c1, c2, c3];
    assert b[0] == NewCell(row) && b[1] == c1 && b[2] == c2 && b[3] == c3;
    assert Behavior(b);
  }

  predicate EndsCompletedAndSilent(c: Cell) {
    c.row.Some? && c.row.value.status == COMPLETED && c.log == [] &&
    forall r :: r in c.requests ==> c.requests[r].Finished?
  }

  lemma CrashedDispatch(row: Row) returns (b: seq<Cell>)
    requires ValidRow(row) && row.status == PENDING
    ensures Behavior(b)
    ensures
      var c := b[|b| - 1];
      && c.row.Some? && ValidRow(c.row.value) && c.row.value.status == PROCESSING && c.log == [] && c.rowLock.Free?
      && c.requests == map[1 := Finished] && c.verdict.None? && c.verdictEvent.None?
  {
    b := [NewCell(row)];
    assert Behavior(b);
    ClaimFacts(row, 5, 5 + 1000 * row.timeoutSeconds);
    b := OneMore(b, Claim(1, 5));
    b := OneMore(b, Crash(1));
  }

  /** A result request that dies between its two transactions leaves a COMPLETED row that never gets an event. */
  lemma LostResultLeavesNoEvent(data: Data)
    ensures exists b: seq<Cell> :: Behavior(b) && EndsCompletedAndSilent(b[|b| - 1]) && Silenced(b[|b| - 1])
  {
    var b := CrashedDispatch(NewRow(None, None, 300, 0));
    b := OneMore(b, GuardResult(2, Completed(data)));
    ResultUpdateFacts(b[|b| - 1].row.value, Completed(data), 9);
    b := OneMore(b, WriteResult(2, 9));
    b := OneMore(b, Crash(2));
    assert Silenced(b[|b| - 1]);
  }
}
