/**
 * The whole system: every task's cell, and the two maintenance jobs that act on many tasks in
 * one transaction.  Each system step moves every cell by at most one `Lifecycle` action, so all
 * theorems about one task hold in every run of the system.
 */
module Proxy {
  import opened Wrappers
  import opened Schema
  import opened Lifecycle
  import opened LifecycleTheorems
  import opened RowHistory

  const SWEEP_BATCH_SIZE := 500
  const RETENTION_DELETE_BATCH_SIZE := 500

  type Cells = map<TaskId, Cell>

  /** The ids a retention run has selected for its next batch, and by which cutoff. */
  datatype Selection = Selection(ids: set<TaskId>, cutoff: Time)

  /** `pruning` holds what each retention run has selected and not yet deleted. */
  datatype System = System(cells: Cells, pruning: map<nat, Selection>)

  datatype SystemAction =
    | CreateTask(t: TaskId, row: Row)
    | OnTask(t: TaskId, a: Action)
    | SweepBegin(s: nat, batch: set<TaskId>, now: Time)
    | SweepReadAll(s: nat)
    | SweepEnd(s: nat)
    | SweepAbort(s: nat)
    | RetentionSelect(d: nat, ids: set<TaskId>, cutoff: Time)
    | RetentionDelete(d: nat)

  predicate HeldBy(c: Cell, s: nat) {
    c.rowLock.BySweep? && c.rowLock.sweep == s
  }

  function Batch(cells: Cells, s: nat): set<TaskId> {
    set t | t in cells && HeldBy(cells[t], s)
  }

  predicate IsBatchAction(a: Action) {
    a.SweepLock? || a.SweepRead? || a.SweepCommit? || a.SweepRollback? || a.Prune?
  }

  ghost predicate AllEnabled(cells: Cells, ids: set<TaskId>, a: Action) {
    forall t :: t in ids ==> t in cells && Enabled(cells[t], a)
  }

  function ApplyAll(cells: Cells, ids: set<TaskId>, a: Action): Cells
    requires forall t :: t in ids ==> t in cells && Enabled(cells[t], a)
  {
    map t | t in cells :: if t in ids then Step(cells[t], a) else cells[t]
  }

  ghost predicate SystemEnabled(s: System, a: SystemAction) {
    match a
    case CreateTask(t, row) => t !in s.cells && ValidRow(row) && row.status == PENDING
    case OnTask(t, a) => t in s.cells && !IsBatchAction(a) && Enabled(s.cells[t], a)
    case SweepBegin(n, batch, now) =>
      && 0 < |batch| <= SWEEP_BATCH_SIZE
      && Batch(s.cells, n) == {}
      && forall t :: t in batch ==>
           t in s.cells && s.cells[t].rowLock.Free? && s.cells[t].row.Some? && Expired(s.cells[t].row.value, now)
    case SweepReadAll(n) => Batch(s.cells, n) != {} && AllEnabled(s.cells, Batch(s.cells, n), SweepRead(n))
    case SweepEnd(n) =>
      Batch(s.cells, n) != {} && forall t :: t in Batch(s.cells, n) ==> s.cells[t].rowLock.read.Some?
    case SweepAbort(n) => true
    case RetentionSelect(d, ids, cutoff) =>
      && d !in s.pruning && |ids| <= RETENTION_DELETE_BATCH_SIZE
      && forall t :: t in ids ==>
           t in s.cells && s.cells[t].row.Some? &&
           !InFlight(s.cells[t].row.value) && s.cells[t].row.value.createdAt < cutoff
    case RetentionDelete(d) => d in s.pruning && AllEnabled(s.cells, s.pruning[d].ids, Prune)
  }

  /** One rejected row aborts the UPDATE, and one taken seq the INSERT; either rolls back the whole batch. */
  ghost function SystemStep(s: System, a: SystemAction): System
    requires SystemEnabled(s, a)
  {
    match a
    case CreateTask(t, row) => s.(cells := s.cells[t := NewCell(row)])
    case OnTask(t, a) => s.(cells := s.cells[t := Step(s.cells[t], a)])
    case SweepBegin(n, batch, now) =>
      var lock := SweepLock(n, now);
      if AllEnabled(s.cells, batch, lock) then s.(cells := ApplyAll(s.cells, batch, lock)) else s
    case SweepReadAll(n) => s.(cells := ApplyAll(s.cells, Batch(s.cells, n), SweepRead(n)))
    case SweepEnd(n) =>
      var batch := Batch(s.cells, n);
      if AllEnabled(s.cells, batch, SweepCommit(n)) then s.(cells := ApplyAll(s.cells, batch, SweepCommit(n)))
      else s.(cells := ApplyAll(s.cells, batch, SweepRollback(n)))
    case SweepAbort(n) => s.(cells := ApplyAll(s.cells, Batch(s.cells, n), SweepRollback(n)))
    case RetentionSelect(d, ids, cutoff) => s.(pruning := s.pruning[d := Selection(ids, cutoff)])
    case RetentionDelete(d) => s.(cells := ApplyAll(s.cells, s.pruning[d].ids, Prune), pruning := s.pruning - {d})
  }

  ghost predicate SystemNext(s: System, s': System) {
    exists a :: SystemEnabled(s, a) && s' == SystemStep(s, a)
  }

  ghost predicate Run(b: seq<System>) {
    && |b| > 0 && b[0] == System(map[], map[])
    && (forall i :: 0 <= i < |b| - 1 ==> SystemNext(b[i], b[i + 1]))
  }

  // ---- Every system step is at most one action of each task ---------------------------------

  ghost predicate CellsMove(cells: Cells, cells': Cells) {
    && (forall t :: t in cells ==> t in cells' && Next(cells[t], cells'[t]))
    && (forall t :: t in cells' && t !in cells ==> IsNew(cells'[t]))
  }

  ghost predicate IsNew(c: Cell) {
    exists row :: ValidRow(row) && row.status == PENDING && c == NewCell(row)
  }

  lemma ApplyAllMoves(cells: Cells, ids: set<TaskId>, a: Action)
    requires AllEnabled(cells, ids, a)
    ensures CellsMove(cells, ApplyAll(cells, ids, a))
  {
    forall t | t in cells ensures Next(cells[t], ApplyAll(cells, ids, a)[t]) {
      if t in ids {
        assert Enabled(cells[t], a);
      }
    }
  }

  lemma SystemStepMovesCells(s: System, a: SystemAction)
    requires SystemEnabled(s, a)
    ensures CellsMove(s.cells, SystemStep(s, a).cells)
  {
    match a
    case CreateTask(t, row) =>
    case OnTask(t, act) =>
    case SweepBegin(n, batch, now) =>
      if AllEnabled(s.cells, batch, SweepLock(n, now)) {
        ApplyAllMoves(s.cells, batch, SweepLock(n, now));
      }
    case SweepReadAll(n) => ApplyAllMoves(s.cells, Batch(s.cells, n), SweepRead(n));
    case SweepEnd(n) =>
      var batch := Batch(s.cells, n);
      if AllEnabled(s.cells, batch, SweepCommit(n)) {
        ApplyAllMoves(s.cells, batch, SweepCommit(n));
      } else {
        ApplyAllMoves(s.cells, batch, SweepRollback(n));
      }
    case SweepAbort(n) => ApplyAllMoves(s.cells, Batch(s.cells, n), SweepRollback(n));
    case RetentionSelect(d, ids, cutoff) =>
    case RetentionDelete(d) => ApplyAllMoves(s.cells, s.pruning[d].ids, Prune);
  }

  lemma RunMoves(b: seq<System>, i: nat)
    requires Run(b) && i < |b| - 1
    ensures CellsMove(b[i].cells, b[i + 1].cells)
  {
    assert SystemNext(b[i], b[i + 1]);
    var a :| SystemEnabled(b[i], a) && b[i + 1] == SystemStep(b[i], a);
    SystemStepMovesCells(b[i], a);
  }

  /** What a run does to the cells, without naming the steps. */
  ghost predicate Moves(b: seq<System>) {
    && |b| > 0 && b[0].cells == map[]
    && (forall i :: 0 <= i < |b| - 1 ==> CellsMove(b[i].cells, b[i + 1].cells))
  }

  lemma RunIsMoves(b: seq<System>)
    requires Run(b)
    ensures Moves(b)
  {
    forall i | 0 <= i < |b| - 1 ensures CellsMove(b[i].cells, b[i + 1].cells) {
      RunMoves(b, i);
    }
  }

  /** Where a task first appears in a run. */
  ghost predicate BornAt(b: seq<System>, t: TaskId, start: nat, j: nat) {
    && start <= j < |b|
    && (forall k :: start <= k <= j ==> t in b[k].cells)
    && (forall k :: 0 <= k < start ==> t !in b[k].cells)
    && IsNew(b[start].cells[t])
  }

  /** The life of one task within a run, from its creation on. */
  ghost function LifeOf(b: seq<System>, t: TaskId, start: nat, j: nat): seq<Cell>
    requires BornAt(b, t, start, j)
  {
    seq(j - start + 1, k requires 0 <= k <= j - start => b[start + k].cells[t])
  }

  lemma {:induction false} Birth(b: seq<System>, t: TaskId, j: nat) returns (start: nat)
    requires Moves(b) && j < |b| && t in b[j].cells
    ensures BornAt(b, t, start, j)
    decreases j
  {
    if j > 0 {
      assert CellsMove(b[j - 1].cells, b[j - 1 + 1].cells);
      if t in b[j - 1].cells {
        start := Birth(b, t, j - 1);
      } else {
        start := j;
        NeverBefore(b, t, j - 1);
      }
    }
  }

  /**
   * Projection: in any run, what happens to one task is a behavior of the single-task machine,
   * so the theorems of `LifecycleTheorems` hold of every task of every run.
   */
  lemma {:induction false} LifeIsBehavior(b: seq<System>, t: TaskId, start: nat, j: nat)
    requires Moves(b) && BornAt(b, t, start, j)
    ensures Behavior(LifeOf(b, t, start, j))
  {
    var life := LifeOf(b, t, start, j);
    forall i | 0 <= i < |life| - 1 ensures Next(life[i], life[i + 1]) {
      LifeMoves(b, t, start, j, i);
    }
    assert IsNew(life[0]);
  }

  lemma LifeMoves(b: seq<System>, t: TaskId, start: nat, j: nat, i: nat)
    requires BornAt(b, t, start, j) && i < j - start && CellsMove(b[start + i].cells, b[start + i + 1].cells)
    ensures Next(LifeOf(b, t, start, j)[i], LifeOf(b, t, start, j)[i + 1])
  {
    var k := start + i;
    var c, c' := b[k].cells[t], b[k + 1].cells[t];
    assert Next(c, c');
    assert LifeOf(b, t, start, j)[i] == c;
    assert LifeOf(b, t, start, j)[i + 1] == c';
  }

  lemma {:induction false} NeverBefore(b: seq<System>, t: TaskId, j: nat)
    requires Moves(b) && j < |b| && t !in b[j].cells
    ensures forall k :: 0 <= k <= j ==> t !in b[k].cells
    decreases j
  {
    if j > 0 {
      assert CellsMove(b[j - 1].cells, b[j - 1 + 1].cells);
      NeverBefore(b, t, j - 1);
    }
  }

  lemma RunInv(b: seq<System>, j: nat, t: TaskId)
    requires Run(b) && j < |b| && t in b[j].cells
    ensures Inv(b[j].cells[t])
  {
    RunIsMoves(b);
    var start := Birth(b, t, j);
    LifeIsBehavior(b, t, start, j);
    var life := LifeOf(b, t, start, j);
    BehaviorInv(life, j - start);
  }

  lemma RunLater(b: seq<System>, i: nat, j: nat, t: TaskId)
    requires Run(b) && i <= j < |b| && t in b[i].cells
    ensures t in b[j].cells && Later(b[i].cells[t], b[j].cells[t])
  {
    RunIsMoves(b);
    StaysIn(b, i, j, t);
    var start := Birth(b, t, j);
    LifeIsBehavior(b, t, start, j);
    var life := LifeOf(b, t, start, j);
    BehaviorLater(life, i - start, j - start);
  }

  lemma {:induction false} StaysIn(b: seq<System>, i: nat, j: nat, t: TaskId)
    requires Moves(b) && i <= j < |b| && t in b[i].cells
    ensures t in b[j].cells
    decreases j
  {
    if i < j {
      StaysIn(b, i, j - 1, t);
      assert CellsMove(b[j - 1].cells, b[j - 1 + 1].cells);
    }
  }

  /**
   * Every task of every run of the whole system: contiguous seqs while it lives, at most one
   * terminal event ever, the row in agreement with it, one claim and three POSTs at most; and a
   * terminal row keeps its status and outcome, through sweeps and retention alike.
   */
  lemma EveryTaskInRun(b: seq<System>, i: nat, j: nat, t: TaskId)
    requires Run(b) && i <= j < |b| && t in b[i].cells
    ensures t in b[j].cells
    ensures var c, c' := b[i].cells[t], b[j].cells[t];
            && AtMostOneTerminal(c'.ever) && c'.claims <= 1 && c'.posts <= 3 && c'.webhookJobs <= 1
            && (c'.row.Some? ==>
                  && c.row.Some? && c.log <= c'.log && Contiguous(c'.log) && ValidRow(c'.row.value)
                  && (forall e :: e in c'.ever && IsTerminal(e) ==> Matches(c'.row.value, e.body))
                  && (!InFlight(c.row.value) ==>
                        && c'.row.value.status == c.row.value.status
                        && c'.row.value.result == c.row.value.result && c'.row.value.error == c.row.value.error))
  {
    RunIsMoves(b);
    StaysIn(b, i, j, t);
    var start := Birth(b, t, j);
    LifeIsBehavior(b, t, start, j);
    var life := LifeOf(b, t, start, j);
    assert start <= i;
    assert life[i - start] == b[i].cells[t] && life[j - start] == b[j].cells[t];
    BehaviorInv(life, j - start);
    SingleDispatch(life, j - start, j - start);
    TerminalEventAgreement(life, j - start);
    if b[j].cells[t].row.Some? {
      LogGrows(life, i - start, j - start);
      LifecycleSafety(life, i - start, j - start);
    }
  }

  // ---- The sweeper's batch -----------------------------------------------------------------

  /**
   * A sweep batch gets past its UPDATE exactly when none of its rows is PENDING; one expired
   * PENDING row makes the CHECK reject the statement and leaves the whole system unchanged.
   */
  lemma BatchAcceptedIffNoPending(b: seq<System>, i: nat, n: nat, batch: set<TaskId>, now: Time)
    requires Run(b) && i < |b| && SystemEnabled(b[i], SweepBegin(n, batch, now))
    ensures var s' := SystemStep(b[i], SweepBegin(n, batch, now));
            var noPending := forall t :: t in batch ==> b[i].cells[t].row.value.status != PENDING;
            && (noPending ==> Batch(s'.cells, n) == batch)
            && (!noPending ==> s' == b[i])
  {
    var cells := b[i].cells;
    var lock := SweepLock(n, now);
    forall t | t in batch ensures Enabled(cells[t], lock) <==> cells[t].row.value.status != PENDING {
      RunInv(b, i, t);
      CheckRejectsExactlyUnclaimed(cells[t].row.value, IN_FLIGHT, ToFailed(TIMEOUT_ERROR, now));
    }
    if forall t :: t in batch ==> cells[t].row.value.status != PENDING {
      var cells' := ApplyAll(cells, batch, lock);
      forall t | t in cells' ensures t in Batch(cells', n) <==> t in batch {
        if t !in batch {
          assert t !in Batch(cells, n);
        }
      }
    } else {
      var t :| t in batch && cells[t].row.value.status == PENDING;
      assert !Enabled(cells[t], lock);
    }
  }

  /** One task of a batch as its transaction ends: failed with exactly one new event, or just unlocked. */
  predicate SweptTo(c: Cell, c': Cell) {
    && c'.row.Some? && c'.row.value.status == FAILED && c'.row.value.error == Some(TIMEOUT_ERROR)
    && c'.log == c.log + [Event(|c.log| + 1, Failed(TIMEOUT_ERROR))]
  }

  /** The batch is atomic: every task is failed with one event at its MAX + 1, or no row and no log changes. */
  lemma {:induction false} SweepIsAtomic(b: seq<System>, i: nat, n: nat)
    requires Run(b) && i < |b| && SystemEnabled(b[i], SweepEnd(n))
    ensures var cells, cells' := b[i].cells, SystemStep(b[i], SweepEnd(n)).cells;
            || (forall t :: t in Batch(cells, n) ==> t in cells' && SweptTo(cells[t], cells'[t]))
            || (forall t :: t in cells ==>
                  t in cells' && cells'[t].row == cells[t].row && cells'[t].log == cells[t].log)
  {
    var cells := b[i].cells;
    var batch := Batch(cells, n);
    if AllEnabled(cells, batch, SweepCommit(n)) {
      forall t | t in batch ensures SweptTo(cells[t], Step(cells[t], SweepCommit(n))) {
        RunInv(b, i, t);
        CommitSweeps(cells[t], n);
      }
    }
  }

  lemma CommitSweeps(c: Cell, n: nat)
    requires Inv(c) && Enabled(c, SweepCommit(n))
    ensures SweptTo(c, Step(c, SweepCommit(n)))
  {
    FreeIsLast(c.log, c.rowLock.read.value);
  }

  lemma RowInRun(b: seq<System>, i: nat, j: nat, t: TaskId)
    requires Run(b) && i <= j < |b| && t in b[i].cells && b[i].cells[t].row.Some?
    ensures t in b[j].cells
    ensures b[j].cells[t].row.Some? ==> SameTask(b[i].cells[t].row.value, b[j].cells[t].row.value)
  {
    RunIsMoves(b);
    StaysIn(b, i, j, t);
    var start := Birth(b, t, j);
    LifeIsBehavior(b, t, start, j);
    var life := LifeOf(b, t, start, j);
    assert start <= i;
    assert life[i - start] == b[i].cells[t] && life[j - start] == b[j].cells[t];
    if b[j].cells[t].row.Some? {
      RowsStayTheSame(life, i - start, j - start);
    }
  }

  /** In the system too, no task is ever timed out before its deadline. */
  lemma SweptLateInRun(b: seq<System>, j: nat, t: TaskId)
    requires Run(b) && j < |b| && t in b[j].cells && b[j].cells[t].row.Some?
    requires b[j].cells[t].verdict.Some? && b[j].cells[t].verdict.value.author.TheSweep?
    ensures var row := b[j].cells[t].row.value;
            && row.status == FAILED && row.error == Some(TaskError("BUSINESS_TIMEOUT", TIMEOUT_ERROR.message))
            && row.expiresAt.Some? && row.completedAt.Some? && row.expiresAt.value < row.completedAt.value
  {
    RunIsMoves(b);
    var start := Birth(b, t, j);
    LifeIsBehavior(b, t, start, j);
    var life := LifeOf(b, t, start, j);
    assert life[j - start] == b[j].cells[t];
    SweptRowsWereLate(life, j - start);
  }

  /** Terminal, and created before the cutoff. */
  predicate Prunable(row: Row, cutoff: Time) {
    (row.status == COMPLETED || row.status == FAILED || row.status == CANCELLED) && row.createdAt < cutoff
  }

  predicate IsSelected(s: System, d: nat, t: TaskId) {
    d in s.pruning && t in s.pruning[d].ids
  }

  /** One step of the system brings an id into a retention batch only if its row is prunable at that moment. */
  lemma SelectedIsPrunable(s: System, a: SystemAction, d: nat, t: TaskId)
    requires SystemEnabled(s, a) && IsSelected(SystemStep(s, a), d, t)
    ensures var s' := SystemStep(s, a);
            || (IsSelected(s, d, t) && s'.pruning[d] == s.pruning[d])
            || (t in s.cells && s.cells[t].row.Some? && Prunable(s.cells[t].row.value, s'.pruning[d].cutoff))
  {
  }

  lemma SelectedInRun(b: seq<System>, i: nat, d: nat, t: TaskId)
    requires Run(b) && i < |b| - 1 && IsSelected(b[i + 1], d, t)
    ensures || (IsSelected(b[i], d, t) && b[i + 1].pruning[d] == b[i].pruning[d])
            || (t in b[i].cells && b[i].cells[t].row.Some? &&
                Prunable(b[i].cells[t].row.value, b[i + 1].pruning[d].cutoff))
  {
    assert SystemNext(b[i], b[i + 1]);
    var a :| SystemEnabled(b[i], a) && b[i + 1] == SystemStep(b[i], a);
    SelectedIsPrunable(b[i], a, d, t);
  }

  lemma PrunableStays(b: seq<System>, i: nat, j: nat, t: TaskId, cutoff: Time)
    requires Run(b) && i <= j < |b| && t in b[i].cells
    requires b[i].cells[t].row.Some? ==> Prunable(b[i].cells[t].row.value, cutoff)
    ensures t in b[j].cells
    ensures b[j].cells[t].row.Some? ==> Prunable(b[j].cells[t].row.value, cutoff)
  {
    RunLater(b, i, j, t);
    if b[i].cells[t].row.Some? {
      RowInRun(b, i, j, t);
    }
  }

  lemma TerminalHasVerdict(b: seq<System>, i: nat, t: TaskId)
    requires Run(b) && i < |b| && t in b[i].cells && b[i].cells[t].row.Some? && !InFlight(b[i].cells[t].row.value)
    ensures b[i].cells[t].verdict.Some?
  {
    RunInv(b, i, t);
  }

  lemma VerdictStays(b: seq<System>, i: nat, j: nat, t: TaskId)
    requires Run(b) && i <= j < |b| && t in b[i].cells && b[i].cells[t].verdict.Some?
    ensures t in b[j].cells && b[j].cells[t].verdict.Some?
  {
    RunLater(b, i, j, t);
  }

  /**
   * An id selected for deletion belongs, until it is deleted, to a terminal row older than the
   * selection's cutoff.
   */
  lemma {:induction false} PruningIsTerminal(b: seq<System>, i: nat, d: nat, t: TaskId)
    requires Run(b) && i < |b| && IsSelected(b[i], d, t)
    ensures t in b[i].cells && b[i].cells[t].verdict.Some?
    ensures b[i].cells[t].row.Some? ==> Prunable(b[i].cells[t].row.value, b[i].pruning[d].cutoff)
    decreases i
  {
    if i > 0 {
      SelectedInRun(b, i - 1, d, t);
      if IsSelected(b[i - 1], d, t) && b[i].pruning[d] == b[i - 1].pruning[d] {
        PruningIsTerminal(b, i - 1, d, t);
      } else {
        TerminalHasVerdict(b, i - 1, t);
      }
      VerdictStays(b, i - 1, i, t);
      PrunableStays(b, i - 1, i, t, b[i].pruning[d].cutoff);
    }
  }

  /**
   * Retention may act on ids selected long before, yet every row it removes is COMPLETED, FAILED
   * or CANCELLED and was created before its cutoff; the log goes with the row, and every other
   * task is left exactly as it was.
   */
  lemma RetentionNeverRemovesInFlight(b: seq<System>, i: nat, d: nat, t: TaskId)
    requires Run(b) && i < |b| && SystemEnabled(b[i], RetentionDelete(d)) && t in b[i].cells
    ensures var c, c' := b[i].cells[t], SystemStep(b[i], RetentionDelete(d)).cells[t];
            if IsSelected(b[i], d, t)
            then c'.row.None? && c'.log == [] && (c.row.Some? ==> Prunable(c.row.value, b[i].pruning[d].cutoff))
            else c' == c
  {
    if IsSelected(b[i], d, t) {
      PruningIsTerminal(b, i, d, t);
    }
  }

  /**
   * End to end, in the whole system: a terminal event delivered on any stream is the outcome of
   * the row at that moment and for the rest of its life, whatever sweeps and retention do.
   */
  lemma DeliveredTerminalIsDurableInRun(b: seq<System>, i: nat, j: nat, t: TaskId, k: StreamId, e: Event)
    requires Run(b) && i <= j < |b| && t in b[i].cells && k in b[i].cells[t].streams
    requires e in b[i].cells[t].streams[k].conn.out && IsTerminal(e)
    ensures t in b[j].cells && (b[j].cells[t].row.Some? ==> Matches(b[j].cells[t].row.value, e.body))
  {
    RunIsMoves(b);
    StaysIn(b, i, j, t);
    var start := Birth(b, t, j);
    LifeIsBehavior(b, t, start, j);
    var life := LifeOf(b, t, start, j);
    assert start <= i;
    DeliveredTerminalIsDurable(life, i - start, j - start, k, e);
  }
}
