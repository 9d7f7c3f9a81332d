/**
 * Creation and execution together: the creation protocol and the system of tasks run as one, a
 * task entering and leaving the table only by the protocol, and claimed only through a job of
 * its queue.  Retention is off, as in `Creation`.
 */
module PostsPerKey {
  import opened Wrappers
  import opened Collections
  import opened Schema
  import C = Creation
  import L = Lifecycle
  import T = LifecycleTheorems
  import P = Proxy

  datatype Joint = Joint(creation: C.State, system: P.System)

  datatype JointAction =
    // one effect of a creator, a crash, or an expiry
    | Create(a: C.Action, row: Row)
    // a dispatch job reaches a worker, once more or for the first time
    | Deliver(t: TaskId, r: L.RequestId, now: Time)
    // anything else that happens to tasks
    | Other(sa: P.SystemAction)

  /** The system step that goes with an effect on the table: none, the INSERT, or the DELETE. */
  function TableStep(s: C.State, a: C.Action, row: Row): Option<P.SystemAction>
    requires C.Enabled(s, a)
  {
    if C.Step(s, a).w.rows == s.w.rows || !a.Proceed? then None
    else
      match s.creators[a.c].pc
      case Inserting => Some(P.CreateTask(a.id, row))
      case Deleting(t) => Some(P.OnTask(t, L.RollBackCreation))
      case _ => None
  }

  predicate IsOther(sa: P.SystemAction) {
    match sa
    case CreateTask(_, _) => false
    case OnTask(_, a) => !a.Claim? && !a.RollBackCreation? && !a.Prune?
    case RetentionSelect(_, _, _) => false
    case RetentionDelete(_) => false
    case _ => true
  }

  ghost predicate JointEnabled(s: Joint, a: JointAction) {
    match a
    case Create(ca, row) =>
      && C.Enabled(s.creation, ca) && !ca.DispatchClaims?
      && (ca.Proceed? ==> row.idempotencyKey == s.creation.creators[ca.c].key)
      && (TableStep(s.creation, ca, row).Some? ==> P.SystemEnabled(s.system, TableStep(s.creation, ca, row).value))
    case Deliver(t, r, now) => t in s.creation.w.jobs && P.SystemEnabled(s.system, P.OnTask(t, L.Claim(r, now)))
    case Other(sa) => IsOther(sa) && P.SystemEnabled(s.system, sa)
  }

  ghost function JointStep(s: Joint, a: JointAction): Joint
    requires JointEnabled(s, a)
  {
    match a
    case Create(ca, row) =>
      var ts := TableStep(s.creation, ca, row);
      Joint(C.Step(s.creation, ca), if ts.Some? then P.SystemStep(s.system, ts.value) else s.system)
    case Deliver(t, r, now) =>
      Joint(if t in s.creation.w.rows then C.Step(s.creation, C.DispatchClaims(t)) else s.creation,
            P.SystemStep(s.system, P.OnTask(t, L.Claim(r, now))))
    case Other(sa) => s.(system := P.SystemStep(s.system, sa))
  }

  const INIT := Joint(C.INIT, P.System(map[], map[]))

  ghost predicate JointNext(s: Joint, s': Joint) {
    exists a :: JointEnabled(s, a) && s' == JointStep(s, a)
  }

  ghost predicate JointRun(b: seq<Joint>) {
    |b| > 0 && b[0] == INIT && forall i :: 0 <= i < |b| - 1 ==> JointNext(b[i], b[i + 1])
  }

  // ---- The invariant that ties the two together --------------------------------------------

  /** The table is the same in both, and a claimed task was dispatched. */
  ghost predicate Tied(rows: set<TaskId>, dispatched: set<TaskId>, t: TaskId, c: L.Cell) {
    L.Inv(c) && (t in rows <==> c.row.Some?) && (c.claims > 0 ==> t in dispatched)
  }

  ghost predicate AllTied(rows: set<TaskId>, dispatched: set<TaskId>, cells: P.Cells) {
    rows <= cells.Keys && forall t :: t in cells ==> Tied(rows, dispatched, t, cells[t])
  }

  ghost predicate JointInv(s: Joint) {
    && C.Inv(s.creation)
    && s.system.cells.Keys <= s.creation.w.keyOf.Keys
    && AllTied(s.creation.w.rows, s.creation.dispatched, s.system.cells)
  }

  /** An action that neither claims nor deletes. */
  predicate IsQuiet(a: L.Action) {
    !a.Claim? && !a.RollBackCreation? && !a.Prune?
  }

  lemma RequestIsQuiet(c: L.Cell, a: L.Action)
    requires L.Inv(c) && L.Enabled(c, a) && IsQuiet(a) && T.IsRequestAction(a)
    ensures L.Step(c, a).claims == c.claims && (L.Step(c, a).row.Some? <==> c.row.Some?)
  {
  }

  lemma OtherIsQuiet(c: L.Cell, a: L.Action)
    requires L.Inv(c) && L.Enabled(c, a) && IsQuiet(a) && !T.IsRequestAction(a)
    ensures L.Step(c, a).claims == c.claims && (L.Step(c, a).row.Some? <==> c.row.Some?)
  {
  }

  lemma QuietKeepsTied(rows: set<TaskId>, dispatched: set<TaskId>, t: TaskId, c: L.Cell, a: L.Action)
    requires Tied(rows, dispatched, t, c) && L.Enabled(c, a) && IsQuiet(a)
    ensures Tied(rows, dispatched, t, L.Step(c, a))
  {
    T.StepKeepsInv(c, a);
    if T.IsRequestAction(a) {
      RequestIsQuiet(c, a);
    } else {
      OtherIsQuiet(c, a);
    }
  }

  lemma ApplyAllKeepsTied(rows: set<TaskId>, dispatched: set<TaskId>, cells: P.Cells, ids: set<TaskId>, a: L.Action)
    requires AllTied(rows, dispatched, cells) && P.AllEnabled(cells, ids, a) && IsQuiet(a)
    ensures P.ApplyAll(cells, ids, a).Keys == cells.Keys && AllTied(rows, dispatched, P.ApplyAll(cells, ids, a))
  {
    forall t | t in cells ensures Tied(rows, dispatched, t, P.ApplyAll(cells, ids, a)[t]) {
      assert Tied(rows, dispatched, t, cells[t]);
      if t in ids {
        QuietKeepsTied(rows, dispatched, t, cells[t], a);
      }
    }
  }

  lemma TaskKeepsTied(rows: set<TaskId>, dispatched: set<TaskId>, cells: P.Cells, t: TaskId, a: L.Action)
    requires AllTied(rows, dispatched, cells) && t in cells && L.Enabled(cells[t], a) && IsQuiet(a)
    ensures AllTied(rows, dispatched, cells[t := L.Step(cells[t], a)])
  {
    assert Tied(rows, dispatched, t, cells[t]);
    QuietKeepsTied(rows, dispatched, t, cells[t], a);
  }

  lemma NoneApplied(cells: P.Cells, a: L.Action)
    ensures P.ApplyAll(cells, {}, a) == cells
  {
  }

  /** Each step of a sweep applies one action to its batch, or to no task at all. */
  lemma SweepApplies(s: P.System, sa: P.SystemAction) returns (ids: set<TaskId>, a: L.Action)
    requires P.SystemEnabled(s, sa) && (sa.SweepBegin? || sa.SweepReadAll? || sa.SweepEnd? || sa.SweepAbort?)
    ensures IsQuiet(a) && P.AllEnabled(s.cells, ids, a) && P.SystemStep(s, sa).cells == P.ApplyAll(s.cells, ids, a)
  {
    match sa
    case SweepBegin(n, batch, now) =>
      a := L.SweepLock(n, now);
      ids := if P.AllEnabled(s.cells, batch, a) then batch else {};
      NoneApplied(s.cells, a);
    case SweepReadAll(n) => ids, a := P.Batch(s.cells, n), L.SweepRead(n);
    case SweepEnd(n) =>
      ids := P.Batch(s.cells, n);
      a := if P.AllEnabled(s.cells, ids, L.SweepCommit(n)) then L.SweepCommit(n) else L.SweepRollback(n);
    case SweepAbort(n) => ids, a := P.Batch(s.cells, n), L.SweepRollback(n);
  }

  lemma OtherKeepsTied(rows: set<TaskId>, dispatched: set<TaskId>, s: P.System, sa: P.SystemAction)
    requires AllTied(rows, dispatched, s.cells) && P.SystemEnabled(s, sa) && IsOther(sa)
    ensures P.SystemStep(s, sa).cells.Keys == s.cells.Keys && AllTied(rows, dispatched, P.SystemStep(s, sa).cells)
  {
    if sa.OnTask? {
      TaskKeepsTied(rows, dispatched, s.cells, sa.t, sa.a);
    } else {
      var ids, a := SweepApplies(s, sa);
      ApplyAllKeepsTied(rows, dispatched, s.cells, ids, a);
    }
  }

  /** More dispatched tasks tie no less. */
  lemma MoreDispatched(rows: set<TaskId>, dispatched: set<TaskId>, more: set<TaskId>, cells: P.Cells)
    requires AllTied(rows, dispatched, cells) && dispatched <= more
    ensures AllTied(rows, more, cells)
  {
    forall t | t in cells ensures Tied(rows, more, t, cells[t]) {
      assert Tied(rows, dispatched, t, cells[t]);
    }
  }

  lemma CreateKeepsTied(rows: set<TaskId>, dispatched: set<TaskId>, cells: P.Cells, t: TaskId, row: Row)
    requires AllTied(rows, dispatched, cells) && t !in cells && ValidRow(row) && row.status == PENDING
    ensures AllTied(rows + {t}, dispatched, cells[t := L.NewCell(row)])
  {
    L.InitInv(row);
    forall u | u in cells && u != t ensures Tied(rows + {t}, dispatched, u, cells[u]) {
      assert Tied(rows, dispatched, u, cells[u]);
    }
  }

  lemma DeleteKeepsTied(rows: set<TaskId>, dispatched: set<TaskId>, cells: P.Cells, t: TaskId)
    requires AllTied(rows, dispatched, cells) && t in cells && L.Enabled(cells[t], L.RollBackCreation)
    ensures AllTied(rows - {t}, dispatched, cells[t := L.Step(cells[t], L.RollBackCreation)])
  {
    assert Tied(rows, dispatched, t, cells[t]);
    T.StepKeepsInv(cells[t], L.RollBackCreation);
    forall u | u in cells && u != t ensures Tied(rows - {t}, dispatched, u, cells[u]) {
      assert Tied(rows, dispatched, u, cells[u]);
    }
  }

  /** A delivered job claims at most the task it is for, and none whose row is gone. */
  lemma DeliverKeepsTied(rows: set<TaskId>, dispatched: set<TaskId>, cells: P.Cells, t: TaskId, r: L.RequestId,
                         now: Time)
    requires AllTied(rows, dispatched, cells) && t in cells && L.Enabled(cells[t], L.Claim(r, now))
    ensures AllTied(rows, if t in rows then dispatched + {t} else dispatched,
                    cells[t := L.Step(cells[t], L.Claim(r, now))])
  {
    var dispatched' := if t in rows then dispatched + {t} else dispatched;
    assert Tied(rows, dispatched, t, cells[t]);
    T.StepKeepsInv(cells[t], L.Claim(r, now));
    assert Tied(rows, dispatched', t, L.Step(cells[t], L.Claim(r, now)));
    MoreDispatched(rows, dispatched, dispatched', cells);
  }

  /** What one step of the creation protocol does to the table. */
  lemma RowsStep(s: C.State, a: C.Action)
    requires C.Enabled(s, a) && !a.DispatchClaims?
    ensures var s' := C.Step(s, a);
            && s'.dispatched == s.dispatched && s.w.keyOf.Keys <= s'.w.keyOf.Keys
            && (s'.w.rows != s.w.rows ==>
                  && a.Proceed?
                  && match s.creators[a.c].pc
                     case Inserting => s'.w.rows == s.w.rows + {a.id} && a.id in s'.w.keyOf && a.id !in s.w.keyOf
                     case Deleting(t) => s'.w.rows == s.w.rows - {t}
                     case _ => false)
  {
  }

  lemma StepKeepsJointInv(s: Joint, a: JointAction)
    requires JointInv(s) && JointEnabled(s, a)
    ensures JointInv(JointStep(s, a))
  {
    var w, cells := s.creation.w, s.system.cells;
    match a
    case Create(ca, row) =>
      C.StepKeepsInv(s.creation, ca);
      RowsStep(s.creation, ca);
      match TableStep(s.creation, ca, row) {
        case None =>
        case Some(CreateTask(t, _)) => CreateKeepsTied(w.rows, s.creation.dispatched, cells, t, row);
        case Some(OnTask(t, _)) => DeleteKeepsTied(w.rows, s.creation.dispatched, cells, t);
        case _ =>
      }
    case Deliver(t, r, now) =>
      if t in w.rows {
        C.StepKeepsInv(s.creation, C.DispatchClaims(t));
      }
      DeliverKeepsTied(w.rows, s.creation.dispatched, cells, t, r, now);
    case Other(sa) => OtherKeepsTied(w.rows, s.creation.dispatched, s.system, sa);
  }

  lemma {:induction false} JointRunInv(b: seq<Joint>, i: nat)
    requires JointRun(b) && i < |b|
    ensures JointInv(b[i])
  {
    if i > 0 {
      JointRunInv(b, i - 1);
      assert JointNext(b[i - 1], b[i - 1 + 1]);
      var a :| JointEnabled(b[i - 1], a) && b[i] == JointStep(b[i - 1], a);
      StepKeepsJointInv(b[i - 1], a);
    }
  }

  // ---- Requests to the executors -----------------------------------------------------------

  ghost function TotalPosts(cells: P.Cells, ids: set<TaskId>): nat
    requires ids <= cells.Keys
  {
    if ids == {} then 0
    else
      var t :| t in ids;
      cells[t].posts + TotalPosts(cells, ids - {t})
  }

  /** It is a sum: every task counts, in whatever order. */
  lemma {:induction false} TotalPostsAdds(cells: P.Cells, ids: set<TaskId>, t: TaskId)
    requires ids <= cells.Keys && t in ids
    ensures TotalPosts(cells, ids) == cells[t].posts + TotalPosts(cells, ids - {t})
    decreases ids
  {
    var u :| u in ids && TotalPosts(cells, ids) == cells[u].posts + TotalPosts(cells, ids - {u});
    if u != t {
      TotalPostsAdds(cells, ids - {u}, t);
      TotalPostsAdds(cells, ids - {t}, u);
      assert ids - {u} - {t} == ids - {t} - {u};
    }
  }

  lemma WithoutOne(ids: set<TaskId>, posted: set<TaskId>, t: TaskId)
    requires t in ids
    ensures |ids * posted| == |(ids - {t}) * posted| + (if t in posted then 1 else 0)
  {
    if t in posted {
      assert ids * posted == ((ids - {t}) * posted) + {t};
    } else {
      assert ids * posted == (ids - {t}) * posted;
    }
  }

  lemma {:induction false} PostsWithin(cells: P.Cells, ids: set<TaskId>, posted: set<TaskId>)
    requires ids <= cells.Keys
    requires forall t :: t in ids ==> cells[t].posts <= 3 && (t !in posted ==> cells[t].posts == 0)
    ensures TotalPosts(cells, ids) <= 3 * |ids * posted|
    decreases ids
  {
    if ids != {} {
      var t :| t in ids && TotalPosts(cells, ids) == cells[t].posts + TotalPosts(cells, ids - {t});
      PostsWithin(cells, ids - {t}, posted);
      WithoutOne(ids, posted, t);
    }
  }

  /** All tasks ever created with a key, deleted ones included. */
  ghost function TasksOf(s: Joint, key: Option<string>): set<TaskId> {
    set t | t in s.system.cells && t in s.creation.w.keyOf && s.creation.w.keyOf[t] == key
  }

  /**
   * Single execution per key, down to the requests: over a whole run - any number of creators,
   * retries, rollbacks and redeliveries, any crash, expiry, cancellation or sweep - all tasks
   * ever created with one key together send at most three POSTs, and three more for each job
   * that an enqueue left behind although it reported failure.
   */
  lemma PostsPerKey(b: seq<Joint>, i: nat, key: Option<string>)
    requires JointRun(b) && i < |b| && key.Some?
    ensures TotalPosts(b[i].system.cells, TasksOf(b[i], key)) <= 3 * (1 + |C.GhostsFor(b[i].creation, key)|)
  {
    JointRunInv(b, i);
    var s := b[i];
    var ids, dispatched := TasksOf(s, key), C.DispatchedFor(s.creation, key);
    forall t | t in ids ensures s.system.cells[t].posts <= 3 && (t !in dispatched ==> s.system.cells[t].posts == 0) {
      assert Tied(s.creation.w.rows, s.creation.dispatched, t, s.system.cells[t]);
    }
    PostsWithin(s.system.cells, ids, dispatched);
    SubsetSize(ids * dispatched, dispatched);
    C.DispatchedWithin(s.creation, key);
  }
}
