/**
 * TasksService.create as one uninterrupted call: the awaits, try/catch and finally of the
 * source, proved to be a run of the creation protocol.
 */
module TasksService {
  import opened Wrappers
  import opened Schema
  import opened Idempotency
  import opened Creation
  import opened CreationBounds
  import opened Database

  /** How each remote effect of one call turns out. */
  datatype Faults = Faults(occupy: Effect, insert: Effect, enqueue: Effect, delete: Effect, release: Effect,
                           commit: Effect)

  function EffectAt(f: Faults, pc: Pc): Effect {
    match pc
    case Occupying => f.occupy
    case Inserting => f.insert
    case Enqueueing(_) => f.enqueue
    case Deleting(_) => f.delete
    case Releasing => f.release
    case _ => f.commit
  }

  /** How many effects a creator may still have ahead of it. */
  function Rank(pc: Pc): nat {
    match pc
    case Occupying => 5
    case Inserting => 4
    case Enqueueing(_) => 3
    case Deleting(_) => 2
    case Releasing => 1
    case Committing(_) => 1
    case _ => 0
  }

  /** The protocol's steps for one creator, with nothing in between. */
  function RunToEnd(w: World, c: CreatorId, key: Option<string>, pc: Pc, id: TaskId, f: Faults): (World, Pc)
    requires pc.Occupying? || pc.Releasing? || pc.Committing? ==> Truthy(key)
    decreases Rank(pc)
  {
    if Ended(pc) then (w, pc)
    else
      var (w', pc') := Advance(w, c, key, pc, id, EffectAt(f, pc));
      RunToEnd(w', c, key, pc', id, f)
  }

  // Closed forms, from the last effect back to the first.

  function Released(w: World, key: Option<string>, f: Faults): World {
    if Truthy(key) && Happens(f.release) then w.(slots := Release(w.slots, key.value)) else w
  }

  function RolledBack(w: World, key: Option<string>, id: TaskId, f: Faults): World {
    Released(if Happens(f.delete) then w.(rows := w.rows - {id}) else w, key, f)
  }

  lemma FromReleasing(w: World, c: CreatorId, key: Option<string>, id: TaskId, f: Faults)
    requires Truthy(key)
    ensures RunToEnd(w, c, key, Releasing, id, f) == (Released(w, key, f), Thrown)
  {
  }

  lemma FromCommitting(w: World, c: CreatorId, key: Option<string>, id: TaskId, f: Faults)
    requires Truthy(key)
    ensures RunToEnd(w, c, key, Committing(id), id, f) ==
            (if Happens(f.commit) then w.(slots := Commit(w.slots, key.value, id)) else w, Responded(id))
  {
  }

  lemma FromDeleting(w: World, c: CreatorId, key: Option<string>, id: TaskId, f: Faults)
    ensures RunToEnd(w, c, key, Deleting(id), id, f) == (RolledBack(w, key, id, f), Thrown)
  {
    if Truthy(key) {
      FromReleasing(Advance(w, c, key, Deleting(id), id, f.delete).0, c, key, id, f);
    }
  }

  lemma FromEnqueueing(w: World, c: CreatorId, key: Option<string>, id: TaskId, f: Faults)
    ensures var w' := Advance(w, c, key, Enqueueing(id), id, f.enqueue).0;
            RunToEnd(w, c, key, Enqueueing(id), id, f) ==
            if !f.enqueue.Succeeds? then (RolledBack(w', key, id, f), Thrown)
            else (if Truthy(key) && Happens(f.commit) then w'.(slots := Commit(w'.slots, key.value, id)) else w',
                  Responded(id))
  {
    var w' := Advance(w, c, key, Enqueueing(id), id, f.enqueue).0;
    if !f.enqueue.Succeeds? {
      FromDeleting(w', c, key, id, f);
    } else if Truthy(key) {
      FromCommitting(w', c, key, id, f);
    }
  }

  lemma FromInserting(w: World, c: CreatorId, key: Option<string>, id: TaskId, f: Faults)
    ensures var (w', pc) := Advance(w, c, key, Inserting, id, f.insert);
            RunToEnd(w, c, key, Inserting, id, f) ==
            if pc == Enqueueing(id) then RunToEnd(w', c, key, Enqueueing(id), id, f) else (Released(w', key, f), Thrown)
  {
    var (w', pc) := Advance(w, c, key, Inserting, id, f.insert);
    if pc.Releasing? {
      FromReleasing(w', c, key, id, f);
    }
  }

  lemma FromOccupying(w: World, c: CreatorId, key: Option<string>, id: TaskId, f: Faults)
    requires Truthy(key)
    ensures var (slots, result) := Occupy(w.slots, key.value);
            var w' := if Happens(f.occupy) then w.(slots := slots) else w;
            RunToEnd(w, c, key, Occupying, id, f) ==
            if !f.occupy.Succeeds? then (w', Thrown)
            else match result
                 case Acquired => RunToEnd(w', c, key, Inserting, id, f)
                 case CreationPending => (w', Conflict)
                 case Duplicate(existing) => (w', Responded(existing))
  {
  }

  // ---- What a call answers and leaves behind, by slot, table and faults ---------------------

  predicate Reserves(key: Option<string>) {
    key.Some? && key.value != ""
  }

  /** The call gets as far as the INSERT: it needs no slot, or it has just taken a free one. */
  predicate Reaches(key: Option<string>, slots: Slots, f: Faults) {
    Reserves(key) ==> f.occupy.Succeeds? && key.value !in slots
  }

  /** 409 while another creation holds the slot, the old id once it is committed, the new id, or an error. */
  function Response(key: Option<string>, slots: Slots, used: bool, id: TaskId, f: Faults): Pc {
    if Reserves(key) && !f.occupy.Succeeds? then Thrown
    else if Reserves(key) && key.value in slots then
      match slots[key.value]
      case Sentinel(_) => Conflict
      case Holds(existing, _) => Responded(existing)
    else if f.insert.Succeeds? && !used && f.enqueue.Succeeds? then Responded(id)
    else Thrown
  }

  /** The new row is in the table afterwards: inserted, and not deleted again after a failed enqueue. */
  predicate RowStays(key: Option<string>, slots: Slots, used: bool, f: Faults) {
    && Reaches(key, slots, f) && !used && !f.insert.FailsBefore?
    && !(f.insert.Succeeds? && !f.enqueue.Succeeds? && !f.delete.FailsBefore?)
  }

  /** The dispatch job is in the queue afterwards. */
  predicate JobStays(key: Option<string>, slots: Slots, used: bool, f: Faults) {
    Reaches(key, slots, f) && !used && f.insert.Succeeds? && !f.enqueue.FailsBefore?
  }

  /**
   * The slots afterwards: changed only if the key's own was free and the occupy took effect; then
   * committed or still pending after a success, and free again or still pending after a failure.
   */
  function SlotsAfter(key: Option<string>, slots: Slots, used: bool, id: TaskId, f: Faults): Slots {
    if !Reserves(key) || key.value in slots || f.occupy.FailsBefore? then slots
    else if f.occupy.FailsAfter? then slots[key.value := Sentinel(true)]
    else if f.insert.Succeeds? && !used && f.enqueue.Succeeds? then
      slots[key.value := if f.commit.FailsBefore? then Sentinel(true) else Holds(id, true)]
    else if f.release.FailsBefore? then slots[key.value := Sentinel(true)]
    else slots
  }

  lemma InsertByCases(w: World, c: CreatorId, key: Option<string>, id: TaskId, f: Faults)
    requires id !in w.rows
    ensures var (w', r) := RunToEnd(w, c, key, Inserting, id, f);
            var inserted := f.insert.Succeeds? && !KeyTaken(w, key);
            var done := inserted && f.enqueue.Succeeds?;
            && r == (if done then Responded(id) else Thrown)
            && w'.slots == (if !Truthy(key) then w.slots
                            else if done && Happens(f.commit) then Commit(w.slots, key.value, id)
                            else if !done && Happens(f.release) then Release(w.slots, key.value)
                            else w.slots)
            && w'.rows == (if Happens(f.insert) && !KeyTaken(w, key) && !(inserted && !done && Happens(f.delete))
                           then w.rows + {id} else w.rows)
            && w'.jobs == (if inserted && Happens(f.enqueue) then w.jobs + {id} else w.jobs)
  {
    FromInserting(w, c, key, id, f);
    FromEnqueueing(Advance(w, c, key, Inserting, id, f.insert).0, c, key, id, f);
    assert w.rows + {id} - {id} == w.rows;
  }

  lemma TakenSlot(slots: Slots, key: string, id: TaskId)
    requires key !in slots
    ensures Commit(slots[key := Sentinel(true)], key, id) == slots[key := Holds(id, true)]
    ensures Release(slots[key := Sentinel(true)], key) == slots
  {
  }

  lemma AcquiredByCases(w: World, c: CreatorId, key: string, id: TaskId, f: Faults)
    requires id !in w.rows && key != "" && key !in w.slots && f.occupy.Succeeds?
    ensures var (w', r) := RunToEnd(w, c, Some(key), Occupying, id, f);
            var used := KeyTaken(w, Some(key));
            && r == Response(Some(key), w.slots, used, id, f)
            && w'.slots == SlotsAfter(Some(key), w.slots, used, id, f)
            && w'.rows == (if RowStays(Some(key), w.slots, used, f) then w.rows + {id} else w.rows)
            && w'.jobs == (if JobStays(Some(key), w.slots, used, f) then w.jobs + {id} else w.jobs)
  {
    var w1 := w.(slots := w.slots[key := Sentinel(true)]);
    assert Advance(w, c, Some(key), Occupying, id, f.occupy) == (w1, Inserting);
    assert KeyTaken(w1, Some(key)) <==> KeyTaken(w, Some(key));
    InsertByCases(w1, c, Some(key), id, f);
    TakenSlot(w.slots, key, id);
  }

  /** That is what running the protocol to its end comes to. */
  lemma CreateByCases(w: World, c: CreatorId, key: Option<string>, id: TaskId, f: Faults)
    requires id !in w.rows
    ensures var (w', r) := RunToEnd(w, c, key, Start(key), id, f);
            var used := KeyTaken(w, key);
            && r == Response(key, w.slots, used, id, f)
            && w'.slots == SlotsAfter(key, w.slots, used, id, f)
            && w'.rows == (if RowStays(key, w.slots, used, f) then w.rows + {id} else w.rows)
            && w'.jobs == (if JobStays(key, w.slots, used, f) then w.jobs + {id} else w.jobs)
  {
    if !Truthy(key) {
      InsertByCases(w, c, key, id, f);
    } else if key.value !in w.slots && f.occupy.Succeeds? {
      AcquiredByCases(w, c, key.value, id, f);
    }
  }

  lemma ConflictIff(key: Option<string>, slots: Slots, used: bool, id: TaskId, f: Faults)
    ensures Response(key, slots, used, id, f) == Conflict <==>
              key.Some? && key.value != "" && f.occupy.Succeeds? && key.value in slots && slots[key.value].Sentinel?
  {
  }

  datatype Dto = Dto(idempotencyKey: Option<string>, webhookUrl: Option<string>, timeoutSeconds: nat)

  function RowFor(dto: Dto, now: Time): Row {
    NewRow(dto.idempotencyKey, dto.webhookUrl, dto.timeoutSeconds, now)
  }

  /** The unique index of the protocol and that of the table are one. */
  lemma SameKeys(w: World, tasks: map<TaskId, Row>, key: Option<string>)
    requires w.rows == tasks.Keys && forall t :: t in tasks ==> t in w.keyOf && w.keyOf[t] == tasks[t].idempotencyKey
    ensures KeyTaken(w, key) <==> KeyInUse(tasks, key)
  {
  }

  class TasksService {
    const idempotency: IdempotencyService
    const db: Database
    var jobs: set<TaskId>
    // History: what was ever inserted and by whom, and how each enqueue ended.
    ghost var keyOf: map<TaskId, Option<string>>
    ghost var owner: map<TaskId, CreatorId>
    ghost var enqueued: set<TaskId>
    ghost var ghosts: set<TaskId>

    ghost predicate Valid()
      reads this, db
    {
      forall t :: t in db.tasks ==> t in keyOf && keyOf[t] == db.tasks[t].idempotencyKey
    }

    ghost function Backend(): World
      reads this, idempotency, db
    {
      World(idempotency.slots, db.tasks.Keys, keyOf, owner, jobs, enqueued, ghosts)
    }

    constructor (idempotency: IdempotencyService, db: Database)
      requires db.tasks == map[]
      ensures this.idempotency == idempotency && this.db == db && Valid()
      ensures Backend() == World(idempotency.slots, {}, map[], map[], {}, {}, {})
    {
      this.idempotency, this.db := idempotency, db;
      jobs, keyOf, owner, enqueued, ghosts := {}, map[], map[], {}, {};
    }

    /** INSERT: false when the promise rejects, by the unique index or by a fault. */
    method Insert(c: CreatorId, dto: Dto, id: TaskId, now: Time, e: Effect) returns (ok: bool)
      requires Valid() && id !in keyOf
      modifies this, db`tasks
      ensures Valid()
      ensures ok <==> Advance(old(Backend()), c, dto.idempotencyKey, Inserting, id, e).1 == Enqueueing(id)
      ensures Backend() == Advance(old(Backend()), c, dto.idempotencyKey, Inserting, id, e).0
      ensures db.tasks == old(db.tasks) || db.tasks == old(db.tasks)[id := RowFor(dto, now)]
      ensures ok <==> e.Succeeds? && !KeyInUse(old(db.tasks), dto.idempotencyKey)
      ensures id in db.tasks <==> !e.FailsBefore? && !KeyInUse(old(db.tasks), dto.idempotencyKey)
    {
      if !Happens(e) {
        return false;
      }
      assert KeyInUse(db.tasks, dto.idempotencyKey) <==> KeyTaken(Backend(), dto.idempotencyKey);
      var inserted := db.Insert(id, RowFor(dto, now));
      if inserted {
        keyOf, owner := keyOf[id := dto.idempotencyKey], owner[id := c];
      }
      return inserted && e.Succeeds?;
    }

    method Enqueue(c: CreatorId, key: Option<string>, id: TaskId, e: Effect) returns (ok: bool)
      modifies this
      ensures keyOf == old(keyOf)
      ensures ok <==> e.Succeeds?
      ensures Backend() == Advance(old(Backend()), c, key, Enqueueing(id), id, e).0
    {
      match e {
        case Succeeds => jobs, enqueued := jobs + {id}, enqueued + {id};
        case FailsAfter => jobs, ghosts := jobs + {id}, ghosts + {id};
        case FailsBefore =>
      }
      return e.Succeeds?;
    }

    /** `releaseSlot(key).catch(log)`. */
    method ReleaseQuietly(key: string, e: Effect)
      modifies idempotency
      ensures var slots := old(idempotency.slots);
              Backend() == old(Backend()).(slots := if Happens(e) then Release(slots, key) else slots)
    {
      if Happens(e) {
        idempotency.ReleaseSlot(key);
      }
    }

    /** `create` from the INSERT on, with both rollback paths. */
    method InsertAndEnqueue(c: CreatorId, dto: Dto, id: TaskId, now: Time, f: Faults) returns (r: Pc)
      requires Valid() && id !in keyOf
      modifies this, idempotency, db`tasks
      ensures Valid()
      ensures (Backend(), r) == RunToEnd(old(Backend()), c, dto.idempotencyKey, Inserting, id, f)
      ensures db.tasks == old(db.tasks) || db.tasks == old(db.tasks)[id := RowFor(dto, now)]
    {
      var key := dto.idempotencyKey;
      FromInserting(Backend(), c, key, id, f);
      var inserted := Insert(c, dto, id, now, f.insert);
      if !inserted {
        if Truthy(key) {
          ReleaseQuietly(key.value, f.release);
        }
        return Thrown;
      }

      FromEnqueueing(Backend(), c, key, id, f);
      var queued := Enqueue(c, key, id, f.enqueue);
      if !queued {
        if Happens(f.delete) {
          db.DeleteById(id);
        }
        if Truthy(key) {
          ReleaseQuietly(key.value, f.release);
        }
        return Thrown;
      }

      if Truthy(key) && Happens(f.commit) {
        idempotency.CommitResult(key.value, id);
      }
      return Responded(id);
    }

    /**
     * POST /tasks, from arrival to response, without interruption: the run of the protocol to its
     * end.  Its answer, the slots, the row and the job it leaves are told by the key, the slots,
     * the table and the faults; and of the table at most the new row is touched.
     */
    method Create(c: CreatorId, dto: Dto, id: TaskId, now: Time, f: Faults) returns (r: Pc)
      requires Valid() && id !in keyOf
      modifies this, idempotency, db`tasks
      ensures Valid()
      ensures (Backend(), r) == RunToEnd(old(Backend()), c, dto.idempotencyKey, Start(dto.idempotencyKey), id, f)
      ensures var key, slots := dto.idempotencyKey, old(idempotency.slots);
              var used := KeyInUse(old(db.tasks), key);
              && r == Response(key, slots, used, id, f)
              && idempotency.slots == SlotsAfter(key, slots, used, id, f)
              && (id in db.tasks <==> RowStays(key, slots, used, f))
              && jobs == (if JobStays(key, slots, used, f) then old(jobs) + {id} else old(jobs))
      ensures r == Conflict <==>
                var key, slots := dto.idempotencyKey, old(idempotency.slots);
                key.Some? && key.value != "" && f.occupy.Succeeds? && key.value in slots && slots[key.value].Sentinel?
      ensures id !in db.tasks ==> db.tasks == old(db.tasks)
      ensures id in db.tasks ==>
                db.tasks == old(db.tasks)[id :=
                  Row(dto.idempotencyKey, PENDING, dto.webhookUrl, None, None, 0, dto.timeoutSeconds,
                      None, Some(now + 1000 * dto.timeoutSeconds), None, now)]
    {
      // Used only as wholes, through the three lemmas.
      hide Response, SlotsAfter, RowStays, JobStays, RunToEnd, Advance, KeyTaken, KeyInUse;
      var key := dto.idempotencyKey;
      CreateByCases(Backend(), c, key, id, f);
      ConflictIff(key, idempotency.slots, KeyTaken(Backend(), key), id, f);
      SameKeys(Backend(), db.tasks, key);

      if Truthy(key) {
        FromOccupying(Backend(), c, key, id, f);
        var slot := CreationPending;
        if Happens(f.occupy) {
          slot := idempotency.OccupySlot(key.value);
        }
        if !f.occupy.Succeeds? {
          return Thrown;
        }
        match slot {
          case CreationPending => return Conflict;
          case Duplicate(existing) => return Responded(existing);
          case Acquired =>
        }
      }
      r := InsertAndEnqueue(c, dto, id, now, f);
    }
  }

  /** A call is a run of the protocol: it extends any behavior by its own steps. */
  lemma {:induction false} CreateIsARun(b: seq<State>, c: CreatorId, id: TaskId, f: Faults) returns (b': seq<State>)
    requires Behavior(b)
    requires var s := b[|b| - 1];
             && c in s.creators && KeyedPc(s.creators[c])
             && (Rank(s.creators[c].pc) >= 4 ==> id !in s.w.keyOf)
    ensures Behavior(b')
    ensures var s, s' := b[|b| - 1], b'[|b'| - 1];
            var end := RunToEnd(s.w, c, s.creators[c].key, s.creators[c].pc, id, f);
            c in s'.creators && s'.w == end.0 && s'.creators[c] == Creator(s.creators[c].key, end.1)
    decreases Rank(b[|b| - 1].creators[c].pc)
  {
    var s := b[|b| - 1];
    var cr := s.creators[c];
    if Ended(cr.pc) {
      b' := b;
    } else {
      var mid := Extend(b, Proceed(c, id, EffectAt(f, cr.pc)));
      var (w', pc') := Advance(s.w, c, cr.key, cr.pc, id, EffectAt(f, cr.pc));
      var t := mid[|mid| - 1];
      assert t.w == w' && t.creators[c] == Creator(cr.key, pc');
      assert RunToEnd(s.w, c, cr.key, cr.pc, id, f) == RunToEnd(t.w, c, cr.key, t.creators[c].pc, id, f);
      b' := CreateIsARun(mid, c, id, f);
    }
  }

  /**
   * A creation that fails undoes itself: if no failed effect happened behind its own error and
   * the cleanup went through, the slots, the table and the queue are as before the call.
   */
  lemma FailedCreateLeavesNoTrace(w: World, c: CreatorId, key: Option<string>, id: TaskId, f: Faults)
    requires id !in w.keyOf && id !in w.rows
    requires !f.occupy.FailsAfter? && !f.insert.FailsAfter? && !f.enqueue.FailsAfter?
    requires Happens(f.delete) && Happens(f.release)
    ensures var (w', r) := RunToEnd(w, c, key, Start(key), id, f);
            !r.Responded? ==> w'.slots == w.slots && w'.rows == w.rows && w'.jobs == w.jobs && w'.enqueued == w.enqueued
  {
    var (w1, pc) := if Truthy(key) then Advance(w, c, key, Occupying, id, f.occupy) else (w, Inserting);
    if pc.Inserting? {
      FromInserting(w1, c, key, id, f);
      FromEnqueueing(Advance(w1, c, key, Inserting, id, f.insert).0, c, key, id, f);
      assert w1.rows + {id} - {id} == w.rows;
      if Truthy(key) {
        assert Release(w1.slots, key.value) == w.slots;
      }
    }
  }

  /**
   * Idempotence: after a creation whose commit went through, a second call with the same key
   * answers with the same id and changes nothing at all.
   */
  lemma SecondCreateIsANoOp(w: World, c: CreatorId, d: CreatorId, key: string, id: TaskId, other: TaskId, f: Faults,
                            g: Faults)
    requires key != "" && g.occupy.Succeeds?
    requires var (w', r) := RunToEnd(w, c, Some(key), Occupying, id, f); r.Responded? && Happens(f.commit)
    ensures var (w', r) := RunToEnd(w, c, Some(key), Occupying, id, f);
            RunToEnd(w', d, Some(key), Occupying, other, g) == (w', r)
  {
    var (w1, pc) := Advance(w, c, Some(key), Occupying, id, f.occupy);
    if pc.Inserting? {
      FromInserting(w1, c, Some(key), id, f);
      FromEnqueueing(Advance(w1, c, Some(key), Inserting, id, f.insert).0, c, Some(key), id, f);
    }
  }

  /** The empty key skips the slot but not the unique index: a second creation with it always fails. */
  lemma EmptyKeyIsNotIdempotent(w: World, c: CreatorId, d: CreatorId, id: TaskId, other: TaskId, f: Faults, g: Faults)
    requires RunToEnd(w, c, Some(""), Start(Some("")), id, f).1.Responded?
    ensures var w' := RunToEnd(w, c, Some(""), Start(Some("")), id, f).0;
            RunToEnd(w', d, Some(""), Start(Some("")), other, g) == (w', Thrown)
  {
    var key := Some("");
    var w' := RunToEnd(w, c, key, Inserting, id, f).0;
    FromInserting(w, c, key, id, f);
    FromEnqueueing(Advance(w, c, key, Inserting, id, f.insert).0, c, key, id, f);
    assert id in w'.rows && w'.keyOf[id] == key;
    assert KeyTaken(w', key);
    FromInserting(w', d, key, other, g);
  }

  /**
   * Idempotence, exactly: of two calls with the same key, the first of which responded and the
   * second of which meets no fault, both give the same response if and only if the key is not
   * empty and either the slot was already taken or the commit got through.
   */
  lemma SameResponseIff(w: World, c: CreatorId, d: CreatorId, key: Option<string>, id: TaskId, other: TaskId,
                        f: Faults, g: Faults)
    requires RunToEnd(w, c, key, Start(key), id, f).1.Responded?
    requires FaultFree(g) && other !in RunToEnd(w, c, key, Start(key), id, f).0.keyOf
    ensures var (w', r) := RunToEnd(w, c, key, Start(key), id, f);
            RunToEnd(w', d, key, Start(key), other, g).1 == r <==>
              Truthy(key) && (key.value in w.slots || Happens(f.commit))
  {
    var (w', r) := RunToEnd(w, c, key, Start(key), id, f);
    if key == Some("") {
      EmptyKeyIsNotIdempotent(w, c, d, id, other, f, g);
    } else if key.None? {
      FromInserting(w, c, key, id, f);
      FromEnqueueing(Advance(w, c, key, Inserting, id, f.insert).0, c, key, id, f);
      CreatesNewTaskIff(w', d, key, other, g);
    } else {
      var (w1, pc) := Advance(w, c, key, Occupying, id, f.occupy);
      if pc.Inserting? {
        FromInserting(w1, c, key, id, f);
        FromEnqueueing(Advance(w1, c, key, Inserting, id, f.insert).0, c, key, id, f);
      }
    }
  }

  predicate FaultFree(f: Faults) {
    f.occupy.Succeeds? && f.insert.Succeeds? && f.enqueue.Succeeds?
  }

  /**
   * A call that finds its slot free, or takes none, creates its own task if and only if occupy,
   * insert and enqueue go through and no row holds the key - whether or not the slot was once
   * another's: what ends a key's reservation is the deletion of its row, not the slot's expiry.
   */
  lemma CreatesNewTaskIff(w: World, c: CreatorId, key: Option<string>, id: TaskId, f: Faults)
    requires Truthy(key) ==> key.value !in w.slots
    ensures var (w', r) := RunToEnd(w, c, key, Start(key), id, f);
            && (r == Responded(id) <==> (Truthy(key) ==> f.occupy.Succeeds?) && f.insert.Succeeds? &&
                                        f.enqueue.Succeeds? && !KeyTaken(w, key))
            && (r == Responded(id) ==> id in w'.rows && id in w'.keyOf && w'.keyOf[id] == key && id in w'.enqueued)
  {
    var (w1, pc) := if Truthy(key) then Advance(w, c, key, Occupying, id, f.occupy) else (w, Inserting);
    if pc.Inserting? {
      assert KeyTaken(w1, key) <==> KeyTaken(w, key);
      FromInserting(w1, c, key, id, f);
      FromEnqueueing(Advance(w1, c, key, Inserting, id, f.insert).0, c, key, id, f);
    }
  }

  /**
   * Once the slot of a used key has expired, the same key does not create a new task: the unique
   * index refuses it, and every such call fails and leaves tables and queue as they were.
   */
  lemma {:induction false} ExpiredKeyCreatesNothing(w: World, c: CreatorId, key: string, id: TaskId, f: Faults)
    requires key != "" && key !in w.slots && KeyTaken(w, Some(key))
    ensures var (w', r) := RunToEnd(w, c, Some(key), Start(Some(key)), id, f);
            r == Thrown && w'.(slots := w.slots) == w &&
            (f.occupy.Succeeds? && Happens(f.release) ==> w' == w)
  {
    var (w1, pc) := Advance(w, c, Some(key), Occupying, id, f.occupy);
    if pc.Inserting? {
      FromInserting(w1, c, Some(key), id, f);
      assert KeyTaken(w1, Some(key));
    }
  }
}
