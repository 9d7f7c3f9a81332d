/**
 * Task creation by any number of concurrent requests (TasksService.create), over the slots of
 * `Idempotency`, the tasks table with its unique index on the key, and the dispatch queue.
 *
 * Every remote effect may succeed, fail before it happens, or happen and still be reported as a
 * failure; a creator may crash at any point, and a slot may expire at any moment.  Retention is
 * off: rows are deleted only by the rollback of a failed creation.
 */
module Creation {
  import opened Wrappers
  import opened Schema
  import opened Idempotency
  import opened Collections

  type CreatorId = nat

  datatype Effect = Succeeds | FailsBefore | FailsAfter

  predicate Happens(e: Effect) {
    !e.FailsBefore?
  }

  /** Where a creator is in `create`; the last five end it. */
  datatype Pc =
    | Occupying
    | Inserting
    | Enqueueing(id: TaskId)
    | Deleting(id: TaskId)
    | Releasing
    | Committing(id: TaskId)
    | Responded(id: TaskId)
    | Conflict
    | Thrown
    | Crashed

  datatype Creator = Creator(key: Option<string>, pc: Pc)

  /**
   * `rows` are the ids in the table; `keyOf` remembers the key of every id ever inserted, and
   * `owner` who inserted it; `jobs` are the ids ever put on the dispatch queue, `enqueued` those
   * whose enqueue succeeded, and `ghosts` those left behind by an enqueue reported as failed.
   */
  datatype World = World(
    slots: Slots,
    rows: set<TaskId>,
    keyOf: map<TaskId, Option<string>>,
    owner: map<TaskId, CreatorId>,
    jobs: set<TaskId>,
    enqueued: set<TaskId>,
    ghosts: set<TaskId>)

  datatype State = State(
    w: World,
    creators: map<CreatorId, Creator>,
    dispatched: set<TaskId>,
    expiries: map<string, nat>)

  /** `if (idempotencyKey)`: neither undefined nor the empty string. */
  predicate Truthy(key: Option<string>) {
    key.Some? && key.value != ""
  }

  predicate Ended(pc: Pc) {
    pc.Responded? || pc.Conflict? || pc.Thrown? || pc.Crashed?
  }

  /** The unique index ignores NULL keys only; the empty string is a key like any other. */
  predicate KeyTaken(w: World, key: Option<string>) {
    key.Some? && exists t :: t in w.rows && t in w.keyOf && w.keyOf[t] == key
  }

  function Start(key: Option<string>): Pc {
    if Truthy(key) then Occupying else Inserting
  }

  /** One awaited effect of `create`, for creator `c`; `id` is the id the database would generate. */
  function Advance(w: World, c: CreatorId, key: Option<string>, pc: Pc, id: TaskId, e: Effect): (World, Pc)
    requires key.None? ==> !pc.Occupying? && !pc.Releasing? && !pc.Committing?
  {
    match pc
    case Occupying =>
      var (slots, r) := Occupy(w.slots, key.value);
      var w' := if Happens(e) then w.(slots := slots) else w;
      if !e.Succeeds? then (w', Thrown)
      else (match r
            case Acquired => (w', Inserting)
            case CreationPending => (w', Conflict)
            case Duplicate(existing) => (w', Responded(existing)))
    case Inserting =>
      var inserted := Happens(e) && !KeyTaken(w, key);
      var w' := if inserted
                then w.(rows := w.rows + {id}, keyOf := w.keyOf[id := key], owner := w.owner[id := c]) else w;
      if inserted && e.Succeeds? then (w', Enqueueing(id))
      else (w', if Truthy(key) then Releasing else Thrown)
    case Enqueueing(t) =>
      if e.Succeeds? then
        (w.(jobs := w.jobs + {t}, enqueued := w.enqueued + {t}), if Truthy(key) then Committing(t) else Responded(t))
      else if e.FailsAfter? then (w.(jobs := w.jobs + {t}, ghosts := w.ghosts + {t}), Deleting(t))
      else (w, Deleting(t))
    case Deleting(t) =>
      (if Happens(e) then w.(rows := w.rows - {t}) else w, if Truthy(key) then Releasing else Thrown)
    case Releasing => (if Happens(e) then w.(slots := Release(w.slots, key.value)) else w, Thrown)
    case Committing(t) => (if Happens(e) then w.(slots := Commit(w.slots, key.value, t)) else w, Responded(t))
    case _ => (w, pc)
  }

  datatype Action =
    | Arrive(c: CreatorId, key: Option<string>)
    | Proceed(c: CreatorId, id: TaskId, e: Effect)
    | Crash(c: CreatorId)
    | Expire(slot: string)
    | DispatchClaims(t: TaskId)

  predicate Active(s: State, c: CreatorId) {
    c in s.creators && !Ended(s.creators[c].pc)
  }

  /** Only creators with a key can stand at a slot operation. */
  predicate KeyedPc(cr: Creator) {
    cr.pc.Occupying? || cr.pc.Releasing? || cr.pc.Committing? ==> Truthy(cr.key)
  }

  predicate Enabled(s: State, a: Action) {
    match a
    case Arrive(c, key) => c !in s.creators
    case Proceed(c, id, e) =>
      Active(s, c) && KeyedPc(s.creators[c]) && (s.creators[c].pc.Inserting? ==> id !in s.w.keyOf)
    case Crash(c) => Active(s, c)
    case Expire(key) => CanExpire(s.w.slots, key)
    case DispatchClaims(t) => t in s.w.jobs && t in s.w.rows
  }

  function Expiries(s: State, key: string): nat {
    if key in s.expiries then s.expiries[key] else 0
  }

  function Step(s: State, a: Action): State
    requires Enabled(s, a)
  {
    match a
    case Arrive(c, key) => s.(creators := s.creators[c := Creator(key, Start(key))])
    case Proceed(c, id, e) =>
      var cr := s.creators[c];
      var (w, pc) := Advance(s.w, c, cr.key, cr.pc, id, e);
      s.(w := w, creators := s.creators[c := cr.(pc := pc)])
    case Crash(c) => s.(creators := s.creators[c := s.creators[c].(pc := Crashed)])
    case Expire(key) =>
      s.(w := s.w.(slots := Release(s.w.slots, key)), expiries := s.expiries[key := Expiries(s, key) + 1])
    case DispatchClaims(t) => s.(dispatched := s.dispatched + {t})
  }

  const INIT := State(World(map[], {}, map[], map[], {}, {}, {}), map[], {}, map[])

  ghost predicate Next(s: State, s': State) {
    exists a :: Enabled(s, a) && s' == Step(s, a)
  }

  ghost predicate Behavior(b: seq<State>) {
    |b| > 0 && b[0] == INIT && forall i :: 0 <= i < |b| - 1 ==> Next(b[i], b[i + 1])
  }

  // ---- Agreement ---------------------------------------------------------------------------

  /** An id is settled for a key once its row is there, under that key, with its dispatch job enqueued. */
  predicate Settled(w: World, key: Option<string>, t: TaskId) {
    t in w.rows && t in w.keyOf && w.keyOf[t] == key && t in w.enqueued
  }

  ghost predicate CreatorInv(w: World, c: CreatorId, cr: Creator) {
    && KeyedPc(cr)
    && match cr.pc
       case Enqueueing(t) =>
         t in w.keyOf && w.keyOf[t] == cr.key && t in w.owner && w.owner[t] == c && t in w.rows && t !in w.jobs
       case Deleting(t) => t in w.keyOf && w.keyOf[t] == cr.key && t in w.owner && w.owner[t] == c && t !in w.enqueued
       case Committing(t) => Settled(w, cr.key, t)
       case Responded(t) => Settled(w, cr.key, t)
       case _ => true
  }

  ghost predicate TableInv(w: World) {
    && w.rows <= w.keyOf.Keys && w.keyOf.Keys == w.owner.Keys && w.jobs <= w.keyOf.Keys
    && w.enqueued <= w.rows && w.enqueued <= w.jobs
    && w.jobs == w.enqueued + w.ghosts
    && (forall t, u :: t in w.rows && u in w.rows && w.keyOf[t] == w.keyOf[u] && w.keyOf[t].Some? ==> t == u)
  }

  ghost predicate SlotsInv(w: World) {
    forall k :: k in w.slots ==> k != "" && (w.slots[k].Holds? ==> Settled(w, Some(k), w.slots[k].taskId))
  }

  ghost predicate Inv(s: State) {
    && TableInv(s.w) && SlotsInv(s.w)
    && (forall c :: c in s.creators ==> CreatorInv(s.w, c, s.creators[c]))
    && s.dispatched <= s.w.jobs
  }

  /** What an effect of one creator leaves intact for everyone else. */
  ghost predicate Preserves(w: World, w': World, c: CreatorId) {
    && (forall t :: t in w.keyOf ==> t in w'.keyOf && w'.keyOf[t] == w.keyOf[t])
    && (forall t :: t in w.owner ==> t in w'.owner && w'.owner[t] == w.owner[t])
    && (forall t :: t in w.owner && w.owner[t] != c ==>
          (t in w.rows <==> t in w'.rows) && (t in w.enqueued <==> t in w'.enqueued) && (t in w.jobs <==> t in w'.jobs))
    && w.enqueued <= w'.enqueued && w.enqueued * w.rows <= w'.rows
  }

  lemma SlotEffectKeeps(w: World, c: CreatorId, cr: Creator, id: TaskId, e: Effect)
    requires TableInv(w) && SlotsInv(w) && CreatorInv(w, c, cr)
    requires cr.pc.Occupying? || cr.pc.Releasing? || cr.pc.Committing?
    ensures var (w', pc) := Advance(w, c, cr.key, cr.pc, id, e);
            TableInv(w') && SlotsInv(w') && CreatorInv(w', c, cr.(pc := pc)) && Preserves(w, w', c) && w.jobs <= w'.jobs
  {
  }

  lemma InsertKeeps(w: World, c: CreatorId, cr: Creator, id: TaskId, e: Effect)
    requires TableInv(w) && SlotsInv(w) && CreatorInv(w, c, cr) && cr.pc.Inserting? && id !in w.keyOf
    ensures var (w', pc) := Advance(w, c, cr.key, cr.pc, id, e);
            TableInv(w') && SlotsInv(w') && CreatorInv(w', c, cr.(pc := pc)) && Preserves(w, w', c) && w.jobs <= w'.jobs
  {
  }

  lemma EnqueueKeeps(w: World, c: CreatorId, cr: Creator, id: TaskId, e: Effect)
    requires TableInv(w) && SlotsInv(w) && CreatorInv(w, c, cr) && cr.pc.Enqueueing?
    ensures var (w', pc) := Advance(w, c, cr.key, cr.pc, id, e);
            TableInv(w') && SlotsInv(w') && CreatorInv(w', c, cr.(pc := pc)) && Preserves(w, w', c) && w.jobs <= w'.jobs
  {
  }

  lemma DeleteKeeps(w: World, c: CreatorId, cr: Creator, id: TaskId, e: Effect)
    requires TableInv(w) && SlotsInv(w) && CreatorInv(w, c, cr) && cr.pc.Deleting?
    ensures var (w', pc) := Advance(w, c, cr.key, cr.pc, id, e);
            TableInv(w') && SlotsInv(w') && CreatorInv(w', c, cr.(pc := pc)) && Preserves(w, w', c) && w.jobs <= w'.jobs
  {
  }

  lemma AdvanceKeeps(w: World, c: CreatorId, cr: Creator, id: TaskId, e: Effect)
    requires TableInv(w) && SlotsInv(w) && CreatorInv(w, c, cr) && !Ended(cr.pc) &&
             (cr.pc.Inserting? ==> id !in w.keyOf)
    ensures var (w', pc) := Advance(w, c, cr.key, cr.pc, id, e);
            TableInv(w') && SlotsInv(w') && CreatorInv(w', c, cr.(pc := pc)) && Preserves(w, w', c) && w.jobs <= w'.jobs
  {
    match cr.pc
    case Inserting => InsertKeeps(w, c, cr, id, e);
    case Enqueueing(_) => EnqueueKeeps(w, c, cr, id, e);
    case Deleting(_) => DeleteKeeps(w, c, cr, id, e);
    case _ => SlotEffectKeeps(w, c, cr, id, e);
  }

  lemma StepKeepsInv(s: State, a: Action)
    requires Inv(s) && Enabled(s, a)
    ensures Inv(Step(s, a))
  {
    if a.Proceed? {
      var cr := s.creators[a.c];
      AdvanceKeeps(s.w, a.c, cr, a.id, a.e);
      var s' := Step(s, a);
      forall c | c in s'.creators ensures CreatorInv(s'.w, c, s'.creators[c]) {
        if c != a.c {
          assert CreatorInv(s.w, c, s.creators[c]);
        }
      }
    }
  }

  lemma {:induction false} BehaviorInv(b: seq<State>, i: nat)
    requires Behavior(b) && i < |b|
    ensures Inv(b[i])
  {
    if i > 0 {
      BehaviorInv(b, i - 1);
      assert Next(b[i - 1], b[i - 1 + 1]);
      var a :| Enabled(b[i - 1], a) && b[i] == Step(b[i - 1], a);
      StepKeepsInv(b[i - 1], a);
    }
  }

  // ---- Two moments of one run --------------------------------------------------------------

  /** Settled ids stay settled: while a row whose enqueue succeeded is never deleted. */
  ghost predicate Later(s: State, s': State) {
    forall t :: t in s.w.enqueued && t in s.w.rows && t in s.w.keyOf ==>
      t in s'.w.enqueued && t in s'.w.rows && t in s'.w.keyOf && s'.w.keyOf[t] == s.w.keyOf[t]
  }

  lemma StepIsLater(s: State, a: Action)
    requires Inv(s) && Enabled(s, a)
    ensures Later(s, Step(s, a))
  {
    if a.Proceed? {
      AdvanceKeeps(s.w, a.c, s.creators[a.c], a.id, a.e);
    }
  }

  lemma NextIsLater(s: State, s': State)
    requires Inv(s) && Next(s, s')
    ensures Later(s, s')
  {
    var a :| Enabled(s, a) && s' == Step(s, a);
    StepIsLater(s, a);
  }

  lemma LaterTransitive(x: State, y: State, z: State)
    requires Later(x, y) && Later(y, z)
    ensures Later(x, z)
  {
  }

  lemma RunMovesOn(b: seq<State>, i: nat)
    requires Behavior(b) && i < |b| - 1
    ensures Later(b[i], b[i + 1])
  {
    BehaviorInv(b, i);
    assert Next(b[i], b[i + 1]);
    NextIsLater(b[i], b[i + 1]);
  }

  lemma {:induction false} BehaviorLater(b: seq<State>, i: nat, j: nat)
    requires Behavior(b) && i <= j < |b|
    ensures Later(b[i], b[j])
    decreases j
  {
    if i < j {
      hide Later;
      BehaviorLater(b, i, j - 1);
      RunMovesOn(b, j - 1);
      assert b[j - 1 + 1] == b[j];
      LaterTransitive(b[i], b[j - 1], b[j]);
    }
  }

  /**
   * Creation agreement: of two successful responses for the same key, given at any two moments
   * of a run, the later carries the id of the earlier, and that id still names a row with that
   * key whose dispatch was enqueued.
   */
  lemma CreationAgreement(b: seq<State>, i: nat, j: nat, c: CreatorId, d: CreatorId)
    requires Behavior(b) && i <= j < |b|
    requires c in b[i].creators && b[i].creators[c].pc.Responded?
    requires d in b[j].creators && b[j].creators[d].pc.Responded?
    requires b[i].creators[c].key == b[j].creators[d].key && b[i].creators[c].key.Some?
    ensures b[i].creators[c].pc == b[j].creators[d].pc
    ensures Settled(b[j].w, b[i].creators[c].key, b[i].creators[c].pc.id)
  {
    BehaviorInv(b, i);
    BehaviorInv(b, j);
    BehaviorLater(b, i, j);
    assert CreatorInv(b[i].w, c, b[i].creators[c]) && CreatorInv(b[j].w, d, b[j].creators[d]);
  }

  /**
   * Any two ids a key's slot ever holds are the same, even across expiries, late commits and
   * releases by creators that no longer own it.
   */
  lemma SlotValueIsStable(b: seq<State>, i: nat, j: nat, key: string)
    requires Behavior(b) && i <= j < |b|
    requires key in b[i].w.slots && b[i].w.slots[key].Holds? && key in b[j].w.slots && b[j].w.slots[key].Holds?
    ensures b[i].w.slots[key].taskId == b[j].w.slots[key].taskId
  {
    BehaviorInv(b, i);
    BehaviorInv(b, j);
    BehaviorLater(b, i, j);
  }

  // ---- Single execution per key ------------------------------------------------------------

  ghost function DispatchedFor(s: State, key: Option<string>): set<TaskId> {
    set t | t in s.dispatched && t in s.w.keyOf && s.w.keyOf[t] == key
  }

  ghost function GhostsFor(s: State, key: Option<string>): set<TaskId> {
    set t | t in s.w.ghosts && t in s.w.keyOf && s.w.keyOf[t] == key
  }

  /**
   * Of all tasks ever dispatched for one key, at most one was properly enqueued: the others are
   * jobs left behind by enqueues that reported failure.  So without such jobs at most one task
   * per key is ever dispatched, although failed creations delete rows and free the key.
   * `CreationBounds.DispatchBoundIsTight` has runs that reach the bound.
   */
  lemma DispatchedPerKey(b: seq<State>, i: nat, key: Option<string>)
    requires Behavior(b) && i < |b| && key.Some?
    ensures var proper := DispatchedFor(b[i], key) - GhostsFor(b[i], key);
            forall t, u :: t in proper && u in proper ==> t == u
    ensures |DispatchedFor(b[i], key)| <= 1 + |GhostsFor(b[i], key)|
  {
    BehaviorInv(b, i);
    DispatchedWithin(b[i], key);
  }

  lemma DispatchedWithin(s: State, key: Option<string>)
    requires Inv(s) && key.Some?
    ensures var proper := DispatchedFor(s, key) - GhostsFor(s, key);
            forall t, u :: t in proper && u in proper ==> t == u
    ensures |DispatchedFor(s, key)| <= 1 + |GhostsFor(s, key)|
  {
    var dispatched, ghosts := DispatchedFor(s, key), GhostsFor(s, key);
    AtMostOneElement(dispatched - ghosts);
    SubsetSize(dispatched * ghosts, ghosts);
    assert dispatched == (dispatched - ghosts) + (dispatched * ghosts);
  }

  // ---- Mutual exclusion of the slot --------------------------------------------------------

  /** Between a successful occupy and the commit, release or crash that ends it. */
  predicate Holding(cr: Creator, key: string) {
    cr.key == Some(key) && key != "" &&
    (cr.pc.Inserting? || cr.pc.Enqueueing? || cr.pc.Deleting? || cr.pc.Releasing? || cr.pc.Committing?)
  }

  ghost function Holders(s: State, key: string): set<CreatorId> {
    set c | c in s.creators && Holding(s.creators[c], key)
  }

  ghost predicate HoldersBound(s: State, key: string) {
    |Holders(s, key)| <= Expiries(s, key) + SentinelCount(s.w, key)
  }

  lemma HoldersAfter(s: State, s': State, c: CreatorId, key: string)
    requires forall d :: d in s'.creators && d != c ==> d in s.creators && s'.creators[d] == s.creators[d]
    requires forall d :: d in s.creators ==> d in s'.creators
    requires c in s'.creators
    ensures Holders(s', key) == if Holding(s'.creators[c], key) then Holders(s, key) + {c} else Holders(s, key) - {c}
  {
  }

  function SentinelCount(w: World, key: string): nat {
    if key in w.slots && w.slots[key].Sentinel? then 1 else 0
  }

  function HoldingCount(cr: Creator, key: string): nat {
    if Holding(cr, key) then 1 else 0
  }

  /** A creator takes up holding a slot only together with its sentinel, and only holders remove one. */
  lemma AdvanceBalancesSentinel(w: World, c: CreatorId, cr: Creator, id: TaskId, e: Effect, key: string)
    requires KeyedPc(cr) && !Ended(cr.pc)
    ensures var (w', pc) := Advance(w, c, cr.key, cr.pc, id, e);
            HoldingCount(cr.(pc := pc), key) - HoldingCount(cr, key) <= SentinelCount(w', key) - SentinelCount(w, key)
  {
  }

  lemma ProceedKeepsHoldersBound(s: State, c: CreatorId, id: TaskId, e: Effect, key: string)
    requires Enabled(s, Proceed(c, id, e)) && HoldersBound(s, key)
    ensures HoldersBound(Step(s, Proceed(c, id, e)), key)
  {
    var s' := Step(s, Proceed(c, id, e));
    AdvanceBalancesSentinel(s.w, c, s.creators[c], id, e, key);
    HoldersAfter(s, s', c, key);
    assert c in Holders(s, key) <==> Holding(s.creators[c], key);
  }

  /** A creator that arrives or crashes holds nothing. */
  lemma BystanderKeepsHoldersBound(s: State, s': State, c: CreatorId, cr: Creator, key: string)
    requires HoldersBound(s, key) && s' == s.(creators := s.creators[c := cr]) && !Holding(cr, key)
    ensures HoldersBound(s', key)
  {
    HoldersAfter(s, s', c, key);
    SubsetSize(Holders(s', key), Holders(s, key));
  }

  lemma ExpireKeepsHoldersBound(s: State, slot: string, key: string)
    requires Enabled(s, Expire(slot)) && HoldersBound(s, key)
    ensures HoldersBound(Step(s, Expire(slot)), key)
  {
    assert Holders(Step(s, Expire(slot)), key) == Holders(s, key);
  }

  lemma StepKeepsHoldersBound(s: State, a: Action, key: string)
    requires Enabled(s, a) && HoldersBound(s, key)
    ensures HoldersBound(Step(s, a), key)
  {
    match a
    case Arrive(c, k) => BystanderKeepsHoldersBound(s, Step(s, a), c, Creator(k, Start(k)), key);
    case Crash(c) => BystanderKeepsHoldersBound(s, Step(s, a), c, s.creators[c].(pc := Crashed), key);
    case Proceed(c, id, e) => ProceedKeepsHoldersBound(s, c, id, e, key);
    case Expire(slot) => ExpireKeepsHoldersBound(s, slot, key);
    case DispatchClaims(t) => assert Holders(Step(s, a), key) == Holders(s, key);
  }

  /**
   * Slot mutual exclusion and the price of expiry: the creators that hold a key's slot at one
   * moment never outnumber its expiries by more than one, and by none unless the slot still
   * holds the sentinel.  `CreationBounds.HoldersBoundIsTight` has runs that reach the bound.
   */
  lemma {:induction false} SlotMutualExclusion(b: seq<State>, i: nat, key: string)
    requires Behavior(b) && i < |b|
    ensures HoldersBound(b[i], key)
  {
    if i == 0 {
      assert Holders(b[0], key) == {};
    } else {
      SlotMutualExclusion(b, i - 1, key);
      BehaviorInv(b, i - 1);
      assert Next(b[i - 1], b[i - 1 + 1]);
      var a :| Enabled(b[i - 1], a) && b[i] == Step(b[i - 1], a);
      StepKeepsHoldersBound(b[i - 1], a, key);
    }
  }

  /**
   * In a run where a key's slot never expires, at most one creator holds it at any moment, and
   * once it holds a task id it is never written or released again.
   */
  lemma WithoutExpiry(b: seq<State>, i: nat, j: nat, key: string)
    requires Behavior(b) && i <= j < |b| && Expiries(b[j], key) == 0
    ensures |Holders(b[i], key)| <= 1
    ensures key in b[i].w.slots && b[i].w.slots[key].Holds? ==>
              key in b[j].w.slots && b[j].w.slots[key] == b[i].w.slots[key]
  {
    ExpiriesGrow(b, i, j, key);
    SlotMutualExclusion(b, i, key);
    if key in b[i].w.slots && b[i].w.slots[key].Holds? {
      forall k | 0 <= k < |b| - 1
        ensures Expiries(b[k], key) <= Expiries(b[k + 1], key) && KeepsCommitted(b[k], b[k + 1], key)
      {
        EveryStepKeepsCommitted(b, k, key);
      }
      CommittedSlotStays(b, i, j, key);
    }
  }

  lemma {:induction false} ExpiriesGrow(b: seq<State>, i: nat, j: nat, key: string)
    requires Behavior(b) && i <= j < |b|
    ensures Expiries(b[i], key) <= Expiries(b[j], key)
    decreases j
  {
    if i < j {
      ExpiriesGrow(b, i, j - 1, key);
      assert Next(b[j - 1], b[j - 1 + 1]);
    }
  }

  /** What one step without an expiry of the key does to its committed slot: nothing. */
  ghost predicate KeepsCommitted(s: State, s': State, key: string) {
    Expiries(s', key) == 0 && key in s.w.slots && s.w.slots[key].Holds? ==>
      Expiries(s, key) == 0 && key in s'.w.slots && s'.w.slots[key] == s.w.slots[key]
  }

  lemma EveryStepKeepsCommitted(b: seq<State>, i: nat, key: string)
    requires Behavior(b) && i < |b| - 1
    ensures Expiries(b[i], key) <= Expiries(b[i + 1], key) && KeepsCommitted(b[i], b[i + 1], key)
  {
    ExpiriesGrow(b, i, i + 1, key);
    SlotMutualExclusion(b, i, key);
    BehaviorInv(b, i);
    var s, s' := b[i], b[i + 1];
    assert Next(s, s');
    if Expiries(s', key) == 0 && key in s.w.slots && s.w.slots[key].Holds? {
      CommittedSlotSurvivesNext(s, s', key);
    }
  }

  lemma {:induction false} CommittedSlotStays(b: seq<State>, i: nat, j: nat, key: string)
    requires i <= j < |b| && Expiries(b[j], key) == 0
    requires forall k :: 0 <= k < |b| - 1 ==>
               Expiries(b[k], key) <= Expiries(b[k + 1], key) && KeepsCommitted(b[k], b[k + 1], key)
    requires key in b[i].w.slots && b[i].w.slots[key].Holds?
    ensures key in b[j].w.slots && b[j].w.slots[key] == b[i].w.slots[key]
    decreases j
  {
    if i < j {
      assert KeepsCommitted(b[j - 1], b[j - 1 + 1], key);
      CommittedSlotStays(b, i, j - 1, key);
    }
  }

  lemma CommittedSlotSurvivesNext(s: State, s': State, key: string)
    requires Inv(s) && Next(s, s') && HoldersBound(s, key) && Expiries(s', key) == 0 && Expiries(s, key) == 0
    requires key in s.w.slots && s.w.slots[key].Holds?
    ensures key in s'.w.slots && s'.w.slots[key] == s.w.slots[key]
  {
    var a :| Enabled(s, a) && s' == Step(s, a);
    CommittedSlotSurvivesStep(s, a, key);
  }

  lemma CommittedSlotSurvivesStep(s: State, a: Action, key: string)
    requires Inv(s) && Enabled(s, a) && HoldersBound(s, key) && Expiries(Step(s, a), key) == 0 && Expiries(s, key) == 0
    requires key in s.w.slots && s.w.slots[key].Holds?
    ensures key in Step(s, a).w.slots && Step(s, a).w.slots[key] == s.w.slots[key]
  {
    assert Holders(s, key) == {};
    if a.Proceed? {
      assert a.c !in Holders(s, key) && CreatorInv(s.w, a.c, s.creators[a.c]);
    }
  }

  // ---- Slots that never expire -------------------------------------------------------------

  ghost predicate TtlInv(s: State, key: string) {
    Expiries(s, key) == 0 && key in s.w.slots ==> s.w.slots[key].hasTtl
  }

  lemma StepKeepsTtl(s: State, a: Action, key: string)
    requires Enabled(s, a) && HoldersBound(s, key) && TtlInv(s, key)
    ensures TtlInv(Step(s, a), key)
  {
    if a.Proceed? && s.creators[a.c].pc.Committing? && s.creators[a.c].key == Some(key) {
      assert a.c in Holders(s, key);
    }
  }

  /** As long as a key's slot has never expired, whatever is in it will: a commit finds the TTL it keeps. */
  lemma {:induction false} UnexpiredSlotHasTtl(b: seq<State>, i: nat, key: string)
    requires Behavior(b) && i < |b|
    ensures TtlInv(b[i], key)
  {
    if i > 0 {
      UnexpiredSlotHasTtl(b, i - 1, key);
      SlotMutualExclusion(b, i - 1, key);
      assert Next(b[i - 1], b[i - 1 + 1]);
      var a :| Enabled(b[i - 1], a) && b[i] == Step(b[i - 1], a);
      StepKeepsTtl(b[i - 1], a, key);
    }
  }
}
