/**
 * Runs of the creation protocol that reach the bounds proved in `Creation`: every expiry can
 * admit one more holder, every job left behind by a failed enqueue one more dispatch, and one
 * expiry at the wrong moment a slot that is there for ever.
 */
module CreationBounds {
  import opened Wrappers
  import opened Collections
  import opened Schema
  import opened Idempotency
  import opened Creation

  function Last(b: seq<State>): State
    requires b != []
  {
    b[|b| - 1]
  }

  lemma Extend(b: seq<State>, a: Action) returns (b': seq<State>)
    requires Behavior(b) && Enabled(Last(b), a)
    ensures Behavior(b') && Last(b') == Step(Last(b), a)
  {
    b' := b + [Step(Last(b), a)];
    forall i | 0 <= i < |b'| - 1 ensures Next(b'[i], b'[i + 1]) {
      if i < |b| - 1 {
        assert Next(b[i], b[i + 1]);
      }
    }
  }

  /** A newcomer occupies the free slot of a key. */
  lemma Occupant(b: seq<State>, c: CreatorId, key: string) returns (b': seq<State>)
    requires Behavior(b) && key != "" && key !in Last(b).w.slots && c !in Last(b).creators
    ensures Behavior(b')
    ensures var s := Last(b);
            Last(b') == s.(w := s.w.(slots := s.w.slots[key := Sentinel(true)]),
                           creators := s.creators[c := Creator(Some(key), Inserting)])
  {
    b' := Extend(b, Arrive(c, Some(key)));
    b' := Extend(b', Proceed(c, 0, Succeeds));
  }

  // ---- Holders -----------------------------------------------------------------------------

  /** n creators hold the slot of a key that has expired n times and is free again. */
  ghost predicate ManyHolders(s: State, key: string, n: nat) {
    && key !in s.w.slots && Expiries(s, key) == n && |Holders(s, key)| == n
    && (forall c :: c in s.creators ==> c < n)
  }

  lemma OccupantHolds(s: State, s': State, c: CreatorId, key: string)
    requires key != "" && c !in s.creators && s'.creators == s.creators[c := Creator(Some(key), Inserting)]
    ensures |Holders(s', key)| == |Holders(s, key)| + 1
  {
    HoldersAfter(s, s', c, key);
    assert c !in Holders(s, key);
  }

  lemma {:induction false} ReachManyHolders(key: string, n: nat) returns (b: seq<State>)
    requires key != ""
    ensures Behavior(b) && ManyHolders(Last(b), key, n)
  {
    if n == 0 {
      b := [INIT];
      assert Holders(INIT, key) == {};
    } else {
      var b0 := ReachManyHolders(key, n - 1);
      var b1 := Occupant(b0, n - 1, key);
      OccupantHolds(Last(b0), Last(b1), n - 1, key);
      b := Extend(b1, Expire(key));
      assert Holders(Last(b), key) == Holders(Last(b1), key);
    }
  }

  /** The bound of `SlotMutualExclusion` is reached for every number of expiries. */
  lemma HoldersBoundIsTight(key: string, n: nat)
    requires key != ""
    ensures exists b: seq<State> :: Behavior(b) && Expiries(Last(b), key) == n && |Holders(Last(b), key)| == n + 1
  {
    var b0 := ReachManyHolders(key, n);
    var b := Occupant(b0, n, key);
    OccupantHolds(Last(b0), Last(b), n, key);
  }

  // ---- Dispatches --------------------------------------------------------------------------

  /** The row inserted, the job enqueued and dispatched, the enqueue reported as e says. */
  function WithJob(s: State, c: CreatorId, key: string, t: TaskId, e: Effect): State {
    State(
      s.w.(rows := s.w.rows + {t}, keyOf := s.w.keyOf[t := Some(key)], owner := s.w.owner[t := c],
           jobs := s.w.jobs + {t},
           enqueued := if e.Succeeds? then s.w.enqueued + {t} else s.w.enqueued,
           ghosts := if e.Succeeds? then s.w.ghosts else s.w.ghosts + {t}),
      s.creators[c := Creator(Some(key), if e.Succeeds? then Committing(t) else Deleting(t))],
      s.dispatched + {t}, s.expiries)
  }

  lemma RowAndJob(b: seq<State>, c: CreatorId, key: string, t: TaskId, e: Effect) returns (b': seq<State>)
    requires Behavior(b) && key != "" && c in Last(b).creators && Last(b).creators[c] == Creator(Some(key), Inserting)
    requires t !in Last(b).w.keyOf && !KeyTaken(Last(b).w, Some(key)) && Happens(e)
    ensures Behavior(b') && Last(b') == WithJob(Last(b), c, key, t, e)
  {
    var s := Last(b);
    b' := Extend(b, Proceed(c, t, Succeeds));
    assert Last(b').creators[c] == Creator(Some(key), Enqueueing(t));
    b' := Extend(b', Proceed(c, t, e));
    assert t in Last(b').w.jobs && t in Last(b').w.rows;
    b' := Extend(b', DispatchClaims(t));
    assert Last(b').creators == WithJob(s, c, key, t, e).creators;
  }

  /** Row and slot are given up again. */
  lemma RollBack(b: seq<State>, c: CreatorId, key: string, t: TaskId) returns (b': seq<State>)
    requires Behavior(b) && key != "" && c in Last(b).creators && Last(b).creators[c] == Creator(Some(key), Deleting(t))
    ensures Behavior(b')
    ensures var s := Last(b);
            Last(b') == s.(w := s.w.(rows := s.w.rows - {t}, slots := s.w.slots - {key}),
                           creators := s.creators[c := Creator(Some(key), Thrown)])
  {
    var s := Last(b);
    b' := Extend(b, Proceed(c, t, Succeeds));
    assert Last(b').creators[c] == Creator(Some(key), Releasing);
    b' := Extend(b', Proceed(c, t, Succeeds));
    assert Last(b').creators == s.creators[c := Creator(Some(key), Thrown)];
  }

  /** The enqueue reports failure but leaves its job, which is dispatched before the rollback. */
  lemma GhostAttempt(b: seq<State>, c: CreatorId, key: string, t: TaskId) returns (b': seq<State>)
    requires Behavior(b) && key != "" && key !in Last(b).w.slots && c !in Last(b).creators
    requires t !in Last(b).w.keyOf && t !in Last(b).w.rows && !KeyTaken(Last(b).w, Some(key))
    ensures Behavior(b')
    ensures var s := Last(b);
            Last(b') == State(
              s.w.(keyOf := s.w.keyOf[t := Some(key)], owner := s.w.owner[t := c],
                   jobs := s.w.jobs + {t}, ghosts := s.w.ghosts + {t}),
              s.creators[c := Creator(Some(key), Thrown)], s.dispatched + {t}, s.expiries)
  {
    var s := Last(b);
    var b1 := Occupant(b, c, key);
    assert !KeyTaken(Last(b1).w, Some(key));
    var b2 := RowAndJob(b1, c, key, t, FailsAfter);
    b' := RollBack(b2, c, key, t);
    assert s.w.rows + {t} - {t} == s.w.rows;
    assert s.w.slots[key := Sentinel(true)] - {key} == s.w.slots;
    assert Last(b').creators == s.creators[c := Creator(Some(key), Thrown)];
  }

  /** n failed creations of a key, each of which was dispatched. */
  ghost predicate ManyGhosts(s: State, key: string, n: nat) {
    && key !in s.w.slots && s.w.rows == {}
    && |GhostsFor(s, Some(key))| == n && GhostsFor(s, Some(key)) == DispatchedFor(s, Some(key))
    && (forall c :: c in s.creators ==> c < n) && (forall t :: t in s.w.keyOf ==> t < n)
  }

  lemma DispatchedAfter(s: State, s': State, key: Option<string>, t: TaskId)
    requires t !in s.w.keyOf && s'.w.keyOf == s.w.keyOf[t := key] && s'.dispatched == s.dispatched + {t}
    ensures DispatchedFor(s', key) == DispatchedFor(s, key) + {t} && t !in DispatchedFor(s, key)
    ensures s'.w.ghosts == s.w.ghosts + {t} ==> GhostsFor(s', key) == GhostsFor(s, key) + {t}
    ensures s'.w.ghosts == s.w.ghosts && t !in s.w.ghosts ==> GhostsFor(s', key) == GhostsFor(s, key)
  {
  }

  lemma {:induction false} ReachManyGhosts(key: string, n: nat) returns (b: seq<State>)
    requires key != ""
    ensures Behavior(b) && ManyGhosts(Last(b), key, n)
  {
    if n == 0 {
      b := [INIT];
      assert GhostsFor(INIT, Some(key)) == {} == DispatchedFor(INIT, Some(key));
    } else {
      var b0 := ReachManyGhosts(key, n - 1);
      b := GhostAttempt(b0, n - 1, key, n - 1);
      DispatchedAfter(Last(b0), Last(b), Some(key), n - 1);
    }
  }

  /**
   * The bound of `DispatchedPerKey` is reached for every number of jobs left behind: n failed
   * creations of a key that were dispatched all the same, and then one that succeeds.
   */
  lemma DispatchBoundIsTight(key: string, n: nat)
    requires key != ""
    ensures exists b: seq<State> ::
              && Behavior(b) && |GhostsFor(Last(b), Some(key))| == n
              && |DispatchedFor(Last(b), Some(key))| == n + 1
  {
    var b0 := ReachManyGhosts(key, n);
    var b1 := Occupant(b0, n, key);
    var b := RowAndJob(b1, n, key, n, Succeeds);
    BehaviorInv(b0, |b0| - 1);
    DispatchedAfter(Last(b0), Last(b), Some(key), n);
  }

  // ---- A slot without end ------------------------------------------------------------------

  /** One expiry between occupy and commit leaves a slot that no later expiry can remove. */
  lemma ExpiryLeavesEternalSlot(key: string)
    requires key != ""
    ensures exists b: seq<State> :: Behavior(b) && Expiries(Last(b), key) == 1 &&
              key in Last(b).w.slots && !CanExpire(Last(b).w.slots, key)
  {
    var b := Occupant([INIT], 0, key);
    b := RowAndJob(b, 0, key, 1, Succeeds);
    b := Extend(b, Expire(key));
    b := Extend(b, Proceed(0, 1, Succeeds));
  }
}
