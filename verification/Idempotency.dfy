/**
 * The two-phase idempotency slot in Redis (libs/idempotency), as the commands change it.
 */
module Idempotency {
  import opened Schema

  /**
   * The value under a slot key: the sentinel or a task id.  `hasTtl` is false for a key written
   * by SET KEEPTTL after the slot had expired: there was no TTL to keep, so it never expires.
   */
  datatype Slot = Sentinel(hasTtl: bool) | Holds(taskId: TaskId, hasTtl: bool)

  type Slots = map<string, Slot>

  datatype OccupyResult = Acquired | CreationPending | Duplicate(taskId: TaskId)

  /** The Lua script: SET NX EX, and the existing value when the slot is taken. */
  function Occupy(slots: Slots, key: string): (Slots, OccupyResult) {
    if key !in slots then (slots[key := Sentinel(true)], Acquired)
    else
      match slots[key]
      case Sentinel(_) => (slots, CreationPending)
      case Holds(id, _) => (slots, Duplicate(id))
  }

  /** SET key taskId KEEPTTL: it neither checks the old value nor who wrote it. */
  function Commit(slots: Slots, key: string, id: TaskId): Slots {
    slots[key := Holds(id, key in slots && slots[key].hasTtl)]
  }

  /** DEL key, again without checking who wrote it. */
  function Release(slots: Slots, key: string): Slots {
    slots - {key}
  }

  predicate CanExpire(slots: Slots, key: string) {
    key in slots && slots[key].hasTtl
  }

  class IdempotencyService {
    var slots: Slots

    constructor ()
      ensures slots == map[]
    {
      slots := map[];
    }

    method OccupySlot(key: string) returns (r: OccupyResult)
      modifies this
      ensures (slots, r) == Occupy(old(slots), key)
      ensures r.Acquired? <==> key !in old(slots)
      ensures r.CreationPending? <==> key in old(slots) && old(slots)[key].Sentinel?
      ensures r.Duplicate? ==> key in old(slots) && old(slots)[key].Holds? && r.taskId == old(slots)[key].taskId
      ensures slots == if r.Acquired? then old(slots)[key := Sentinel(true)] else old(slots)
    {
      if key !in slots {
        slots := slots[key := Sentinel(true)];
        return Acquired;
      }
      match slots[key] {
        case Sentinel(_) => r := CreationPending;
        case Holds(id, _) => r := Duplicate(id);
      }
    }

    method CommitResult(key: string, id: TaskId)
      modifies this
      ensures slots == Commit(old(slots), key, id)
      ensures key in slots && slots[key].Holds? && slots[key].taskId == id
      ensures slots[key].hasTtl <==> key in old(slots) && old(slots)[key].hasTtl
      ensures slots - {key} == old(slots) - {key}
    {
      slots := slots[key := Holds(id, key in slots && slots[key].hasTtl)];
    }

    method ReleaseSlot(key: string)
      modifies this
      ensures slots == Release(old(slots), key)
      ensures key !in slots && slots - {key} == old(slots) - {key}
    {
      slots := slots - {key};
    }
  }

  /** Occupying a free slot and releasing it leaves no trace. */
  lemma ReleaseUndoesOccupy(slots: Slots, key: string)
    requires key !in slots
    ensures Release(Occupy(slots, key).0, key) == slots
  {
  }

  /** A commit that lands after its slot has expired creates a slot that can never expire. */
  lemma LateCommitNeverExpires(slots: Slots, key: string, id: TaskId)
    ensures !CanExpire(Commit(slots, key, id), key) <==> (key !in slots || !slots[key].hasTtl)
  {
  }
}
