/** The per-particle slot store (`ParticleData.data`): an `Object[]` indexed by an
    influencer's position in the emitter's chain, empty until a slot is reserved, and
    the moves the emitter makes on it when an influencer is inserted or removed.

    The store is a sequence here; the shared empty sentinel array `EMPTY_OBJECT_ARRAY`
    is the empty sequence (every array the store allocates has at least one slot, since
    slot ids are positions, so an empty store is exactly the untouched sentinel). */
module SlotStore {
  import opened Common

  type Slots = seq<Option<DataObject>>

  /** What slot `id` holds, a slot beyond the array counting as empty. */
  function Slot(data: Slots, id: nat): Option<DataObject> {
    if id < |data| then data[id] else None
  }

  /** `reserveDataSlot(id, defaultSize)`: the first reservation allocates
      `max(defaultSize, id + 1)` slots; later ones grow the array to `id + 1` slots when
      it is too short; the existing slots are copied and the new ones are empty. */
  function Reserve(data: Slots, id: nat, defaultSize: int): (r: Slots)
    ensures |r| > id
    ensures |data| == 0 ==> |r| == Max(defaultSize, id + 1)
    ensures |data| > 0 ==> |r| == Max(|data|, id + 1)
    ensures r[..|data|] == data
    ensures forall k :: |data| <= k < |r| ==> r[k] == None
  {
    if |data| == 0 then seq(Max(defaultSize, id + 1), _ => None)
    else if id >= |data| then data + seq(id + 1 - |data|, _ => None)
    else data
  }

  /** Reserving never changes what any slot holds. */
  lemma ReserveKeepsSlots(data: Slots, id: nat, defaultSize: int, k: nat)
    ensures Slot(Reserve(data, id, defaultSize), k) == Slot(data, k)
  {
    var r := Reserve(data, id, defaultSize);
    if k < |data| {
      assert r[..|data|][k] == data[k];
    }
  }

  /** `hasData(id)`: the slot exists and holds an object. */
  function HasData(data: Slots, id: nat): (b: bool)
    ensures b ==> id < |data|
  {
    |data| > id && data[id].Some?
  }

  /** `setData(id, x)`: writes slot `id`, which must exist. */
  function SetData(data: Slots, id: nat, x: DataObject): Slots
    requires id < |data|
  {
    data[id := Some(x)]
  }

  /** `removeData(id)`: empties slot `id` when the array has it. */
  function RemoveData(data: Slots, id: nat): Slots {
    if |data| > id then data[id := None] else data
  }

  /** Writing a slot and reading it back gives the value written; every other slot
      and the length are unchanged. */
  lemma SetThenGet(data: Slots, id: nat, x: DataObject, k: nat)
    requires id < |data|
    ensures |SetData(data, id, x)| == |data|
    ensures Slot(SetData(data, id, x), id) == Some(x)
    ensures k != id ==> Slot(SetData(data, id, x), k) == Slot(data, k)
  {
  }

  /** Removing leaves an out-of-range store as it is and otherwise empties exactly
      slot `id`; afterwards the slot has no data. */
  lemma RemoveClearsOnly(data: Slots, id: nat, k: nat)
    ensures |RemoveData(data, id)| == |data|
    ensures !HasData(RemoveData(data, id), id)
    ensures id >= |data| ==> RemoveData(data, id) == data
    ensures k != id ==> Slot(RemoveData(data, id), k) == Slot(data, k)
  {
  }

  /** `initializeData(influencer, id, defaultSize)`: reserve the slot, store the
      influencer's new object only when the slot is empty, and return the object the
      slot then holds. */
  function InitializeData(data: Slots, id: nat, defaultSize: int, created: DataObject): (r: (Slots, DataObject))
    ensures HasData(r.0, id) && r.0[id] == Some(r.1)
    ensures HasData(data, id) ==> r.1 == data[id].value
    ensures !HasData(data, id) ==> r.1 == created
    ensures forall k: nat :: k != id ==> Slot(r.0, k) == Slot(data, k)
  {
    var reserved := Reserve(data, id, defaultSize);
    assert forall k: nat :: Slot(reserved, k) == Slot(data, k) by {
      forall k: nat ensures Slot(reserved, k) == Slot(data, k) {
        ReserveKeepsSlots(data, id, defaultSize, k);
      }
    }
    if !HasData(reserved, id) then (SetData(reserved, id, created), created)
    else (reserved, reserved[id].value)
  }

  /** A second initialisation finds the object of the first and changes nothing. */
  lemma InitializeDataIdempotent(data: Slots, id: nat, defaultSize: int, c1: DataObject, c2: DataObject)
    ensures var (d1, o1) := InitializeData(data, id, defaultSize, c1);
      InitializeData(d1, id, defaultSize, c2) == (d1, o1)
  {
  }

  /** One particle's part of `moveInfluencerData(prev, next)`: an empty `prev` empties
      `next`; otherwise the object moves from `prev` to `next` (reserving `next`). */
  function MoveData(data: Slots, prev: nat, next: nat, defaultSize: int): Slots {
    if !HasData(data, prev) then RemoveData(data, next)
    else RemoveData(SetData(Reserve(data, next, defaultSize), next, data[prev].value), prev)
  }

  /** After a move, slot `next` holds what `prev` held (or nothing), `prev` is empty and
      every other slot keeps its content. */
  lemma MoveDataSlots(data: Slots, prev: nat, next: nat, defaultSize: int, j: nat)
    requires prev != next
    ensures Slot(MoveData(data, prev, next, defaultSize), j) ==
      if j == next then Slot(data, prev) else if j == prev then None else Slot(data, j)
  {
    if HasData(data, prev) {
      var reserved := Reserve(data, next, defaultSize);
      ReserveKeepsSlots(data, next, defaultSize, j);
      ReserveKeepsSlots(data, next, defaultSize, prev);
    }
  }

  /** The moves `addInfluencer(_, lo)` makes for a chain of `hi` influencers:
      `prev -> prev + 1` for `prev = hi - 1` down to `lo`. */
  function ShiftUp(data: Slots, lo: nat, hi: nat, defaultSize: int): Slots
    decreases hi - lo
  {
    if hi <= lo then data else MoveData(ShiftUp(data, lo + 1, hi, defaultSize), lo, lo + 1, defaultSize)
  }

  /** Inserting at `lo`: slots below `lo` keep their objects, slot `lo` is emptied for
      the new influencer, every slot `j` in `lo+1..hi` holds what slot `j - 1` held, and
      slots above `hi` are untouched, so no object is lost or overwritten. */
  lemma {:induction false} ShiftUpSlots(data: Slots, lo: nat, hi: nat, defaultSize: int, j: nat)
    requires lo <= hi
    ensures Slot(ShiftUp(data, lo, hi, defaultSize), j) ==
      if j < lo then Slot(data, j)
      else if j == lo then (if lo < hi then None else Slot(data, j))
      else if j <= hi then Slot(data, j - 1)
      else Slot(data, j)
    decreases hi - lo
  {
    if lo < hi {
      var inner := ShiftUp(data, lo + 1, hi, defaultSize);
      MoveDataSlots(inner, lo, lo + 1, defaultSize, j);
      if j == lo + 1 {
        ShiftUpSlots(data, lo + 1, hi, defaultSize, lo);
      } else if j != lo {
        ShiftUpSlots(data, lo + 1, hi, defaultSize, j);
      }
    }
  }

  /** The moves `removeInfluencer(lo)` makes for a chain of `hi` influencers:
      `prev + 1 -> prev` for `prev = lo` up to `hi - 1`. */
  function SlideDown(data: Slots, lo: nat, hi: nat, defaultSize: int): Slots
    decreases hi - lo
  {
    if hi <= lo then data else MoveData(SlideDown(data, lo, hi - 1, defaultSize), hi, hi - 1, defaultSize)
  }

  /** Removing at `lo`: slots below `lo` keep their objects, every slot `j` in
      `lo..hi-1` holds what slot `j + 1` held, slot `hi` is emptied and slots above are
      untouched. */
  lemma {:induction false} SlideDownSlots(data: Slots, lo: nat, hi: nat, defaultSize: int, j: nat)
    requires lo <= hi
    ensures Slot(SlideDown(data, lo, hi, defaultSize), j) ==
      if j < lo then Slot(data, j)
      else if j < hi then Slot(data, j + 1)
      else if j == hi then (if lo < hi then None else Slot(data, j))
      else Slot(data, j)
    decreases hi - lo
  {
    if lo < hi {
      var inner := SlideDown(data, lo, hi - 1, defaultSize);
      MoveDataSlots(inner, hi, hi - 1, defaultSize, j);
      if j == hi - 1 {
        SlideDownSlots(data, lo, hi - 1, defaultSize, hi);
      } else if j != hi {
        SlideDownSlots(data, lo, hi - 1, defaultSize, j);
      }
    }
  }
}
