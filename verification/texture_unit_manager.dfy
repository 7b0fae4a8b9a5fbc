/**
 * `TextureUnitManager`: a ring of `capacity` texture-unit slots, each empty
 * (the sentinel 0xFFFFFFFF) or holding the id of the texture last bound to it.
 */
module TextureUnits {
  import opened Ints

  /** The value of a slot that holds no texture. */
  const EMPTY_SLOT: u32 := 0xFFFF_FFFF

  class TextureUnitManager {
    var capacity: u32
    var buffer: seq<u32>
    var full: bool
    var head: u32
    var tail: u32

    /** The slot vector has `capacity` entries and both ring indices address a slot (or are 0 when there is none). */
    ghost predicate Valid()
      reads this
    {
      |buffer| == capacity &&
      (capacity == 0 ==> head == 0 && tail == 0) &&
      (capacity > 0 ==> head < capacity && tail < capacity)
    }

    /** `TextureUnitManager(capacity)`: `capacity` empty slots, not full, head = tail = 0. */
    constructor (capacity: u32)
      ensures Valid()
      ensures this.capacity == capacity
      ensures buffer == seq(capacity, _ => EMPTY_SLOT)
      ensures !full && head == 0 && tail == 0
    {
      this.capacity := capacity;
      buffer := seq(capacity, _ => EMPTY_SLOT);
      full := false;
      head := 0;
      tail := 0;
    }

    /** `full()`: reads the flag. */
    function Full(): (r: bool)
      reads this
      ensures r == full
    {
      full
    }

    /**
     * `getUnit(textureID, textureUnit)`: always sets the unit, and reports
     * whether the texture still has to be bound to it; when it need not be,
     * the unit already held it and nothing changes. Only this much is
     * promised by the declaration; the slot chosen for a texture that is
     * not resident (here the ring's tail) is not part of the contract.
     * An id equal to the empty-slot sentinel counts as resident whenever a
     * slot is empty: the slots hold no separate "occupied" mark, so the
     * lookup cannot tell the two apart, and no requires rules that id out.
     */
    method GetUnit(textureID: u32) returns (needsBind: bool, unit: u32)
      requires Valid() && capacity > 0
      modifies this
      ensures Valid() && capacity == old(capacity)
      ensures unit < capacity && buffer[unit] == textureID
      ensures needsBind <==> textureID !in old(buffer)
      ensures forall k :: 0 <= k < capacity && k != unit ==> buffer[k] == old(buffer[k])
      ensures !needsBind ==> old(buffer)[unit] == textureID && buffer == old(buffer) &&
                             head == old(head) && tail == old(tail) && full == old(full)
    {
      var i := 0;
      while i < |buffer| && buffer[i] != textureID
        invariant 0 <= i <= |buffer|
        invariant forall k :: 0 <= k < i ==> buffer[k] != textureID
      {
        i := i + 1;
      }
      if i < |buffer| {
        unit := i;
        needsBind := false;
      } else {
        unit := tail;
        needsBind := true;
        buffer := buffer[tail := textureID];
        if full {
          head := (head + 1) % capacity;
        }
        tail := (tail + 1) % capacity;
        if tail == head {
          full := true;
        }
      }
    }

    /** `clear()`: every slot empty again, head = tail = 0, not full. */
    method Clear()
      requires Valid()
      modifies this
      ensures Valid() && capacity == old(capacity)
      ensures buffer == seq(capacity, _ => EMPTY_SLOT)
      ensures !full && head == 0 && tail == 0
    {
      buffer := seq(capacity, _ => EMPTY_SLOT);
      full := false;
      head := 0;
      tail := 0;
    }
  }
}
