// Mono output storage of the worklet: a fixed ring of samples.
module PcmRing {

  // The slot holding the i-th buffered sample.
  function Slot(start: nat, i: nat, capacity: nat): (slot: nat)
    requires start < capacity && i <= capacity
    ensures slot < capacity
  {
    if start + i < capacity then start + i else start + i - capacity
  }

  // Advancing an index modulo the capacity moves to the next slot.
  lemma NextSlot(index: nat, capacity: nat)
    requires index < capacity
    ensures (index + 1) % capacity == Slot(index, 1, capacity)
  {
    if index + 1 == capacity {
      assert capacity % capacity == 0;
    }
  }

  class PCMFrameRing {
    const capacity: nat
    const samples: array<real>
    var readIndex: nat
    var writeIndex: nat
    var used: nat

    ghost predicate Valid()
      reads this
    {
      && 0 < capacity == samples.Length
      && readIndex < capacity
      && used <= capacity
      && writeIndex == Slot(readIndex, used, capacity)
    }

    // Buffered samples, oldest first.
    ghost function Contents(): (queue: seq<real>)
      requires Valid()
      reads this, samples
      ensures |queue| == used
    {
      seq(used, i requires 0 <= i < used reads this, samples requires Valid() => samples[Slot(readIndex, i, capacity)])
    }

    constructor (capacity: nat)
      requires capacity > 0
      ensures Valid() && fresh(samples)
      ensures this.capacity == capacity && Contents() == []
    {
      this.capacity := capacity;
      samples := new real[capacity];
      readIndex, writeIndex, used := 0, 0, 0;
    }

    method Clear()
      requires Valid()
      modifies this
      ensures Valid() && Contents() == []
    {
      readIndex, writeIndex, used := 0, 0, 0;
    }

    // The source throws when the ring is full; the result says whether the
    // sample was stored.
    method Write(value: real) returns (stored: bool)
      requires Valid()
      modifies this, samples
      ensures Valid()
      ensures stored == (old(used) < capacity)
      ensures Contents() == if stored then old(Contents()) + [value] else old(Contents())
    {
      if used == capacity { return false; }
      ghost var before := Contents();
      samples[writeIndex] := value;
      NextSlot(writeIndex, capacity);
      writeIndex := (writeIndex + 1) % capacity;
      used := used + 1;
      assert Contents() == before + [value];
      return true;
    }

    method Read() returns (value: real)
      requires Valid() && used > 0
      modifies this
      ensures Valid()
      ensures value == old(Contents())[0] && Contents() == old(Contents())[1..]
    {
      ghost var before := Contents();
      value := samples[readIndex];
      NextSlot(readIndex, capacity);
      readIndex := (readIndex + 1) % capacity;
      used := used - 1;
      assert forall i | 0 <= i < used :: Contents()[i] == before[i + 1];
    }
  }
}
