/** A bounded channel as a circular buffer: a fixed array, the place of its oldest element, how
    many it holds, and whether it was closed. A send on a closed channel, or a second close,
    reports that it panics. */
module Channels {

  class Channel<T(0)> {
    const slots: array<T>
    var first: nat
    var count: nat
    var closed: bool

    ghost predicate Valid()
      reads this
    {
      count <= slots.Length && (first < slots.Length || first == slots.Length == 0)
    }

    /** Where the element with i older ones before it is, or will be, stored. */
    function Slot(i: nat): (k: nat)
      requires Valid() && i < slots.Length
      reads this
      ensures k < slots.Length
    {
      if first + i < slots.Length then first + i else first + i - slots.Length
    }

    /** The elements held, oldest first. */
    function Contents(): (s: seq<T>)
      requires Valid()
      reads this, slots
      ensures |s| == count
    {
      seq(count, i requires 0 <= i < count && Valid() reads this, slots => slots[Slot(i)])
    }

    constructor (capacity: nat)
      ensures Valid() && !closed && Contents() == []
      ensures slots.Length == capacity && fresh(slots)
    {
      slots := new T[capacity];
      first, count, closed := 0, 0, false;
    }

    method Send(x: T) returns (panics: bool)
      requires Valid() && (closed || |Contents()| < slots.Length)
      modifies this`count, slots
      ensures Valid() && panics == closed
      ensures Contents() == if panics then old(Contents()) else old(Contents()) + [x]
    {
      panics := closed;
      if !closed {
        slots[Slot(count)] := x;
        count := count + 1;
      }
    }

    method Receive() returns (x: T)
      requires Valid() && Contents() != []
      modifies this`first, this`count
      ensures Valid() && old(Contents()) == [x] + Contents()
    {
      x := slots[first];
      first := if first + 1 == slots.Length then 0 else first + 1;
      count := count - 1;
    }

    method Close() returns (panics: bool)
      requires Valid()
      modifies this`closed
      ensures Valid() && closed && panics == old(closed) && Contents() == old(Contents())
    {
      panics := closed;
      closed := true;
    }
  }
}
