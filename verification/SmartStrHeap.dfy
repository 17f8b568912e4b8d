/**
 * The part of the process heap that holds recorded result sets (smart_str containers).
 *
 * An address is never handed out twice, so touching a released buffer cannot be masked
 * by a later allocation: every use after free, double free or NULL dereference raises
 * `fault`, and `fault` is never lowered again.
 */
module SmartStrHeap {
  newtype Byte = b: int | 0 <= b < 256
  type Bytes = seq<Byte>
  type Address = nat

  datatype Heap = Heap(live: map<Address, Bytes>, next: Address, fault: bool) {
    /** A new buffer with the given content; its address is the old `next`. */
    function Alloc(content: Bytes): Heap {
      Heap(live[next := content], next + 1, fault)
    }

    function Read(a: Address): Bytes {
      if a in live then live[a] else []
    }

    /** The effect of reading: none on a live buffer. */
    function Touch(a: Address): Heap {
      if a in live then this else Raise()
    }

    function Write(a: Address, content: Bytes): Heap {
      if a in live then this.(live := live[a := content]) else Raise()
    }

    function Free(a: Address): Heap {
      if a in live then this.(live := live - {a}) else Raise()
    }

    function Raise(): Heap {
      this.(fault := true)
    }
  }

  const EMPTY_HEAP := Heap(map[], 0, false)
}
