// PQueueDataType: a message payload for the persistent queue, a byte chunk
// held through a shared pointer, so copies share one chunk.
module PQueueDataTypes {
  import opened Wrappers

  type Byte = bv8

  /** The shared `std::vector<uint8_t>`. */
  class Chunk {
    var bytes: seq<Byte>

    constructor (bytes: seq<Byte>)
      ensures this.bytes == bytes
    {
      this.bytes := bytes;
    }
  }

  /** The chunk contents `set(size, ptr)` builds: `size` bytes copied from
      `ptr` when the size is positive and the pointer is not null, otherwise
      `size` zero bytes. */
  function Filled(size: nat, source: Option<seq<Byte>>): (r: seq<Byte>)
    requires source.Some? ==> |source.value| >= size
    ensures |r| == size
    ensures source.Some? ==> r == source.value[..size]
    ensures source.None? ==> forall i :: 0 <= i < size ==> r[i] == 0
  {
    if size > 0 && source.Some? then source.value[..size] else seq(size, _ => 0)
  }

  class PQueueData {
    var data: Chunk

    /** Builds a fresh chunk of exactly `size` bytes; the source must hold at
        least that many. */
    constructor (size: nat, source: Option<seq<Byte>>)
      requires source.Some? ==> |source.value| >= size
      ensures fresh(data) && data.bytes == Filled(size, source)
    {
      var contents: seq<Byte> := if size > 0 && source.Some? then source.value[..size] else seq(size, _ => 0);
      data := new Chunk(contents);
    }

    /** The copy constructor shares the source's chunk. */
    constructor Copy(other: PQueueData)
      ensures data == other.data
    {
      data := other.data;
    }

    /** `operator=`: this object now shares the source's chunk. */
    method Assign(other: PQueueData)
      modifies this
      ensures data == other.data
    {
      data := other.data;
    }

    function Size(): (n: nat)
      reads this, data
      ensures n == |data.bytes|
    {
      |data.bytes|
    }
  }

  /** Copies share their chunk: a change made through one is seen through
      the other. */
  method SharedAfterCopy(original: PQueueData, b: Byte) returns (seen: seq<Byte>)
    modifies original.data
    ensures seen == old(original.data.bytes) + [b]
  {
    var copy := new PQueueData.Copy(original);
    copy.data.bytes := copy.data.bytes + [b];
    seen := original.data.bytes;
  }
}
