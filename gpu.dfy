/** The slice of a WebGPU device that the simulation relies on: buffer
    allocation with a size and a usage set, and host-side writes through the
    device queue. Buffers are identified by integers handed out in order, so
    two buffers created by one device are never the same buffer. */
module Gpu {

  type BufferId = nat

  /** The usage flags main.js gives its buffers. */
  datatype Usage = VertexUsage | UniformUsage | StorageUsage | CopyDst

  datatype BufferDesc = BufferDesc(size: nat, usage: set<Usage>)

  /** Data written from the host: a Float32Array or a Uint32Array. */
  datatype Payload = Float32(floats: seq<real>) | Uint32(uints: seq<nat>)

  /** Both typed arrays use four bytes per element. */
  function ByteLength(p: Payload): nat
  {
    match p
    case Float32(fs) => 4 * |fs|
    case Uint32(us) => 4 * |us|
  }

  /** Every entry of `before` is still in `after`, unchanged. */
  ghost predicate Extends<K, V>(before: map<K, V>, after: map<K, V>)
  {
    forall k :: k in before ==> k in after && after[k] == before[k]
  }

  class Device {
    var nextId: BufferId
    var buffers: map<BufferId, BufferDesc>
    /** The last data the queue wrote into each buffer from the host. */
    var contents: map<BufferId, Payload>

    ghost predicate Valid()
      reads this
    {
      (forall b :: b in buffers ==> b < nextId) &&
      (forall b :: b in contents ==>
         b in buffers && CopyDst in buffers[b].usage && ByteLength(contents[b]) <= buffers[b].size)
    }

    constructor ()
      ensures Valid() && nextId == 0 && buffers == map[] && contents == map[]
    {
      nextId, buffers, contents := 0, map[], map[];
    }

    /** device.createBuffer: a new buffer, distinct from every earlier one. */
    method CreateBuffer(size: nat, usage: set<Usage>) returns (id: BufferId)
      requires Valid()
      modifies this
      ensures Valid()
      ensures id == old(nextId) && id !in old(buffers) && nextId == id + 1
      ensures buffers == old(buffers)[id := BufferDesc(size, usage)]
      ensures contents == old(contents)
    {
      id := nextId;
      buffers := buffers[id := BufferDesc(size, usage)];
      nextId := nextId + 1;
    }

    /** device.queue.writeBuffer at offset 0: WebGPU demands a COPY_DST
        buffer large enough for the data. */
    method WriteBuffer(id: BufferId, data: Payload)
      requires Valid()
      requires id in buffers && CopyDst in buffers[id].usage && ByteLength(data) <= buffers[id].size
      modifies this
      ensures Valid()
      ensures contents == old(contents)[id := data]
      ensures buffers == old(buffers) && nextId == old(nextId)
    {
      contents := contents[id := data];
    }
  }
}
