/**
 `UsbTvFrame.java`: a frame as the application sees it, its buffer, and its way back to the
 native pool.
 */
module JavaFrame {

  type Byte = bv8

  // The part of java.nio.ByteBuffer that is used.
  class ByteBuffer {
    const data: array<Byte>
    var position: nat
    var limit: nat

    ghost predicate Valid()
      reads this
    {
      position <= limit <= data.Length
    }

    constructor Allocate(capacity: nat)
      ensures Valid() && fresh(data) && data.Length == capacity && position == 0 && limit == capacity
    {
      data := new Byte[capacity](i => 0);
      position, limit := 0, capacity;
    }

    method Rewind()
      requires Valid()
      modifies this
      ensures Valid() && position == 0 && limit == old(limit)
    {
      position := 0;
    }

    // What is left of src is appended.
    method Put(src: ByteBuffer)
      requires Valid() && src.Valid() && src != this && src.data != data
      requires src.limit - src.position <= limit - position
      modifies this, src, data
      ensures Valid() && src.Valid() && src.position == src.limit == old(src.limit) && limit == old(limit)
      ensures position == old(position) + (old(src.limit) - old(src.position))
      ensures data[..] == old(data[..position]) + old(src.data[src.position..src.limit])
        + old(data[position + (src.limit - src.position)..])
    {
      ghost var d0, p0, s0 := data[..], position, src.position;
      ghost var bytes := src.data[..];
      while src.position < src.limit
        invariant Valid() && src.Valid() && limit == old(limit) && src.limit == old(src.limit) && src.data[..] == bytes
        invariant s0 <= src.position && position - p0 == src.position - s0
        invariant data[..] == d0[..p0] + bytes[s0..src.position] + d0[position..]
        decreases src.limit - src.position
      {
        data[position] := src.data[src.position];
        position := position + 1;
        src.position := src.position + 1;
      }
    }

    method Flip()
      requires Valid()
      modifies this
      ensures Valid() && limit == old(position) && position == 0
    {
      limit := position;
      position := 0;
    }
  }

  // The locks of the native frame pool; cleared lists the returns made through JNI.
  class NativePool {
    var locks: seq<bool>
    var cleared: seq<nat>

    method ClearFrameLock(index: nat)
      requires index < |locks|
      modifies this
      ensures locks == old(locks)[index := false] && cleared == old(cleared) + [index]
    {
      locks := locks[index := false];
      cleared := cleared + [index];
    }
  }

  class UsbTvFrame {
    const frameBuf: ByteBuffer
    const poolIndex: int
    const pool: NativePool
    var locked: bool
    var frameId: int

    // A frame that may be returned belongs to the pool.
    ghost predicate Valid()
      reads this, frameBuf, pool
    {
      frameBuf.Valid() && (!locked ==> 0 <= poolIndex < |pool.locks|)
    }

    constructor (buf: ByteBuffer, index: int, nativePool: NativePool)
      ensures frameBuf == buf && poolIndex == index && pool == nativePool && !locked && frameId == -1
    {
      frameBuf, poolIndex, pool := buf, index, nativePool;
      locked := false;
      frameId := -1;
    }

    method Unlock()
      requires Valid() && 0 <= poolIndex < |pool.locks|
      modifies this
      ensures Valid() && !locked && frameId == old(frameId)
    {
      locked := false;
    }

    // The first call after an unlock returns the frame; further calls change nothing but the
    // position of the buffer.
    method ReturnFrame()
      requires Valid()
      modifies this, frameBuf, pool
      ensures Valid() && locked && frameId == old(frameId)
      ensures frameBuf.position == 0 && frameBuf.limit == old(frameBuf.limit)
      ensures old(locked) ==> pool.locks == old(pool.locks) && pool.cleared == old(pool.cleared)
      ensures !old(locked) ==>
        pool.locks == old(pool.locks)[poolIndex := false] && pool.cleared == old(pool.cleared) + [poolIndex]
    {
      frameBuf.Rewind();
      if !locked {
        locked := true;
        pool.ClearFrameLock(poolIndex);
      }
    }

    // A copy has the readable bytes of the original and can never be returned to the pool.
    method CopyOfFrame() returns (frame: UsbTvFrame)
      requires Valid()
      modifies frameBuf
      ensures Valid() && frame.Valid() && fresh(frame) && fresh(frame.frameBuf) && fresh(frame.frameBuf.data)
      ensures frame.locked && frame.poolIndex == -1 && frame.frameId == frameId
      ensures frame.frameBuf.position == 0 && frame.frameBuf.limit == frameBuf.limit
        && frame.frameBuf.data.Length == frameBuf.data.Length
      ensures frame.frameBuf.data[..frameBuf.limit] == frameBuf.data[..frameBuf.limit]
      ensures frameBuf.position == 0 && frameBuf.limit == old(frameBuf.limit)
        && frameBuf.data[..] == old(frameBuf.data[..])
    {
      var clone := new ByteBuffer.Allocate(frameBuf.data.Length);
      frameBuf.Rewind();
      clone.Put(frameBuf);
      frameBuf.Rewind();
      clone.Flip();
      frame := new UsbTvFrame(clone, -1, pool);
      frame.frameId := frameId;
      frame.locked := true;
    }

    method ReturnAndCopy() returns (frame: UsbTvFrame)
      requires Valid()
      modifies this, frameBuf, pool
      ensures Valid() && locked && frame.Valid() && fresh(frame) && frame.locked && frame.poolIndex == -1
        && frame.frameId == frameId
      ensures frame.frameBuf.limit == frameBuf.limit && frame.frameBuf.data.Length == frameBuf.data.Length
      ensures frame.frameBuf.data[..frameBuf.limit] == old(frameBuf.data[..frameBuf.limit])
      ensures |pool.cleared| - |old(pool.cleared)| == if old(locked) then 0 else 1
    {
      frame := CopyOfFrame();
      ReturnFrame();
    }
  }
}
