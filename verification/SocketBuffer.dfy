/**
 The growable socket buffer (src/core/util/socket_buffer.h and socket_buffer.cpp).

 Bytes are written behind `writeIdx` and read from `readIdx`; the buffer grows by doubling
 and shrinks by compaction. Seen through `Contents()` it is a queue of bytes, and growth,
 compaction and the two-area read from a descriptor do not show.
 */
module SocketBuffer {
  import opened Common

  const BUFFER_MAX_READ := 8192
  const DEFAULT_BUFFER_SIZE := 32
  const EXTRA_AREA := 32768

  /** `cap` doubled until it reaches `need`. */
  function Doubled(cap: nat, need: nat): (r: nat)
    requires 0 < cap
    ensures need <= r && cap <= r && (r == cap || r < 2 * need)
    decreases need - cap
  {
    if cap < need then Doubled(2 * cap, need) else cap
  }

  function Doublings(cap: nat, k: nat): (r: nat)
    decreases k
  {
    if k == 0 then cap else Doublings(2 * cap, k - 1)
  }

  /** Growth stops at the first doubling that is large enough. */
  lemma {:induction false} DoubledIsLeast(cap: nat, need: nat) returns (k: nat)
    requires 0 < cap
    ensures Doubled(cap, need) == Doublings(cap, k)
    ensures forall j: nat :: j < k ==> Doublings(cap, j) < need
    decreases need - cap
  {
    if cap < need {
      var i := DoubledIsLeast(2 * cap, need);
      k := i + 1;
      forall j: nat | j < k ensures Doublings(cap, j) < need {
        if j > 0 {
          assert Doublings(2 * cap, j - 1) < need;
        }
      }
    } else {
      k := 0;
    }
  }

  class Buffer {
    var data: array<Byte>
    var cap: nat
    var writeIdx: nat
    var readIdx: nat

    ghost predicate Valid()
      reads this
    {
      readIdx <= writeIdx <= cap <= data.Length
    }

    /** The bytes that have been written and not read yet. */
    ghost function Contents(): (s: seq<Byte>)
      reads this, data
      requires Valid()
    {
      data[readIdx..writeIdx]
    }

    function Readable(): (n: nat)
      reads this
      requires Valid()
    {
      writeIdx - readIdx
    }

    function Writeable(): (n: nat)
      reads this
      requires Valid()
    {
      cap - writeIdx
    }

    constructor ()
      ensures Valid() && Contents() == [] && cap == 0 && fresh(data)
    {
      data := new Byte[0];
      cap, writeIdx, readIdx := 0, 0, 0;
    }

    /** Gives unused space back, if at least `size` bytes are writable. */
    method Compact(size: nat) returns (freed: nat)
      requires Valid()
      modifies this
      ensures Valid() && Contents() == old(Contents())
      ensures if old(Writeable()) < size then freed == 0 && unchanged(this)
              else fresh(data) && readIdx == 0 && cap == writeIdx && freed == old(cap) - cap
    {
      if Writeable() < size {
        return 0;
      }
      var total, readable := cap, Readable();
      Relocate(readable);
      return total - readable;
    }

    /** Moves the readable bytes to the front of a new area of `size` bytes. */
    method Relocate(size: nat)
      requires Valid() && Readable() <= size
      modifies this
      ensures Valid() && Contents() == old(Contents())
      ensures fresh(data) && readIdx == 0 && writeIdx == old(Readable()) && cap == size
    {
      var readable := Readable();
      var tmp := new Byte[size](_ => 0);
      forall k | 0 <= k < readable {
        tmp[k] := data[readIdx + k];
      }
      assert tmp[..readable] == data[readIdx..writeIdx];
      data, cap, writeIdx, readIdx := tmp, size, readable, 0;
    }

    /** Makes room for `min` more bytes. The compaction it may attempt never happens, because
        it is reached only when fewer than `min` bytes are writable. */
    method EnsureWriteable(min: nat)
      requires Valid()
      modifies this
      ensures Valid() && Contents() == old(Contents()) && min <= Writeable()
      ensures if min <= old(Writeable()) then unchanged(this)
              else
                && fresh(data) && readIdx == 0
                && cap == Doubled(if old(cap) == 0 then DEFAULT_BUFFER_SIZE else old(cap), old(writeIdx) + min)
    {
      if min <= Writeable() {
        return;
      }
      var size := cap;
      if size > BUFFER_MAX_READ {
        var freed := Compact(min);
      }
      if size == 0 {
        size := DEFAULT_BUFFER_SIZE;
      }
      var need := writeIdx + min;
      ghost var start := size;
      while size < need
        invariant 0 < size && Doubled(size, need) == Doubled(start, need)
        decreases need - size
      {
        size := 2 * size;
      }
      Relocate(size);
    }

    /** `_read`: all of `len` bytes or nothing. */
    method Read(len: nat) returns (out: Option<seq<Byte>>)
      requires Valid()
      modifies this`readIdx
      ensures Valid()
      ensures if len <= |old(Contents())|
              then out == Some(old(Contents())[..len]) && Contents() == old(Contents())[len..]
              else out.None? && Contents() == old(Contents())
    {
      if len > Readable() {
        return None;
      }
      ghost var was := Contents();
      out := Some(data[readIdx..readIdx + len]);
      assert out.value == was[..len];
      readIdx := readIdx + len;
      assert Contents() == was[len..];
    }

    /** `_write`. */
    method Write(bytes: seq<Byte>)
      requires Valid()
      modifies this, data
      ensures Valid() && (data == old(data) || fresh(data))
      ensures Contents() == old(Contents()) + bytes
    {
      EnsureWriteable(|bytes|);
      Fill(bytes);
    }

    /** Stores `bytes` in the writable area. */
    method Fill(bytes: seq<Byte>)
      requires Valid() && |bytes| <= Writeable()
      modifies this`writeIdx, data
      ensures Valid() && writeIdx == old(writeIdx) + |bytes| && Contents() == old(Contents()) + bytes
    {
      ghost var was := Contents();
      forall k | 0 <= k < |bytes| {
        data[writeIdx + k] := bytes[k];
      }
      writeIdx := writeIdx + |bytes|;
      assert Contents() == was + bytes;
    }

    /** `_write` from another buffer: moves up to `len` bytes. */
    method WriteFrom(unit: Buffer, len: nat) returns (n: nat)
      requires Valid() && unit.Valid() && this != unit && data != unit.data
      modifies this, data, unit`readIdx
      ensures Valid() && unit.Valid() && (data == old(data) || fresh(data))
      ensures n == Min(len, |old(unit.Contents())|)
      ensures Contents() == old(Contents()) + old(unit.Contents())[..n]
      ensures unit.Contents() == old(unit.Contents())[n..]
    {
      n := len;
      if n > unit.Readable() {
        n := unit.Readable();
      }
      Write(unit.data[unit.readIdx..unit.readIdx + n]);
      if n > 0 {
        unit.readIdx := unit.readIdx + n;
      }
    }

    method CopyOut(len: nat) returns (out: seq<Byte>)
      requires Valid()
      ensures out == Contents()[..Min(len, |Contents()|)]
    {
      var n := len;
      if n > Readable() {
        n := Readable();
      }
      out := data[readIdx..readIdx + n];
    }

    method SkipBytes(len: nat)
      requires Valid() && len <= |Contents()|
      modifies this`readIdx
      ensures Valid() && Contents() == old(Contents())[len..]
    {
      readIdx := readIdx + len;
    }

    method DiscardReadedBytes()
      requires Valid()
      modifies this, data
      ensures Valid() && data == old(data) && cap == old(cap) && readIdx == 0
      ensures Contents() == old(Contents())
    {
      if readIdx > 0 {
        if writeIdx > readIdx {
          var n := Readable();
          ghost var was := Contents();
          forall k | 0 <= k < n {
            data[k] := data[readIdx + k];
          }
          assert data[..n] == was;
          readIdx, writeIdx := 0, n;
        } else {
          readIdx, writeIdx := 0, 0;
        }
      }
    }

    /** How many bytes `readv` may deliver: the writable area, and the extra area behind it
        unless the writable area alone is larger. */
    function ReadLimit(): (n: nat)
      reads this
      requires Valid()
    {
      if Writeable() > EXTRA_AREA then Writeable() else Writeable() + EXTRA_AREA
    }

    /** `read_fd`; `got` is what `readv` delivered, or nothing if it failed. */
    method ReadFd(got: Option<seq<Byte>>) returns (n: int)
      requires Valid() && (got.Some? ==> |got.value| <= ReadLimit())
      modifies this, data
      ensures Valid() && (data == old(data) || fresh(data))
      ensures n == if got.Some? then |got.value| else -1
      ensures Contents() == old(Contents()) + (if got.Some? then got.value else [])
    {
      if got.None? {
        return -1;
      }
      var writable := Writeable();
      n := |got.value|;
      if n <= writable {
        Fill(got.value);
      } else {
        Fill(got.value[..writable]);
        Write(got.value[writable..]);
        assert got.value == got.value[..writable] + got.value[writable..];
      }
    }

    /** `write_fd`; `sent` is what `send` returned. */
    method WriteFd(sent: int) returns (n: int, out: seq<Byte>)
      requires Valid() && sent <= |Contents()|
      modifies this`readIdx
      ensures Valid()
      ensures if |old(Contents())| == 0 then n == 0 && out == [] && Contents() == []
              else if sent < 0 then n == sent && out == [] && Contents() == old(Contents())
              else n == sent && out + Contents() == old(Contents()) && |out| == sent
    {
      out := [];
      if Readable() == 0 {
        return 0, [];
      }
      n := sent;
      if n >= 0 {
        out := data[readIdx..readIdx + n];
        readIdx := readIdx + n;
      }
    }
  }
}
