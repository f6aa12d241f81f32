/**
 * Netty's ByteBuf as the codec uses it: the bytes up to the writer index and a reader index.
 * `BufState` is its value; the class `ByteBuf` is the mutable buffer whose methods are specified
 * by the functions on `BufState`.
 */
module Buffers {
  import opened Basics

  datatype BufState = BufState(bytes: seq<uint8>, readerIndex: nat) {
    predicate Valid() {
      readerIndex <= |bytes|
    }

    /** `readableBytes()`: writer index minus reader index. */
    function Readable(): nat
      requires Valid()
    {
      |bytes| - readerIndex
    }

    /** The bytes not yet read. */
    function Unread(): (u: seq<uint8>)
      requires Valid()
      ensures |u| == Readable()
    {
      bytes[readerIndex..]
    }

    /** `skipBytes(n)` (and any read of n bytes): the reader index moves forward by n. */
    function Skip(n: nat): (b: BufState)
      requires Valid() && n <= Readable()
      ensures b.Valid() && b.bytes == bytes && b.Unread() == Unread()[n..]
    {
      BufState(bytes, readerIndex + n)
    }

    /** `discardReadBytes()`: the read bytes are dropped and the reader index becomes 0. */
    function DiscardRead(): (b: BufState)
      requires Valid()
      ensures b.Valid() && b.readerIndex == 0 && b.Unread() == Unread()
    {
      BufState(bytes[readerIndex..], 0)
    }
  }

  class ByteBuf {
    var bytes: seq<uint8>
    var readerIndex: nat

    ghost predicate Valid()
      reads this
    {
      readerIndex <= |bytes|
    }

    function View(): (b: BufState)
      reads this
      ensures b.bytes == bytes && b.readerIndex == readerIndex
    {
      BufState(bytes, readerIndex)
    }

    constructor (contents: seq<uint8>)
      ensures Valid() && View() == BufState(contents, 0)
    {
      bytes := contents;
      readerIndex := 0;
    }

    function ReadableBytes(): (n: nat)
      reads this
      requires Valid()
      ensures n == View().Readable()
    {
      |bytes| - readerIndex
    }

    /** `getInt(index)`: reads four bytes at an absolute index without moving the reader index. */
    function GetInt(index: nat): (v: int)
      reads this
      requires index + 4 <= |bytes|
      ensures v == Int32At(bytes, index)
    {
      Int32At(bytes, index)
    }

    /** `readInt()`. */
    method ReadInt() returns (v: int)
      requires Valid() && ReadableBytes() >= 4
      modifies this
      ensures Valid() && View() == old(View()).Skip(4)
      ensures v == Int32At(bytes, old(readerIndex))
    {
      v := Int32At(bytes, readerIndex);
      readerIndex := readerIndex + 4;
    }

    /** `skipBytes(n)`. */
    method SkipBytes(n: nat)
      requires Valid() && n <= ReadableBytes()
      modifies this
      ensures Valid() && View() == old(View()).Skip(n)
    {
      readerIndex := readerIndex + n;
    }

    /** `readBytes(dst, dstIndex, length)`: copies the next `length` unread bytes into dst at dstIndex. */
    method ReadBytes(dst: array<uint8>, dstIndex: nat, length: nat)
      requires Valid() && length <= ReadableBytes() && dstIndex + length <= dst.Length
      modifies this, dst
      ensures Valid() && View() == old(View()).Skip(length)
      ensures dst[..] == old(dst[..dstIndex]) + old(bytes[readerIndex..readerIndex + length])
                         + old(dst[dstIndex + length..])
    {
      ghost var before := dst[..];
      forall k | dstIndex <= k < dstIndex + length {
        dst[k] := bytes[readerIndex + k - dstIndex];
      }
      assert dst[..] == before[..dstIndex] + bytes[readerIndex..readerIndex + length]
                        + before[dstIndex + length..];
      readerIndex := readerIndex + length;
    }

    /** `readerIndex(index)`: fails with IndexOutOfBoundsException beyond the writer index. */
    method SetReaderIndex(index: int) returns (ok: bool)
      requires Valid()
      modifies this
      ensures Valid()
      ensures ok == (0 <= index <= |old(bytes)|)
      ensures View() == if ok then BufState(old(bytes), index) else old(View())
    {
      ok := 0 <= index <= |bytes|;
      if ok {
        readerIndex := index;
      }
    }

    /** `discardReadBytes()`. */
    method DiscardReadBytes()
      requires Valid()
      modifies this
      ensures Valid() && View() == old(View()).DiscardRead()
    {
      bytes := bytes[readerIndex..];
      readerIndex := 0;
    }

    /** `writeInt(x)`. */
    method WriteInt(x: int32)
      requires Valid()
      modifies this
      ensures Valid() && View() == BufState(old(bytes) + Int32Bytes(x), old(readerIndex))
    {
      bytes := bytes + Int32Bytes(x);
    }

    /** `writeBytes(src)`. */
    method WriteBytes(src: seq<uint8>)
      requires Valid()
      modifies this
      ensures Valid() && View() == BufState(old(bytes) + src, old(readerIndex))
    {
      bytes := bytes + src;
    }
  }
}
