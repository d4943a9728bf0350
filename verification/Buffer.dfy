/**
  The growable byte buffer of include/Buffer.h and its scatter read (src/net/Buffer.cc).
  The class keeps the two indices and the storage of the original; `Contents` is the plain byte queue they stand for.
 */
module Buffers {
  import opened Bytes

  const CHEAP_PREPEND: nat := 8
  const INITIAL_SIZE: nat := 1024
  const EXTRA_SIZE: nat := 65536

  /** What readv reports: the bytes it delivered, in order, or an errno. */
  datatype ReadResult = Received(bytes: string) | ReadFailed(errno: int)

  class Buffer {
    var data: array<char>
    var readIndex: nat
    var writeIndex: nat
    ghost const initialSize: nat
    ghost var peak: nat  // the most bytes ever readable or reserved at one time

    ghost predicate Valid()
      reads this
    {
      && 8 <= readIndex <= writeIndex <= data.Length
      && writeIndex - readIndex <= peak
      && data.Length <= Max(8 + initialSize, 2 * peak + 7)
    }

    ghost function Contents(): (s: string)
      requires Valid()
      reads this, data
    {
      data[readIndex..writeIndex]
    }

    constructor (size: nat := INITIAL_SIZE)
      ensures Valid() && fresh(data) && initialSize == size
      ensures Contents() == [] && peak == 0
    {
      data := new char[CHEAP_PREPEND + size](_ => '\0');
      readIndex := CHEAP_PREPEND;
      writeIndex := CHEAP_PREPEND;
      initialSize := size;
      peak := 0;
    }

    function ReadableBytes(): (n: nat)
      requires Valid()
      reads this, data
      ensures n == |Contents()|
    {
      writeIndex - readIndex
    }

    function WritableBytes(): nat
      requires Valid()
      reads this
    {
      data.Length - writeIndex
    }

    /** The bytes readv may deliver: into the writable tail and, when that is short, into the stack buffer. */
    function ReadCapacity(): (n: nat)
      requires Valid()
      reads this
      ensures n == WritableBytes() + if WritableBytes() < 65536 then 65536 else 0
    {
      if WritableBytes() < EXTRA_SIZE then WritableBytes() + EXTRA_SIZE else WritableBytes()
    }

    method Peek(n: nat) returns (s: string)
      requires Valid() && n <= |Contents()|
      ensures s == Contents()[..n]
    {
      s := data[readIndex..readIndex + n];
    }

    method RetrieveAll()
      requires Valid()
      modifies this`readIndex, this`writeIndex
      ensures Valid() && Contents() == []
    {
      readIndex := CHEAP_PREPEND;
      writeIndex := CHEAP_PREPEND;
    }

    method Retrieve(len: nat)
      requires Valid()
      modifies this`readIndex, this`writeIndex
      ensures Valid()
      ensures Contents() == if len <= |old(Contents())| then old(Contents())[len..] else []
    {
      if len <= writeIndex - readIndex {
        readIndex := readIndex + len;
      } else {
        RetrieveAll();
      }
    }

    method RetrieveAsString(len: nat) returns (s: string)
      requires Valid() && len <= |Contents()|
      modifies this`readIndex, this`writeIndex
      ensures Valid()
      ensures s == old(Contents())[..len] && Contents() == old(Contents())[len..]
    {
      s := Peek(len);
      Retrieve(len);
    }

    /** The offset of the first CRLF from the read index. */
    method FindCRLF() returns (k: Option<nat>)
      requires Valid()
      ensures k == FindCrlf(Contents())
    {
      ghost var s := Contents();
      var i := readIndex;
      while i + 1 < writeIndex
        invariant readIndex <= i <= writeIndex
        invariant FindCrlf(s) == FindCrlfFrom(s, i - readIndex)
      {
        assert s[i - readIndex] == data[i] && s[i + 1 - readIndex] == data[i + 1];
        if data[i] == '\r' && data[i + 1] == '\n' {
          return Some(i - readIndex);
        }
        i := i + 1;
      }
      return None;
    }

    /** Makes room for `len` bytes, by growing the storage or by sliding the contents down to the prepend mark. */
    method MakeSpace(len: nat)
      requires Valid() && WritableBytes() < len
      requires writeIndex - readIndex + len <= peak
      modifies this`data, this`readIndex, this`writeIndex, data
      ensures Valid() && len <= WritableBytes()
      ensures data == old(data) || fresh(data)
      ensures Contents() == old(Contents())
    {
      if WritableBytes() + readIndex < len + CHEAP_PREPEND {
        var grown := new char[writeIndex + len](_ => '\0');
        CopyInto(grown, 0, data[..]);
        assert grown[..][readIndex..writeIndex] == data[readIndex..writeIndex];
        data := grown;
      } else {
        var readable := writeIndex - readIndex;
        SlideDown(readable);
        readIndex := CHEAP_PREPEND;
        writeIndex := readIndex + readable;
      }
    }

    method SlideDown(readable: nat)
      requires CHEAP_PREPEND <= readIndex && readIndex + readable <= data.Length
      modifies data
      ensures data[CHEAP_PREPEND..CHEAP_PREPEND + readable] == old(data[readIndex..readIndex + readable])
    {
      ghost var was := data[readIndex..readIndex + readable];
      var i := 0;
      while i < readable
        invariant 0 <= i <= readable
        invariant forall k :: CHEAP_PREPEND <= k < CHEAP_PREPEND + i ==> data[k] == was[k - CHEAP_PREPEND]
        invariant forall k :: readIndex + i <= k < readIndex + readable ==> data[k] == was[k - readIndex]
      {
        data[CHEAP_PREPEND + i] := data[readIndex + i];
        i := i + 1;
      }
      forall k | 0 <= k < readable
        ensures data[CHEAP_PREPEND..CHEAP_PREPEND + readable][k] == was[k]
      {
        assert data[CHEAP_PREPEND + k] == was[k];
      }
    }

    method EnsureWritableBytes(len: nat)
      requires Valid()
      modifies this, data
      ensures Valid() && len <= WritableBytes()
      ensures data == old(data) || fresh(data)
      ensures Contents() == old(Contents())
      ensures peak == Max(old(peak), |old(Contents())| + len)
    {
      peak := Max(peak, writeIndex - readIndex + len);
      if WritableBytes() < len {
        MakeSpace(len);
      }
    }

    method Append(s: string)
      requires Valid()
      modifies this, data
      ensures Valid()
      ensures data == old(data) || fresh(data)
      ensures Contents() == old(Contents()) + s
      ensures peak == Max(old(peak), |old(Contents())| + |s|)
    {
      EnsureWritableBytes(|s|);
      CopyBehind(s);
    }

    method CopyBehind(s: string)
      requires Valid() && |s| <= WritableBytes()
      modifies this`writeIndex, this`peak, data
      ensures Valid() && Contents() == old(Contents()) + s
      ensures peak == Max(old(peak), |old(Contents())| + |s|)
    {
      ghost var was := data[..];
      CopyInto(data, writeIndex, s);
      assert data[..] == was[..writeIndex] + s + was[writeIndex + |s|..];
      assert data[..][readIndex..writeIndex + |s|] == was[readIndex..writeIndex] + s;
      peak := Max(peak, writeIndex - readIndex + |s|);
      writeIndex := writeIndex + |s|;
    }

    /** Reads from a descriptor into the writable tail and, past it, through the 64 KiB stack buffer. */
    method ReadFd(result: ReadResult) returns (n: int, savedErrno: int)
      requires Valid()
      requires result.Received? ==> |result.bytes| <= ReadCapacity()
      modifies this, data
      ensures Valid()
      ensures data == old(data) || fresh(data)
      ensures result.Received? ==>
                n == |result.bytes| && savedErrno == 0 && Contents() == old(Contents()) + result.bytes
      ensures result.ReadFailed? ==> n < 0 && savedErrno == result.errno && Contents() == old(Contents())
      ensures result.Received? ==> peak == Max(old(peak), |old(Contents())| + |result.bytes|)
    {
      savedErrno := 0;
      match result
      case ReadFailed(errno) =>
        n, savedErrno := -1, errno;
      case Received(bytes) =>
        n := |bytes|;
        var writable := WritableBytes();
        var direct := if n <= writable then bytes else bytes[..writable];
        CopyBehind(direct);
        if writable < n {
          assert bytes == direct + bytes[writable..];
          Append(bytes[writable..]);
        }
    }
  }
}
