/**
  The double-buffered log of src/log/AsyncLogging.cc. Appending threads and the writer exchange whole buffers under
  one lock. The writer holds the lock for its whole turn, except while it waits, so `Append` and `WriterTurn` are the
  atomic steps, and the invariant they keep holds at every lock boundary of every interleaving.
  A unique pointer shares its buffer with nobody: it is an optional value here, and `None` once it was moved from.
 */
module AsyncLoggings {
  import opened Bytes
  import opened LogStreams

  type BufferPtr = Option<BufferValue>

  /** The lines in a queue of buffers, oldest first. */
  function LinesOf(bs: seq<BufferValue>): seq<string> {
    if bs == [] then [] else LinesOf(bs[..|bs| - 1]) + bs[|bs| - 1].pieces
  }

  /** One buffer more is written. */
  lemma Written(blocks: seq<seq<string>>, bs: seq<BufferValue>, i: nat)
    requires i < |bs|
    ensures Flatten(blocks + [bs[i].pieces]) == Flatten(blocks) + bs[i].pieces
    ensures LinesOf(bs[..i + 1]) == LinesOf(bs[..i]) + bs[i].pieces
  {
    assert (blocks + [bs[i].pieces])[..|blocks|] == blocks && bs[..i + 1][..i] == bs[..i];
  }

  lemma NothingWritten(before: seq<string>, bs: seq<BufferValue>)
    ensures before + LinesOf(bs[..0]) == before
  {
  }

  ghost predicate IsSpare(b: BufferPtr, size: nat) {
    b.Some? ==> b.value.Valid() && |b.value.data| == size && b.value.pieces == []
  }

  class AsyncLogging {
    const size: nat
    var currentBuffer: BufferPtr
    var nextBuffer: BufferPtr
    var buffers: seq<BufferValue>
    var newBuffer1: BufferPtr            // the writer's spare buffers
    var newBuffer2: BufferPtr
    var written: seq<string>             // what was handed to the log file, one whole buffer at a time
    ghost var blocks: seq<seq<string>>   // the lines in the used prefix of each of those
    ghost var appended: seq<string>      // all lines appended that can fit a buffer

    /** The log file got whole buffers, each with the text of its lines as its used prefix. */
    ghost predicate FileHolds()
      reads this
    {
      |written| == |blocks| &&
      forall k :: 0 <= k < |blocks| ==> |written[k]| == size && Flatten(blocks[k]) <= written[k]
    }

    /**
      There is a current buffer and the writer has two spare ones; a missing next buffer means a queued one;
      and the lines written, queued and current are, in order and each in one piece, the lines appended.
     */
    ghost predicate Valid()
      reads this
    {
      && FileHolds()
      && currentBuffer.Some? && currentBuffer.value.Valid() && |currentBuffer.value.data| == size
      && (forall i :: 0 <= i < |buffers| ==> buffers[i].Valid() && |buffers[i].data| == size)
      && newBuffer1.Some? && newBuffer2.Some?
      && IsSpare(newBuffer1, size) && IsSpare(newBuffer2, size) && IsSpare(nextBuffer, size)
      && (nextBuffer.None? ==> buffers != [])
      && appended == Flatten(blocks) + LinesOf(buffers) + currentBuffer.value.pieces
    }

    constructor (size: nat := LARGE_BUFFER)
      ensures Valid() && this.size == size && appended == [] && written == []
    {
      this.size := size;
      currentBuffer, nextBuffer := Some(NewBuffer(size)), Some(NewBuffer(size));
      newBuffer1, newBuffer2 := Some(NewBuffer(size)), Some(NewBuffer(size));
      buffers, written, blocks, appended := [], [], [], [];
    }

    /** A line goes whole into one buffer; one as long as a buffer or longer is the only kind ever dropped. */
    method Append(line: string)
      requires Valid()
      modifies this
      ensures Valid()
      ensures appended == old(appended) + if |line| < size then [line] else []
      ensures written == old(written) && blocks == old(blocks)
      ensures buffers == old(buffers) +
                if |line| < old(currentBuffer.value.Avail()) then [] else [old(currentBuffer.value)]
    {
      hide Flatten, LinesOf;
      assert buffers + [] == buffers;
      if currentBuffer.value.Avail() <= |line| {
        NextCurrent();
      }
      ghost var before := Flatten(blocks) + LinesOf(buffers);
      ghost var pieces := currentBuffer.value.pieces;
      currentBuffer := Some(currentBuffer.value.Append(line));
      ghost var kept := if |line| < size then [line] else [];
      Associate(before, pieces, kept);
      appended := appended + kept;
    }

    /** The full buffer is queued, and the next one, or a new one, takes its place. */
    method NextCurrent()
      requires Valid()
      modifies this
      ensures Valid() && appended == old(appended) && written == old(written) && blocks == old(blocks)
      ensures currentBuffer.value.cur == 0 && buffers == old(buffers) + [old(currentBuffer.value)]
      ensures nextBuffer.None?
    {
      assert (buffers + [currentBuffer.value])[..|buffers|] == buffers;
      ghost var pieces := currentBuffer.value.pieces;
      Associate(Flatten(blocks), LinesOf(buffers), pieces);
      assert appended + [] == appended;
      buffers := buffers + [currentBuffer.value];
      currentBuffer := None;
      if nextBuffer.Some? {
        currentBuffer, nextBuffer := nextBuffer, None;
      } else {
        currentBuffer := Some(NewBuffer(size));
      }
    }

    /**
      One turn of the writer once it no longer waits: it takes the queue with the current buffer, hands every buffer
      to the file, and refills its spares from them. Afterwards everything appended is in the file.
     */
    method WriterTurn()
      requires Valid()
      modifies this
      ensures Valid() && appended == old(appended)
      ensures buffers == [] && currentBuffer.value.pieces == [] && nextBuffer.Some?
      ensures Flatten(blocks) == appended
      ensures |written| == |old(written)| + |old(buffers)| + 1
      ensures old(written) <= written && old(blocks) <= blocks
    {
      ghost var pieces := currentBuffer.value.pieces;
      Associate(Flatten(blocks), LinesOf(buffers), pieces);
      var buffersToWrite := TakeQueue();
      assert buffersToWrite[..|old(buffers)|] == old(buffers);
      WriteOut(buffersToWrite);
      RefillSpares(buffersToWrite);
      assert appended + [] + [] == appended;
    }

    /** The exchange: the writer's first spare becomes current, and its second one next, if there was none. */
    method TakeQueue() returns (buffersToWrite: seq<BufferValue>)
      requires Valid()
      modifies this`buffers, this`currentBuffer, this`nextBuffer, this`newBuffer1, this`newBuffer2
      ensures buffersToWrite == old(buffers) + [old(currentBuffer.value)] && buffers == []
      ensures currentBuffer.Some? && IsSpare(currentBuffer, size)
      ensures nextBuffer.Some? && IsSpare(nextBuffer, size)
      ensures newBuffer1.None? && (newBuffer2.None? ==> 2 <= |buffersToWrite|) && IsSpare(newBuffer2, size)
    {
      buffersToWrite := buffers + [currentBuffer.value];
      currentBuffer := newBuffer1;
      newBuffer1 := None;
      buffers := [];
      if nextBuffer.None? {
        nextBuffer := newBuffer2;
        newBuffer2 := None;
      }
    }

    /** At most two written buffers are kept, and each missing spare is taken from their back and emptied. */
    method RefillSpares(buffersWritten: seq<BufferValue>)
      requires newBuffer1.None? && IsSpare(newBuffer2, size)
      requires 1 <= |buffersWritten| && (newBuffer2.None? ==> 2 <= |buffersWritten|)
      requires forall i :: 0 <= i < |buffersWritten| ==> buffersWritten[i].Valid() && |buffersWritten[i].data| == size
      modifies this`newBuffer1, this`newBuffer2
      ensures newBuffer1.Some? && IsSpare(newBuffer1, size) && newBuffer2.Some? && IsSpare(newBuffer2, size)
    {
      var kept := if 2 < |buffersWritten| then buffersWritten[..2] else buffersWritten;
      if newBuffer1.None? {
        newBuffer1 := Some(kept[|kept| - 1].Reset());
        kept := kept[..|kept| - 1];
      }
      if newBuffer2.None? {
        newBuffer2 := Some(kept[|kept| - 1].Reset());
        kept := kept[..|kept| - 1];
      }
    }

    /** Each buffer is written up to its capacity, whatever its used prefix. */
    method WriteOut(bs: seq<BufferValue>)
      requires FileHolds()
      requires forall i :: 0 <= i < |bs| ==> bs[i].Valid() && |bs[i].data| == size
      modifies this`written, this`blocks
      ensures FileHolds() && |written| == |old(written)| + |bs|
      ensures old(written) <= written && old(blocks) <= blocks
      ensures Flatten(blocks) == old(Flatten(blocks)) + LinesOf(bs)
    {
      hide FileHolds, Flatten, LinesOf;
      ghost var before := Flatten(blocks);
      NothingWritten(before, bs);
      var i := 0;
      while i < |bs|
        invariant 0 <= i <= |bs| && FileHolds() && |written| == |old(written)| + i
        invariant old(written) <= written && old(blocks) <= blocks
        invariant Flatten(blocks) == before + LinesOf(bs[..i])
      {
        Written(blocks, bs, i);
        Associate(before, LinesOf(bs[..i]), bs[i].pieces);
        WriteOne(bs[i]);
        i := i + 1;
      }
      assert bs[..|bs|] == bs;
    }

    method WriteOne(b: BufferValue)
      requires FileHolds() && b.Valid() && |b.data| == size
      modifies this`written, this`blocks
      ensures FileHolds() && written == old(written) + [b.data] && blocks == old(blocks) + [b.pieces]
    {
      written := written + [b.data];
      blocks := blocks + [b.pieces];
    }
  }
}
