/** An event channel: the interest mask of include/Channel.h and the dispatch order of src/net/Channel.cc. */
module Channels {

  type Mask = bv8

  const NONE_EVENT: Mask := 0
  const POLL_IN: Mask := 1
  const POLL_PRI: Mask := 2
  const POLL_OUT: Mask := 4
  const POLL_ERR: Mask := 8
  const POLL_HUP: Mask := 16
  const READ_EVENT: Mask := 3
  const WRITE_EVENT: Mask := 4

  predicate Has(m: Mask, bits: Mask) {
    m & bits != 0
  }

  datatype Callback = OnClose | OnError | OnRead | OnWrite

  /** The callbacks one dispatch makes, in order. */
  function Dispatch(revents: Mask): (calls: seq<Callback>)
    ensures OnClose in calls <==> Has(revents, POLL_HUP) && !Has(revents, POLL_IN)
    ensures OnRead in calls <==> Has(revents, POLL_IN | POLL_PRI)
    ensures OnError in calls <==> Has(revents, POLL_ERR)
    ensures OnWrite in calls <==> Has(revents, POLL_OUT)
    ensures forall i, j :: 0 <= i < j < |calls| ==> Rank(calls[i]) < Rank(calls[j])
  {
    InOrder(Has(revents, POLL_HUP) && !Has(revents, POLL_IN), Has(revents, POLL_ERR),
            Has(revents, POLL_IN | POLL_PRI), Has(revents, POLL_OUT))
  }

  function InOrder(close: bool, error: bool, input: bool, output: bool): (calls: seq<Callback>)
    ensures OnClose in calls <==> close
    ensures OnRead in calls <==> input
    ensures OnError in calls <==> error
    ensures OnWrite in calls <==> output
    ensures forall i, j :: 0 <= i < j < |calls| ==> Rank(calls[i]) < Rank(calls[j])
  {
    (if close then [OnClose] else []) + (if error then [OnError] else []) +
    (if input then [OnRead] else []) + (if output then [OnWrite] else [])
  }

  function Rank(c: Callback): nat {
    match c case OnClose => 0 case OnError => 1 case OnRead => 2 case OnWrite => 3
  }

  /** The bits are those of epoll(7) and poll(2): interest in input is for ordinary and urgent data. */
  lemma EventBits()
    ensures POLL_IN == 0x1 && POLL_PRI == 0x2 && POLL_OUT == 0x4 && POLL_ERR == 0x8 && POLL_HUP == 0x10
    ensures READ_EVENT == 0x1 | 0x2 && WRITE_EVENT == 0x4 && NONE_EVENT == 0
  {
  }

  /** The ways an owner changes its interest. */
  datatype Change = ReadingOn | ReadingOff | WritingOn | WritingOff | AllOff

  function Changed(m: Mask, change: Change): Mask {
    match change
    case ReadingOn => m | READ_EVENT
    case ReadingOff => m & !READ_EVENT
    case WritingOn => m | WRITE_EVENT
    case WritingOff => m & !WRITE_EVENT
    case AllOff => m & NONE_EVENT
  }

  class Channel {
    const fd: nat
    var events: Mask   // what the owner wants to hear about
    var revents: Mask  // what the poller reported
    var index: int     // the poller's private mark; negative while unregistered

    constructor (fd: nat)
      ensures this.fd == fd && events == NONE_EVENT && revents == NONE_EVENT && index == -1
    {
      this.fd := fd;
      events := NONE_EVENT;
      revents := NONE_EVENT;
      index := -1;
    }

    predicate IsNoneEvent()
      reads this
    {
      events == NONE_EVENT
    }

    predicate IsReading()
      reads this
      ensures IsReading() <==> Has(events, POLL_IN | POLL_PRI)
    {
      Has(events, READ_EVENT)
    }

    predicate IsWriting()
      reads this
      ensures IsWriting() <==> Has(events, POLL_OUT)
    {
      Has(events, WRITE_EVENT)
    }

    method EnableReading()
      modifies this`events
      ensures events == Changed(old(events), ReadingOn)
      ensures IsReading() && IsWriting() == old(IsWriting())
      ensures events & !READ_EVENT == old(events) & !READ_EVENT
    {
      events := events | READ_EVENT;
    }

    method DisableReading()
      modifies this`events
      ensures events == Changed(old(events), ReadingOff)
      ensures !IsReading() && IsWriting() == old(IsWriting())
      ensures events & !READ_EVENT == old(events) & !READ_EVENT
    {
      events := events & !READ_EVENT;
    }

    method EnableWriting()
      modifies this`events
      ensures events == Changed(old(events), WritingOn)
      ensures IsWriting() && IsReading() == old(IsReading())
      ensures events & !WRITE_EVENT == old(events) & !WRITE_EVENT
    {
      events := events | WRITE_EVENT;
    }

    method DisableWriting()
      modifies this`events
      ensures events == Changed(old(events), WritingOff)
      ensures !IsWriting() && IsReading() == old(IsReading())
      ensures events & !WRITE_EVENT == old(events) & !WRITE_EVENT
    {
      events := events & !WRITE_EVENT;
    }

    method DisableAll()
      modifies this`events
      ensures events == Changed(old(events), AllOff)
      ensures IsNoneEvent() && !IsReading() && !IsWriting()
    {
      events := events & NONE_EVENT;
    }

    method Change(change: Change)
      modifies this`events
      ensures events == Changed(old(events), change)
    {
      match change
      case ReadingOn => EnableReading();
      case ReadingOff => DisableReading();
      case WritingOn => EnableWriting();
      case WritingOff => DisableWriting();
      case AllOff => DisableAll();
    }
  }
}
