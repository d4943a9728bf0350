/**
  What a poller means to its loop: which descriptors are registered with which interest, and which of them
  the kernel watches. Both pollers are specified here, and compared over whole runs of updates and removals.
 */
module PollerViews {
  import opened Channels

  datatype View = View(interest: map<int, Mask>, monitored: map<int, Mask>)

  datatype Op = Update(fd: int, mask: Mask) | Remove(fd: int)

  const EMPTY := View(map[], map[])

  /** Poll: only the registering update may leave an empty entry enabled; later empty updates disable the slot. */
  function PollStep(v: View, op: Op): View {
    match op
    case Update(fd, mask) =>
      View(v.interest[fd := mask],
           if fd in v.interest && mask == NONE_EVENT then v.monitored - {fd} else v.monitored[fd := mask])
    case Remove(fd) => View(v.interest - {fd}, v.monitored - {fd})
  }

  /** Epoll: an empty update deletes the descriptor if the kernel has it and adds it otherwise. */
  function EpollStep(monitored: map<int, Mask>, op: Op): map<int, Mask> {
    match op
    case Update(fd, mask) =>
      if fd in monitored && mask == NONE_EVENT then monitored - {fd} else monitored[fd := mask]
    case Remove(fd) => monitored - {fd}
  }

  /** The abstract map: each registered descriptor with its interest. */
  function InterestAfter(ops: seq<Op>): map<int, Mask> {
    if ops == [] then map[]
    else
      var before := InterestAfter(ops[..|ops| - 1]);
      match ops[|ops| - 1]
      case Update(fd, mask) => before[fd := mask]
      case Remove(fd) => before - {fd}
  }

  function PollAfter(ops: seq<Op>): View {
    if ops == [] then EMPTY else PollStep(PollAfter(ops[..|ops| - 1]), ops[|ops| - 1])
  }

  function EpollAfter(ops: seq<Op>): map<int, Mask> {
    if ops == [] then map[] else EpollStep(EpollAfter(ops[..|ops| - 1]), ops[|ops| - 1])
  }

  predicate Watches(m: map<int, Mask>, fd: int, mask: Mask) {
    fd in m && m[fd] == mask
  }

  /** How `fd` came to be where it is: unregistered, wanted, or silenced by `updates` empty updates in a row. */
  datatype History = Absent | Wanted | Silent(updates: nat, fromRegistration: bool)

  function HistoryAfter(ops: seq<Op>, fd: int): (h: History)
    ensures h.Silent? ==> 1 <= h.updates
  {
    if ops == [] then Absent
    else
      var before := HistoryAfter(ops[..|ops| - 1], fd);
      var op := ops[|ops| - 1];
      if op.fd != fd then before
      else if op.Remove? then Absent
      else if op.mask != NONE_EVENT then Wanted
      else match before
        case Absent => Silent(1, true)
        case Wanted => Silent(1, false)
        case Silent(n, b) => Silent(n + 1, b)
  }

  /**
    After any run the poll slots hold the abstract interest map, and both pollers watch the same descriptors with the
    same non-empty masks.
   */
  lemma {:induction false} PollersAgree(ops: seq<Op>, fd: int, mask: Mask)
    ensures PollAfter(ops).interest == InterestAfter(ops)
    ensures mask != NONE_EVENT ==>
              (Watches(PollAfter(ops).monitored, fd, mask) <==> Watches(InterestAfter(ops), fd, mask))
    ensures mask != NONE_EVENT ==> (Watches(EpollAfter(ops), fd, mask) <==> Watches(InterestAfter(ops), fd, mask))
    ensures fd in PollAfter(ops).monitored || fd in EpollAfter(ops) ==> fd in InterestAfter(ops)
  {
    if ops != [] {
      PollersAgree(ops[..|ops| - 1], fd, mask);
    }
  }

  /** Exactly when a poller watches a descriptor with an empty mask, which reports only errors and hang-ups. */
  lemma {:induction false} EmptyMaskWatched(ops: seq<Op>, fd: int)
    ensures HistoryAfter(ops, fd).Absent? <==> fd !in InterestAfter(ops)
    ensures HistoryAfter(ops, fd).Silent? <==> Watches(InterestAfter(ops), fd, NONE_EVENT)
    ensures Watches(PollAfter(ops).monitored, fd, NONE_EVENT) <==> HistoryAfter(ops, fd) == Silent(1, true)
    ensures Watches(EpollAfter(ops), fd, NONE_EVENT) <==>
            var h := HistoryAfter(ops, fd); h.Silent? && h.fromRegistration == (h.updates % 2 == 1)
  {
    PollersAgree(ops, fd, NONE_EVENT);
    if ops != [] {
      var before := ops[..|ops| - 1];
      PollersAgree(before, fd, NONE_EVENT);
      EmptyMaskWatched(before, fd);
      if fd in EpollAfter(before) {
        PollersAgree(before, fd, EpollAfter(before)[fd]);
      }
      if fd in PollAfter(before).monitored {
        PollersAgree(before, fd, PollAfter(before).monitored[fd]);
      }
      var h := HistoryAfter(before, fd);
      if h.Wanted? {
        PollersAgree(before, fd, InterestAfter(before)[fd]);
      }
    }
  }

  /**
    The two watched sets as a whole: equal on a descriptor unless it was silenced twice or more in a row,
    an even number of times counted from a wanted state or an odd number counted from its registration.
   */
  lemma WatchedSetsDiffer(ops: seq<Op>, fd: int)
    ensures (fd in PollAfter(ops).monitored) != (fd in EpollAfter(ops)) <==>
            var h := HistoryAfter(ops, fd);
            h.Silent? && 2 <= h.updates && h.fromRegistration == (h.updates % 2 == 1)
  {
    EmptyMaskWatched(ops, fd);
    PollersAgree(ops, fd, NONE_EVENT);
    if fd in PollAfter(ops).monitored {
      PollersAgree(ops, fd, PollAfter(ops).monitored[fd]);
    }
    if fd in EpollAfter(ops) {
      PollersAgree(ops, fd, EpollAfter(ops)[fd]);
    }
  }

  /** A descriptor wanted once and silenced twice is watched again by epoll, with an empty mask, and not by poll. */
  lemma SilencedTwice(fd: int)
    ensures var ops := [Update(fd, READ_EVENT), Update(fd, NONE_EVENT), Update(fd, NONE_EVENT)];
            fd !in PollAfter(ops).monitored && Watches(EpollAfter(ops), fd, NONE_EVENT)
  {
    var ops := [Update(fd, READ_EVENT), Update(fd, NONE_EVENT), Update(fd, NONE_EVENT)];
    assert ops[..2] == [Update(fd, READ_EVENT), Update(fd, NONE_EVENT)];
    assert ops[..2][..1] == [Update(fd, READ_EVENT)];
    assert HistoryAfter(ops[..2][..1], fd) == Wanted;
    assert HistoryAfter(ops[..2], fd) == Silent(1, false);
    assert HistoryAfter(ops, fd) == Silent(2, false);
    EmptyMaskWatched(ops, fd);
  }
}
