/**
  The epoll(7) poller of src/net/poller/EpollPoller.cc: a state mark in every channel, kept in step with the
  interest set the kernel holds. The kernel's set is part of the state, and every epoll_ctl that fails is counted.
 */
module EpollPollers {
  import opened Channels
  import opened PollerViews

  const K_NEW := -1
  const K_ADDED := 1
  const K_DELETED := 2
  const INIT_EVENT_LIST_SIZE: nat := 16

  datatype CtlOp = CtlAdd | CtlMod | CtlDel

  /** An entry of the kernel's interest set: the mask, and the pointer epoll_wait hands back. */
  datatype KernelEntry = KernelEntry(events: Mask, ptr: Channel)

  datatype Ready = Ready(fd: int, revents: Mask)

  /** What epoll_wait may report: at most as many as asked for, on distinct descriptors of the set. */
  ghost predicate WaitContract(kernel: map<int, KernelEntry>, ready: seq<Ready>, maxEvents: nat) {
    && |ready| <= maxEvents
    && (forall k :: 0 <= k < |ready| ==>
          && ready[k].fd in kernel && ready[k].revents != NONE_EVENT
          && ready[k].revents & !(kernel[ready[k].fd].events | POLL_ERR | POLL_HUP) == NONE_EVENT)
    && (forall j, k :: 0 <= j < k < |ready| ==> ready[j].fd != ready[k].fd)
  }

  lemma StepElsewhere(monitored: map<int, Mask>, fd: int, mask: Mask)
    ensures var m := EpollStep(monitored, PollerViews.Update(fd, mask));
            && (forall g :: g != fd ==> (g in m <==> g in monitored) && (g in m ==> m[g] == monitored[g]))
            && (fd in m ==> m[fd] == mask) && (mask != NONE_EVENT ==> fd in m)
  {
  }

  class EpollPoller {
    var channels: map<int, Channel>
    var kernel: map<int, KernelEntry>
    var failures: nat
    var eventListSize: nat

    ghost predicate Valid()
      reads this, channels.Values
    {
      && (forall fd :: fd in channels ==>
            && channels[fd].fd == fd
            && (channels[fd].index == K_ADDED || channels[fd].index == K_DELETED)
            && (channels[fd].index == K_ADDED <==> fd in kernel))
      && (forall fd :: fd in kernel ==> fd in channels && kernel[fd].ptr == channels[fd])
      && 0 < eventListSize
    }

    predicate IsRegistered(ch: Channel)
      reads this
    {
      ch.fd in channels && channels[ch.fd] == ch
    }

    /** The kernel's set as masks. */
    ghost function Monitored(): map<int, Mask>
      reads this
    {
      map fd | fd in kernel :: kernel[fd].events
    }

    constructor ()
      ensures Valid() && Monitored() == map[] && channels == map[] && failures == 0 && eventListSize == 16
    {
      channels, kernel, failures, eventListSize := map[], map[], 0, INIT_EVENT_LIST_SIZE;
    }

    /** epoll_ctl: adding a present descriptor, or changing or deleting an absent one, is refused. */
    method EpollCtl(op: CtlOp, fd: int, event: KernelEntry) returns (r: int)
      modifies this`kernel
      ensures r < 0 <==> (op.CtlAdd? <==> fd in old(kernel))
      ensures kernel == if r < 0 then old(kernel)
                        else if op.CtlDel? then old(kernel) - {fd}
                        else old(kernel)[fd := event]
    {
      if op.CtlAdd? == (fd in kernel) {
        r := -1;
      } else {
        r := 0;
        kernel := if op.CtlDel? then kernel - {fd} else kernel[fd := event];
      }
    }

    method Update(op: CtlOp, ch: Channel)
      modifies this`kernel, this`failures
      ensures failures == old(failures) <==> (op.CtlAdd? <==> ch.fd !in old(kernel))
      ensures failures == old(failures) ==>
                kernel == if op.CtlDel? then old(kernel) - {ch.fd} else old(kernel)[ch.fd := KernelEntry(ch.events, ch)]
      ensures failures == old(failures) ==>
                Monitored() == if op.CtlDel? then old(Monitored()) - {ch.fd} else old(Monitored())[ch.fd := ch.events]
    {
      var r := EpollCtl(op, ch.fd, KernelEntry(ch.events, ch));
      if r < 0 {
        failures := failures + 1;
      }
    }

    method UpdateChannel(ch: Channel)
      requires Valid()
      requires IsRegistered(ch) || (ch.fd !in channels && ch.index == K_NEW)
      modifies this, ch`index
      ensures Valid() && IsRegistered(ch)
      ensures failures == old(failures)
      ensures channels == old(channels)[ch.fd := ch]
      ensures Monitored() == EpollStep(old(Monitored()), PollerViews.Update(ch.fd, ch.events))
    {
      if ch.index == K_NEW || ch.index == K_DELETED {
        if ch.index == K_NEW {
          channels := channels[ch.fd := ch];
        }
        ch.index := K_ADDED;
        Update(CtlAdd, ch);
      } else if ch.IsNoneEvent() {
        Update(CtlDel, ch);
        ch.index := K_DELETED;
      } else {
        Update(CtlMod, ch);
      }
    }

    /** The kernel holds what the owners want, and has every channel that wants anything. */
    ghost predicate Synced()
      reads this, channels.Values
    {
      && (forall fd :: fd in kernel && fd in channels ==> kernel[fd].events == channels[fd].events)
      && (forall fd :: fd in channels && channels[fd].events != NONE_EVENT ==> fd in kernel)
    }

    /** A change of interest and the update that follows it: the kernel learns of it at once. */
    method ChangeInterest(ch: Channel, change: Change)
      requires Valid() && Synced()
      requires IsRegistered(ch) || (ch.fd !in channels && ch.index == K_NEW)
      modifies this, ch`index, ch`events
      ensures Valid() && Synced() && IsRegistered(ch)
      ensures failures == old(failures)
      ensures ch.events == Changed(old(ch.events), change)
      ensures Monitored() == EpollStep(old(Monitored()), PollerViews.Update(ch.fd, ch.events))
    {
      hide Changed;
      ghost var others := map fd | fd in channels && fd != ch.fd :: channels[fd].events;
      assert forall fd :: fd in channels && fd != ch.fd ==> channels[fd].fd != ch.fd;
      ch.Change(change);
      assert Monitored() == old(Monitored());
      UpdateChannel(ch);
      StepElsewhere(old(Monitored()), ch.fd, ch.events);
      SyncedFrom(others, ch);
    }

    /** The kernel is in step with every channel if it is with all but one, and with that one. */
    lemma SyncedFrom(others: map<int, Mask>, ch: Channel)
      requires Valid() && IsRegistered(ch) && others.Keys == channels.Keys - {ch.fd}
      requires forall fd :: fd in others ==> others[fd] == channels[fd].events
      requires forall fd :: fd in others && fd in Monitored() ==> Monitored()[fd] == others[fd]
      requires forall fd :: fd in others && others[fd] != NONE_EVENT ==> fd in Monitored()
      requires ch.fd in Monitored() ==> Monitored()[ch.fd] == ch.events
      requires ch.events != NONE_EVENT ==> ch.fd in Monitored()
      ensures Synced()
    {
      forall fd | fd in kernel
        ensures fd in Monitored() && Monitored()[fd] == kernel[fd].events
      {
      }
    }

    /** A channel may be removed in any state, even twice; afterwards it is new again. */
    method RemoveChannel(ch: Channel)
      requires Valid()
      requires IsRegistered(ch) || (ch.fd !in channels && ch.index == K_NEW)
      modifies this, ch`index
      ensures Valid() && ch.index == K_NEW
      ensures failures == old(failures)
      ensures channels == old(channels) - {ch.fd}
      ensures Monitored() == EpollStep(old(Monitored()), Remove(ch.fd))
      ensures old(Synced()) ==> Synced()
    {
      channels := channels - {ch.fd};
      if ch.index == K_ADDED {
        Update(CtlDel, ch);
      }
      ch.index := K_NEW;
    }

    /** Every pointer the kernel hands back is a channel registered now; a full list doubles. */
    method Poll(ready: seq<Ready>) returns (active: seq<Channel>)
      requires Valid() && WaitContract(kernel, ready, eventListSize)
      modifies this`eventListSize, channels.Values`revents
      ensures Valid() && Monitored() == old(Monitored())
      ensures |active| == |ready|
      ensures forall k :: 0 <= k < |ready| ==> IsRegistered(active[k]) && active[k].fd == ready[k].fd
      ensures forall k :: 0 <= k < |ready| ==> active[k].revents == ready[k].revents
      ensures forall j, k :: 0 <= j < k < |active| ==> active[j] != active[k]
      ensures eventListSize == if |ready| == old(eventListSize) then 2 * old(eventListSize) else old(eventListSize)
    {
      active := [];
      var i := 0;
      while i < |ready|
        invariant 0 <= i == |active| <= |ready|
        invariant Valid() && kernel == old(kernel) && channels == old(channels) && eventListSize == old(eventListSize)
        invariant forall k :: 0 <= k < i ==> IsRegistered(active[k]) && active[k].fd == ready[k].fd
        invariant forall k :: 0 <= k < i ==> active[k].revents == ready[k].revents
      {
        var ch := kernel[ready[i].fd].ptr;
        ch.revents := ready[i].revents;
        active := active + [ch];
        i := i + 1;
      }
      if |ready| == eventListSize {
        eventListSize := 2 * eventListSize;
      }
    }
  }
}
