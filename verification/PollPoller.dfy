/**
  The poll(2) poller of src/net/poller/PollPoller.cc: a dense array of slots, a map from descriptors to channels,
  and in every registered channel the index of its slot. A silenced slot stores `-fd - 1` instead of `fd`.
 */
module PollPollers {
  import opened Channels
  import opened PollerViews

  datatype PollFd = PollFd(fd: int, events: Mask, revents: Mask)

  /** The descriptor a slot belongs to, whether enabled or silenced. */
  function Owner(p: PollFd): int {
    if p.fd < 0 then -p.fd - 1 else p.fd
  }

  /** Slots and per-descriptor indices are inverse to one another; only an empty mask is silenced. */
  ghost predicate Rep(slots: seq<PollFd>, index: map<int, int>) {
    && (forall fd :: fd in index ==> 0 <= index[fd] < |slots| && Owner(slots[index[fd]]) == fd)
    && (forall i :: 0 <= i < |slots| ==>
          && Owner(slots[i]) in index
          && index[Owner(slots[i])] == i
          && (slots[i].fd < 0 ==> slots[i].events == NONE_EVENT))
  }

  /** Each registered descriptor with the interest in its slot, and those whose slot poll(2) looks at. */
  ghost function ViewOf(slots: seq<PollFd>, index: map<int, int>): View
    requires Rep(slots, index)
  {
    View(map fd | fd in index :: slots[index[fd]].events,
         map fd | fd in index && 0 <= slots[index[fd]].fd :: slots[index[fd]].events)
  }

  lemma ViewAt(slots: seq<PollFd>, index: map<int, int>, fd: int)
    requires Rep(slots, index)
    ensures var v := ViewOf(slots, index);
            && (fd in v.interest <==> fd in index)
            && (fd in index ==> Watches(v.interest, fd, slots[index[fd]].events))
            && (fd in v.monitored <==> fd in index && 0 <= slots[index[fd]].fd)
            && (fd in v.monitored ==> Watches(v.monitored, fd, slots[index[fd]].events))
  {
  }

  /** Views that keep every slot but the one of `fd` differ at most on `fd`. */
  lemma SameElsewhere(slots: seq<PollFd>, index: map<int, int>, s: seq<PollFd>, x: map<int, int>, fd: int)
    requires Rep(slots, index) && Rep(s, x)
    requires x.Keys - {fd} == index.Keys - {fd}
    requires forall g :: g in index && g != fd ==> g in x && s[x[g]] == slots[index[g]]
    ensures ViewOf(s, x).interest - {fd} == ViewOf(slots, index).interest - {fd}
    ensures ViewOf(s, x).monitored - {fd} == ViewOf(slots, index).monitored - {fd}
  {
    var v, w := ViewOf(s, x), ViewOf(slots, index);
    forall g | g != fd
      ensures g in v.interest <==> g in w.interest
      ensures g in v.monitored <==> g in w.monitored
      ensures g in w.interest ==> v.interest[g] == w.interest[g]
      ensures g in w.monitored ==> v.monitored[g] == w.monitored[g]
    {
      assert g in x.Keys - {fd} <==> g in index.Keys - {fd};
      ViewAt(slots, index, g);
      ViewAt(s, x, g);
    }
    hide ViewOf, Rep;
    SameExcept(v.interest, w.interest, fd);
    SameExcept(v.monitored, w.monitored, fd);
  }

  lemma SameExcept(m: map<int, Mask>, n: map<int, Mask>, fd: int)
    requires forall g :: g != fd ==> (g in m <==> g in n)
    requires forall g :: g != fd && g in n ==> m[g] == n[g]
    ensures m - {fd} == n - {fd}
  {
    var a, b := m - {fd}, n - {fd};
    assert forall g :: g in a <==> g in b;
    assert forall g :: g in a ==> a[g] == b[g];
  }

  lemma SameMaps(v: View, w: View, fd: int)
    requires v.interest - {fd} == w.interest - {fd} && v.monitored - {fd} == w.monitored - {fd}
    requires fd in v.interest <==> fd in w.interest
    requires fd in v.interest ==> v.interest[fd] == w.interest[fd]
    requires fd in v.monitored <==> fd in w.monitored
    requires fd in v.monitored ==> v.monitored[fd] == w.monitored[fd]
    ensures v == w
  {
    forall g | g != fd
      ensures g in v.interest <==> g in v.interest - {fd}
      ensures g in v.monitored <==> g in v.monitored - {fd}
      ensures g in w.interest <==> g in w.interest - {fd}
      ensures g in w.monitored <==> g in w.monitored - {fd}
    {
    }
    assert v.interest.Keys == w.interest.Keys;
    assert v.monitored.Keys == w.monitored.Keys;
    assert forall g :: g in v.interest && g != fd ==> v.interest[g] == (v.interest - {fd})[g];
    assert forall g :: g in v.monitored && g != fd ==> v.monitored[g] == (v.monitored - {fd})[g];
  }

  lemma StepElsewhere(v: View, op: Op)
    ensures PollStep(v, op).interest - {op.fd} == v.interest - {op.fd}
    ensures PollStep(v, op).monitored - {op.fd} == v.monitored - {op.fd}
  {
  }

  /** Changing the slot of one descriptor, as the operation on it says, is that operation on the view. */
  lemma OneSlotChanges(slots: seq<PollFd>, index: map<int, int>, s: seq<PollFd>, x: map<int, int>, op: Op)
    requires Rep(slots, index) && Rep(s, x)
    requires x.Keys - {op.fd} == index.Keys - {op.fd}
    requires forall g :: g in index && g != op.fd ==> g in x && s[x[g]] == slots[index[g]]
    requires op.fd in x <==> op.Update?
    requires op.Update? ==>
               var p := s[x[op.fd]];
               p.events == op.mask && (p.fd < 0 <==> op.fd in index && op.mask == NONE_EVENT)
    ensures ViewOf(s, x) == PollStep(ViewOf(slots, index), op)
  {
    SameElsewhere(slots, index, s, x, op.fd);
    ViewAt(slots, index, op.fd);
    ViewAt(s, x, op.fd);
    hide ViewOf, Rep;
    StepElsewhere(ViewOf(slots, index), op);
    SameMaps(ViewOf(s, x), PollStep(ViewOf(slots, index), op), op.fd);
  }

  lemma AddSlot(slots: seq<PollFd>, index: map<int, int>, fd: int, mask: Mask)
    requires Rep(slots, index) && 0 <= fd && fd !in index
    ensures var s, x := slots + [PollFd(fd, mask, NONE_EVENT)], index[fd := |slots|];
            Rep(s, x) && ViewOf(s, x) == PollStep(ViewOf(slots, index), Update(fd, mask))
  {
    var s, x := slots + [PollFd(fd, mask, NONE_EVENT)], index[fd := |slots|];
    assert Rep(s, x);
    OneSlotChanges(slots, index, s, x, Update(fd, mask));
  }

  lemma RewriteSlot(slots: seq<PollFd>, index: map<int, int>, fd: int, mask: Mask)
    requires Rep(slots, index) && 0 <= fd && fd in index
    ensures var s := slots[index[fd] := PollFd(if mask == NONE_EVENT then -fd - 1 else fd, mask, NONE_EVENT)];
            Rep(s, index) && ViewOf(s, index) == PollStep(ViewOf(slots, index), Update(fd, mask))
  {
    var s := slots[index[fd] := PollFd(if mask == NONE_EVENT then -fd - 1 else fd, mask, NONE_EVENT)];
    assert Rep(s, index);
    forall g | g in index && g != fd
      ensures s[index[g]] == slots[index[g]]
    {
      assert index[g] != index[fd];
    }
    OneSlotChanges(slots, index, s, index, Update(fd, mask));
  }

  lemma DropLastSlot(slots: seq<PollFd>, index: map<int, int>, fd: int)
    requires Rep(slots, index) && fd in index && index[fd] == |slots| - 1
    ensures var s, x := slots[..|slots| - 1], index - {fd};
            Rep(s, x) && ViewOf(s, x) == PollStep(ViewOf(slots, index), Remove(fd))
  {
    var s, x := slots[..|slots| - 1], index - {fd};
    assert Rep(s, x);
    OneSlotChanges(slots, index, s, x, Remove(fd));
  }

  lemma SwapOutSlot(slots: seq<PollFd>, index: map<int, int>, fd: int)
    requires Rep(slots, index) && fd in index && index[fd] < |slots| - 1
    ensures var last := |slots| - 1;
            var s, x := slots[..last][index[fd] := slots[last]], (index - {fd})[Owner(slots[last]) := index[fd]];
            Rep(s, x) && ViewOf(s, x) == PollStep(ViewOf(slots, index), Remove(fd))
  {
    var last := |slots| - 1;
    var s, x := slots[..last][index[fd] := slots[last]], (index - {fd})[Owner(slots[last]) := index[fd]];
    assert Owner(slots[last]) in index && Owner(slots[last]) != fd;
    forall g | g in index && g != fd
      ensures 0 <= x[g] < last && s[x[g]] == slots[index[g]]
    {
      assert index[g] != index[fd];
    }
    assert Rep(s, x);
    OneSlotChanges(slots, index, s, x, Remove(fd));
  }

  /** The view does not depend on what was reported. */
  lemma SameView(slots: seq<PollFd>, s: seq<PollFd>, index: map<int, int>)
    requires Rep(slots, index) && |s| == |slots|
    requires forall i :: 0 <= i < |s| ==> s[i].fd == slots[i].fd && s[i].events == slots[i].events
    ensures Rep(s, index) && ViewOf(s, index) == ViewOf(slots, index)
  {
    assert forall i :: 0 <= i < |s| ==> Owner(s[i]) == Owner(slots[i]);
    var v, w := ViewOf(s, index), ViewOf(slots, index);
    forall g | g in index
      ensures v.interest[g] == w.interest[g] && (g in v.monitored <==> g in w.monitored)
    {
      assert s[index[g]].fd == slots[index[g]].fd;
    }
  }

  /** The descriptors of the slots that report something, in slot order; their number is poll(2)'s return value. */
  function ReadyFds(slots: seq<PollFd>): seq<int> {
    if slots == [] then []
    else
      var p := slots[|slots| - 1];
      ReadyFds(slots[..|slots| - 1]) + if p.revents != NONE_EVENT then [p.fd] else []
  }

  /** What poll(2) may report: nothing on a negative descriptor, and only requested events, errors and hang-ups. */
  ghost predicate PollContract(slots: seq<PollFd>, reported: seq<Mask>) {
    && |reported| == |slots|
    && forall i :: 0 <= i < |slots| && reported[i] != NONE_EVENT ==>
         0 <= slots[i].fd && reported[i] & !(slots[i].events | POLL_ERR | POLL_HUP) == NONE_EVENT
  }

  predicate NoneReadyWhileSilenced(slots: seq<PollFd>) {
    forall i :: 0 <= i < |slots| && slots[i].revents != NONE_EVENT ==> 0 <= slots[i].fd
  }

  lemma ReadyFdsNext(slots: seq<PollFd>, i: nat)
    requires i < |slots|
    ensures ReadyFds(slots[..i + 1]) ==
            ReadyFds(slots[..i]) + if slots[i].revents != NONE_EVENT then [slots[i].fd] else []
  {
    assert slots[..i + 1][..i] == slots[..i];
  }

  lemma {:induction false} ReadyFdsPrefix(slots: seq<PollFd>, n: nat)
    requires n <= |slots|
    ensures ReadyFds(slots[..n]) <= ReadyFds(slots)
  {
    if n == |slots| {
      assert slots[..n] == slots;
    } else {
      ReadyFdsPrefix(slots[..|slots| - 1], n);
      assert slots[..|slots| - 1][..n] == slots[..n];
    }
  }

  lemma {:induction false} NothingReadyAfter(slots: seq<PollFd>, n: nat)
    requires n <= |slots| && |ReadyFds(slots[..n])| == |ReadyFds(slots)|
    ensures ReadyFds(slots[..n]) == ReadyFds(slots)
    ensures forall k :: n <= k < |slots| ==> slots[k].revents == NONE_EVENT
  {
    ReadyFdsPrefix(slots, n);
    forall k | n <= k < |slots|
      ensures slots[k].revents == NONE_EVENT
    {
      ReadyFdsPrefix(slots, k + 1);
      ReadyFdsPrefix(slots[..k], n);
      assert slots[..k][..n] == slots[..n] && slots[..k + 1][..k] == slots[..k];
    }
  }

  /** Dispatch meets every registered descriptor with something to report, once, and nothing else. */
  lemma {:induction false} ReadyFdsExact(slots: seq<PollFd>, index: map<int, int>, n: nat)
    requires Rep(slots, index) && NoneReadyWhileSilenced(slots) && n <= |slots|
    ensures forall fd :: fd in ReadyFds(slots[..n]) <==>
              fd in index && index[fd] < n && slots[index[fd]].revents != NONE_EVENT
    ensures forall fd :: fd in ReadyFds(slots[..n]) ==> fd in ViewOf(slots, index).monitored
    ensures forall i, j :: 0 <= i < j < |ReadyFds(slots[..n])| ==> ReadyFds(slots[..n])[i] != ReadyFds(slots[..n])[j]
  {
    if n != 0 {
      ReadyFdsExact(slots, index, n - 1);
      assert slots[..n][..n - 1] == slots[..n - 1];
      assert index[Owner(slots[n - 1])] == n - 1;
    }
  }

  /** What the channels have been told after the slots were walked. */
  function Marked(told: map<int, Mask>, slots: seq<PollFd>): map<int, Mask> {
    if slots == [] then told
    else
      var p := slots[|slots| - 1];
      var before := Marked(told, slots[..|slots| - 1]);
      if p.revents != NONE_EVENT then before[p.fd := p.revents] else before
  }

  lemma MarkedNext(told: map<int, Mask>, slots: seq<PollFd>, i: nat)
    requires i < |slots|
    ensures Marked(told, slots[..i + 1]) ==
            if slots[i].revents != NONE_EVENT then Marked(told, slots[..i])[slots[i].fd := slots[i].revents]
            else Marked(told, slots[..i])
  {
    assert slots[..i + 1][..i] == slots[..i];
  }

  /** A walk over the first slots, past which none is ready, tells each ready descriptor its events, and no other. */
  lemma {:induction false} MarkedExact(told: map<int, Mask>, slots: seq<PollFd>, n: nat)
    requires n <= |slots| && forall i :: n <= i < |slots| ==> slots[i].revents == NONE_EVENT
    requires forall i, j :: 0 <= i < j < |slots| && slots[i].revents != NONE_EVENT && slots[j].revents != NONE_EVENT ==>
               slots[i].fd != slots[j].fd
    ensures var m := Marked(told, slots[..n]);
            && (forall i :: 0 <= i < |slots| && slots[i].revents != NONE_EVENT ==>
                  Watches(m, slots[i].fd, slots[i].revents))
            && (forall fd :: fd in told && fd !in ReadyFds(slots) ==> Watches(m, fd, told[fd]))
  {
    if slots != [] {
      var last := |slots| - 1;
      if n <= last {
        assert slots[..last][..n] == slots[..n];
        MarkedExact(told, slots[..last], n);
      } else {
        assert slots[..n] == slots && slots[..last][..last] == slots[..last];
        MarkedExact(told, slots[..last], last);
      }
    }
  }

  class PollPoller {
    var pollfds: seq<PollFd>
    var channels: map<int, Channel>

    ghost predicate Keyed()
      reads this`channels
    {
      forall fd :: fd in channels ==> channels[fd].fd == fd
    }

    ghost function Index(): map<int, int>
      reads this`channels, channels.Values`index
    {
      map fd | fd in channels :: channels[fd].index
    }

    ghost predicate Valid()
      reads this, channels.Values`index
    {
      Keyed() && Rep(pollfds, Index())
    }

    predicate IsRegistered(ch: Channel)
      reads this`channels
    {
      ch.fd in channels && channels[ch.fd] == ch
    }

    ghost function AsView(): View
      requires Valid()
      reads this, channels.Values`index
    {
      ViewOf(pollfds, Index())
    }

    constructor ()
      ensures Valid() && AsView() == EMPTY && channels == map[]
    {
      pollfds := [];
      channels := map[];
    }

    /** A registered channel has a slot of the array, and an unregistered one is in no map. */
    lemma RegisteredSlot(ch: Channel)
      requires Valid()
      ensures IsRegistered(ch) ==> 0 <= ch.index < |pollfds| && ch.fd in Index() && Index()[ch.fd] == ch.index
      ensures ch.fd !in channels ==> ch.fd !in Index()
    {
      assert IsRegistered(ch) ==> Index()[ch.fd] == ch.index;
    }

    /** The channel of the last slot is the only one with that index. */
    lemma LastSlot()
      requires Valid() && pollfds != []
      ensures var fd := Owner(pollfds[|pollfds| - 1]); fd in channels && Index()[fd] == |pollfds| - 1
    {
    }

    method UpdateChannel(ch: Channel)
      requires Valid()
      requires IsRegistered(ch) || (ch.fd !in channels && ch.index < 0)
      modifies this, ch`index
      ensures Valid()
      ensures channels == old(channels)[ch.fd := ch]
      ensures AsView() == PollStep(old(AsView()), Update(ch.fd, ch.events))
    {
      RegisteredSlot(ch);
      hide Rep, ViewOf, PollStep;
      if ch.index < 0 {
        Register(ch);
      } else {
        Rewrite(ch);
        assert channels == channels[ch.fd := ch];
      }
    }

    method Register(ch: Channel)
      requires Valid() && ch.fd !in channels && ch.fd !in Index()
      modifies this, ch`index
      ensures Valid()
      ensures channels == old(channels)[ch.fd := ch]
      ensures AsView() == PollStep(old(AsView()), Update(ch.fd, ch.events))
    {
      hide Rep, ViewOf, PollStep;
      ghost var slots, index := pollfds, Index();
      AddSlot(slots, index, ch.fd, ch.events);
      pollfds := pollfds + [PollFd(ch.fd, ch.events, NONE_EVENT)];
      ch.index := |pollfds| - 1;
      channels := channels[ch.fd := ch];
      forall g | g in index
        ensures channels[g] != ch && channels[g].index == index[g]
      {
        assert channels[g].fd == g;
      }
      assert Index() == index[ch.fd := |slots|];
    }

    method Rewrite(ch: Channel)
      requires Valid() && IsRegistered(ch) && 0 <= ch.index < |pollfds|
      requires ch.fd in Index() && Index()[ch.fd] == ch.index
      modifies this`pollfds
      ensures Valid()
      ensures AsView() == PollStep(old(AsView()), Update(ch.fd, ch.events))
    {
      hide Rep, ViewOf, PollStep;
      ghost var slots, index := pollfds, Index();
      RewriteSlot(slots, index, ch.fd, ch.events);
      var fd: int := ch.fd;
      if ch.IsNoneEvent() {
        fd := -fd - 1;
      }
      pollfds := pollfds[ch.index := PollFd(fd, ch.events, NONE_EVENT)];
      assert Index() == index;
    }

    /** What the owners want is what the poller has recorded. */
    ghost predicate Synced()
      requires Valid()
      reads this, channels.Values
    {
      forall fd :: fd in channels ==> Watches(AsView().interest, fd, channels[fd].events)
    }

    /** A change of interest and the update that follows it: the poller learns of it at once. */
    method ChangeInterest(ch: Channel, change: Change)
      requires Valid() && Synced()
      requires IsRegistered(ch) || (ch.fd !in channels && ch.index < 0)
      modifies this, ch`index, ch`events
      ensures Valid() && Synced() && IsRegistered(ch)
      ensures ch.events == Changed(old(ch.events), change)
      ensures AsView() == PollStep(old(AsView()), Update(ch.fd, ch.events))
    {
      hide Rep, ViewOf, Changed;
      ghost var index := Index();
      assert forall g :: g in channels && channels[g] == ch ==> g == ch.fd;
      ch.Change(change);
      assert Index() == index;
      UpdateChannel(ch);
    }

    /** Swaps the slot with the last one. The removed channel keeps its stale index, so it must not come back. */
    method RemoveChannel(ch: Channel)
      requires Valid() && IsRegistered(ch)
      modifies this, channels.Values`index
      ensures Valid()
      ensures channels == old(channels) - {ch.fd}
      ensures AsView() == PollStep(old(AsView()), Remove(ch.fd))
      ensures ch.index == old(ch.index)
      ensures old(Synced()) ==> Synced()
    {
      RegisteredSlot(ch);
      hide Rep, ViewOf;
      if ch.index == |pollfds| - 1 {
        RemoveLast(ch);
      } else {
        RemoveBySwap(ch);
      }
    }

    method RemoveLast(ch: Channel)
      requires Valid() && IsRegistered(ch) && 0 <= ch.index == |pollfds| - 1
      requires ch.fd in Index() && Index()[ch.fd] == ch.index
      modifies this
      ensures Valid() && channels == old(channels) - {ch.fd}
      ensures AsView() == PollStep(old(AsView()), Remove(ch.fd))
    {
      hide Rep, ViewOf, PollStep;
      ghost var slots, index := pollfds, Index();
      DropLastSlot(slots, index, ch.fd);
      Forget(ch.fd);
      pollfds := pollfds[..|pollfds| - 1];
    }

    method RemoveBySwap(ch: Channel)
      requires Valid() && IsRegistered(ch) && 0 <= ch.index < |pollfds| - 1
      requires ch.fd in Index() && Index()[ch.fd] == ch.index
      modifies this, channels.Values`index
      ensures Valid() && channels == old(channels) - {ch.fd}
      ensures AsView() == PollStep(old(AsView()), Remove(ch.fd))
      ensures ch.index == old(ch.index)
    {
      LastSlot();
      hide Rep, ViewOf, PollStep, Owner;
      ghost var slots, index := pollfds, Index();
      SwapOutSlot(slots, index, ch.fd);
      var idx := ch.index;
      var fdAtEnd := Owner(pollfds[|pollfds| - 1]);
      assert index[fdAtEnd] == |pollfds| - 1;
      SwapAndPop(idx);
      Forget(ch.fd);
      MoveIndex(channels[fdAtEnd], idx);
    }

    method SwapAndPop(idx: nat)
      requires idx < |pollfds| - 1
      modifies this`pollfds
      ensures pollfds == old(pollfds)[..|old(pollfds)| - 1][idx := old(pollfds)[|old(pollfds)| - 1]]
    {
      var last := |pollfds| - 1;
      pollfds := pollfds[idx := pollfds[last]][last := pollfds[idx]];
      pollfds := pollfds[..last];
    }

    method Forget(fd: int)
      modifies this`channels
      ensures channels == old(channels) - {fd} && Index() == old(Index()) - {fd}
    {
      channels := channels - {fd};
    }

    /** Rewrites the index of one channel; no other channel is that one. */
    method MoveIndex(ch: Channel, idx: int)
      requires Keyed() && IsRegistered(ch)
      modifies ch`index
      ensures Index() == old(Index())[ch.fd := idx]
    {
      assert forall g :: g in channels && g != ch.fd ==> channels[g].fd != ch.fd;
      ch.index := idx;
    }

    /** Walks the slots and stops as soon as `numEvents` of them were found ready; no lookup ever misses. */
    method FillActiveChannels(numEvents: nat) returns (active: seq<Channel>)
      requires Keyed() && numEvents == |ReadyFds(pollfds)|
      requires forall i :: 0 <= i < |pollfds| && pollfds[i].revents != NONE_EVENT ==>
                 pollfds[i].fd in channels && channels[pollfds[i].fd].index == i
      modifies channels.Values`revents
      ensures |active| == numEvents
      ensures forall k :: 0 <= k < |active| ==> IsRegistered(active[k]) && active[k].fd == ReadyFds(pollfds)[k]
      ensures forall i :: 0 <= i < |pollfds| && pollfds[i].revents != NONE_EVENT ==>
                channels[pollfds[i].fd].revents == pollfds[i].revents
      ensures forall fd :: fd in channels && fd !in ReadyFds(pollfds) ==>
                channels[fd].revents == old(channels[fd].revents)
    {
      ghost var was := Reported();
      assert ReadyFds(pollfds[..0]) == [] && Marked(was, pollfds[..0]) == was;
      hide ReadyFds, Marked, Keyed;
      active := [];
      ghost var found: seq<int> := [];
      var left := numEvents;
      var i := 0;
      while i < |pollfds| && 0 < left
        invariant 0 <= i <= |pollfds| && found == ReadyFds(pollfds[..i])
        invariant |active| == |found| == numEvents - left
        invariant forall k :: 0 <= k < |active| ==> IsRegistered(active[k]) && active[k].fd == found[k]
        invariant Reported() == Marked(was, pollfds[..i])
      {
        ReadyFdsNext(pollfds, i);
        ReadyFdsPrefix(pollfds, i + 1);
        MarkedNext(was, pollfds, i);
        if pollfds[i].revents != NONE_EVENT {
          left := left - 1;
          var ch := Activate(i);
          active := active + [ch];
          found := found + [ch.fd];
        }
        i := i + 1;
      }
      assert pollfds[..|pollfds|] == pollfds;
      NothingReadyAfter(pollfds, i);
      AllTold(was, i);
    }

    /** After the walk every ready channel has been told its events, and no other was touched. */
    lemma AllTold(was: map<int, Mask>, n: nat)
      requires n <= |pollfds| && Reported() == Marked(was, pollfds[..n]) && was.Keys == channels.Keys
      requires forall i :: n <= i < |pollfds| ==> pollfds[i].revents == NONE_EVENT
      requires forall i :: 0 <= i < |pollfds| && pollfds[i].revents != NONE_EVENT ==>
                 pollfds[i].fd in channels && channels[pollfds[i].fd].index == i
      ensures forall i :: 0 <= i < |pollfds| && pollfds[i].revents != NONE_EVENT ==>
                channels[pollfds[i].fd].revents == pollfds[i].revents
      ensures forall fd :: fd in channels && fd !in ReadyFds(pollfds) ==> channels[fd].revents == was[fd]
    {
      MarkedExact(was, pollfds, n);
      forall fd | fd in channels
        ensures Watches(Reported(), fd, channels[fd].revents)
      {
      }
    }

    ghost function Reported(): map<int, Mask>
      reads this`channels, channels.Values`revents
    {
      map fd | fd in channels :: channels[fd].revents
    }

    method Activate(i: nat) returns (ch: Channel)
      requires Keyed() && i < |pollfds| && pollfds[i].fd in channels
      modifies channels.Values`revents
      ensures IsRegistered(ch) && ch.fd == pollfds[i].fd
      ensures Reported() == old(Reported())[ch.fd := pollfds[i].revents]
    {
      ch := channels[pollfds[i].fd];
      assert forall g :: g in channels && g != ch.fd ==> channels[g].fd != ch.fd;
      ch.revents := pollfds[i].revents;
    }

    /** poll(2) overwrites every `revents`, and the channels with something to report become active. */
    method Poll(reported: seq<Mask>) returns (active: seq<Channel>)
      requires Valid() && PollContract(pollfds, reported)
      modifies this`pollfds, channels.Values`revents
      ensures Valid() && AsView() == old(AsView())
      ensures forall fd :: fd in channels ==>
                && 0 <= channels[fd].index < |reported|
                && (channels[fd] in active <==> reported[channels[fd].index] != NONE_EVENT)
                && channels[fd].revents ==
                   if channels[fd] in active then reported[channels[fd].index] else old(channels[fd].revents)
      ensures forall k :: 0 <= k < |active| ==> IsRegistered(active[k]) && active[k].fd in AsView().monitored
      ensures forall i, j :: 0 <= i < j < |active| ==> active[i] != active[j]
    {
      hide Rep, ViewOf;
      ghost var index := Index();
      var slots := pollfds;
      pollfds :=
        seq(|slots|, i requires 0 <= i < |slots| && |reported| == |slots| => slots[i].(revents := reported[i]));
      SameView(slots, pollfds, index);
      assert Index() == index;
      ReadyIndexed();
      active := FillActiveChannels(|ReadyFds(pollfds)|);
      assert Index() == index;
      ActiveExact(active);
      forall fd | fd in channels
        ensures channels[fd] in active <==> reported[channels[fd].index] != NONE_EVENT
        ensures channels[fd].revents ==
                if channels[fd] in active then reported[channels[fd].index] else old(channels[fd].revents)
      {
        assert pollfds[channels[fd].index].revents == reported[channels[fd].index];
      }
    }

    /** The lookup of a ready slot finds the channel whose index is that slot. */
    lemma ReadyIndexed()
      requires Valid() && NoneReadyWhileSilenced(pollfds)
      ensures forall i :: 0 <= i < |pollfds| && pollfds[i].revents != NONE_EVENT ==>
                pollfds[i].fd in channels && channels[pollfds[i].fd].index == i
    {
    }

    /** The channels found are exactly those with something to report, each once, and each of them is monitored. */
    lemma ActiveExact(active: seq<Channel>)
      requires Valid() && NoneReadyWhileSilenced(pollfds)
      requires |active| == |ReadyFds(pollfds)|
      requires forall k :: 0 <= k < |active| ==> IsRegistered(active[k]) && active[k].fd == ReadyFds(pollfds)[k]
      ensures forall fd :: fd in channels ==>
                && 0 <= channels[fd].index < |pollfds|
                && Owner(pollfds[channels[fd].index]) == fd
                && (channels[fd] in active <==> fd in ReadyFds(pollfds))
                && (channels[fd] in active <==> pollfds[channels[fd].index].revents != NONE_EVENT)
      ensures forall k :: 0 <= k < |active| ==> active[k].fd in AsView().monitored
      ensures forall i, j :: 0 <= i < j < |active| ==> active[i] != active[j]
    {
      ReadyFdsExact(pollfds, Index(), |pollfds|);
      assert pollfds[..|pollfds|] == pollfds;
      forall fd | fd in channels
        ensures channels[fd] in active <==> fd in ReadyFds(pollfds)
      {
        assert Index()[fd] == channels[fd].index;
        if fd in ReadyFds(pollfds) {
          var k :| 0 <= k < |active| && ReadyFds(pollfds)[k] == fd;
          assert active[k] == channels[fd];
        }
      }
    }
  }
}
