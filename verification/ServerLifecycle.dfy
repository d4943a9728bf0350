/**
  A connection passes created, established, closed, removed from the map and destroyed, in that order and once each,
  over any interleaving of the loops and of calls from other threads, unless a late call revives it after its close;
  at most one life-cycle functor is ever on its way, and until the channel is unregistered the map or that functor
  keeps the connection alive. Revived connections never disturb the others.
 */
module ServerLifecycle {
  import opened Bytes
  import opened ServerModel
  import CloseCount

  // ----- What one operation does to a connection's life -----

  /** Nothing that the life of a connection goes by has changed. */
  predicate LivesOn(c: C.Conn, d: C.Conn) {
    && (d.phase.Disconnected? <==> c.phase.Disconnected?) && (d.phase.Connecting? <==> c.phase.Connecting?)
    && d.closes == c.closes && d.ended == c.ended && d.watched == c.watched && d.revived == c.revived
  }

  /** An open, watched connection that never was disconnected stays so or is closed, and is then not watched. */
  lemma OpenOp(cfg: C.Config, c: C.Conn, op: C.Op)
    requires C.Inv(c) && C.Legal(c, op) && (FromOutside(op) || op.RunFunctor?)
    requires (c.phase.Connected? || c.phase.Disconnecting?) && !c.ended && c.watched
    ensures var d := C.Step(cfg, c, op);
            || LivesOn(c, d)
            || (d.closes == c.closes + 1 && d.revived == 0 && d.phase.Disconnected? && d.ended && !d.watched)
  {
    hide C.SendInLoop, C.HandleWrite, C.RunHead, C.HandleClose, C.PassTest, C.SetPhase, C.QueueCall;
    match op
    case Send(data, wr) => SendLives(cfg, c, data, wr);
    case Writable(wr) => CloseCount.WritesLive(cfg, c, wr);
    case RunFunctor(wr) => OpenHead(cfg, c, wr);
    case _ => OpenOther(cfg, c, op);
  }

  lemma OpenOther(cfg: C.Config, c: C.Conn, op: C.Op)
    requires C.Inv(c) && C.Legal(c, op) && FromOutside(op) && !op.Send? && !op.Writable?
    requires (c.phase.Connected? || c.phase.Disconnecting?) && !c.ended && c.watched
    ensures var d := C.Step(cfg, c, op);
            || LivesOn(c, d)
            || (d.closes == c.closes + 1 && d.revived == 0 && d.phase.Disconnected? && d.ended && !d.watched)
  {
    hide C.SendInLoop, C.HandleWrite, C.RunHead;
  }

  lemma SendLives(cfg: C.Config, c: C.Conn, data: string, wr: C.WriteResult)
    requires C.WriteContract(c, data, wr) && !c.phase.Connecting? && (c.phase.Disconnected? || (c.reading && c.watched))
    ensures LivesOn(c, C.SendInLoop(cfg, c, data, wr))
  {
    CloseCount.SendsLive(cfg, c, data, wr);
    hide C.SendInLoop;
  }

  lemma OpenHead(cfg: C.Config, c: C.Conn, wr: C.WriteResult)
    requires C.Inv(c) && C.Legal(c, C.RunFunctor(wr))
    requires (c.phase.Connected? || c.phase.Disconnecting?) && !c.ended && c.watched
    ensures var d := C.RunHead(cfg, c, wr);
            || LivesOn(c, d)
            || (d.closes == c.closes + 1 && d.revived == 0 && d.phase.Disconnected? && d.ended && !d.watched)
  {
    if c.queue[0].SendFn? {
      SendLives(cfg, c.(queue := c.queue[1..]), c.queue[0].message, wr);
    }
    hide C.SendInLoop;
  }

  /** A connection that is closed and no longer watched stays so, unless it is revived. */
  lemma ClosedOp(cfg: C.Config, c: C.Conn, op: C.Op)
    requires C.Inv(c) && C.Legal(c, op) && (FromOutside(op) || op.RunFunctor?)
    requires c.phase.Disconnected? && !c.watched
    ensures var d := C.Step(cfg, c, op); LivesOn(c, d) || (d.closes == c.closes && c.revived < d.revived && d.ended)
  {
  }

  lemma NewbornOp(cfg: C.Config, c: C.Conn, op: C.Op)
    requires C.Inv(c) && C.Legal(c, op) && FromOutside(op) && c.phase.Connecting?
    ensures C.Step(cfg, c, op) == c
  {
  }

  /** What holds of every operation: it queues one functor at most, and none when it closes. */
  ghost predicate Evolves(c: C.Conn, d: C.Conn, waiting: int) {
    && waiting <= |d.queue| <= waiting + 1
    && c.closes <= d.closes <= c.closes + 1 && (c.closes < d.closes ==> |d.queue| == waiting && d.ended)
    && (c.ended ==> d.ended) && (d.ended ==> c.ended || c.closes < d.closes) && d.dropped == c.dropped
    && c.revived <= d.revived && (c.revived < d.revived ==> c.ended)
    && (d.phase.Connecting? <==> c.phase.Connecting?)
  }

  lemma AnyOp(cfg: C.Config, c: C.Conn, op: C.Op)
    requires C.Inv(c) && C.Legal(c, op) && (FromOutside(op) || op.RunFunctor?)
    ensures Evolves(c, C.Step(cfg, c, op), |c.queue| - if op.RunFunctor? then 1 else 0)
  {
    hide C.SendInLoop, C.HandleWrite, C.RunHead, Evolves;
    match op
    case Send(data, wr) =>
      if c.phase.Connected? {
        SendGrows(cfg, c, data, wr);
      } else {
        Unmoved(c);
      }
    case Writable(wr) => WriteGrows(cfg, c, wr);
    case RunFunctor(wr) => HeadGrows(cfg, c, wr);
    case _ => OtherGrows(cfg, c, op);
  }

  lemma Unmoved(c: C.Conn)
    ensures Evolves(c, c, |c.queue|)
  {
  }

  lemma OtherGrows(cfg: C.Config, c: C.Conn, op: C.Op)
    requires C.Inv(c) && C.Legal(c, op) && FromOutside(op) && !op.Send? && !op.Writable?
    ensures Evolves(c, C.Step(cfg, c, op), |c.queue|)
  {
  }

  lemma SendGrows(cfg: C.Config, c: C.Conn, data: string, wr: C.WriteResult)
    requires C.WriteContract(c, data, wr)
    ensures Evolves(c, C.SendInLoop(cfg, c, data, wr), |c.queue|)
  {
    C.SendQueues(cfg, c, data, wr);
    SendQueuesOne(cfg, c, data, wr);
    hide C.SendInLoop;
  }

  lemma SendQueuesOne(cfg: C.Config, c: C.Conn, data: string, wr: C.WriteResult)
    requires C.WriteContract(c, data, wr)
    ensures |c.queue| <= |C.SendInLoop(cfg, c, data, wr).queue| <= |c.queue| + 1
  {
  }

  lemma WriteGrows(cfg: C.Config, c: C.Conn, wr: C.WriteResult)
    requires C.WriteContract(c, c.backlog, wr)
    ensures Evolves(c, C.HandleWrite(cfg, c, wr), |c.queue|)
  {
  }

  lemma HeadGrows(cfg: C.Config, c: C.Conn, wr: C.WriteResult)
    requires C.Inv(c) && C.Legal(c, C.RunFunctor(wr))
    ensures Evolves(c, C.RunHead(cfg, c, wr), |c.queue| - 1)
  {
    if c.queue[0].SendFn? {
      SendGrows(cfg, c.(queue := c.queue[1..]), c.queue[0].message, wr);
    }
    hide C.SendInLoop;
  }

  // ----- The invariant -----

  /** The life-cycle functor a connection waits for, by how far it has come. */
  function Awaited(id: nat, c: Conn): Option<Task> {
    match |c.trail|
    case 1 => Some(Establish(id))
    case 3 => Some(Remove(id))
    case 4 => Some(Destroy(id))
    case _ => None
  }

  /** The loop a functor is queued in. */
  function Home(s: System, t: Task): nat
    requires !t.OtherTask? && t.id in s.conns
  {
    if t.Remove? then 0 else s.conns[t.id].loop
  }

  /** Functors whose number is known: not the removals and destructions of revived connections. */
  predicate IsTracked(s: System, t: Task) {
    t.Establish? || t.OfConn? ||
    ((t.Remove? || t.Destroy?) && (t.id in s.conns ==> s.conns[t.id].core.revived == 0))
  }

  /**
    How often a tracked functor stands in a queue: a life-cycle functor once at home while its connection waits for it,
    and the connection's own as often as its own queue is long.
   */
  function Expected(s: System, l: nat, t: Task): nat
    requires !t.OtherTask?
  {
    if t.id !in s.conns || l != Home(s, t) then 0
    else if t.OfConn? then |s.conns[t.id].core.queue|
    else if Awaited(t.id, s.conns[t.id]) == Some(t) then 1 else 0
  }

  function Held(s: System, held: Option<Task>, l: nat, t: Task): nat
    requires !t.OtherTask?
  {
    if held == Some(t) && t.id in s.conns && l == Home(s, t) then 1 else 0
  }

  /** The stages of a connection that never was revived. */
  ghost predicate LifeOk(c: Conn) {
    && |c.trail| <= 5 && c.trail == LIFE[..|c.trail|]
    && (c.core.phase.Disconnected? <==> 3 <= |c.trail|)
    && (c.core.watched <==> |c.trail| == 2)
    && (c.registered <==> 2 <= |c.trail| <= 4)
  }

  /** Every connection is where its model can be; its trail counts the closes. */
  ghost predicate ConnOk(site: Site, c: Conn) {
    && C.Reachable(site.config, c.core)
    && multiset(c.trail)[Closed] == c.core.closes && (c.core.ended <==> 0 < c.core.closes) && !c.core.dropped
    && 1 <= |c.trail| && (c.core.phase.Connecting? <==> |c.trail| == 1)
    && (0 < c.core.revived ==> 3 <= |c.trail|)
    && (c.core.revived == 0 ==> LifeOk(c))
  }

  /** The queues hold the expected functors, but for the one a loop has just taken out, or is about to put in. */
  ghost predicate QueuesOk(s: System, held: Option<Task>) {
    && (held.Some? ==> IsTracked(s, held.value) && held.value.id in s.conns)
    && (forall l, t :: 0 <= l < |s.queues| && IsTracked(s, t) ==>
          multiset(s.queues[l])[t] + Held(s, held, l, t) == Expected(s, l, t))
    && (forall l, i :: 0 <= l < |s.queues| && 0 <= i < |s.queues[l]| ==>
          s.queues[l][i].OtherTask? || s.queues[l][i].id in s.conns)
  }

  ghost predicate MapOk(site: Site, s: System) {
    && (forall id :: id in s.conns && s.conns[id].core.revived == 0 && |s.conns[id].trail| <= 3 ==>
          NameOf(site, id) in s.connections && s.connections[NameOf(site, id)] == id)
    && (forall name :: name in s.connections ==>
          && s.connections[name] in s.conns
          && NameOf(site, s.connections[name]) == name
          && (s.conns[s.connections[name]].core.revived == 0 ==> |s.conns[s.connections[name]].trail| <= 3))
  }

  ghost predicate Inv(site: Site, s: System, held: Option<Task>) {
    && |site.ipPort| <= MAX_IP_PORT
    && LoopsExist(s)
    && (forall id :: id in s.conns <==> 1 <= id < s.nextConnId)
    && 1 <= s.nextConnId <= INT_MAX + 1
    && (forall id :: id in s.conns ==> ConnOk(site, s.conns[id]))
    && QueuesOk(s, held)
    && MapOk(site, s)
  }

  // ----- One functor taken out or put in -----

  lemma TakeOutQueues(s: System, l: nat)
    requires QueuesOk(s, None) && l < |s.queues| && s.queues[l] != []
    ensures var t := s.queues[l][0];
            QueuesOk(Popped(s, l), if IsTracked(s, t) then Some(t) else None)
  {
    var t, rest := s.queues[l][0], Popped(s, l);
    var held := if IsTracked(s, t) then Some(t) else None;
    assert s.queues[l] == [t] + s.queues[l][1..];
    if held.Some? {
      assert multiset(s.queues[l])[t] == Expected(s, l, t);
      assert l == Home(s, t);
    }
    forall m, u | 0 <= m < |rest.queues| && IsTracked(rest, u)
      ensures multiset(rest.queues[m])[u] + Held(rest, held, m, u) == Expected(rest, m, u)
    {
      assert multiset(s.queues[m])[u] == Expected(s, m, u);
    }
    forall m, i | 0 <= m < |rest.queues| && 0 <= i < |rest.queues[m]|
      ensures rest.queues[m][i].OtherTask? || rest.queues[m][i].id in rest.conns
    {
      assert rest.queues[m][i] == s.queues[m][if m == l then i + 1 else i];
    }
  }

  lemma TakeOut(site: Site, s: System, l: nat)
    requires Inv(site, s, None) && l < |s.queues| && s.queues[l] != []
    ensures var t := s.queues[l][0];
            && Inv(site, Popped(s, l), if IsTracked(s, t) then Some(t) else None)
            && (t.OtherTask? || t.id in s.conns)
  {
    TakeOutQueues(s, l);
    QueuedExists(s, l, 0);
    SameMap(site, s, Popped(s, l));
    hide NameOf, ConnOk, QueuesOk, MapOk, IsTracked;
  }

  lemma QueuedExists(s: System, l: nat, i: nat)
    requires QueuesOk(s, None) && l < |s.queues| && i < |s.queues[l]|
    ensures s.queues[l][i].OtherTask? || s.queues[l][i].id in s.conns
  {
  }

  lemma PutInQueues(s: System, l: nat, t: Task)
    requires l < |s.queues| && (t.OtherTask? || t.id in s.conns)
    requires if IsTracked(s, t) then QueuesOk(s, Some(t)) && l == Home(s, t) else QueuesOk(s, None)
    ensures QueuesOk(Enqueue(s, l, t), None)
  {
    var held := if IsTracked(s, t) then Some(t) else None;
    var more := Enqueue(s, l, t);
    forall m, u | 0 <= m < |more.queues| && IsTracked(more, u)
      ensures multiset(more.queues[m])[u] == Expected(more, m, u)
    {
      assert multiset(s.queues[m])[u] + Held(s, held, m, u) == Expected(s, m, u);
    }
    forall m, i | 0 <= m < |more.queues| && 0 <= i < |more.queues[m]|
      ensures more.queues[m][i].OtherTask? || more.queues[m][i].id in more.conns
    {
      if m == l && i == |s.queues[l]| {
        assert more.queues[m][i] == t;
      } else {
        assert more.queues[m][i] == s.queues[m][i];
      }
    }
  }

  lemma SameMap(site: Site, s: System, n: System)
    requires MapOk(site, s) && n.connections == s.connections && n.conns == s.conns
    ensures MapOk(site, n)
  {
    hide NameOf;
  }

  lemma PutIn(site: Site, s: System, l: nat, t: Task)
    requires l < |s.queues| && (t.OtherTask? || t.id in s.conns)
    requires if IsTracked(s, t) then Inv(site, s, Some(t)) && l == Home(s, t) else Inv(site, s, None)
    ensures Inv(site, Enqueue(s, l, t), None)
  {
    var held := if IsTracked(s, t) then Some(t) else None;
    assert Inv(site, s, held);
    PutInQueues(s, l, t);
    SameMap(site, s, Enqueue(s, l, t));
    hide NameOf, ConnOk, QueuesOk, MapOk, IsTracked;
  }

  // ----- One connection moves on -----

  function Without(awaited: Option<Task>, held: Option<Task>): Option<Task> {
    if awaited == held then None else awaited
  }

  function WithoutOne(queue: seq<C.Functor>, held: Option<Task>): int {
    |queue| - if held.Some? && held.value.OfConn? then 1 else 0
  }

  /** A held functor is the connection's; if it is of its life cycle, the connection waits for it. */
  ghost predicate IsDue(held: Option<Task>, id: nat, c: Conn) {
    held.Some? ==> !held.value.OtherTask? && held.value.id == id && (held.value.OfConn? || Awaited(id, c) == held)
  }

  /** What the queues hold of the connection is right before and after, but for what is taken out and put in. */
  ghost predicate SameQueued(id: nat, c: Conn, was: Option<Task>, d: Conn, now: Option<Task>) {
    && IsDue(was, id, c) && IsDue(now, id, d)
    && WithoutOne(c.core.queue, was) == WithoutOne(d.core.queue, now)
    && (d.core.revived == 0 ==> c.core.revived == 0 && Without(Awaited(id, c), was) == Without(Awaited(id, d), now))
    && (0 < d.core.revived ==> 3 <= |c.trail| && 3 <= |d.trail| && (now.Some? ==> now.value.OfConn?))
  }

  lemma CountsMoveOn(s: System, was: Option<Task>, id: nat, d: Conn, now: Option<Task>, n: System, l: nat, t: Task)
    requires QueuesOk(s, was) && id in s.conns && l < |s.queues| && IsTracked(n, t)
    requires SameQueued(id, s.conns[id], was, d, now) && d.loop == s.conns[id].loop
    requires n.conns == s.conns[id := d] && n.queues == s.queues
    ensures multiset(n.queues[l])[t] + Held(n, now, l, t) == Expected(n, l, t)
  {
    assert IsTracked(s, t);
    assert multiset(s.queues[l])[t] + Held(s, was, l, t) == Expected(s, l, t);
  }

  lemma MoveOn(site: Site, s: System, was: Option<Task>, id: nat, d: Conn, now: Option<Task>, n: System)
    requires Inv(site, s, was) && id in s.conns
    requires SameQueued(id, s.conns[id], was, d, now) && d.loop == s.conns[id].loop && ConnOk(site, d)
    requires n.conns == s.conns[id := d] && n.queues == s.queues && n.nextConnId == s.nextConnId && MapOk(site, n)
    ensures Inv(site, n, now)
  {
    hide NameOf, MapOk, ConnOk;
    assert QueuesOk(n, now) by {
      forall l, t | 0 <= l < |n.queues| && IsTracked(n, t)
        ensures multiset(n.queues[l])[t] + Held(n, now, l, t) == Expected(n, l, t)
      {
        CountsMoveOn(s, was, id, d, now, n, l, t);
      }
      forall l, i | 0 <= l < |n.queues| && 0 <= i < |n.queues[l]|
        ensures n.queues[l][i].OtherTask? || n.queues[l][i].id in n.conns
      {
        assert s.queues[l][i].OtherTask? || s.queues[l][i].id in s.conns;
      }
    }
  }

  lemma InvParts(site: Site, s: System, held: Option<Task>, id: nat)
    requires Inv(site, s, held) && id in s.conns
    ensures LoopsExist(s) && ConnOk(site, s.conns[id]) && C.Inv(s.conns[id].core)
  {
    C.ReachableInv(site.config, s.conns[id].core);
  }

  /** A connection that stays on its side of the removal leaves the map right. */
  lemma MapMovesOn(site: Site, s: System, held: Option<Task>, id: nat, d: Conn)
    requires Inv(site, s, held) && id in s.conns
    requires d.core.revived == 0 ==> s.conns[id].core.revived == 0 && (|d.trail| <= 3 <==> |s.conns[id].trail| <= 3)
    ensures MapOk(site, Update(s, id, d))
  {
    hide NameOf, QueuesOk, ConnOk;
  }

  lemma HeldIsDue(site: Site, s: System, t: Task)
    requires Inv(site, s, Some(t))
    ensures IsDue(Some(t), t.id, s.conns[t.id])
    ensures t.OfConn? ==> s.conns[t.id].core.queue != []
  {
    assert multiset(s.queues[Home(s, t)])[t] + Held(s, Some(t), Home(s, t), t) == Expected(s, Home(s, t), t);
  }

  lemma AddsToMap(site: Site, s: System, l: nat)
    requires Inv(site, s, None) && s.nextConnId <= INT_MAX
    ensures MapOk(site, AddConnection(site, s, l))
  {
    hide ConnOk, QueuesOk, MapOk;
    forall other | other in s.conns
      ensures NameOf(site, other) != NameOf(site, s.nextConnId)
    {
      NamesDistinct(site, other, s.nextConnId);
    }
    hide NameOf;
    AddsOne(site, s, l);
  }

  lemma AddsOne(site: Site, s: System, l: nat)
    requires MapOk(site, s) && s.nextConnId !in s.conns
    requires forall other :: other in s.conns ==> NameOf(site, other) != NameOf(site, s.nextConnId)
    ensures MapOk(site, AddConnection(site, s, l))
  {
    hide NameOf;
  }

  lemma AddsToQueues(s: System, l: nat, n: System)
    requires QueuesOk(s, None) && s.nextConnId !in s.conns && l < |s.queues|
    requires n.queues == s.queues && n.conns == s.conns[s.nextConnId := Conn(l, C.INITIAL, false, [Created])]
    ensures QueuesOk(n, Some(Establish(s.nextConnId)))
  {
    var held := Some(Establish(s.nextConnId));
    forall m, t | 0 <= m < |n.queues| && IsTracked(n, t)
      ensures multiset(n.queues[m])[t] + Held(n, held, m, t) == Expected(n, m, t)
    {
      assert IsTracked(s, t);
      assert multiset(s.queues[m])[t] == Expected(s, m, t);
    }
    forall m, i | 0 <= m < |n.queues| && 0 <= i < |n.queues[m]|
      ensures n.queues[m][i].OtherTask? || n.queues[m][i].id in n.conns
    {
      assert s.queues[m][i].OtherTask? || s.queues[m][i].id in s.conns;
    }
  }

  lemma NewbornOk(site: Site, l: nat)
    ensures ConnOk(site, Conn(l, C.INITIAL, false, [Created]))
  {
    C.InitialReachable(site.config);
    assert LIFE[..1] == [Created];
  }

  lemma Adds(site: Site, s: System, l: nat)
    requires Inv(site, s, None) && l < |s.queues| && s.nextConnId <= INT_MAX
    ensures Inv(site, AddConnection(site, s, l), Some(Establish(s.nextConnId)))
  {
    AddsToMap(site, s, l);
    AddsToQueues(s, l, AddConnection(site, s, l));
    NewbornOk(site, l);
    hide NameOf, ConnOk, QueuesOk, MapOk;
  }

  lemma EstablishedOk(site: Site, c: Conn)
    requires ConnOk(site, c) && |c.trail| == 1
    ensures c.core == C.INITIAL
    ensures ConnOk(site, c.(core := C.ConnectEstablished(c.core), registered := true, trail := c.trail + [Established]))
  {
    C.ReachableInv(site.config, c.core);
    C.StepReaches(site.config, c.core, C.Established);
    assert LIFE[..1] + [Established] == LIFE[..2];
  }

  lemma Establishes(site: Site, s: System, id: nat)
    requires Inv(site, s, Some(Establish(id))) && id in s.conns
    ensures Inv(site, ConnectEstablished(s, id), None)
  {
    hide Inv, C.Inv, C.Reachable, QueuesOk, MapOk, NameOf;
    var c := s.conns[id];
    HeldIsDue(site, s, Establish(id));
    InvParts(site, s, Some(Establish(id)), id);
    EstablishedOk(site, c);
    var n := ConnectEstablished(s, id);
    var d := n.conns[id];
    assert SameQueued(id, c, Some(Establish(id)), d, None);
    hide ConnOk, SameQueued, IsDue;
    MapMovesOn(site, s, Some(Establish(id)), id, d);
    MoveOn(site, s, Some(Establish(id)), id, d, None, n);
  }

  /** Where a life goes with an operation: on, or to its close, or out of the order by a revival. */
  lemma MovedOk(site: Site, c: Conn, op: C.Op)
    requires ConnOk(site, c) && C.Legal(c.core, op) && (FromOutside(op) || op.RunFunctor?)
    ensures ConnOk(site, Moved(c, C.Step(site.config, c.core, op)))
  {
    hide C.Step;
    C.ReachableInv(site.config, c.core);
    C.StepReaches(site.config, c.core, op);
    AnyOp(site.config, c.core, op);
    if c.core.revived == 0 {
      LifeMoves(site, c, op);
    }
    CountsClose(c, C.Step(site.config, c.core, op));
    hide C.Reachable, C.Legal, C.Inv, LifeOk;
  }

  lemma CountsClose(c: Conn, d: C.Conn)
    requires multiset(c.trail)[Closed] == c.core.closes <= d.closes <= c.core.closes + 1
    ensures multiset(Moved(c, d).trail)[Closed] == d.closes && c.trail <= Moved(c, d).trail
  {
  }

  lemma LifeMoves(site: Site, c: Conn, op: C.Op)
    requires ConnOk(site, c) && C.Legal(c.core, op) && (FromOutside(op) || op.RunFunctor?) && c.core.revived == 0
    ensures var d := Moved(c, C.Step(site.config, c.core, op));
            && (d.core.revived == 0 ==> LifeOk(d))
            && (0 < d.core.revived ==> 3 <= |c.trail|)
            && (c.core.closes < d.core.closes ==> |c.trail| == 2)
  {
    C.ReachableInv(site.config, c.core);
    if |c.trail| == 1 {
      NewbornOp(site.config, c.core, op);
      assert c.trail + [] == c.trail;
    } else if |c.trail| == 2 {
      OpenOp(site.config, c.core, op);
      assert LIFE[..2] + [Closed] == LIFE[..3] && c.trail + [] == c.trail;
    } else {
      ClosedOp(site.config, c.core, op);
      assert c.trail + [] == c.trail;
    }
  }

  /** One operation on a connection, from outside or as the head of a queue that a loop has taken out. */
  lemma Becomes(site: Site, s: System, id: nat, op: C.Op)
    requires id in s.conns && C.Legal(s.conns[id].core, op) && (FromOutside(op) || op.RunFunctor?)
    requires Inv(site, s, if op.RunFunctor? then Some(OfConn(id)) else None)
    ensures var core := s.conns[id].core; var waiting := |core.queue| - if op.RunFunctor? then 1 else 0;
            0 <= waiting && Inv(site, Become(site, s, id, C.Step(site.config, core, op), waiting), None)
  {
    hide Inv, C.Inv, C.Step, C.Reachable, C.Legal, ConnOk, QueuesOk, MapOk, NameOf, SameQueued, IsDue;
    var was := if op.RunFunctor? then Some(OfConn(id)) else None;
    var c := s.conns[id];
    InvParts(site, s, was, id);
    MovedOk(site, c, op);
    var d := Moved(c, C.Step(site.config, c.core, op));
    var n := Update(s, id, d);
    var waiting := |c.core.queue| - if op.RunFunctor? then 1 else 0;
    var now := NowDue(id, c, d, waiting);
    MovesQueued(site, c, id, op);
    MapMovesOn(site, s, was, id, d);
    MoveOn(site, s, was, id, d, now, n);
    if d.core.closes <= c.core.closes {
      if waiting < |d.core.queue| {
        PutIn(site, n, c.loop, OfConn(id));
      }
    } else if c.loop == 0 {
      Removes(site, n, id);
    } else {
      PutIn(site, n, 0, Remove(id));
    }
  }

  /** What the connection has to be given to a queue after an operation. */
  function NowDue(id: nat, c: Conn, d: Conn, waiting: int): Option<Task> {
    if c.core.closes < d.core.closes && d.core.revived == 0 then Some(Remove(id))
    else if waiting < |d.core.queue| then Some(OfConn(id))
    else None
  }

  lemma MovesQueued(site: Site, c: Conn, id: nat, op: C.Op)
    requires ConnOk(site, c) && C.Legal(c.core, op) && (FromOutside(op) || op.RunFunctor?)
    ensures var was := if op.RunFunctor? then Some(OfConn(id)) else None;
            var d := Moved(c, C.Step(site.config, c.core, op));
            var waiting := |c.core.queue| - if op.RunFunctor? then 1 else 0;
            && SameQueued(id, c, was, d, NowDue(id, c, d, waiting))
            && (d.core.revived == 0 ==> c.core.revived == 0 && (|d.trail| <= 3 <==> |c.trail| <= 3))
            && 0 <= waiting && (c.core.closes < d.core.closes ==> |d.core.queue| <= waiting && 3 <= |d.trail|)
  {
    C.ReachableInv(site.config, c.core);
    AnyOp(site.config, c.core, op);
    if c.core.revived == 0 {
      LifeMoves(site, c, op);
    }
    var d := Moved(c, C.Step(site.config, c.core, op));
    RunsOwn(c.core, op);
    hide C.Step, C.Inv, C.Reachable, C.Legal, LifeOk;
    QueuedFrom(id, c, if op.RunFunctor? then Some(OfConn(id)) else None, d);
  }

  lemma RunsOwn(c: C.Conn, op: C.Op)
    requires C.Legal(c, op)
    ensures op.RunFunctor? ==> c.queue != []
  {
  }

  /** The counts alone make it so. */
  lemma QueuedFrom(id: nat, c: Conn, was: Option<Task>, d: Conn)
    requires was.None? || was == Some(OfConn(id))
    requires WithoutOne(c.core.queue, was) <= |d.core.queue| <= WithoutOne(c.core.queue, was) + 1
    requires c.core.closes < d.core.closes ==> |d.core.queue| == WithoutOne(c.core.queue, was)
    requires |d.trail| == |c.trail| + if c.core.closes < d.core.closes then 1 else 0
    requires d.core.revived == 0 ==> c.core.revived == 0 && (c.core.closes < d.core.closes ==> |c.trail| == 2)
    requires 0 < d.core.revived ==> 3 <= |c.trail|
    ensures SameQueued(id, c, was, d, NowDue(id, c, d, WithoutOne(c.core.queue, was)))
  {
  }

  lemma Removes(site: Site, s: System, id: nat)
    requires id in s.conns && 3 <= |s.conns[id].trail|
    requires Inv(site, s, if s.conns[id].core.revived == 0 then Some(Remove(id)) else None)
    ensures Inv(site, RemoveConnectionInLoop(site, s, id), None)
  {
    hide Inv, C.Inv, C.Reachable, QueuesOk, MapOk, NameOf;
    var c := s.conns[id];
    var was := if c.core.revived == 0 then Some(Remove(id)) else None;
    var now := if c.core.revived == 0 then Some(Destroy(id)) else None;
    InvParts(site, s, was, id);
    if was.Some? {
      HeldIsDue(site, s, Remove(id));
    }
    RemovedOk(site, c);
    Erases(site, s, was, id);
    var n := EraseConnection(site, s, id);
    var d := n.conns[id];
    assert SameQueued(id, c, was, d, now);
    hide ConnOk, SameQueued, IsDue;
    MoveOn(site, s, was, id, d, now, n);
    PutIn(site, n, c.loop, Destroy(id));
  }

  lemma RemovedOk(site: Site, c: Conn)
    requires ConnOk(site, c) && 3 <= |c.trail| && (c.core.revived == 0 ==> |c.trail| == 3)
    ensures ConnOk(site, c.(trail := c.trail + [Removed]))
  {
    hide C.Reachable;
    assert LIFE[..3] + [Removed] == LIFE[..4];
  }

  lemma Erases(site: Site, s: System, held: Option<Task>, id: nat)
    requires Inv(site, s, held) && id in s.conns && (s.conns[id].core.revived == 0 ==> |s.conns[id].trail| == 3)
    ensures MapOk(site, EraseConnection(site, s, id))
  {
    forall other | other in s.conns && other != id
      ensures NameOf(site, other) != NameOf(site, id)
    {
      NamesDistinct(site, other, id);
    }
    hide NameOf, QueuesOk, ConnOk, MapOk;
    ErasesOne(site, s, id);
  }

  lemma ErasesOne(site: Site, s: System, id: nat)
    requires MapOk(site, s) && id in s.conns && (s.conns[id].core.revived == 0 ==> |s.conns[id].trail| == 3)
    requires forall other :: other in s.conns && other != id ==> NameOf(site, other) != NameOf(site, id)
    ensures MapOk(site, EraseConnection(site, s, id))
  {
    hide NameOf;
    var n := EraseConnection(site, s, id);
    forall other | other in n.conns && n.conns[other].core.revived == 0 && |n.conns[other].trail| <= 3
      ensures NameOf(site, other) in n.connections && n.connections[NameOf(site, other)] == other
    {
      assert other != id && n.conns[other] == s.conns[other];
    }
  }

  lemma DestroyedOk(site: Site, c: Conn)
    requires ConnOk(site, c) && 3 <= |c.trail| && (c.core.revived == 0 ==> |c.trail| == 4)
    ensures ConnOk(site, c.(core := C.ConnectDestroyed(site.config, c.core), registered := false,
                            trail := c.trail + [Destroyed]))
  {
    C.ReachableInv(site.config, c.core);
    C.StepReaches(site.config, c.core, C.Destroyed);
    hide C.Reachable;
    assert LIFE[..4] + [Destroyed] == LIFE[..5];
  }

  lemma Destroys(site: Site, s: System, id: nat)
    requires id in s.conns && 3 <= |s.conns[id].trail|
    requires Inv(site, s, if s.conns[id].core.revived == 0 then Some(Destroy(id)) else None)
    ensures Inv(site, ConnectDestroyed(site, s, id), None)
  {
    hide Inv, C.Inv, C.Reachable, QueuesOk, MapOk, NameOf;
    var c := s.conns[id];
    var was := if c.core.revived == 0 then Some(Destroy(id)) else None;
    InvParts(site, s, was, id);
    if was.Some? {
      HeldIsDue(site, s, Destroy(id));
    }
    DestroyedOk(site, c);
    var n := ConnectDestroyed(site, s, id);
    var d := n.conns[id];
    assert SameQueued(id, c, was, d, None);
    hide ConnOk, SameQueued, IsDue;
    MapMovesOn(site, s, was, id, d);
    MoveOn(site, s, was, id, d, None, n);
  }

  lemma RunsTask(site: Site, s: System, l: nat, wr: C.WriteResult)
    requires Inv(site, s, None) && Enabled(s, RunTask(l, wr))
    ensures Inv(site, Apply(site, s, RunTask(l, wr)), None)
  {
    TakeOut(site, s, l);
    hide Inv, ConnOk, NameOf, ConnectEstablished, RemoveConnectionInLoop, ConnectDestroyed, Become;
    var t, rest := s.queues[l][0], Popped(s, l);
    match t
    case Establish(id) => Establishes(site, rest, id);
    case Remove(id) =>
      RemovalStage(site, rest, t);
      Removes(site, rest, id);
    case Destroy(id) =>
      RemovalStage(site, rest, t);
      Destroys(site, rest, id);
    case OfConn(id) => Becomes(site, rest, id, C.RunFunctor(wr));
    case OtherTask =>
  }

  /** A removal or a destruction only ever finds a connection that has been closed. */
  lemma RemovalStage(site: Site, s: System, t: Task)
    requires (t.Remove? || t.Destroy?) && t.id in s.conns && Inv(site, s, if IsTracked(s, t) then Some(t) else None)
    ensures 3 <= |s.conns[t.id].trail|
  {
    if IsTracked(s, t) {
      HeldIsDue(site, s, t);
    }
  }

  lemma StepKeepsInv(site: Site, s: System, step: Step)
    requires Inv(site, s, None) && Enabled(s, step)
    ensures Inv(site, Apply(site, s, step), None)
  {
    hide Inv, ConnOk, NameOf, AddConnection, ConnectEstablished, Become, Enqueue;
    match step
    case Accept(l) =>
      Adds(site, s, l);
      var added := AddConnection(site, s, l);
      NewIsNew(site, s, l);
      if l == 0 {
        Establishes(site, added, s.nextConnId);
      } else {
        PutIn(site, added, l, Establish(s.nextConnId));
      }
    case Act(id, op) => Becomes(site, s, id, op);
    case Post(l) => PutIn(site, s, l, OtherTask);
    case RunTask(l, wr) => RunsTask(site, s, l, wr);
  }

  lemma NewIsNew(site: Site, s: System, l: nat)
    ensures var n, t := AddConnection(site, s, l), Establish(s.nextConnId);
            t.id in n.conns && Home(n, t) == l && n.queues == s.queues
  {
  }

  // ----- Runs -----

  ghost predicate Run(site: Site, s: System, steps: seq<Step>, t: System)
    decreases |steps|
  {
    if steps == [] then s == t
    else LoopsExist(s) && Enabled(s, steps[0]) && Run(site, Apply(site, s, steps[0]), steps[1..], t)
  }

  ghost predicate Reachable(site: Site, s: System) {
    exists loops: nat, steps :: 0 < loops && Run(site, Start(loops), steps, s)
  }

  lemma {:induction false} RunAppend(site: Site, s: System, steps: seq<Step>, t: System, step: Step)
    requires Run(site, s, steps, t) && LoopsExist(t) && Enabled(t, step)
    ensures Run(site, s, steps + [step], Apply(site, t, step))
    decreases |steps|
  {
    hide Enabled, Apply;
    if steps == [] {
      assert Run(site, Apply(site, t, step), [], Apply(site, t, step));
      assert [step][1..] == [] && steps + [step] == [step];
    } else {
      assert (steps + [step])[1..] == steps[1..] + [step];
      RunAppend(site, Apply(site, s, steps[0]), steps[1..], t, step);
    }
  }

  lemma StartReachable(site: Site, loops: nat)
    requires 0 < loops
    ensures Reachable(site, Start(loops))
  {
    assert Run(site, Start(loops), [], Start(loops));
  }

  lemma StepReaches(site: Site, s: System, step: Step)
    requires Reachable(site, s) && LoopsExist(s) && Enabled(s, step)
    ensures Reachable(site, Apply(site, s, step))
  {
    var loops: nat, steps :| 0 < loops && Run(site, Start(loops), steps, s);
    RunAppend(site, Start(loops), steps, s, step);
  }

  lemma {:induction false} RunKeepsInv(site: Site, s: System, steps: seq<Step>, t: System)
    requires Inv(site, s, None) && Run(site, s, steps, t)
    ensures Inv(site, t, None)
    decreases |steps|
  {
    if steps != [] {
      StepKeepsInv(site, s, steps[0]);
      hide Inv;
      RunKeepsInv(site, Apply(site, s, steps[0]), steps[1..], t);
    }
  }

  lemma ReachableInv(site: Site, s: System)
    requires |site.ipPort| <= MAX_IP_PORT && Reachable(site, s)
    ensures Inv(site, s, None)
  {
    var loops: nat, steps :| 0 < loops && Run(site, Start(loops), steps, s);
    RunKeepsInv(site, Start(loops), steps, s);
  }

  // ----- What it means -----

  /** How often a life-cycle functor of `id` stands in any queue. */
  function InFlight(queues: seq<seq<Task>>, id: nat): nat {
    if queues == [] then 0
    else
      var q := multiset(queues[|queues| - 1]);
      InFlight(queues[..|queues| - 1], id) + q[Establish(id)] + q[Remove(id)] + q[Destroy(id)]
  }

  lemma {:induction false} InFlightCount(s: System, id: nat, n: nat)
    requires LoopsExist(s) && QueuesOk(s, None) && id in s.conns && s.conns[id].core.revived == 0 && n <= |s.queues|
    ensures InFlight(s.queues[..n], id) ==
            match Awaited(id, s.conns[id]) case None => 0 case Some(t) => if Home(s, t) < n then 1 else 0
  {
    if n != 0 {
      InFlightCount(s, id, n - 1);
      assert s.queues[..n][..n - 1] == s.queues[..n - 1];
      var q := multiset(s.queues[n - 1]);
      assert q[Establish(id)] == Expected(s, n - 1, Establish(id));
      assert q[Remove(id)] == Expected(s, n - 1, Remove(id));
      assert q[Destroy(id)] == Expected(s, n - 1, Destroy(id));
    }
  }

  lemma QueuedDestroy(s: System, id: nat)
    requires LoopsExist(s) && QueuesOk(s, None) && id in s.conns && s.conns[id].core.revived == 0
    requires |s.conns[id].trail| == 4
    ensures Destroy(id) in s.queues[s.conns[id].loop]
  {
    var l := s.conns[id].loop;
    assert multiset(s.queues[l])[Destroy(id)] == Expected(s, l, Destroy(id));
  }

  lemma MapSide(site: Site, s: System, id: nat)
    requires |site.ipPort| <= MAX_IP_PORT && Inv(site, s, None) && id in s.conns && s.conns[id].core.revived == 0
    ensures NameOf(site, id) in s.connections <==> |s.conns[id].trail| <= 3
  {
    hide QueuesOk, ConnOk;
    if NameOf(site, id) in s.connections {
      var other := s.connections[NameOf(site, id)];
      if other != id {
        NamesDistinct(site, id, other);
      }
    }
  }

  /**
    In every reachable state, with calls of other threads interrupted anywhere: a connection that no late call has
    revived after its close has gone through a first part of its life, in order; one functor is on its way for it
    exactly when it has just been created, closed or removed; it is in the map until it is removed; and while its
    channel is registered the map or its queued connectDestroyed keeps it alive.
   */
  lemma LifeCycle(site: Site, s: System, id: nat)
    requires |site.ipPort| <= MAX_IP_PORT && Reachable(site, s) && id in s.conns && s.conns[id].core.revived == 0
    ensures var c := s.conns[id];
            && 1 <= |c.trail| && c.trail <= LIFE && c.loop < |s.queues|
            && InFlight(s.queues, id) == (if |c.trail| in {1, 3, 4} then 1 else 0)
            && (NameOf(site, id) in s.connections <==> |c.trail| <= 3)
            && (c.registered <==> 2 <= |c.trail| <= 4)
            && (c.registered ==> NameOf(site, id) in s.connections || Destroy(id) in s.queues[c.loop])
  {
    ReachableInv(site, s);
    hide NameOf, C.Reachable, Reachable;
    InFlightCount(s, id, |s.queues|);
    assert s.queues[..|s.queues|] == s.queues;
    MapSide(site, s, id);
    if |s.conns[id].trail| == 4 {
      QueuedDestroy(s, id);
    }
  }

  /**
    Every connection of a server, revived or not, is where the connection model can be: what is proved of that holds of
    it. Its trail has one Closed for each close callback, and it was disconnected only by closes.
   */
  lemma ConnectionsAreModels(site: Site, s: System, id: nat)
    requires |site.ipPort| <= MAX_IP_PORT && Reachable(site, s) && id in s.conns
    ensures var c := s.conns[id];
            && C.Reachable(site.config, c.core)
            && multiset(c.trail)[Closed] == c.core.closes <= 1 + CloseCount.PerRevival(site.config) * c.core.revived
            && (c.core.ended <==> Closed in c.trail)
            && (c.core.phase.Connecting? <==> c.trail == [Created])
  {
    ReachableInv(site, s);
    hide NameOf, QueuesOk, MapOk, Reachable;
    CloseCount.ReachableCloses(site.config, s.conns[id].core);
  }

  /** No loop ever gets stuck: the functor at the head of a queue finds its connection as it needs it. */
  lemma NoTaskStuck(site: Site, s: System, l: nat)
    requires |site.ipPort| <= MAX_IP_PORT && Reachable(site, s) && l < |s.queues| && s.queues[l] != []
    ensures Enabled(s, RunTask(l, C.WriteFailed(C.BrokenPipe)))
  {
    ReachableInv(site, s);
    TakeOut(site, s, l);
    var t, rest := s.queues[l][0], Popped(s, l);
    hide NameOf, MapOk, Reachable;
    if !t.OtherTask? && IsTracked(s, t) {
      HeldIsDue(site, rest, t);
      InvParts(site, s, None, t.id);
    }
  }

  /** A new connection never takes the name of another, not even of one long gone. */
  lemma NamesNeverCollide(site: Site, s: System, a: nat, b: nat)
    requires |site.ipPort| <= MAX_IP_PORT && Reachable(site, s)
    requires a in s.conns && (b in s.conns || b == s.nextConnId <= INT_MAX) && a != b
    ensures NameOf(site, a) != NameOf(site, b)
  {
    ReachableInv(site, s);
    NamesDistinct(site, a, b);
  }

  ghost predicate Grows(c: Conn, d: Conn) {
    c.trail <= d.trail && c.loop == d.loop
  }

  lemma BecomeGrows(site: Site, s: System, id: nat, d: C.Conn, waiting: nat, other: nat)
    requires id in s.conns && LoopsExist(s) && other in s.conns
    ensures var n := Become(site, s, id, d, waiting); other in n.conns && Grows(s.conns[other], n.conns[other])
  {
    hide NameOf;
  }

  lemma StepGrows(site: Site, s: System, step: Step, other: nat)
    requires Inv(site, s, None) && Enabled(s, step) && other in s.conns
    ensures var n := Apply(site, s, step); other in n.conns && Grows(s.conns[other], n.conns[other])
  {
    hide Become, C.Step, NameOf, C.Reachable, QueuesOk, MapOk;
    match step
    case Act(id, op) =>
      var core := s.conns[id].core;
      BecomeGrows(site, s, id, C.Step(site.config, core, op), |core.queue|, other);
    case RunTask(l, wr) =>
      var t := s.queues[l][0];
      if t.OfConn? {
        var core := s.conns[t.id].core;
        var d := C.Step(site.config, core, C.RunFunctor(wr));
        BecomeGrows(site, Popped(s, l), t.id, d, |core.queue| - 1, other);
      }
    case _ =>
  }

  /** What a connection has gone through is never taken back, revived or not. */
  lemma {:induction false} LifeOnlyGrows(site: Site, s: System, steps: seq<Step>, t: System, id: nat)
    requires |site.ipPort| <= MAX_IP_PORT && Reachable(site, s) && Run(site, s, steps, t) && id in s.conns
    ensures id in t.conns && Grows(s.conns[id], t.conns[id])
    decreases |steps|
  {
    if steps != [] {
      ReachableInv(site, s);
      StepGrows(site, s, steps[0], id);
      StepReaches(site, s, steps[0]);
      hide Inv, Reachable;
      LifeOnlyGrows(site, Apply(site, s, steps[0]), steps[1..], t, id);
    }
  }

  lemma BecomeIsFifo(site: Site, s: System, id: nat, d: C.Conn, waiting: nat, l: nat)
    requires id in s.conns && LoopsExist(s) && l < |s.queues|
    ensures var n := Become(site, s, id, d, waiting); |n.queues| == |s.queues| && s.queues[l] <= n.queues[l]
  {
    hide NameOf;
  }

  /** The queues are first in, first out: a step adds behind, and only running takes out, the oldest. */
  lemma QueuesAreFifo(site: Site, s: System, step: Step, l: nat)
    requires Inv(site, s, None) && Enabled(s, step) && l < |s.queues|
    ensures var n := Apply(site, s, step);
            && |n.queues| == |s.queues|
            && (if step.RunTask? && step.loop == l then s.queues[l][1..] else s.queues[l]) <= n.queues[l]
  {
    hide Become, C.Step, NameOf, C.Reachable, QueuesOk, MapOk, ConnOk;
    match step
    case Act(id, op) =>
      var core := s.conns[id].core;
      InvParts(site, s, None, id);
      BecomeIsFifo(site, s, id, C.Step(site.config, core, op), |core.queue|, l);
    case RunTask(loop, wr) =>
      var t := s.queues[loop][0];
      if t.OfConn? {
        var core := s.conns[t.id].core;
        RunsOwn(core, C.RunFunctor(wr));
        BecomeIsFifo(site, Popped(s, loop), t.id, C.Step(site.config, core, C.RunFunctor(wr)), |core.queue| - 1, l);
      } else if !t.OtherTask? {
        InvParts(site, s, None, t.id);
      }
    case _ =>
  }

  lemma NothingDue(s: System, id: nat)
    requires LoopsExist(s) && QueuesOk(s, None) && id in s.conns && s.conns[id].core.revived == 0
    requires forall l :: 0 <= l < |s.queues| ==> s.queues[l] == []
    ensures Awaited(id, s.conns[id]).None? && s.conns[id].core.queue == []
  {
    var l := s.conns[id].loop;
    assert multiset(s.queues[l])[Establish(id)] == Expected(s, l, Establish(id));
    assert multiset(s.queues[l])[Destroy(id)] == Expected(s, l, Destroy(id));
    assert multiset(s.queues[l])[OfConn(id)] == Expected(s, l, OfConn(id));
    assert multiset(s.queues[0])[Remove(id)] == Expected(s, 0, Remove(id));
  }

  /**
    When all queues are empty nothing hangs in between: each connection is established and in the map, or destroyed
    and gone.
   */
  lemma QuiescentState(site: Site, s: System, id: nat)
    requires |site.ipPort| <= MAX_IP_PORT && Reachable(site, s) && id in s.conns && s.conns[id].core.revived == 0
    requires forall l :: 0 <= l < |s.queues| ==> s.queues[l] == []
    ensures var c := s.conns[id];
            && c.core.queue == []
            && if NameOf(site, id) in s.connections then
                 c.trail == [Created, Established] && c.registered && c.core.watched
               else c.trail == LIFE && !c.registered && !c.core.watched
  {
    ReachableInv(site, s);
    hide NameOf, C.Reachable, Reachable;
    NothingDue(s, id);
    MapSide(site, s, id);
  }

  // ----- A run in which a late call breaks the order -----

  lemma Then(site: Site, steps: seq<Step>, s: System, step: Step) returns (more: seq<Step>, t: System)
    requires Run(site, Start(1), steps, s) && LoopsExist(s) && Enabled(s, step)
    ensures more == steps + [step] && t == Apply(site, s, step) && Run(site, Start(1), more, t)
  {
    hide Apply, Enabled;
    more, t := steps + [step], Apply(site, s, step);
    RunAppend(site, Start(1), steps, s, step);
  }

  lemma AcceptedOne(site: Site) returns (steps: seq<Step>, s: System)
    ensures Run(site, Start(1), steps, s) && |s.queues| == 1 && s.queues[0] == [] && s.conns.Keys == {1}
    ensures s.conns[1] == Conn(0, C.ConnectEstablished(C.INITIAL), true, [Created, Established])
  {
    hide Run, NameOf;
    assert Run(site, Start(1), [], Start(1)) by {
      NoSteps(site, Start(1));
    }
    steps, s := Then(site, [], Start(1), Accept(0));
    assert [Created] + [Established] == [Created, Established];
  }

  lemma NoSteps(site: Site, s: System)
    ensures Run(site, s, [], s)
  {
  }

  /** One connection, in the only loop: what its queue, its trail and its phase are. */
  ghost predicate Alone(s: System, queue: seq<Task>, own: seq<C.Functor>, trail: seq<Event>, phase: C.Phase) {
    && |s.queues| == 1 && s.queues[0] == queue && s.conns.Keys == {1}
    && s.conns[1].loop == 0 && s.conns[1].trail == trail
    && s.conns[1].core.phase == phase && s.conns[1].core.queue == own
  }

  lemma HangsUp(site: Site, before: seq<Step>, b: System) returns (steps: seq<Step>, s: System)
    requires Run(site, Start(1), before, b) && Alone(b, [], [], [Created, Established], C.Connected)
    requires b.conns[1].core.watched
    ensures Run(site, Start(1), steps, s)
    ensures Alone(s, [Destroy(1)], [], [Created, Established, Closed, Removed], C.Disconnected)
    ensures var b, c := b.conns[1].core, s.conns[1].core; c.revived == b.revived && c.setting == b.setting
  {
    hide Run, NameOf;
    steps, s := Then(site, before, b, Act(1, C.HungUp));
    assert [Created, Established] + [Closed] + [Removed] == [Created, Established, Closed, Removed];
  }

  lemma LateCall(site: Site, before: seq<Step>, b: System, trail: seq<Event>) returns (steps: seq<Step>, s: System)
    requires Run(site, Start(1), before, b) && Alone(b, [Destroy(1)], [], trail, C.Disconnected)
    requires C.ForceCloseFn in b.conns[1].core.setting
    ensures Run(site, Start(1), steps, s)
    ensures Alone(s, [Destroy(1), OfConn(1)], [C.ForceCloseFn], trail, C.Disconnecting)
    ensures s.conns[1].core.revived == b.conns[1].core.revived + 1
  {
    hide Run, NameOf;
    steps, s := Then(site, before, b, Act(1, C.CrossSet(C.ForceCloseFn)));
    assert trail + [] == trail;
    assert Alone(s, [Destroy(1)], [], trail, C.Disconnecting);
    steps, s := Then(site, steps, s, Act(1, C.CrossQueue(C.ForceCloseFn)));
  }

  lemma DestroysFirst(site: Site, before: seq<Step>, b: System, trail: seq<Event>)
    returns (steps: seq<Step>, s: System)
    requires Run(site, Start(1), before, b)
    requires Alone(b, [Destroy(1), OfConn(1)], [C.ForceCloseFn], trail, C.Disconnecting)
    ensures Run(site, Start(1), steps, s)
    ensures Alone(s, [OfConn(1)], [C.ForceCloseFn], trail + [Destroyed], C.Disconnecting)
    ensures s.conns[1].core.revived == b.conns[1].core.revived
  {
    hide Run, NameOf;
    steps, s := Then(site, before, b, RunTask(0, C.WriteFailed(C.BrokenPipe)));
  }

  lemma ClosesAgain(site: Site, before: seq<Step>, b: System, trail: seq<Event>) returns (steps: seq<Step>, s: System)
    requires Run(site, Start(1), before, b) && Alone(b, [OfConn(1)], [C.ForceCloseFn], trail, C.Disconnecting)
    ensures Run(site, Start(1), steps, s)
    ensures Alone(s, [Destroy(1)], [], trail + [Closed, Removed], C.Disconnected)
    ensures s.conns[1].core.revived == b.conns[1].core.revived
  {
    hide Run, NameOf;
    steps, s := Then(site, before, b, RunTask(0, C.WriteFailed(C.BrokenPipe)));
    assert trail + [Closed] + [Removed] == trail + [Closed, Removed];
  }

  /**
    A forceClose() that tests the phase before a hang-up and sets it after: the connection is closed and removed
    twice.
   */
  lemma LateCallRemovesTwice(site: Site)
    ensures exists steps, s ::
              && Run(site, Start(1), steps, s) && 1 in s.conns && s.conns[1].core.revived == 1
              && s.conns[1].trail == [Created, Established, Closed, Removed, Destroyed, Closed, Removed]
  {
    hide Run, NameOf;
    var steps, s := AcceptedOne(site);
    steps, s := Then(site, steps, s, Act(1, C.CrossTest(C.ForceCloseFn)));
    assert [Created, Established] + [] == [Created, Established];
    steps, s := HangsUp(site, steps, s);
    var trail := [Created, Established, Closed, Removed];
    hide Apply, Enabled, Alone;
    steps, s := LateCall(site, steps, s, trail);
    steps, s := DestroysFirst(site, steps, s, trail);
    steps, s := ClosesAgain(site, steps, s, trail + [Destroyed]);
    assert Alone(s, [Destroy(1)], [], trail + [Destroyed] + [Closed, Removed], C.Disconnected);
    AloneIs(s, [Destroy(1)], [], trail + [Destroyed] + [Closed, Removed], C.Disconnected);
  }

  lemma AloneIs(s: System, queue: seq<Task>, own: seq<C.Functor>, trail: seq<Event>, phase: C.Phase)
    requires Alone(s, queue, own, trail, phase)
    ensures 1 in s.conns && s.conns[1].trail == trail
  {
  }
}
