/**
  The connections of one TcpServer (src/net/TcpServer.cc): the server and its map live in the base loop, each
  connection in the loop it was given, and the loops talk only through their functor queues. Each connection is one of
  the connection model, and goes through that model's operations; here is what they mean for the server.
 */
module ServerModel {
  import opened Decimals
  import C = ConnectionModel

  /**
    Functors in a loop's queue, each with a reference to its connection: the server's three, those the connection queues
    itself (it runs them in the order of its own queue), and any other.
   */
  datatype Task = Establish(id: nat) | Remove(id: nat) | Destroy(id: nat) | OfConn(id: nat) | OtherTask

  datatype Event = Created | Established | Closed | Removed | Destroyed

  datatype Conn = Conn(
    loop: nat,
    core: C.Conn,
    registered: bool,    // the channel is known to its poller
    trail: seq<Event>)   // history

  /** `queues[0]` belongs to the base loop. */
  datatype System = System(
    nextConnId: nat, connections: map<string, nat>, conns: map<nat, Conn>, queues: seq<seq<Task>>)

  datatype Site = Site(name: string, ipPort: string, config: C.Config)

  datatype Step =
    | Accept(loop: nat)                           // a new connection, given to that loop
    | Act(id: nat, op: C.Op)                      // an event, a call, or one step of a call, on a connection
    | Post(loop: nat)                             // any other functor is queued
    | RunTask(loop: nat, wr: C.WriteResult)       // a loop runs the oldest functor of its queue

  const INT_MAX: nat := 0x7FFF_FFFF
  const NAME_BUFFER: nat := 64

  /** "255.255.255.255:65535" is the longest text of an IPv4 address and port. */
  const MAX_IP_PORT: nat := 21

  const LIFE: seq<Event> := [Created, Established, Closed, Removed, Destroyed]

  /** The name printed for an id: snprintf keeps what fits in its 64-byte buffer. */
  function NameOf(site: Site, id: nat): string {
    var printed := "-" + site.ipPort + "#" + Text(id);
    site.name + if |printed| < NAME_BUFFER then printed else printed[..NAME_BUFFER - 1]
  }

  function Start(loops: nat): System {
    System(1, map[], map[], seq(loops, _ => []))
  }

  /** Operations that come from outside the queues. */
  predicate FromOutside(op: C.Op) {
    !op.Established? && !op.Destroyed? && !op.RunFunctor?
  }

  predicate Enabled(s: System, step: Step) {
    match step
    case Accept(l) => s.nextConnId <= INT_MAX && l < |s.queues| && (l == 0 <==> |s.queues| == 1)
    case Act(id, op) => id in s.conns && FromOutside(op) && C.Legal(s.conns[id].core, op)
    case Post(l) => l < |s.queues|
    case RunTask(l, wr) => l < |s.queues| && s.queues[l] != [] && TaskReady(s, s.queues[l][0], wr)
  }

  predicate TaskReady(s: System, t: Task, wr: C.WriteResult) {
    match t
    case Establish(id) => id in s.conns && C.Legal(s.conns[id].core, C.Established)
    case OfConn(id) => id in s.conns && C.Legal(s.conns[id].core, C.RunFunctor(wr))
    case OtherTask => true
    case _ => t.id in s.conns
  }

  predicate LoopsExist(s: System) {
    0 < |s.queues| && forall id :: id in s.conns ==> s.conns[id].loop < |s.queues|
  }

  function Enqueue(s: System, l: nat, t: Task): System
    requires l < |s.queues|
  {
    s.(queues := s.queues[l := s.queues[l] + [t]])
  }

  function Update(s: System, id: nat, c: Conn): System {
    s.(conns := s.conns[id := c])
  }

  function ConnectEstablished(s: System, id: nat): System
    requires id in s.conns
  {
    var c := s.conns[id];
    Update(s, id, c.(core := C.ConnectEstablished(c.core), registered := true, trail := c.trail + [Established]))
  }

  function AddConnection(site: Site, s: System, l: nat): System {
    var id := s.nextConnId;
    s.(nextConnId := id + 1,
       connections := s.connections[NameOf(site, id) := id],
       conns := s.conns[id := Conn(l, C.INITIAL, false, [Created])])
  }

  /** newConnection, in the base loop: connectEstablished runs at once only if the connection lives there too. */
  function NewConnection(site: Site, s: System, l: nat): System
    requires l < |s.queues|
  {
    var added := AddConnection(site, s, l);
    if l == 0 then ConnectEstablished(added, s.nextConnId) else Enqueue(added, l, Establish(s.nextConnId))
  }

  function EraseConnection(site: Site, s: System, id: nat): System
    requires id in s.conns
  {
    var c := s.conns[id];
    Update(s, id, c.(trail := c.trail + [Removed])).(connections := s.connections - {NameOf(site, id)})
  }

  function RemoveConnectionInLoop(site: Site, s: System, id: nat): System
    requires id in s.conns && s.conns[id].loop < |s.queues|
  {
    Enqueue(EraseConnection(site, s, id), s.conns[id].loop, Destroy(id))
  }

  /** What a connection's operation changes in its own record; a close leaves its mark. */
  function Moved(c: Conn, d: C.Conn): Conn {
    c.(core := d, trail := c.trail + if c.core.closes < d.closes then [Closed] else [])
  }

  /**
    An operation took the connection to `d`: a functor it queued joins its loop's queue, and its close callback reaches
    the base loop. `waiting` is how many of its functors were queued, without the one that is running.
   */
  function Become(site: Site, s: System, id: nat, d: C.Conn, waiting: nat): System
    requires id in s.conns && LoopsExist(s)
  {
    var c := s.conns[id];
    var moved := Update(s, id, Moved(c, d));
    var queued := if waiting < |d.queue| then Enqueue(moved, c.loop, OfConn(id)) else moved;
    if d.closes <= c.core.closes then queued
    else if c.loop == 0 then RemoveConnectionInLoop(site, queued, id)
    else Enqueue(queued, 0, Remove(id))
  }

  function ConnectDestroyed(site: Site, s: System, id: nat): System
    requires id in s.conns
  {
    var c := s.conns[id];
    Update(s, id, c.(core := C.ConnectDestroyed(site.config, c.core), registered := false,
                     trail := c.trail + [Destroyed]))
  }

  function RunTaskOf(site: Site, s: System, t: Task, wr: C.WriteResult): System
    requires LoopsExist(s) && TaskReady(s, t, wr)
  {
    match t
    case Establish(id) => ConnectEstablished(s, id)
    case Remove(id) => RemoveConnectionInLoop(site, s, id)
    case Destroy(id) => ConnectDestroyed(site, s, id)
    case OfConn(id) =>
      var core := s.conns[id].core;
      Become(site, s, id, C.Step(site.config, core, C.RunFunctor(wr)), |core.queue| - 1)
    case OtherTask => s
  }

  function Popped(s: System, l: nat): System
    requires l < |s.queues| && s.queues[l] != []
  {
    s.(queues := s.queues[l := s.queues[l][1..]])
  }

  function Apply(site: Site, s: System, step: Step): System
    requires LoopsExist(s) && Enabled(s, step)
  {
    match step
    case Accept(l) => NewConnection(site, s, l)
    case Act(id, op) =>
      var core := s.conns[id].core;
      Become(site, s, id, C.Step(site.config, core, op), |core.queue|)
    case Post(l) => Enqueue(s, l, OtherTask)
    case RunTask(l, wr) => RunTaskOf(site, Popped(s, l), s.queues[l][0], wr)
  }

  // ----- Names -----

  /** The name is the server's, then '-' with its address and port, then '#' with the id, which reads back. */
  lemma NameReads(site: Site, id: nat)
    requires |site.ipPort| <= MAX_IP_PORT && id <= INT_MAX
    ensures var n, prefix := NameOf(site, id), site.name + "-" + site.ipPort + "#";
            prefix <= n && Read(n[|prefix|..]) == id
  {
    var n, prefix := NameOf(site, id), site.name + "-" + site.ipPort + "#";
    assert Pow10(10) == 10000000000;
    DigitsLength(id, 10);
    TextReadsBack(id);
    assert n == prefix + Text(id);
  }

  lemma NamesDistinct(site: Site, a: nat, b: nat)
    requires |site.ipPort| <= MAX_IP_PORT && a <= INT_MAX && b <= INT_MAX && a != b
    ensures NameOf(site, a) != NameOf(site, b)
  {
    var prefix := "-" + site.ipPort + "#";
    assert Pow10(10) == 10000000000;
    DigitsLength(a, 10);
    DigitsLength(b, 10);
    var x, y := prefix + Text(a), prefix + Text(b);
    if NameOf(site, a) == NameOf(site, b) {
      assert x == NameOf(site, a)[|site.name|..] && y == NameOf(site, b)[|site.name|..];
      assert Text(a) == x[|prefix|..] && Text(b) == y[|prefix|..];
      TextInjective(a, b);
    }
  }
}
