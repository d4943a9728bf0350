/**
  The server object, its connection objects, and the functors the loops run for it; each functor holds its connection.
 */
module TcpServers {
  import opened ServerModel
  import ServerLifecycle

  /** A connection as its server sees it; TcpConnections has the object that makes the steps of `core`. */
  class Connection {
    const id: nat
    const loop: nat
    var core: C.Conn
    var registered: bool
    ghost var trail: seq<Event>

    ghost function AsConn(): Conn
      reads this
    {
      Conn(loop, core, registered, trail)
    }

    constructor (id: nat, loop: nat)
      ensures this.id == id && AsConn() == Conn(loop, C.INITIAL, false, [Created])
    {
      this.id, this.loop := id, loop;
      core, registered, trail := C.INITIAL, false, [Created];
    }
  }

  datatype Functor =
    | EstablishOf(conn: Connection) | RemoveOf(conn: Connection) | DestroyOf(conn: Connection)
    | FunctorOf(conn: Connection) | Other

  function TaskOf(f: Functor): Task {
    match f
    case EstablishOf(conn) => Establish(conn.id)
    case RemoveOf(conn) => Remove(conn.id)
    case DestroyOf(conn) => Destroy(conn.id)
    case FunctorOf(conn) => OfConn(conn.id)
    case Other => OtherTask
  }

  function TasksOf(queue: seq<Functor>): (ts: seq<Task>)
    ensures |ts| == |queue| && forall i :: 0 <= i < |queue| ==> ts[i] == TaskOf(queue[i])
  {
    if queue == [] then [] else TasksOf(queue[..|queue| - 1]) + [TaskOf(queue[|queue| - 1])]
  }

  function AllTasks(queues: seq<seq<Functor>>): (ts: seq<seq<Task>>)
    ensures |ts| == |queues| && forall l :: 0 <= l < |queues| ==> ts[l] == TasksOf(queues[l])
  {
    seq(|queues|, l requires 0 <= l < |queues| => TasksOf(queues[l]))
  }

  lemma PushedTask(queues: seq<seq<Functor>>, l: nat, f: Functor)
    requires l < |queues|
    ensures AllTasks(queues[l := queues[l] + [f]]) == AllTasks(queues)[l := AllTasks(queues)[l] + [TaskOf(f)]]
  {
    assert (queues[l] + [f])[..|queues[l]|] == queues[l];
  }

  lemma PoppedTask(queues: seq<seq<Functor>>, l: nat)
    requires l < |queues| && queues[l] != []
    ensures AllTasks(queues[l := queues[l][1..]]) == AllTasks(queues)[l := AllTasks(queues)[l][1..]]
    ensures AllTasks(queues)[l] != [] && AllTasks(queues)[l][0] == TaskOf(queues[l][0])
  {
    assert TasksOf(queues[l][1..]) == TasksOf(queues[l])[1..];
  }

  class TcpServer {
    const site: Site
    var nextConnId: nat
    var connections: map<string, Connection>
    var queues: seq<seq<Functor>>         // pending functors: of the base loop first, then of the pool's loops
    var next: nat                         // the pool's turn
    ghost var made: map<nat, Connection>  // every connection object ever made, by id

    ghost predicate IsMade(conn: Connection)
      reads this`made
    {
      conn.id in made && made[conn.id] == conn
    }

    /** The objects are in order, also in the middle of a step. */
    ghost predicate Formed()
      reads this
    {
      && 0 < |queues| && (next == 0 || next < |queues| - 1)
      && (forall id :: id in made ==> made[id].id == id && id < nextConnId && made[id].loop < |queues|)
      && (forall name :: name in connections ==> IsMade(connections[name]))
      && (forall l, i :: 0 <= l < |queues| && 0 <= i < |queues[l]| && !queues[l][i].Other? ==>
            IsMade(queues[l][i].conn))
    }

    ghost function Names(): map<string, nat>
      reads this`connections
    {
      map name | name in connections :: connections[name].id
    }

    ghost function Conns(): map<nat, Conn>
      reads this`made, made.Values
    {
      map id | id in made :: made[id].AsConn()
    }

    ghost function AsSystem(): System
      reads this, made.Values
    {
      System(nextConnId, Names(), Conns(), AllTasks(queues))
    }

    /** The server has come where it is by steps of the model. */
    ghost predicate Valid()
      reads this, made.Values
    {
      Formed() && ServerLifecycle.Reachable(site, AsSystem())
    }

    constructor (site: Site, threads: nat)
      ensures Valid() && this.site == site && AsSystem() == Start(threads + 1)
    {
      this.site := site;
      nextConnId, connections, made, next := 1, map[], map[], 0;
      queues := seq(threads + 1, _ => []);
      new;
      assert AsSystem() == Start(threads + 1);
      ServerLifecycle.StartReachable(site, threads + 1);
      hide ServerLifecycle.Reachable;
    }

    /** The pool's loops in turn, or the base loop when there are none. */
    method GetNextLoop() returns (l: nat)
      requires Formed()
      modifies this`next
      ensures Formed() && l < |queues| && (l == 0 <==> |queues| == 1)
      ensures 1 < |queues| ==> l == old(next) + 1 && next == if l + 1 < |queues| then l else 0
    {
      l := 0;
      if 1 < |queues| {
        l := next + 1;
        next := next + 1;
        if |queues| - 1 <= next {
          next := 0;
        }
      }
    }

    method QueueInLoop(l: nat, f: Functor)
      requires Formed() && l < |queues| && (!f.Other? ==> IsMade(f.conn))
      modifies this`queues
      ensures Formed() && AsSystem() == Enqueue(old(AsSystem()), l, TaskOf(f))
    {
      PushedTask(queues, l, f);
      queues := queues[l := queues[l] + [f]];
    }

    /** Writes the fields of one connection object, which is no other. */
    method Write(conn: Connection, core: C.Conn, registered: bool, ghost trail: seq<Event>)
      requires Formed() && IsMade(conn)
      modifies conn
      ensures Formed() && conn.AsConn() == Conn(conn.loop, core, registered, trail)
      ensures AsSystem() == Update(old(AsSystem()), conn.id, conn.AsConn())
    {
      hide AllTasks;
      conn.core, conn.registered, conn.trail := core, registered, trail;
      assert forall id :: id in made && id != conn.id ==> made[id].id != conn.id;
      assert Conns() == old(Conns())[conn.id := conn.AsConn()];
    }

    method NewConnection() returns (l: nat)
      requires Valid() && nextConnId <= INT_MAX
      modifies this
      ensures Valid() && Enabled(old(AsSystem()), Accept(l))
      ensures AsSystem() == Apply(site, old(AsSystem()), Accept(l))
    {
      hide NameOf, ServerModel.AddConnection, ServerModel.ConnectEstablished, Enqueue, ServerLifecycle.Reachable;
      l := GetNextLoop();
      SystemFormed();
      ServerLifecycle.StepReaches(site, AsSystem(), Accept(l));
      var conn := AddConnection(l);
      if l == 0 {
        ConnectEstablished(conn);
      } else {
        QueueInLoop(l, EstablishOf(conn));
      }
    }

    lemma SystemFormed()
      requires Formed()
      ensures LoopsExist(AsSystem()) && |AsSystem().queues| == |queues|
    {
    }

    method AddConnection(l: nat) returns (conn: Connection)
      requires Formed() && l < |queues|
      modifies this`nextConnId, this`connections, this`made
      ensures Formed() && IsMade(conn) && fresh(conn) && conn.id == old(nextConnId)
      ensures AsSystem() == ServerModel.AddConnection(site, old(AsSystem()), l)
    {
      hide NameOf;
      conn := MakeConnection(l);
      Enter(NameOf(site, conn.id), conn);
    }

    method MakeConnection(l: nat) returns (conn: Connection)
      requires Formed() && l < |queues|
      modifies this`nextConnId, this`made
      ensures Formed() && IsMade(conn) && fresh(conn) && conn.id == old(nextConnId)
      ensures nextConnId == old(nextConnId) + 1
      ensures Conns() == old(Conns())[conn.id := Conn(l, C.INITIAL, false, [Created])]
    {
      ghost var conns := Conns();
      assert nextConnId !in made;
      conn := new Connection(nextConnId, l);
      made := made[nextConnId := conn];
      nextConnId := nextConnId + 1;
      assert Conns() == conns[conn.id := conn.AsConn()];
    }

    method Enter(name: string, conn: Connection)
      requires Formed() && IsMade(conn)
      modifies this`connections
      ensures Formed() && Names() == old(Names())[name := conn.id]
    {
      connections := connections[name := conn];
    }

    method ConnectEstablished(conn: Connection)
      requires Formed() && IsMade(conn)
      modifies conn
      ensures Formed() && AsSystem() == ServerModel.ConnectEstablished(old(AsSystem()), conn.id)
    {
      Write(conn, C.ConnectEstablished(conn.core), true, conn.trail + [Established]);
    }

    method RemoveConnectionInLoop(conn: Connection)
      requires Formed() && IsMade(conn)
      modifies this`connections, this`queues, conn
      ensures Formed() && AsSystem() == ServerModel.RemoveConnectionInLoop(site, old(AsSystem()), conn.id)
    {
      hide NameOf, EraseConnection;
      EraseAndMark(conn);
      QueueInLoop(conn.loop, DestroyOf(conn));
    }

    method EraseAndMark(conn: Connection)
      requires Formed() && IsMade(conn)
      modifies this`connections, conn
      ensures Formed() && AsSystem() == EraseConnection(site, old(AsSystem()), conn.id)
    {
      hide NameOf;
      Write(conn, conn.core, conn.registered, conn.trail + [Removed]);
      Erase(NameOf(site, conn.id));
    }

    method Erase(name: string)
      requires Formed()
      modifies this`connections
      ensures Formed() && AsSystem() == old(AsSystem()).(connections := old(Names()) - {name})
    {
      connections := connections - {name};
    }

    /**
      The connection has become `d`: its functor joins its loop's queue, and its close callback reaches the base loop.
     */
    method Become(conn: Connection, d: C.Conn, waiting: nat)
      requires Formed() && IsMade(conn)
      modifies this`connections, this`queues, conn
      ensures Formed() && AsSystem() == ServerModel.Become(site, old(AsSystem()), conn.id, d, waiting)
    {
      hide NameOf, ServerModel.RemoveConnectionInLoop, Enqueue;
      SystemFormed();
      var closed := conn.core.closes < d.closes;
      Write(conn, d, conn.registered, conn.trail + if closed then [Closed] else []);
      if waiting < |d.queue| {
        QueueInLoop(conn.loop, FunctorOf(conn));
      }
      if closed {
        if conn.loop == 0 {
          RemoveConnectionInLoop(conn);
        } else {
          QueueInLoop(0, RemoveOf(conn));
        }
      }
    }

    /** An event on a connection, a call by the user, or a step of a call from another thread. */
    method Act(conn: Connection, op: C.Op)
      requires Valid() && IsMade(conn) && FromOutside(op) && C.Legal(conn.core, op)
      modifies this`connections, this`queues, conn
      ensures Valid() && AsSystem() == Apply(site, old(AsSystem()), Step.Act(conn.id, op))
    {
      hide ServerLifecycle.Reachable, C.Step, ServerModel.Become;
      SystemFormed();
      ServerLifecycle.StepReaches(site, AsSystem(), Step.Act(conn.id, op));
      Become(conn, C.Step(site.config, conn.core, op), |conn.core.queue|);
    }

    /** forceClose() in the connection's loop: the functor that will close it is queued there. */
    method ForceClose(conn: Connection)
      requires Valid() && IsMade(conn)
      modifies this`connections, this`queues, conn
      ensures Valid() && AsSystem() == Apply(site, old(AsSystem()), Step.Act(conn.id, C.ForceClose))
    {
      Act(conn, C.ForceClose);
    }

    method Post(l: nat)
      requires Valid() && l < |queues|
      modifies this`queues
      ensures Valid() && AsSystem() == Apply(site, old(AsSystem()), Step.Post(l))
    {
      hide ServerLifecycle.Reachable;
      SystemFormed();
      ServerLifecycle.StepReaches(site, AsSystem(), Step.Post(l));
      QueueInLoop(l, Other);
    }

    method ConnectDestroyed(conn: Connection)
      requires Formed() && IsMade(conn)
      modifies conn
      ensures Formed() && AsSystem() == ServerModel.ConnectDestroyed(site, old(AsSystem()), conn.id)
    {
      Write(conn, C.ConnectDestroyed(site.config, conn.core), false, conn.trail + [Destroyed]);
    }

    /** One loop runs its oldest functor; it reaches its connection through the functor, in the map or not. */
    method RunTask(l: nat, wr: C.WriteResult)
      requires Valid() && Enabled(AsSystem(), Step.RunTask(l, wr))
      modifies this`connections, this`queues, made.Values
      ensures Valid() && AsSystem() == Apply(site, old(AsSystem()), Step.RunTask(l, wr))
    {
      hide NameOf, ServerLifecycle.Reachable, C.Step, C.Legal, ServerModel.Become;
      SystemFormed();
      ServerLifecycle.StepReaches(site, AsSystem(), Step.RunTask(l, wr));
      var f := Pop(l);
      match f
      case EstablishOf(conn) => ConnectEstablished(conn);
      case RemoveOf(conn) => RemoveConnectionInLoop(conn);
      case DestroyOf(conn) => ConnectDestroyed(conn);
      case FunctorOf(conn) =>
        ServerLifecycle.RunsOwn(conn.core, C.RunFunctor(wr));
        Become(conn, C.Step(site.config, conn.core, C.RunFunctor(wr)), |conn.core.queue| - 1);
      case Other =>
    }

    method Pop(l: nat) returns (f: Functor)
      requires Formed() && l < |queues| && queues[l] != []
      modifies this`queues
      ensures Formed() && f == old(queues)[l][0] && (!f.Other? ==> IsMade(f.conn))
      ensures |old(AsSystem()).queues| == |queues| && old(AsSystem()).queues[l] != []
      ensures old(AsSystem()).queues[l][0] == TaskOf(f) && AsSystem() == Popped(old(AsSystem()), l)
    {
      PoppedTask(queues, l);
      f := queues[l][0];
      queues := queues[l := queues[l][1..]];
    }
  }
}
