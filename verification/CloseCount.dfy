/**
  How often a connection is closed. A close is final unless a call from another thread that tested the phase before it
  sets the phase after it, or the poller still watches the silenced channel and reports its hang-up once more.
 */
module CloseCount {
  import opened ConnectionModel
  import opened ConnectionHistory

  // ----- How many closes there can be -----

  /** The closes a late call makes possible: its own and, with epoll, that of the hang-up reported after it. */
  function PerRevival(cfg: Config): nat {
    if cfg.epoll then 2 else 1
  }

  function Allowed(cfg: Config, c: Conn): nat {
    1 + (if cfg.epoll then 2 * c.revived else c.revived) + if cfg.epoll && c.dropped then 1 else 0
  }

  /** What is still allowed covers the closes to come before the next late call. */
  ghost predicate CloseInv(cfg: Config, c: Conn) {
    && Inv(c)
    && (c.dropped ==> !c.phase.Connecting? && !c.phase.Connected?)
    && (!c.ended && !c.dropped && !c.phase.Connecting? ==> c.watched)
    && (c.phase.Disconnected? ==>
          (c.watched ==> cfg.epoll) && c.closes + (if c.watched then 1 else 0) <= Allowed(cfg, c))
    && (c.phase.Disconnecting? && c.ended ==> c.closes + PerRevival(cfg) <= Allowed(cfg, c))
  }

  lemma CloseKeepsCount(cfg: Config, c: Conn)
    requires CloseInv(cfg, c) && !c.phase.Connecting? && (c.phase.Disconnected? ==> c.watched)
    ensures CloseInv(cfg, HandleClose(cfg, c))
  {
    CloseKeepsInv(cfg, c);
  }

  /** Sending, writing and calls neither close nor take a watched channel that reads from the poller. */
  ghost predicate SameLife(c: Conn, d: Conn) {
    && d.phase == c.phase && d.reading == c.reading && d.ended == c.ended && d.dropped == c.dropped
    && d.closes == c.closes && d.revived == c.revived
    && (c.reading && c.watched ==> d.watched)
    && (c.phase.Disconnected? || c.phase.Connecting? ==> d.watched == c.watched)
  }

  lemma SendsLive(cfg: Config, c: Conn, data: string, wr: WriteResult)
    requires WriteContract(c, data, wr) && !c.phase.Connecting?
    ensures SameLife(c, SendInLoop(cfg, c, data, wr))
  {
    SendQueues(cfg, c, data, wr);
    if !c.phase.Disconnected? {
      hide SendInLoop;
    }
  }

  lemma WritesLive(cfg: Config, c: Conn, wr: WriteResult)
    requires Inv(c) && WriteContract(c, c.backlog, wr)
    ensures SameLife(c, HandleWrite(cfg, c, wr))
  {
  }

  lemma SameLifeKeepsCount(cfg: Config, c: Conn, d: Conn)
    requires CloseInv(cfg, c) && Inv(d) && SameLife(c, d)
    ensures CloseInv(cfg, d)
  {
  }

  lemma HeadKeepsCount(cfg: Config, c: Conn, wr: WriteResult)
    requires CloseInv(cfg, c) && Legal(c, RunFunctor(wr))
    ensures CloseInv(cfg, RunHead(cfg, c, wr))
  {
    HeadKeepsInv(cfg, c, wr);
    var rest := c.(queue := c.queue[1..]);
    hide SendInLoop, HandleClose, CloseInv;
    match c.queue[0]
    case SendFn(message) =>
      NotConnecting(cfg, c);
      SendsLive(cfg, rest, message, wr);
      SameLifeKeepsCount(cfg, c, RunHead(cfg, c, wr));
    case ForceCloseFn =>
      RestKeepsCount(cfg, c);
      if c.phase.Connected? || c.phase.Disconnecting? {
        CloseKeepsCount(cfg, rest);
      }
    case _ => SameLifeKeepsCount(cfg, c, RunHead(cfg, c, wr));
  }

  lemma NotConnecting(cfg: Config, c: Conn)
    requires CloseInv(cfg, c) && c.queue != []
    ensures !c.phase.Connecting?
  {
  }

  lemma RestKeepsCount(cfg: Config, c: Conn)
    requires CloseInv(cfg, c) && c.queue != [] && !c.queue[0].SendFn?
    ensures CloseInv(cfg, c.(queue := c.queue[1..]))
  {
  }

  lemma SetKeepsCount(cfg: Config, c: Conn, call: Functor)
    requires CloseInv(cfg, c) && call in c.setting
    ensures CloseInv(cfg, SetPhase(c, call))
  {
    SetKeepsInv(c, call);
    hide Inv;
  }

  lemma CallKeepsCount(cfg: Config, c: Conn, op: Op)
    requires CloseInv(cfg, c) && Legal(c, op) && (op.CrossTest? || op.CrossQueue?)
    ensures CloseInv(cfg, Step(cfg, c, op))
  {
    StepKeepsInv(cfg, c, op);
    SameLifeKeepsCount(cfg, c, Step(cfg, c, op));
  }

  lemma StepKeepsCount(cfg: Config, c: Conn, op: Op)
    requires CloseInv(cfg, c) && Legal(c, op)
    ensures CloseInv(cfg, Step(cfg, c, op))
  {
    StepKeepsInv(cfg, c, op);
    hide SendInLoop, HandleWrite, RunHead, HandleClose, PassTest, SetPhase, QueueCall;
    match op
    case Send(data, wr) =>
      if c.phase.Connected? {
        SendsLive(cfg, c, data, wr);
        SameLifeKeepsCount(cfg, c, Step(cfg, c, op));
      }
    case Writable(wr) =>
      WritesLive(cfg, c, wr);
      SameLifeKeepsCount(cfg, c, Step(cfg, c, op));
    case RunFunctor(wr) => HeadKeepsCount(cfg, c, wr);
    case Readable(read) =>
      if read.EndOfFile? {
        CloseKeepsCount(cfg, c);
      }
    case HungUp => CloseKeepsCount(cfg, c);
    case CrossTest(_) => CallKeepsCount(cfg, c, op);
    case CrossSet(call) => SetKeepsCount(cfg, c, call);
    case CrossQueue(_) => CallKeepsCount(cfg, c, op);
    case _ => StagesKeepCount(cfg, c, op);
  }

  lemma StagesKeepCount(cfg: Config, c: Conn, op: Op)
    requires CloseInv(cfg, c) && Legal(c, op) && (op.Established? || op.Destroyed? || op.Shutdown? || op.ForceClose?)
    ensures CloseInv(cfg, Step(cfg, c, op))
  {
    StepKeepsInv(cfg, c, op);
    hide SendInLoop, HandleWrite, RunHead;
  }

  lemma {:induction false} RunKeepsCount(cfg: Config, c: Conn, ops: seq<Op>, d: Conn)
    requires CloseInv(cfg, c) && Run(cfg, c, ops, d)
    ensures CloseInv(cfg, d)
    decreases |ops|
  {
    if ops != [] {
      StepKeepsCount(cfg, c, ops[0]);
      RunKeepsCount(cfg, Step(cfg, c, ops[0]), ops[1..], d);
    }
  }

  lemma ReachableCloses(cfg: Config, c: Conn)
    requires Reachable(cfg, c)
    ensures c.closes <= 1 + PerRevival(cfg) * c.revived + if cfg.epoll && c.dropped then 1 else 0
  {
    var ops :| Run(cfg, INITIAL, ops, c);
    RunKeepsCount(cfg, INITIAL, ops, c);
  }

  /**
    In every run the close callback is made once, once more for each call that set the phase after a close, and with
    epoll once more again for each such call, and for a removal from the poller that came before the close.
   */
  lemma ClosesBounded(cfg: Config, ops: seq<Op>, c: Conn)
    requires Run(cfg, INITIAL, ops, c)
    ensures var t := Told(cfg, INITIAL, ops);
            t.closes <= 1 + PerRevival(cfg) * t.revived + if cfg.epoll && t.dropped then 1 else 0
  {
    FromInitial(cfg, ops, c);
    assert Reachable(cfg, c);
    ReachableCloses(cfg, c);
  }

  // ----- When there can be another -----

  ghost predicate MayCloseAgain(cfg: Config, c: Conn) {
    exists ops, d :: Run(cfg, c, ops, d) && 0 < Told(cfg, c, ops).closes
  }

  /** Disconnected, with no late call to set the phase back and no hang-up to come. */
  predicate ClosedForGood(c: Conn) {
    c.phase.Disconnected? && c.setting == multiset{} && !c.watched
  }

  lemma ClosedStaysClosed(cfg: Config, c: Conn, op: Op)
    requires Inv(c) && ClosedForGood(c) && Legal(c, op)
    ensures var d := Step(cfg, c, op); ClosedForGood(d) && d.closes == c.closes
  {
  }

  lemma {:induction false} ClosedRun(cfg: Config, c: Conn, ops: seq<Op>, d: Conn)
    requires Inv(c) && ClosedForGood(c) && Run(cfg, c, ops, d)
    ensures d.closes == c.closes
    decreases |ops|
  {
    if ops != [] {
      StepKeepsInv(cfg, c, ops[0]);
      ClosedStaysClosed(cfg, c, ops[0]);
      ClosedRun(cfg, Step(cfg, c, ops[0]), ops[1..], d);
    }
  }

  /** A forced close in the queue of an open connection is carried out, unless another close comes first. */
  lemma {:induction false} QueuedForceCloses(cfg: Config, c: Conn, i: nat) returns (ops: seq<Op>, d: Conn)
    requires c.phase.Connected? || c.phase.Disconnecting?
    requires i < |c.queue| && c.queue[i] == ForceCloseFn
    ensures Run(cfg, c, ops, d) && c.closes < d.closes
    decreases i
  {
    var op := RunFunctor(WriteFailed(BrokenPipe));
    HeadGoesOn(cfg, c, op.wr);
    hide RunHead;
    var next := Step(cfg, c, op);
    if c.queue[0].ForceCloseFn? {
      ops, d := [], next;
      NoSteps(cfg, next);
    } else {
      assert next.queue[i - 1] == c.queue[1..][i - 1];
      ops, d := QueuedForceCloses(cfg, next, i - 1);
    }
    RunAfter(cfg, c, op, ops, d);
    ops := [op] + ops;
  }

  /** An open connection can always be closed: any thread may call forceClose(). */
  lemma OpenCloses(cfg: Config, c: Conn) returns (ops: seq<Op>, d: Conn)
    requires c.phase.Connected? || c.phase.Disconnecting?
    ensures Run(cfg, c, ops, d) && c.closes < d.closes
  {
    ops, d := QueuedForceCloses(cfg, Step(cfg, c, ForceClose), |c.queue|);
    RunAfter(cfg, c, ForceClose, ops, d);
    ops := [ForceClose] + ops;
  }

  /**
    Whatever happened before, the close callback can be made again if and only if the connection is not disconnected, or
    a call of another thread stands between its test of the phase and its setting it, or the kernel watches the channel.
   */
  lemma AnotherClose(cfg: Config, c: Conn)
    requires Reachable(cfg, c)
    ensures MayCloseAgain(cfg, c) <==> !(c.phase.Disconnected? && c.setting == multiset{} && !c.watched)
  {
    ReachableInv(cfg, c);
    if ClosedForGood(c) {
      forall ops, d | Run(cfg, c, ops, d)
        ensures Told(cfg, c, ops).closes == 0
      {
        ClosedRun(cfg, c, ops, d);
        RunTold(cfg, c, ops, d);
      }
    } else {
      var ops, d := NextClose(cfg, c);
      RunTold(cfg, c, ops, d);
      assert Run(cfg, c, ops, d) && 0 < Told(cfg, c, ops).closes;
    }
  }

  lemma NextClose(cfg: Config, c: Conn) returns (ops: seq<Op>, d: Conn)
    requires Inv(c) && !ClosedForGood(c)
    ensures Run(cfg, c, ops, d) && c.closes < d.closes
  {
    hide Run, HandleWrite, RunHead, SendInLoop;
    if c.phase.Disconnected? && c.watched {
      d := Step(cfg, c, HungUp);
      NoSteps(cfg, d);
      RunAfter(cfg, c, HungUp, [], d);
      ops := [HungUp] + [];
    } else if c.phase.Disconnected? {
      var call :| call in c.setting;
      ops, d := OpenCloses(cfg, Step(cfg, c, CrossSet(call)));
      RunAfter(cfg, c, CrossSet(call), ops, d);
      ops := [CrossSet(call)] + ops;
    } else if c.phase.Connecting? {
      ops, d := OpenCloses(cfg, Step(cfg, c, Established));
      RunAfter(cfg, c, Established, ops, d);
      ops := [Established] + ops;
    } else {
      ops, d := OpenCloses(cfg, c);
    }
  }

  // ----- The bound is met -----

  /** Threads whose forceClose() tests the phase before a hang-up and goes on after it: any number of them. */
  lemma LateCallsClose(cfg: Config, n: nat)
    ensures exists ops, d :: Run(cfg, INITIAL, ops, d) && d.revived == n && d.closes == 1 + PerRevival(cfg) * n
  {
    hide Run;
    var ops, c := TestedTogether(cfg, n);
    ops, c := Then(cfg, ops, c, HungUp);
    var k := 0;
    while k < n
      invariant k <= n && Run(cfg, INITIAL, ops, c) && c.setting[ForceCloseFn] == n - k && c.queue == []
      invariant c.phase.Disconnected? && !c.watched && !c.writing && c.revived == k
      invariant c.closes == 1 + PerRevival(cfg) * k
    {
      ops, c := LateCall(cfg, ops, c);
      k := k + 1;
    }
  }

  /** One of them: it closes, and with epoll the silenced channel is watched again and hangs up. */
  lemma LateCall(cfg: Config, ops: seq<Op>, c: Conn) returns (more: seq<Op>, d: Conn)
    requires Run(cfg, INITIAL, ops, c) && ForceCloseFn in c.setting && c.queue == []
    requires c.phase.Disconnected? && !c.watched && !c.writing
    ensures Run(cfg, INITIAL, more, d) && d.setting[ForceCloseFn] == c.setting[ForceCloseFn] - 1 && d.queue == []
    ensures d.phase.Disconnected? && !d.watched && !d.writing && d.revived == c.revived + 1
    ensures d.closes == c.closes + PerRevival(cfg)
  {
    hide Run, SendInLoop, HandleWrite;
    more, d := Then(cfg, ops, c, CrossSet(ForceCloseFn));
    more, d := Then(cfg, more, d, CrossQueue(ForceCloseFn));
    assert d.queue == [ForceCloseFn] && d.phase.Disconnecting?;
    more, d := Then(cfg, more, d, RunFunctor(WriteFailed(BrokenPipe)));
    if cfg.epoll {
      more, d := Then(cfg, more, d, HungUp);
    }
  }

  lemma {:induction false} TestedTogether(cfg: Config, n: nat) returns (ops: seq<Op>, c: Conn)
    ensures Run(cfg, INITIAL, ops, c) && c.phase.Connected? && c.setting[ForceCloseFn] == n
    ensures c.queue == [] && c.watched && c.closes == c.revived == 0
  {
    hide Run;
    if n == 0 {
      NoSteps(cfg, INITIAL);
      ops, c := Then(cfg, [], INITIAL, Established);
    } else {
      ops, c := TestedTogether(cfg, n - 1);
      ops, c := Then(cfg, ops, c, CrossTest(ForceCloseFn));
    }
  }

  /**
    With epoll a connection taken from its poller before its forced close is watched again by the close, and closed
    twice.
   */
  lemma DroppedClosesTwice(cfg: Config)
    requires cfg.epoll
    ensures exists ops, d :: Run(cfg, INITIAL, ops, d) && d.dropped && d.revived == 0 && d.closes == 2
  {
    hide Run;
    var ops, c := [], INITIAL;
    NoSteps(cfg, c);
    ops, c := Then(cfg, ops, c, Established);
    ops, c := Then(cfg, ops, c, ForceClose);
    ops, c := Then(cfg, ops, c, Destroyed);
    assert c.queue == [ForceCloseFn] && c.phase.Disconnecting? && !c.watched && c.dropped && c.closes == 0;
    ops, c := Then(cfg, ops, c, RunFunctor(WriteFailed(BrokenPipe)));
    ops, c := Then(cfg, ops, c, HungUp);
  }
}
