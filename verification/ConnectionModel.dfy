/**
  One connection of src/net/TcpConnection.cc as a state machine: its four phases, the channel's interest bits, the
  backlog, the functors it has queued in its own loop, and the histories its promises speak about. A call from another
  thread tests the phase, sets it and queues its functor in separate steps, between which anything may happen.
 */
module ConnectionModel {
  import opened Channels
  import PollerViews

  datatype Phase = Disconnected | Connecting | Connected | Disconnecting

  datatype Errno = WouldBlock | BrokenPipe | ConnectionReset | OtherErrno

  /** What write(2) reports. */
  datatype WriteResult = Wrote(n: nat) | WriteFailed(errno: Errno)

  datatype ReadOutcome = Data | EndOfFile | ReadError

  datatype Functor =
    | SendFn(message: string) | ShutdownFn | ForceCloseFn | WriteCompleteFn | HighWaterFn(size: nat)

  /** Which callbacks are set, and whether the loop polls with epoll(7) or with poll(2). */
  datatype Config = Config(onWriteComplete: bool, onHighWater: bool, highWaterMark: nat, epoll: bool)

  datatype Conn = Conn(
    phase: Phase,
    reading: bool,
    writing: bool,
    watched: bool,          // the kernel reports hang-ups: the poller watches the channel, if with an empty mask
    backlog: string,        // readable bytes of the output buffer
    queue: seq<Functor>,    // functors of this connection waiting in its loop
    setting: multiset<Functor>,   // of calls of other threads that have tested the phase and not yet set it
    queueing: multiset<Functor>,  // of calls of other threads that have still to queue it
    accepted: string,       // history: all messages sendInLoop took, in order
    taken: string,          // history: all bytes write(2) took, in order
    fins: nat,              // history: how often the write side was shut down
    closes: nat,            // history: how often the close callback was made
    shutdowns: nat,         // history: how many calls of shutdown() found the connection established
    ended: bool,            // history: the connection has been disconnected
    dropped: bool,          // history: connectDestroyed found it disconnecting and never disconnected before
    revived: nat)           // history: how often a late call set the phase when it was Disconnected already

  /**
    The operations on a connection. `Cross` marks the steps of calls from threads other than its loop's: of a send,
    `CrossTest` and `CrossQueue`; of a shutdown or a forced close, `CrossTest`, `CrossSet` and `CrossQueue`.
   */
  datatype Op =
    | Established | Destroyed
    | Send(data: string, wr: WriteResult) | Shutdown | ForceClose
    | CrossTest(call: Functor) | CrossSet(call: Functor) | CrossQueue(call: Functor)
    | Readable(read: ReadOutcome) | Writable(wr: WriteResult) | HungUp
    | RunFunctor(wr: WriteResult)

  const INITIAL :=
    Conn(Connecting, false, false, false, "", [], multiset{}, multiset{}, "", "", 0, 0, 0, false, false, 0)

  /**
    Whether the kernel watches a channel after an update: any interest is watched; epoll takes a channel silenced once
    out of its set and one silenced again back in.
   */
  function Watched(cfg: Config, watched: bool, wanted: bool): bool {
    wanted || (cfg.epoll && !watched)
  }

  /** That is what both pollers do, poll with a registered channel. */
  lemma WatchedAsPolled(cfg: Config, v: PollerViews.View, m: map<int, Mask>, fd: int, mask: Mask)
    requires fd in v.interest
    ensures var update := PollerViews.Update(fd, mask);
            if cfg.epoll then
              fd in PollerViews.EpollStep(m, update) <==> Watched(cfg, fd in m, mask != NONE_EVENT)
            else
              fd in PollerViews.PollStep(v, update).monitored <==> Watched(cfg, fd in v.monitored, mask != NONE_EVENT)
  {
  }

  function SendInLoop(cfg: Config, c: Conn, data: string, wr: WriteResult): Conn
    requires WriteContract(c, data, wr)
  {
    if c.phase.Disconnected? then c
    else
      var (sent, remaining) := WriteDirectly(cfg, c, data, wr);
      if remaining == "" then sent else Enqueue(cfg, sent, remaining)
  }

  /** Offers the message to write(2), unless something is waiting already; returns what was not taken. */
  function WriteDirectly(cfg: Config, c: Conn, data: string, wr: WriteResult): (Conn, string)
    requires WriteContract(c, data, wr)
  {
    if !c.writing && c.backlog == "" && wr.Wrote? then
      (c.(accepted := c.accepted + data,
          taken := c.taken + data[..wr.n],
          queue := c.queue + if wr.n == |data| && cfg.onWriteComplete then [WriteCompleteFn] else []),
       data[wr.n..])
    else
      (c.(accepted := c.accepted + data), data)
  }

  /** The part a write did not take goes behind the backlog. */
  function Enqueue(cfg: Config, c: Conn, remaining: string): Conn {
    var oldLen, newLen := |c.backlog|, |c.backlog| + |remaining|;
    c.(
      backlog := c.backlog + remaining,
      writing := true,
      watched := c.watched || !c.writing,
      queue := c.queue +
        if cfg.onHighWater && oldLen < cfg.highWaterMark <= newLen then [HighWaterFn(newLen)] else [])
  }

  function ShutdownInLoop(c: Conn): Conn {
    if c.writing then c else c.(fins := c.fins + 1)
  }

  function HandleWrite(cfg: Config, c: Conn, wr: WriteResult): Conn
    requires c.writing ==> WriteContract(c, c.backlog, wr)
  {
    if !c.writing || !wr.Wrote? || wr.n == 0 then c
    else
      var rest := c.(taken := c.taken + c.backlog[..wr.n], backlog := c.backlog[wr.n..]);
      if rest.backlog != "" then rest else Drained(cfg, rest)
  }

  function Drained(cfg: Config, c: Conn): Conn {
    var drained := c.(
      writing := false, watched := Watched(cfg, c.watched, c.reading),
      queue := c.queue + if cfg.onWriteComplete then [WriteCompleteFn] else []);
    if c.phase.Disconnecting? then ShutdownInLoop(drained) else drained
  }

  function DisableAll(cfg: Config, c: Conn): Conn {
    c.(reading := false, writing := false, watched := Watched(cfg, c.watched, false))
  }

  function HandleClose(cfg: Config, c: Conn): Conn {
    DisableAll(cfg, c).(phase := Disconnected, closes := c.closes + 1, ended := true)
  }

  function ForceCloseInLoop(cfg: Config, c: Conn): Conn {
    if c.phase.Connected? || c.phase.Disconnecting? then HandleClose(cfg, c) else c
  }

  function RunHead(cfg: Config, c: Conn, wr: WriteResult): Conn
    requires c.queue != [] && (c.queue[0].SendFn? ==> WriteContract(c, c.queue[0].message, wr))
  {
    var rest := c.(queue := c.queue[1..]);
    match c.queue[0]
    case SendFn(message) => SendInLoop(cfg, rest, message, wr)
    case ShutdownFn => ShutdownInLoop(rest)
    case ForceCloseFn => ForceCloseInLoop(cfg, rest)
    case WriteCompleteFn => rest
    case HighWaterFn(_) => rest
  }

  /** write(2) takes a prefix, and once the write side is shut down it takes nothing. */
  predicate WriteContract(c: Conn, data: string, wr: WriteResult) {
    wr.Wrote? ==> wr.n <= |data| && (0 < c.fins ==> wr.n == 0)
  }

  /** What another thread's call asks of the phase it finds. */
  predicate Passes(c: Conn, call: Functor) {
    match call
    case SendFn(_) => c.phase.Connected?
    case ShutdownFn => c.phase.Connected?
    case ForceCloseFn => c.phase.Connected? || c.phase.Disconnecting?
    case _ => false
  }

  function PassTest(c: Conn, call: Functor): Conn
    requires Passes(c, call)
  {
    match call
    case SendFn(_) => c.(queueing := c.queueing + multiset{call})
    case ShutdownFn => c.(setting := c.setting + multiset{call}, shutdowns := c.shutdowns + 1)
    case _ => c.(setting := c.setting + multiset{call})
  }

  /** The phase is set whatever it has become since the test. */
  function SetPhase(c: Conn, call: Functor): Conn {
    c.(
      phase := Disconnecting,
      setting := c.setting - multiset{call},
      queueing := c.queueing + multiset{call},
      revived := c.revived + if c.phase.Disconnected? then 1 else 0)
  }

  function QueueCall(c: Conn, call: Functor): Conn {
    c.(queueing := c.queueing - multiset{call}, queue := c.queue + [call])
  }

  function ConnectEstablished(c: Conn): Conn {
    c.(phase := Connected, reading := true, watched := true)
  }

  /** Whatever the phase, the channel is removed from its poller. */
  function ConnectDestroyed(cfg: Config, c: Conn): Conn {
    var quiet := if c.phase.Connected? then DisableAll(cfg, c).(phase := Disconnected, ended := true) else c;
    quiet.(watched := false, dropped := c.dropped || (c.phase.Disconnecting? && !c.ended))
  }

  /** A call from another thread that nothing interrupts: its steps one after the other. */
  function CrossCall(c: Conn, call: Functor): Conn {
    if !Passes(c, call) then c
    else if call.SendFn? then QueueCall(PassTest(c, call), call)
    else QueueCall(SetPhase(PassTest(c, call), call), call)
  }

  /**
    The kernel keeps its contracts: it reports input and room only to a channel that asks for them, and hang-ups to any
    channel it watches.
   */
  predicate Legal(c: Conn, op: Op) {
    match op
    case Established => c.phase.Connecting?
    case Send(data, wr) => WriteContract(c, data, wr)
    case Writable(wr) => (c.writing ==> c.watched) && WriteContract(c, c.backlog, wr)
    case Readable(_) => c.reading && c.watched
    case HungUp => c.watched
    case CrossSet(call) => call in c.setting
    case CrossQueue(call) => call in c.queueing
    case RunFunctor(wr) => c.queue != [] && (c.queue[0].SendFn? ==> WriteContract(c, c.queue[0].message, wr))
    case _ => true
  }

  function Step(cfg: Config, c: Conn, op: Op): Conn
    requires Legal(c, op)
  {
    match op
    case Established => ConnectEstablished(c)
    case Destroyed => ConnectDestroyed(cfg, c)
    case Send(data, wr) => if c.phase.Connected? then SendInLoop(cfg, c, data, wr) else c
    case Shutdown =>
      if c.phase.Connected? then ShutdownInLoop(c.(phase := Disconnecting, shutdowns := c.shutdowns + 1)) else c
    case CrossTest(call) => if Passes(c, call) then PassTest(c, call) else c
    case CrossSet(call) => SetPhase(c, call)
    case CrossQueue(call) => QueueCall(c, call)
    case ForceClose =>
      if c.phase.Connected? || c.phase.Disconnecting? then
        c.(phase := Disconnecting, queue := c.queue + [ForceCloseFn])
      else c
    case Readable(read) => if read.EndOfFile? then HandleClose(cfg, c) else c
    case Writable(wr) => HandleWrite(cfg, c, wr)
    case HungUp => HandleClose(cfg, c)
    case RunFunctor(wr) => RunHead(cfg, c, wr)
  }

  ghost predicate Run(cfg: Config, c: Conn, ops: seq<Op>, d: Conn)
    decreases |ops|
  {
    if ops == [] then c == d
    else Legal(c, ops[0]) && Run(cfg, Step(cfg, c, ops[0]), ops[1..], d)
  }

  ghost predicate Reachable(cfg: Config, c: Conn) {
    exists ops :: Run(cfg, INITIAL, ops, c)
  }

  // ----- Runs -----

  lemma RunTwo(cfg: Config, c: Conn, a: Op, b: Op)
    requires Legal(c, a) && Legal(Step(cfg, c, a), b)
    ensures Run(cfg, c, [a, b], Step(cfg, Step(cfg, c, a), b))
  {
  }

  /** One more step of a run that starts with the connection. */
  lemma Then(cfg: Config, ops: seq<Op>, c: Conn, op: Op) returns (more: seq<Op>, d: Conn)
    requires Run(cfg, INITIAL, ops, c) && Legal(c, op)
    ensures more == ops + [op] && d == Step(cfg, c, op) && Run(cfg, INITIAL, more, d)
  {
    more, d := ops + [op], Step(cfg, c, op);
    RunAppend(cfg, INITIAL, ops, c, op);
  }

  lemma NoSteps(cfg: Config, c: Conn)
    ensures Run(cfg, c, [], c)
  {
  }

  /** A step, then a run. */
  lemma RunAfter(cfg: Config, c: Conn, op: Op, ops: seq<Op>, d: Conn)
    requires Legal(c, op) && Run(cfg, Step(cfg, c, op), ops, d)
    ensures Run(cfg, c, [op] + ops, d)
  {
    assert ([op] + ops)[1..] == ops;
  }

  lemma {:induction false} RunAppend(cfg: Config, c: Conn, ops: seq<Op>, d: Conn, op: Op)
    requires Run(cfg, c, ops, d) && Legal(d, op)
    ensures Run(cfg, c, ops + [op], Step(cfg, d, op))
    decreases |ops|
  {
    if ops == [] {
      assert Run(cfg, Step(cfg, c, op), [], Step(cfg, d, op));
      assert [op][1..] == [] && ops + [op] == [op];
    } else {
      assert (ops + [op])[1..] == ops[1..] + [op];
      RunAppend(cfg, Step(cfg, c, ops[0]), ops[1..], d, op);
    }
  }

  /** A call that nothing interrupts is a run of its steps. */
  lemma CrossCallRuns(cfg: Config, ops: seq<Op>, c: Conn, call: Functor) returns (more: seq<Op>, d: Conn)
    requires Run(cfg, INITIAL, ops, c)
    ensures d == CrossCall(c, call) && ops <= more && Run(cfg, INITIAL, more, d)
  {
    if Passes(c, call) {
      CallGoesOn(c, call);
      CallSteps(cfg, c, call);
      more, d := Then(cfg, ops, c, CrossTest(call));
      hide Run, Passes, PassTest, SetPhase, QueueCall, Step, Legal;
      more, d := TestedCallRuns(cfg, more, d, call);
    } else {
      more, d := ops, c;
    }
  }

  lemma TestedCallRuns(cfg: Config, ops: seq<Op>, c: Conn, call: Functor) returns (more: seq<Op>, d: Conn)
    requires Run(cfg, INITIAL, ops, c) && call in if call.SendFn? then c.queueing else c.setting
    ensures d == QueueCall(if call.SendFn? then c else SetPhase(c, call), call)
    ensures ops <= more && Run(cfg, INITIAL, more, d)
  {
    hide Run, Passes, PassTest, QueueCall, Step, Legal;
    CallSteps(cfg, c, call);
    more, d := ops, c;
    if !call.SendFn? {
      more, d := Then(cfg, ops, c, CrossSet(call));
      CallSteps(cfg, d, call);
    }
    more, d := Then(cfg, more, d, CrossQueue(call));
  }

  lemma CallSteps(cfg: Config, c: Conn, call: Functor)
    ensures Passes(c, call) ==> Legal(c, CrossTest(call)) && Step(cfg, c, CrossTest(call)) == PassTest(c, call)
    ensures call in c.setting ==> Legal(c, CrossSet(call)) && Step(cfg, c, CrossSet(call)) == SetPhase(c, call)
    ensures call in c.queueing ==> Legal(c, CrossQueue(call)) && Step(cfg, c, CrossQueue(call)) == QueueCall(c, call)
  {
  }

  lemma CallGoesOn(c: Conn, call: Functor)
    requires Passes(c, call)
    ensures call in if call.SendFn? then PassTest(c, call).queueing else PassTest(c, call).setting
    ensures call in SetPhase(PassTest(c, call), call).queueing
  {
  }

  lemma InitialReachable(cfg: Config)
    ensures Reachable(cfg, INITIAL)
  {
    NoSteps(cfg, INITIAL);
  }

  /** A legal operation leads from a reachable state to a reachable one. */
  lemma StepReaches(cfg: Config, c: Conn, op: Op)
    requires Reachable(cfg, c) && Legal(c, op)
    ensures Reachable(cfg, Step(cfg, c, op))
  {
    var ops :| Run(cfg, INITIAL, ops, c);
    var _, _ := Then(cfg, ops, c, op);
  }

  lemma CallReaches(cfg: Config, c: Conn, call: Functor)
    requires Reachable(cfg, c)
    ensures Reachable(cfg, CrossCall(c, call))
  {
    var ops :| Run(cfg, INITIAL, ops, c);
    var _, _ := CrossCallRuns(cfg, ops, c, call);
  }

  // ----- Byte conservation -----

  ghost predicate Inv(c: Conn) {
    && c.taken + c.backlog == c.accepted
    && (c.writing ==> c.backlog != "")
    && (c.phase.Connecting? ==> c == INITIAL)
    && (c.phase.Connected? ==> c.fins == 0 && ShutdownFn !in c.queue && ShutdownFn !in c.queueing)
    && (c.phase.Disconnected? ==> c.ended && !c.writing)
    && (!c.ended ==> (c.writing <==> c.backlog != "") && (c.reading <==> !c.phase.Connecting?))
    && (!c.ended ==> c.closes == c.revived == 0)
    && (c.ended ==> !c.reading && (c.phase.Disconnected? || (c.phase.Disconnecting? && 0 < c.revived)))
    && (forall f :: f in c.setting ==> !f.SendFn?)
  }

  lemma DirectWriteConserves(cfg: Config, c: Conn, data: string, wr: WriteResult)
    requires c.taken + c.backlog == c.accepted && WriteContract(c, data, wr)
    ensures var (d, remaining) := WriteDirectly(cfg, c, data, wr);
            && d.taken + d.backlog + remaining == d.accepted && d.backlog == c.backlog
            && d == c.(accepted := d.accepted, taken := d.taken, queue := d.queue)
            && (ShutdownFn in d.queue ==> ShutdownFn in c.queue)
  {
  }

  lemma SendKeepsInv(cfg: Config, c: Conn, data: string, wr: WriteResult)
    requires Inv(c) && !c.phase.Connecting? && WriteContract(c, data, wr)
    ensures Inv(SendInLoop(cfg, c, data, wr))
  {
    DirectWriteConserves(cfg, c, data, wr);
    hide WriteDirectly;
    var (d, remaining) := WriteDirectly(cfg, c, data, wr);
    if !c.phase.Disconnected? && remaining != "" {
      EnqueueKeepsInv(cfg, c, d, remaining);
    }
    hide Enqueue;
  }

  lemma EnqueueKeepsInv(cfg: Config, c: Conn, d: Conn, remaining: string)
    requires Inv(c) && !c.phase.Connecting? && !c.phase.Disconnected? && remaining != ""
    requires d == c.(accepted := d.accepted, taken := d.taken, queue := d.queue)
    requires d.taken + d.backlog + remaining == d.accepted && (ShutdownFn in d.queue ==> ShutdownFn in c.queue)
    ensures Inv(Enqueue(cfg, d, remaining))
  {
    assert d.taken + (d.backlog + remaining) == d.taken + d.backlog + remaining;
  }

  lemma WriteKeepsInv(cfg: Config, c: Conn, wr: WriteResult)
    requires Inv(c) && WriteContract(c, c.backlog, wr)
    ensures Inv(HandleWrite(cfg, c, wr))
  {
  }

  lemma CloseKeepsInv(cfg: Config, c: Conn)
    requires Inv(c) && !c.phase.Connecting?
    ensures Inv(HandleClose(cfg, c))
  {
  }

  lemma CallKeepsInv(c: Conn, call: Functor)
    requires Inv(c) && Passes(c, call)
    ensures Inv(PassTest(c, call))
  {
  }

  lemma SetKeepsInv(c: Conn, call: Functor)
    requires Inv(c) && call in c.setting
    ensures Inv(SetPhase(c, call))
  {
  }

  lemma QueueKeepsInv(c: Conn, call: Functor)
    requires Inv(c) && call in c.queueing
    ensures Inv(QueueCall(c, call))
  {
  }

  lemma HeadKeepsInv(cfg: Config, c: Conn, wr: WriteResult)
    requires Inv(c) && Legal(c, RunFunctor(wr))
    ensures Inv(RunHead(cfg, c, wr))
  {
    hide SendInLoop, HandleClose;
    var rest := c.(queue := c.queue[1..]);
    match c.queue[0]
    case SendFn(message) => SendKeepsInv(cfg, rest, message, wr);
    case ForceCloseFn =>
      if c.phase.Connected? || c.phase.Disconnecting? {
        CloseKeepsInv(cfg, rest);
      }
    case _ =>
  }

  lemma StepKeepsInv(cfg: Config, c: Conn, op: Op)
    requires Inv(c) && Legal(c, op)
    ensures Inv(Step(cfg, c, op))
  {
    hide SendInLoop, HandleWrite, HandleClose, RunHead, PassTest, SetPhase, QueueCall;
    match op
    case Send(data, wr) =>
      if c.phase.Connected? {
        SendKeepsInv(cfg, c, data, wr);
      }
    case CrossTest(call) =>
      if Passes(c, call) {
        CallKeepsInv(c, call);
      }
    case CrossSet(call) => SetKeepsInv(c, call);
    case CrossQueue(call) => QueueKeepsInv(c, call);
    case Readable(read) =>
      if read.EndOfFile? {
        CloseKeepsInv(cfg, c);
      }
    case HungUp => CloseKeepsInv(cfg, c);
    case Writable(wr) => WriteKeepsInv(cfg, c, wr);
    case RunFunctor(wr) => HeadKeepsInv(cfg, c, wr);
    case _ =>
  }

  lemma {:induction false} RunKeepsInv(cfg: Config, c: Conn, ops: seq<Op>, d: Conn)
    requires Inv(c) && Run(cfg, c, ops, d)
    ensures Inv(d)
    decreases |ops|
  {
    if ops != [] {
      StepKeepsInv(cfg, c, ops[0]);
      RunKeepsInv(cfg, Step(cfg, c, ops[0]), ops[1..], d);
    }
  }

  lemma ReachableInv(cfg: Config, c: Conn)
    requires Reachable(cfg, c)
    ensures Inv(c)
  {
    var ops :| Run(cfg, INITIAL, ops, c);
    RunKeepsInv(cfg, INITIAL, ops, c);
  }

  // ----- What sending and writing add to the queue -----

  /** Nothing but callbacks to the user was queued. */
  ghost predicate OnlyCallbacks(before: seq<Functor>, after: seq<Functor>) {
    before <= after && forall i :: |before| <= i < |after| ==> after[i].WriteCompleteFn? || after[i].HighWaterFn?
  }

  lemma CallbacksOnly(before: seq<Functor>, after: seq<Functor>, f: Functor)
    requires OnlyCallbacks(before, after) && !f.WriteCompleteFn? && !f.HighWaterFn?
    ensures multiset(after)[f] == multiset(before)[f] && (f in after <==> f in before)
  {
    var more := after[|before|..];
    assert after == before + more;
    assert forall i :: 0 <= i < |more| ==> more[i] == after[|before| + i];
    assert f !in more && multiset(after) == multiset(before) + multiset(more);
  }

  lemma SendQueues(cfg: Config, c: Conn, data: string, wr: WriteResult)
    requires WriteContract(c, data, wr)
    ensures var d := SendInLoop(cfg, c, data, wr);
            && OnlyCallbacks(c.queue, d.queue)
            && d == c.(queue := d.queue, writing := d.writing, watched := d.watched, backlog := d.backlog,
                       accepted := d.accepted, taken := d.taken)
            && (d.writing ==> c.writing || d.watched) && (c.writing || c.watched ==> d.watched == c.watched)
            && (c.writing ==> d.writing) && c.accepted <= d.accepted
  {
    DirectQueues(cfg, c, data, wr);
    var (d, remaining) := WriteDirectly(cfg, c, data, wr);
    hide WriteDirectly;
    assert OnlyCallbacks(d.queue, Enqueue(cfg, d, remaining).queue);
  }

  lemma DirectQueues(cfg: Config, c: Conn, data: string, wr: WriteResult)
    requires WriteContract(c, data, wr)
    ensures var d := WriteDirectly(cfg, c, data, wr).0;
            && OnlyCallbacks(c.queue, d.queue) && c.accepted <= d.accepted
            && d == c.(queue := d.queue, accepted := d.accepted, taken := d.taken)
  {
  }

  lemma WriteQueues(cfg: Config, c: Conn, wr: WriteResult)
    requires WriteContract(c, c.backlog, wr)
    ensures var d := HandleWrite(cfg, c, wr);
            && OnlyCallbacks(c.queue, d.queue)
            && d == c.(queue := d.queue, writing := d.writing, watched := d.watched, backlog := d.backlog,
                       taken := d.taken, fins := d.fins)
            && (d.fins == c.fins || (d.fins == 1 && c.fins == 0))
  {
  }

  /** Running a functor keeps those behind it in place, and takes nothing back. */
  lemma HeadGoesOn(cfg: Config, c: Conn, wr: WriteResult)
    requires Legal(c, RunFunctor(wr))
    ensures var d := RunHead(cfg, c, wr);
            && c.queue[1..] <= d.queue && d.setting == c.setting
            && c.fins <= d.fins && |c.accepted| <= |d.accepted|
            && (d.writing ==> c.writing || d.watched)
            && (c.queue[0].ForceCloseFn? && c.phase.Disconnecting? ==> !d.writing)
            && (c.queue[0].ForceCloseFn? && !c.writing ==> !d.writing)
            && (c.queue[0].ShutdownFn? && !c.writing ==> c.fins < d.fins)
            && if c.queue[0].ForceCloseFn? && (c.phase.Connected? || c.phase.Disconnecting?) then
                 d.closes == c.closes + 1
               else
                 d.closes == c.closes && d.phase == c.phase
  {
    hide SendInLoop;
    if c.queue[0].SendFn? {
      SendQueues(cfg, c.(queue := c.queue[1..]), c.queue[0].message, wr);
    }
  }

  // ----- Dispatch -----

  /**
    How often one dispatch reaches handleClose: through the close callback, and through a read that meets the end of
    file.
   */
  function CloseCalls(calls: seq<Callback>, read: ReadOutcome): nat {
    if calls == [] then 0
    else (if calls[0].OnClose? || (calls[0].OnRead? && read.EndOfFile?) then 1 else 0) + CloseCalls(calls[1..], read)
  }

  /** A dispatch closes at most once, except when a hang-up comes with urgent data and without ordinary input. */
  lemma OneCloseADispatch(revents: Mask, read: ReadOutcome)
    ensures CloseCalls(Dispatch(revents), read) <= 1 <==>
            !(Has(revents, POLL_HUP) && Has(revents, POLL_PRI) && !Has(revents, POLL_IN) && read.EndOfFile?)
  {
    assert Has(revents, POLL_IN | POLL_PRI) <==> Has(revents, POLL_IN) || Has(revents, POLL_PRI);
    hide Has;
    InOrderCloses(Has(revents, POLL_HUP) && !Has(revents, POLL_IN), Has(revents, POLL_ERR),
                  Has(revents, POLL_IN | POLL_PRI), Has(revents, POLL_OUT), read);
  }

  lemma InOrderCloses(close: bool, error: bool, input: bool, output: bool, read: ReadOutcome)
    ensures CloseCalls(InOrder(close, error, input, output), read) ==
            (if close then 1 else 0) + (if input && read.EndOfFile? then 1 else 0)
  {
    var a := if close then [OnClose] else [];
    var b := if error then [OnError] else [];
    var c := if input then [OnRead] else [];
    var d := if output then [OnWrite] else [];
    assert [OnClose][1..] == [] && [OnError][1..] == [] && [OnRead][1..] == [] && [OnWrite][1..] == [];
    assert CloseCalls(a, read) == if close then 1 else 0;
    assert CloseCalls(b, read) == 0 && CloseCalls(d, read) == 0;
    assert CloseCalls(c, read) == if input && read.EndOfFile? then 1 else 0;
    hide CloseCalls;
    CloseCallsAppend(a + b + c, d, read);
    CloseCallsAppend(a + b, c, read);
    CloseCallsAppend(a, b, read);
    assert InOrder(close, error, input, output) == a + b + c + d;
  }

  lemma {:induction false} CloseCallsAppend(a: seq<Callback>, b: seq<Callback>, read: ReadOutcome)
    ensures CloseCalls(a + b, read) == CloseCalls(a, read) + CloseCalls(b, read)
  {
    if a == [] {
      assert a + b == b;
    } else {
      assert (a + b)[1..] == a[1..] + b;
      CloseCallsAppend(a[1..], b, read);
    }
  }
}
