/**
  When the write side of a connection is shut down, how often, and what may still be accepted afterwards:
  unconditionally for calls made in the loop thread, and with the exact conditions when other threads call too.
 */
module HalfClose {
  import opened ConnectionModel
  import opened ConnectionHistory

  /**
    A FIN is sent one at a time, and only when every accepted byte has reached the kernel or the connection was ended.
   */
  lemma FinOnlyWhenDrained(cfg: Config, c: Conn, op: Op)
    requires Reachable(cfg, c) && Legal(c, op)
    ensures var d := Step(cfg, c, op);
            && d.fins == c.fins + One(ShutsDown(c, op))
            && (ShutsDown(c, op) ==> c.ended || d.taken == d.accepted)
  {
    ReachableInv(cfg, c);
    OpFins(cfg, c, op);
    FinDrained(cfg, c, op);
    hide Step, Inv, Legal, ShutsDown, Reachable;
  }

  lemma FinDrained(cfg: Config, c: Conn, op: Op)
    requires Inv(c) && Legal(c, op)
    ensures var d := Step(cfg, c, op); d.fins != c.fins ==> c.ended || d.taken == d.accepted
  {
    StepKeepsInv(cfg, c, op);
    hide SendInLoop, HandleWrite, RunHead;
    match op
    case Send(data, wr) => SendQueues(cfg, c, data, wr);
    case Writable(wr) => DrainFin(cfg, c, wr);
    case RunFunctor(wr) => HeadFin(cfg, c, wr);
    case _ =>
  }

  lemma DrainFin(cfg: Config, c: Conn, wr: WriteResult)
    requires Inv(c) && WriteContract(c, c.backlog, wr)
    ensures var d := HandleWrite(cfg, c, wr); d.fins != c.fins ==> d.fins == c.fins + 1 && d.taken == d.accepted
  {
    WriteKeepsInv(cfg, c, wr);
  }

  lemma HeadFin(cfg: Config, c: Conn, wr: WriteResult)
    requires Inv(c) && Legal(c, RunFunctor(wr))
    ensures var d := RunHead(cfg, c, wr);
            d.fins != c.fins ==> d.fins == c.fins + 1 && (c.ended || d.taken == d.accepted)
  {
    hide SendInLoop;
    if c.queue[0].SendFn? {
      SendQueues(cfg, c.(queue := c.queue[1..]), c.queue[0].message, wr);
    }
  }

  // ----- Calls made in the loop thread -----

  predicate InLoop(op: Op) {
    !op.CrossTest? && !op.CrossSet? && !op.CrossQueue?
  }

  ghost predicate NoCrossCalls(queue: seq<Functor>) {
    forall i :: 0 <= i < |queue| ==> !queue[i].SendFn? && !queue[i].ShutdownFn?
  }

  ghost predicate LoopInv(c: Conn) {
    && Inv(c)
    && NoCrossCalls(c.queue) && c.setting == c.queueing == multiset{} && c.revived == 0
    && c.fins <= 1
    && (c.fins == 1 ==> (c.phase.Disconnecting? || c.phase.Disconnected?) && c.backlog == "")
    && (0 < c.shutdowns ==> c.phase.Disconnecting? || c.phase.Disconnected?)
    && (0 < c.shutdowns && c.phase.Disconnecting? ==> (c.fins == 1 <==> c.backlog == ""))
  }

  ghost predicate LoopGoesOn(c: Conn, d: Conn) {
    && LoopInv(d)
    && c.fins <= d.fins
    && (c.fins == 1 ==> d.accepted == c.accepted)
    && (d.fins != c.fins ==> !c.phase.Disconnected?)
  }

  lemma LoopSend(cfg: Config, c: Conn, data: string, wr: WriteResult)
    requires LoopInv(c) && c.phase.Connected? && WriteContract(c, data, wr)
    ensures LoopGoesOn(c, SendInLoop(cfg, c, data, wr))
  {
    SendKeepsInv(cfg, c, data, wr);
    SendQueues(cfg, c, data, wr);
    hide SendInLoop;
  }

  lemma LoopWrite(cfg: Config, c: Conn, wr: WriteResult)
    requires LoopInv(c) && WriteContract(c, c.backlog, wr)
    ensures LoopGoesOn(c, HandleWrite(cfg, c, wr))
  {
    WriteKeepsInv(cfg, c, wr);
    WriteQueues(cfg, c, wr);
  }

  lemma LoopHead(cfg: Config, c: Conn, wr: WriteResult)
    requires LoopInv(c) && Legal(c, RunFunctor(wr))
    ensures LoopGoesOn(c, RunHead(cfg, c, wr))
  {
    HeadKeepsInv(cfg, c, wr);
    assert !c.queue[0].SendFn? && !c.queue[0].ShutdownFn?;
    hide SendInLoop, ShutdownInLoop;
  }

  lemma LoopClose(cfg: Config, c: Conn)
    requires LoopInv(c) && !c.phase.Connecting?
    ensures LoopGoesOn(c, HandleClose(cfg, c))
  {
    CloseKeepsInv(cfg, c);
    hide Inv;
  }

  lemma LoopStep(cfg: Config, c: Conn, op: Op)
    requires LoopInv(c) && Legal(c, op) && InLoop(op)
    ensures LoopGoesOn(c, Step(cfg, c, op))
  {
    StepKeepsInv(cfg, c, op);
    hide SendInLoop, HandleWrite, RunHead, HandleClose;
    match op
    case Send(data, wr) =>
      if c.phase.Connected? {
        LoopSend(cfg, c, data, wr);
      }
    case Writable(wr) => LoopWrite(cfg, c, wr);
    case RunFunctor(wr) => LoopHead(cfg, c, wr);
    case Readable(read) =>
      if read.EndOfFile? {
        LoopClose(cfg, c);
      }
    case HungUp => LoopClose(cfg, c);
    case _ => hide Inv;
  }

  lemma {:induction false} LoopRun(cfg: Config, c: Conn, ops: seq<Op>, d: Conn)
    requires LoopInv(c) && Run(cfg, c, ops, d) && forall i :: 0 <= i < |ops| ==> InLoop(ops[i])
    ensures LoopInv(d) && c.fins <= d.fins && (c.fins == 1 ==> d.accepted == c.accepted)
    decreases |ops|
  {
    if ops != [] {
      LoopStep(cfg, c, ops[0]);
      LoopRun(cfg, Step(cfg, c, ops[0]), ops[1..], d);
    }
  }

  /**
    Half-close. While all calls come from the loop thread the write side is shut down at most once; when it has been,
    everything accepted has reached the kernel and nothing more will be accepted, however the run goes on.
    Between shutdown() and the close it has been exactly when the backlog is empty.
   */
  lemma HalfCloseInLoop(cfg: Config, before: seq<Op>, c: Conn, after: seq<Op>, d: Conn)
    requires Run(cfg, INITIAL, before, c) && Run(cfg, c, after, d)
    requires forall i :: 0 <= i < |before| ==> InLoop(before[i])
    requires forall i :: 0 <= i < |after| ==> InLoop(after[i])
    ensures var b, a := Told(cfg, INITIAL, before), Told(cfg, c, after);
            && b.fins + a.fins <= 1
            && (b.fins == 1 ==> b.taken == b.accepted && a.accepted == "" && a.taken == "")
            && (0 < b.shutdowns ==> c.phase.Disconnecting? || c.phase.Disconnected?)
            && (0 < b.shutdowns && c.phase.Disconnecting? ==> (b.fins == 1 <==> c.backlog == ""))
  {
    FromInitial(cfg, before, c);
    LoopRun(cfg, INITIAL, before, c);
    LoopRun(cfg, c, after, d);
    LoopStory(cfg, c, after, d);
    hide Run, Told, InLoop, Inv;
  }

  lemma LoopStory(cfg: Config, c: Conn, after: seq<Op>, d: Conn)
    requires LoopInv(c) && LoopInv(d) && Run(cfg, c, after, d) && c.fins <= d.fins
    requires c.fins == 1 ==> d.accepted == c.accepted
    ensures var a := Told(cfg, c, after);
            && c.fins + a.fins <= 1
            && (c.fins == 1 ==> c.taken == c.accepted && a.accepted == "" && a.taken == "")
  {
    RunTold(cfg, c, after, d);
    hide Run, Told;
    var a := Told(cfg, c, after);
    assert |d.accepted| == |c.accepted| + |a.accepted| && |d.taken| == |c.taken| + |a.taken|;
    assert |c.taken| + |c.backlog| == |c.accepted| && |d.taken| + |d.backlog| == |d.accepted|;
  }

  /** shutdown() in the loop thread takes effect at once: the phase is left, and the FIN is out unless bytes wait. */
  lemma ShutdownTakesEffect(cfg: Config, c: Conn)
    requires Reachable(cfg, c) && c.phase.Connected?
    ensures var d := Step(cfg, c, Shutdown);
            d.phase.Disconnecting? && d.fins <= 1 && (d.fins == 1 <==> c.backlog == "")
  {
    ReachableInv(cfg, c);
  }

  /** forceClose() from either open phase leaves it and queues the close; no send is taken any more. */
  lemma ForceCloseTakesEffect(cfg: Config, c: Conn, data: string, wr: WriteResult)
    requires c.phase.Connected? || c.phase.Disconnecting?
    ensures var d := Step(cfg, c, ForceClose);
            && d.phase.Disconnecting? && d.queue == c.queue + [ForceCloseFn]
            && (Legal(d, Send(data, wr)) ==> Step(cfg, d, Send(data, wr)) == d)
  {
  }

  // ----- Calls from other threads: what may be accepted after a FIN -----

  predicate HasBytes(f: Functor) {
    f.SendFn? && f.message != ""
  }

  /** A non-empty send is queued, or is about to be by a thread that has tested the phase. */
  ghost predicate SendWaits(c: Conn) {
    exists f :: (f in c.queue || f in c.queueing) && HasBytes(f)
  }

  /**
    A send that waits cannot find the connection open: it is disconnected, and no late call will set the phase back.
   */
  predicate ClosedForGood(c: Conn) {
    c.phase.Disconnected? && c.setting == multiset{}
  }

  ghost predicate Quiet(c: Conn) {
    Inv(c) && 0 < c.fins && (ClosedForGood(c) || !SendWaits(c))
  }

  lemma ClosedStep(cfg: Config, c: Conn, op: Op)
    requires Inv(c) && 0 < c.fins && ClosedForGood(c) && Legal(c, op)
    ensures var d := Step(cfg, c, op); ClosedForGood(d) && c.fins <= d.fins && d.accepted == c.accepted
  {
  }

  /** A send of no bytes adds none, and queues no send. */
  lemma EmptySend(cfg: Config, c: Conn, wr: WriteResult)
    requires WriteContract(c, "", wr)
    ensures var d := SendInLoop(cfg, c, "", wr);
            && d == c.(queue := d.queue) && (d.queue == c.queue || d.queue == c.queue + [WriteCompleteFn])
  {
    assert c.accepted + "" == c.accepted && c.taken + "" == c.taken && c.queue + [] == c.queue;
  }

  /** No send joins those that wait once the connection is not established. */
  lemma NoNewSends(cfg: Config, c: Conn, op: Op, f: Functor)
    requires Inv(c) && Legal(c, op) && !c.phase.Connected? && HasBytes(f)
    ensures var d := Step(cfg, c, op); f in d.queue || f in d.queueing ==> f in c.queue || f in c.queueing
  {
    hide SendInLoop, HandleWrite, RunHead;
    match op
    case Writable(wr) =>
      WriteQueues(cfg, c, wr);
      CallbacksOnly(c.queue, HandleWrite(cfg, c, wr).queue, f);
    case RunFunctor(wr) => HeadSends(cfg, c, wr, f);
    case _ =>
  }

  lemma HeadSends(cfg: Config, c: Conn, wr: WriteResult, f: Functor)
    requires Legal(c, RunFunctor(wr)) && HasBytes(f)
    ensures var d := RunHead(cfg, c, wr); f in d.queue ==> f in c.queue
    ensures RunHead(cfg, c, wr).queueing == c.queueing
  {
    hide SendInLoop;
    var rest := c.(queue := c.queue[1..]);
    if c.queue[0].SendFn? {
      SendQueues(cfg, rest, c.queue[0].message, wr);
      CallbacksOnly(rest.queue, SendInLoop(cfg, rest, c.queue[0].message, wr).queue, f);
    }
  }

  lemma NoSendStep(cfg: Config, c: Conn, op: Op)
    requires Inv(c) && 0 < c.fins && !SendWaits(c) && Legal(c, op)
    ensures var d := Step(cfg, c, op); !SendWaits(d) && c.fins <= d.fins && d.accepted == c.accepted
  {
    var d := Step(cfg, c, op);
    forall f | HasBytes(f)
      ensures !(f in d.queue || f in d.queueing)
    {
      NoNewSends(cfg, c, op, f);
    }
    hide SendInLoop;
    if op.RunFunctor? {
      assert c.queue[0] in c.queue;
      if c.queue[0].SendFn? {
        EmptySend(cfg, c.(queue := c.queue[1..]), op.wr);
      }
    }
  }

  lemma {:induction false} QuietRun(cfg: Config, c: Conn, ops: seq<Op>, d: Conn)
    requires Quiet(c) && Run(cfg, c, ops, d)
    ensures d.accepted == c.accepted
    decreases |ops|
  {
    if ops != [] {
      StepKeepsInv(cfg, c, ops[0]);
      if ClosedForGood(c) {
        ClosedStep(cfg, c, ops[0]);
      } else {
        NoSendStep(cfg, c, ops[0]);
      }
      QuietRun(cfg, Step(cfg, c, ops[0]), ops[1..], d);
    }
  }

  /** Running the queue up to a send makes it accepted when, just before it runs, a late call sets the phase. */
  lemma {:induction false} QueuedSendIsAccepted(cfg: Config, c: Conn, i: nat, call: Functor)
    returns (ops: seq<Op>, d: Conn)
    requires i < |c.queue| && HasBytes(c.queue[i]) && call in c.setting
    ensures Run(cfg, c, ops, d) && |c.accepted| < |d.accepted|
    decreases i
  {
    var op := RunFunctor(WriteFailed(BrokenPipe));
    if i == 0 {
      ops, d := [CrossSet(call), op], Step(cfg, Step(cfg, c, CrossSet(call)), op);
      RunTwo(cfg, c, CrossSet(call), op);
    } else {
      HeadGoesOn(cfg, c, op.wr);
      hide RunHead;
      var next := Step(cfg, c, op);
      assert next.queue[i - 1] == c.queue[1..][i - 1];
      ops, d := QueuedSendIsAccepted(cfg, next, i - 1, call);
      RunAfter(cfg, c, op, ops, d);
      ops := [op] + ops;
    }
  }

  /** From a thread about to queue its send, by way of the queue. */
  lemma WaitingSendIsAccepted(cfg: Config, c: Conn, call: Functor) returns (ops: seq<Op>, d: Conn)
    requires SendWaits(c) && call in c.setting
    ensures Run(cfg, c, ops, d) && |c.accepted| < |d.accepted|
  {
    var f :| (f in c.queue || f in c.queueing) && HasBytes(f);
    if f in c.queue {
      var i :| 0 <= i < |c.queue| && c.queue[i] == f;
      ops, d := QueuedSendIsAccepted(cfg, c, i, call);
    } else {
      var next := Step(cfg, c, CrossQueue(f));
      ops, d := QueuedSendIsAccepted(cfg, next, |c.queue|, call);
      RunAfter(cfg, c, CrossQueue(f), ops, d);
      ops := [CrossQueue(f)] + ops;
    }
  }

  /** However the run goes on, no message is accepted any more. */
  ghost predicate AcceptsNoMore(cfg: Config, c: Conn) {
    forall ops, d :: Run(cfg, c, ops, d) ==> Told(cfg, c, ops).accepted == ""
  }

  /**
    With calls from any thread, interrupted anywhere, once a FIN is out no byte will ever be accepted again if and only
    if no non-empty send is queued or about to be, or the connection is disconnected and no shutdown() or forceClose()
    of another thread stands between its test of the phase and its setting it.
   */
  lemma NothingAfterFin(cfg: Config, c: Conn)
    requires Reachable(cfg, c) && 0 < c.fins
    ensures AcceptsNoMore(cfg, c) <==> !SendWaits(c) || (c.phase.Disconnected? && c.setting == multiset{})
  {
    ReachableInv(cfg, c);
    if ClosedForGood(c) || !SendWaits(c) {
      forall ops, d | Run(cfg, c, ops, d)
        ensures Told(cfg, c, ops).accepted == ""
      {
        QuietRun(cfg, c, ops, d);
        RunTold(cfg, c, ops, d);
        hide Run, Told, Inv;
      }
    } else {
      var ops, d;
      if c.setting == multiset{} {
        // Still disconnecting: any thread may call forceClose(), and be slow to set the phase.
        var next := Step(cfg, c, CrossTest(ForceCloseFn));
        assert SendWaits(next);
        ops, d := WaitingSendIsAccepted(cfg, next, ForceCloseFn);
        RunAfter(cfg, c, CrossTest(ForceCloseFn), ops, d);
        ops := [CrossTest(ForceCloseFn)] + ops;
      } else {
        var call :| call in c.setting;
        ops, d := WaitingSendIsAccepted(cfg, c, call);
      }
      RunTold(cfg, c, ops, d);
      assert Run(cfg, c, ops, d) && Told(cfg, c, ops).accepted != "";
    }
  }

  // ----- Calls from other threads: how often the write side is shut down -----

  /** Calls of shutdown() that other threads have begun and the loop has not carried out. */
  function ShutdownsPending(c: Conn): nat {
    multiset(c.queue)[ShutdownFn] + c.setting[ShutdownFn] + c.queueing[ShutdownFn]
  }

  /** Besides the calls, only the drain of the backlog shuts the write side down, and it does so at most once. */
  ghost predicate FinInv(c: Conn) {
    Inv(c) && c.fins + ShutdownsPending(c) <= c.shutdowns + if c.fins == 0 then 0 else 1
  }

  lemma FinStep(cfg: Config, c: Conn, op: Op)
    requires FinInv(c) && Legal(c, op)
    ensures var d := Step(cfg, c, op);
            && FinInv(d)
            && (0 < c.fins ==> d.fins + ShutdownsPending(d) <= c.fins + ShutdownsPending(c))
  {
    StepKeepsInv(cfg, c, op);
    NotOpenAfterFin(c);
    hide Inv, SendInLoop, HandleWrite, RunHead, Passes, PassTest, SetPhase, ShutdownsPending;
    match op
    case Send(data, wr) => SendShutdowns(cfg, c, data, wr);
    case Writable(wr) => WriteShutdowns(cfg, c, wr);
    case RunFunctor(wr) => HeadShutdowns(cfg, c, wr);
    case _ => OtherShutdowns(cfg, c, op);
  }

  lemma OtherShutdowns(cfg: Config, c: Conn, op: Op)
    requires Legal(c, op) && !op.Send? && !op.Writable? && !op.RunFunctor?
    ensures var d := Step(cfg, c, op);
            if d.shutdowns == c.shutdowns then d.fins == c.fins && ShutdownsPending(d) == ShutdownsPending(c)
            else
              && c.phase.Connected? && d.shutdowns == c.shutdowns + 1
              && d.fins + ShutdownsPending(d) <= c.fins + ShutdownsPending(c) + 1
              && (d.fins == c.fins || ShutdownsPending(d) == ShutdownsPending(c))
  {
    if op.CrossTest? || op.CrossSet? || op.CrossQueue? {
      CallShutdowns(cfg, c, op);
    }
  }

  lemma CallShutdowns(cfg: Config, c: Conn, op: Op)
    requires Legal(c, op) && (op.CrossTest? || op.CrossSet? || op.CrossQueue?)
    ensures var d := Step(cfg, c, op);
            && d.fins == c.fins
            && d.shutdowns - c.shutdowns == ShutdownsPending(d) - ShutdownsPending(c)
            && (d.shutdowns == c.shutdowns || (d.shutdowns == c.shutdowns + 1 && c.phase.Connected?))
  {
    hide PassTest, SetPhase, QueueCall, ShutdownsPending;
    match op
    case CrossTest(call) =>
      if Passes(c, call) {
        TestShutdowns(c, call);
      }
    case CrossSet(call) => SetShutdowns(c, call);
    case CrossQueue(call) => QueueShutdowns(c, call);
  }

  lemma TestShutdowns(c: Conn, call: Functor)
    requires Passes(c, call)
    ensures var d := PassTest(c, call); var n := if call.ShutdownFn? then 1 else 0;
            && d.fins == c.fins && d.shutdowns == c.shutdowns + n && (n == 1 ==> c.phase.Connected?)
            && ShutdownsPending(d) == ShutdownsPending(c) + n
  {
  }

  lemma SetShutdowns(c: Conn, call: Functor)
    requires call in c.setting
    ensures var d := SetPhase(c, call);
            d.fins == c.fins && d.shutdowns == c.shutdowns && ShutdownsPending(d) == ShutdownsPending(c)
  {
  }

  lemma QueueShutdowns(c: Conn, call: Functor)
    requires call in c.queueing
    ensures var d := QueueCall(c, call);
            d.fins == c.fins && d.shutdowns == c.shutdowns && ShutdownsPending(d) == ShutdownsPending(c)
  {
    assert multiset(c.queue + [call]) == multiset(c.queue) + multiset{call};
  }

  lemma NotOpenAfterFin(c: Conn)
    requires Inv(c)
    ensures 0 < c.fins ==> c.phase.Disconnecting? || (c.phase.Disconnected? && !c.writing)
  {
  }

  lemma SendShutdowns(cfg: Config, c: Conn, data: string, wr: WriteResult)
    requires WriteContract(c, data, wr)
    ensures var d := SendInLoop(cfg, c, data, wr);
            ShutdownsPending(d) == ShutdownsPending(c) && d.fins == c.fins && d.shutdowns == c.shutdowns
  {
    hide SendInLoop;
    SendQueues(cfg, c, data, wr);
    CallbacksOnly(c.queue, SendInLoop(cfg, c, data, wr).queue, ShutdownFn);
  }

  lemma WriteShutdowns(cfg: Config, c: Conn, wr: WriteResult)
    requires WriteContract(c, c.backlog, wr)
    ensures var d := HandleWrite(cfg, c, wr);
            && ShutdownsPending(d) == ShutdownsPending(c) && d.shutdowns == c.shutdowns
            && (d.fins == c.fins || (d.fins == 1 && c.fins == 0))
  {
    hide HandleWrite;
    WriteQueues(cfg, c, wr);
    CallbacksOnly(c.queue, HandleWrite(cfg, c, wr).queue, ShutdownFn);
  }

  lemma FirstCounts(queue: seq<Functor>)
    requires queue != []
    ensures multiset(queue)[ShutdownFn] == multiset(queue[1..])[ShutdownFn] + if queue[0].ShutdownFn? then 1 else 0
  {
    assert queue == [queue[0]] + queue[1..];
  }

  lemma HeadShutdowns(cfg: Config, c: Conn, wr: WriteResult)
    requires Legal(c, RunFunctor(wr))
    ensures var d := RunHead(cfg, c, wr);
            && ShutdownsPending(d) <= ShutdownsPending(c) && c.fins <= d.fins && d.shutdowns == c.shutdowns
            && d.fins + ShutdownsPending(d) <= c.fins + ShutdownsPending(c)
  {
    FirstCounts(c.queue);
    var rest := c.(queue := c.queue[1..]);
    var n := if c.queue[0].ShutdownFn? then 1 else 0;
    assert ShutdownsPending(c) == ShutdownsPending(rest) + n;
    if c.queue[0].SendFn? {
      SendShutdowns(cfg, rest, c.queue[0].message, wr);
    }
    hide SendInLoop;
    if !c.queue[0].SendFn? {
      var d := RunHead(cfg, c, wr);
      assert ShutdownsPending(d) == ShutdownsPending(rest) && d.fins <= c.fins + n;
    }
  }

  lemma {:induction false} FinRun(cfg: Config, c: Conn, ops: seq<Op>, d: Conn)
    requires FinInv(c) && Run(cfg, c, ops, d)
    ensures FinInv(d)
    ensures 0 < c.fins ==> d.fins + ShutdownsPending(d) <= c.fins + ShutdownsPending(c)
    decreases |ops|
  {
    if ops != [] {
      FinStep(cfg, c, ops[0]);
      FinNotTakenBack(cfg, c, ops[0]);
      FinRun(cfg, Step(cfg, c, ops[0]), ops[1..], d);
    }
  }

  lemma FinNotTakenBack(cfg: Config, c: Conn, op: Op)
    requires Legal(c, op)
    ensures c.fins <= Step(cfg, c, op).fins
  {
    hide SendInLoop, HandleWrite, RunHead;
    match op
    case Send(data, wr) => SendQueues(cfg, c, data, wr);
    case Writable(wr) => WriteQueues(cfg, c, wr);
    case RunFunctor(wr) => HeadGoesOn(cfg, c, wr);
    case _ =>
  }

  /** A queued shutdown reaches the socket: a hang-up stops the channel from writing. */
  lemma {:induction false} QueuedShutdownRuns(cfg: Config, c: Conn, i: nat) returns (ops: seq<Op>, d: Conn)
    requires i < |c.queue| && c.queue[i] == ShutdownFn && (c.writing ==> c.watched)
    ensures Run(cfg, c, ops, d) && c.fins < d.fins
    decreases i, c.writing
  {
    hide RunHead;
    var op := RunFunctor(WriteFailed(BrokenPipe));
    if c.writing {
      op := HungUp;
      ops, d := QueuedShutdownRuns(cfg, Step(cfg, c, HungUp), i);
    } else {
      HeadGoesOn(cfg, c, op.wr);
      var next := Step(cfg, c, op);
      if i == 0 {
        ops, d := [], next;
        NoSteps(cfg, next);
      } else {
        assert next.queue[i - 1] == c.queue[1..][i - 1];
        ops, d := QueuedShutdownRuns(cfg, next, i - 1);
      }
    }
    RunAfter(cfg, c, op, ops, d);
    ops := [op] + ops;
  }

  /** So does one queued behind a forced close, whatever the poller watches. */
  lemma {:induction false} ForcedShutdownRuns(cfg: Config, c: Conn, i: nat, j: nat) returns (ops: seq<Op>, d: Conn)
    requires Inv(c) && 0 < c.fins && i < j < |c.queue| && c.queue[i] == ForceCloseFn && c.queue[j] == ShutdownFn
    ensures Run(cfg, c, ops, d) && c.fins < d.fins
    decreases i
  {
    var op := RunFunctor(WriteFailed(BrokenPipe));
    StepKeepsInv(cfg, c, op);
    HeadGoesOn(cfg, c, op.wr);
    NotOpenAfterFin(c);
    hide RunHead, Inv;
    var next := Step(cfg, c, op);
    assert next.queue[j - 1] == c.queue[1..][j - 1];
    if i == 0 {
      ops, d := QueuedShutdownRuns(cfg, next, j - 1);
    } else {
      assert next.queue[i - 1] == c.queue[1..][i - 1];
      ops, d := ForcedShutdownRuns(cfg, next, i - 1, j - 1);
    }
    RunAfter(cfg, c, op, ops, d);
    ops := [op] + ops;
  }

  /** The channel writes and is not watched: neither a drain nor a hang-up will be reported. */
  predicate Unheard(c: Conn) {
    c.writing && !c.watched
  }

  ghost predicate ForceAhead(queue: seq<Functor>) {
    exists i, j :: 0 <= i < j < |queue| && queue[i] == ForceCloseFn && queue[j] == ShutdownFn
  }

  /** Every shutdown that is still to come is queued where nothing can stop the channel from writing before it. */
  ghost predicate ShutdownsStuck(c: Conn) {
    && Unheard(c) && ShutdownFn !in c.setting && ShutdownFn !in c.queueing
    && !ForceAhead(c.queue)
  }

  /** One that another thread has begun is queued, behind a forced close if there is one in place. */
  lemma BegunShutdownRuns(cfg: Config, c: Conn, forced: nat) returns (ops: seq<Op>, d: Conn)
    requires Inv(c) && 0 < c.fins && (ShutdownFn in c.setting || ShutdownFn in c.queueing)
    requires Unheard(c) ==> forced < |c.queue| && c.queue[forced] == ForceCloseFn
    ensures Run(cfg, c, ops, d) && c.fins < d.fins
    decreases ShutdownFn !in c.queueing
  {
    if ShutdownFn in c.queueing {
      var op := CrossQueue(ShutdownFn);
      var next := Step(cfg, c, op);
      StepKeepsInv(cfg, c, op);
      if Unheard(c) {
        ops, d := ForcedShutdownRuns(cfg, next, forced, |c.queue|);
      } else {
        ops, d := QueuedShutdownRuns(cfg, next, |c.queue|);
      }
      RunAfter(cfg, c, op, ops, d);
      ops := [op] + ops;
    } else {
      var op := CrossSet(ShutdownFn);
      StepKeepsInv(cfg, c, op);
      ops, d := BegunShutdownRuns(cfg, Step(cfg, c, op), forced);
      RunAfter(cfg, c, op, ops, d);
      ops := [op] + ops;
    }
  }

  lemma PendingShutdownRuns(cfg: Config, c: Conn) returns (ops: seq<Op>, d: Conn)
    requires Inv(c) && 0 < c.fins && 0 < ShutdownsPending(c) && !ShutdownsStuck(c)
    ensures Run(cfg, c, ops, d) && c.fins < d.fins
  {
    if !Unheard(c) && ShutdownFn in c.queue {
      var i :| 0 <= i < |c.queue| && c.queue[i] == ShutdownFn;
      ops, d := QueuedShutdownRuns(cfg, c, i);
    } else if ForceAhead(c.queue) {
      var i, j :| 0 <= i < j < |c.queue| && c.queue[i] == ForceCloseFn && c.queue[j] == ShutdownFn;
      ops, d := ForcedShutdownRuns(cfg, c, i, j);
    } else if Unheard(c) {
      StepKeepsInv(cfg, c, ForceClose);
      ops, d := BegunShutdownRuns(cfg, Step(cfg, c, ForceClose), |c.queue|);
      RunAfter(cfg, c, ForceClose, ops, d);
      ops := [ForceClose] + ops;
    } else {
      ops, d := BegunShutdownRuns(cfg, c, 0);
    }
  }

  /** Stuck shutdowns stay stuck, until none is left. */
  lemma StuckStep(cfg: Config, c: Conn, op: Op)
    requires Inv(c) && 0 < c.fins && ShutdownsStuck(c) && Legal(c, op)
    ensures var d := Step(cfg, c, op); d.fins == c.fins && (ShutdownsStuck(d) || ShutdownsPending(d) == 0)
  {
    hide SendInLoop, RunHead, Inv;
    NotOpenAfterFin(c);
    match op
    case RunFunctor(wr) => StuckHead(cfg, c, wr);
    case ForceClose => ForceQueued(c.queue, ForceCloseFn);
    case CrossQueue(call) => ForceQueued(c.queue, call);
    case _ =>
  }

  lemma ForceQueued(queue: seq<Functor>, f: Functor)
    requires !ForceAhead(queue) && f != ShutdownFn
    ensures !ForceAhead(queue + [f])
  {
  }

  lemma StuckHead(cfg: Config, c: Conn, wr: WriteResult)
    requires ShutdownsStuck(c) && Legal(c, RunFunctor(wr))
    ensures var d := RunHead(cfg, c, wr); d.fins == c.fins && (ShutdownsStuck(d) || ShutdownsPending(d) == 0)
  {
    hide SendInLoop;
    var rest := c.queue[1..];
    assert c.queue == [c.queue[0]] + rest;
    forall i, j | 0 <= i < j < |rest| && rest[i] == ForceCloseFn
      ensures rest[j] != ShutdownFn
    {
      assert c.queue[i + 1] == rest[i] && c.queue[j + 1] == rest[j];
    }
    if c.queue[0].SendFn? {
      var d := SendInLoop(cfg, c.(queue := rest), c.queue[0].message, wr);
      SendQueues(cfg, c.(queue := rest), c.queue[0].message, wr);
      CallbacksKeepOrder(rest, d.queue);
    } else if c.queue[0].ForceCloseFn? {
      forall j | 0 <= j < |rest|
        ensures rest[j] != ShutdownFn
      {
        assert c.queue[j + 1] == rest[j];
      }
    }
  }

  lemma CallbacksKeepOrder(before: seq<Functor>, after: seq<Functor>)
    requires OnlyCallbacks(before, after) && !ForceAhead(before)
    ensures !ForceAhead(after)
  {
  }

  lemma {:induction false} StuckRun(cfg: Config, c: Conn, ops: seq<Op>, d: Conn)
    requires FinInv(c) && 0 < c.fins && (ShutdownsStuck(c) || ShutdownsPending(c) == 0) && Run(cfg, c, ops, d)
    ensures d.fins == c.fins
    decreases |ops|
  {
    if ops != [] {
      FinStep(cfg, c, ops[0]);
      FinNotTakenBack(cfg, c, ops[0]);
      if ShutdownsStuck(c) {
        StuckStep(cfg, c, ops[0]);
      }
      StuckRun(cfg, Step(cfg, c, ops[0]), ops[1..], d);
    }
  }

  ghost predicate MayFinAgain(cfg: Config, c: Conn) {
    exists ops, d :: Run(cfg, c, ops, d) && 0 < Told(cfg, c, ops).fins
  }

  /**
    With calls from any thread, interrupted anywhere, the write side is shut down at most once more often than
    shutdown() found the connection established. After the first time it can happen again if and only if a shutdown()
    that another thread has begun is still to be carried out, and not every such call is stuck in the queue of a
    channel that writes, is not watched, and has no forced close queued ahead of it.
   */
  lemma FurtherFin(cfg: Config, start: seq<Op>, c: Conn)
    requires Run(cfg, INITIAL, start, c)
    ensures Told(cfg, INITIAL, start).fins <= Told(cfg, INITIAL, start).shutdowns + 1
    ensures 0 < Told(cfg, INITIAL, start).fins ==>
              (MayFinAgain(cfg, c) <==> 0 < ShutdownsPending(c) && !ShutdownsStuck(c))
  {
    FinRun(cfg, INITIAL, start, c);
    FromInitial(cfg, start, c);
    if 0 < c.fins {
      if 0 < ShutdownsPending(c) && !ShutdownsStuck(c) {
        var ops, d := PendingShutdownRuns(cfg, c);
        RunTold(cfg, c, ops, d);
        assert Run(cfg, c, ops, d) && 0 < Told(cfg, c, ops).fins;
      } else {
        forall ops, d | Run(cfg, c, ops, d)
          ensures Told(cfg, c, ops).fins == 0
        {
          StuckRun(cfg, c, ops, d);
          RunTold(cfg, c, ops, d);
        }
      }
    }
  }

  // ----- Runs in which calls from other threads break what holds inside the loop -----

  /**
    A send that tested the phase before shutdown() and is queued after it is accepted after the FIN, and never
    delivered.
   */
  lemma SendTestedBeforeShutdown(cfg: Config) returns (before: seq<Op>, c: Conn, after: seq<Op>, d: Conn)
    ensures Run(cfg, INITIAL, before, c) && c.fins == 1 && c.queue == [] && c.accepted == ""
    ensures before <= after && Run(cfg, INITIAL, after, d) && d.accepted == "x" && d.taken == ""
  {
    hide Run, HandleWrite, HandleClose;
    NoSteps(cfg, INITIAL);
    before, c := Then(cfg, [], INITIAL, Established);
    before, c := Then(cfg, before, c, CrossTest(SendFn("x")));
    before, c := Then(cfg, before, c, Shutdown);
    assert c.fins == 1 && c.queue == [] && c.accepted == c.taken == c.backlog == "" && c.phase.Disconnecting?;
    hide ShutdownInLoop;
    after, d := Then(cfg, before, c, CrossQueue(SendFn("x")));
    assert d.queue == [SendFn("x")] && d == c.(queue := d.queue, queueing := d.queueing);
    after, d := Then(cfg, after, d, RunFunctor(WriteFailed(BrokenPipe)));
  }

  lemma ShutdownQueuedWhileDraining(cfg: Config) returns (ops: seq<Op>, c: Conn)
    requires !cfg.onHighWater
    ensures Run(cfg, INITIAL, ops, c) && c.phase.Disconnecting? && c.writing && c.watched && c.backlog == "x"
    ensures c.queue == [ShutdownFn] && c.fins == 0 && c.shutdowns == 1
  {
    hide Run, HandleWrite, HandleClose, RunHead;
    NoSteps(cfg, INITIAL);
    ops, c := Then(cfg, [], INITIAL, Established);
    ops, c := Then(cfg, ops, c, Send("x", WriteFailed(WouldBlock)));
    assert c.backlog == "x" && c.phase.Connected? && c.writing && c.watched;
    assert c.queue == [] && c.fins == c.shutdowns == 0;
    hide Step, SendInLoop;
    ops, c := CrossCallRuns(cfg, ops, c, ShutdownFn);
  }

  /**
    A shutdown() from another thread while bytes are waiting: the drain sends a FIN, and the queued call sends one
    again.
   */
  lemma ShutdownWhileDraining(cfg: Config)
    requires !cfg.onHighWater && !cfg.onWriteComplete
    ensures exists ops, d :: Run(cfg, INITIAL, ops, d) && d.fins == 2 && d.shutdowns == 1
  {
    hide Run, SendInLoop, HandleClose;
    var ops, c := ShutdownQueuedWhileDraining(cfg);
    ops, c := Then(cfg, ops, c, Writable(Wrote(1)));
    assert c.queue == [ShutdownFn] && !c.writing && c.fins == 1 && c.shutdowns == 1;
    hide HandleWrite;
    ops, c := Then(cfg, ops, c, RunFunctor(WriteFailed(BrokenPipe)));
  }

  /** Threads whose calls of shutdown() test the phase together each send a FIN: any number of them. */
  lemma RacingShutdowns(cfg: Config, n: nat)
    ensures exists ops, d :: Run(cfg, INITIAL, ops, d) && d.fins == n && d.shutdowns == n
  {
    hide Run;
    var ops, c := TestedTogether(cfg, n);
    var k := n;
    while 0 < k
      invariant k <= n && Run(cfg, INITIAL, ops, c) && c.fins == n - k && c.shutdowns == n
      invariant c.setting[ShutdownFn] == k && c.queue == [] && !c.writing
    {
      ops, c := Then(cfg, ops, c, CrossSet(ShutdownFn));
      ops, c := Then(cfg, ops, c, CrossQueue(ShutdownFn));
      ops, c := Then(cfg, ops, c, RunFunctor(WriteFailed(BrokenPipe)));
      k := k - 1;
    }
  }

  lemma {:induction false} TestedTogether(cfg: Config, n: nat) returns (ops: seq<Op>, c: Conn)
    ensures Run(cfg, INITIAL, ops, c) && c.phase.Connected? && c.setting[ShutdownFn] == c.shutdowns == n
    ensures c.queue == [] && !c.writing && c.fins == 0
  {
    hide Run;
    if n == 0 {
      NoSteps(cfg, INITIAL);
      ops, c := Then(cfg, [], INITIAL, Established);
    } else {
      ops, c := TestedTogether(cfg, n - 1);
      ops, c := Then(cfg, ops, c, CrossTest(ShutdownFn));
    }
  }
}
