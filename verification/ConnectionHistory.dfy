/**
  What each operation on a connection does, told from what it finds and what the kernel answers, and summed up over
  whole runs: the histories in a connection's state are these sums, and its queue is what the run put in and did not
  take out.
 */
module ConnectionHistory {
  import opened Bytes
  import opened ConnectionModel

  // ----- One operation -----

  /** The message an operation accepts. */
  function Message(c: Conn, op: Op): string {
    match op
    case Send(data, _) => if c.phase.Connected? then data else ""
    case RunFunctor(_) =>
      if c.queue != [] && c.queue[0].SendFn? && !c.phase.Disconnected? then c.queue[0].message else ""
    case _ => ""
  }

  predicate IsSend(c: Conn, op: Op) {
    (op.Send? && c.phase.Connected?) ||
    (op.RunFunctor? && c.queue != [] && c.queue[0].SendFn? && !c.phase.Disconnected?)
  }

  /** The bytes it offers to write(2): a message when nothing waits, or the backlog when there is room. */
  function Offered(c: Conn, op: Op): Option<string> {
    if IsSend(c, op) && !c.writing && c.backlog == "" then Some(Message(c, op))
    else if op.Writable? && c.writing then Some(c.backlog)
    else None
  }

  /** How many of them write(2) takes. */
  function Answer(op: Op): nat {
    match op
    case Send(_, Wrote(n)) => n
    case Writable(Wrote(n)) => n
    case RunFunctor(Wrote(n)) => n
    case _ => 0
  }

  predicate HasWritten(op: Op) {
    match op
    case Send(_, wr) => wr.Wrote?
    case Writable(wr) => wr.Wrote?
    case RunFunctor(wr) => wr.Wrote?
    case _ => false
  }

  function TakenBy(c: Conn, op: Op): string {
    match Offered(c, op)
    case Some(bytes) => if Answer(op) <= |bytes| then bytes[..Answer(op)] else bytes
    case None => ""
  }

  /** write(2) took the last byte that was waiting. */
  predicate TookAll(c: Conn, op: Op) {
    match Offered(c, op)
    case Some(bytes) => HasWritten(op) && Answer(op) == |bytes|
    case None => false
  }

  predicate ShutsDown(c: Conn, op: Op) {
    match op
    case Shutdown => c.phase.Connected? && !c.writing
    case RunFunctor(_) => c.queue != [] && c.queue[0].ShutdownFn? && !c.writing
    case Writable(_) => c.phase.Disconnecting? && TookAll(c, op)
    case _ => false
  }

  predicate IsOpen(c: Conn) {
    c.phase.Connected? || c.phase.Disconnecting?
  }

  predicate Closes(c: Conn, op: Op) {
    match op
    case HungUp => true
    case Readable(read) => read.EndOfFile?
    case RunFunctor(_) => c.queue != [] && c.queue[0].ForceCloseFn? && IsOpen(c)
    case _ => false
  }

  predicate CallsShutdown(c: Conn, op: Op) {
    c.phase.Connected? && (op.Shutdown? || (op.CrossTest? && op.call.ShutdownFn?))
  }

  predicate Revives(c: Conn, op: Op) {
    op.CrossSet? && c.phase.Disconnected?
  }

  predicate Ends(c: Conn, op: Op) {
    Closes(c, op) || (op.Destroyed? && c.phase.Connected?)
  }

  predicate Drops(c: Conn, op: Op) {
    op.Destroyed? && c.phase.Disconnecting? && !c.ended
  }

  function PhaseAfter(c: Conn, op: Op): Phase {
    if Closes(c, op) then Disconnected
    else match op
      case Established => Connected
      case Destroyed => if c.phase.Connected? then Disconnected else c.phase
      case Shutdown => if c.phase.Connected? then Disconnecting else c.phase
      case ForceClose => if IsOpen(c) then Disconnecting else c.phase
      case CrossSet(_) => Disconnecting
      case _ => c.phase
  }

  /** A call's functor that it puts into the queue. */
  function CallBy(c: Conn, op: Op): seq<Functor> {
    match op
    case ForceClose => if IsOpen(c) then [ForceCloseFn] else []
    case CrossQueue(call) => [call]
    case _ => []
  }

  /** The user's callback: for a backlog that crosses the mark upwards, or when write(2) took all there was. */
  function CallbackBy(cfg: Config, c: Conn, op: Op): seq<Functor> {
    var left := |c.backlog| + |Message(c, op)| - |TakenBy(c, op)|;
    if cfg.onHighWater && |c.backlog| < cfg.highWaterMark <= left then [HighWaterFn(left)]
    else if cfg.onWriteComplete && TookAll(c, op) then [WriteCompleteFn]
    else []
  }

  // ----- The state follows -----

  /** What a connection remembers of its run. */
  datatype Story = Story(
    accepted: string, taken: string, fins: nat, closes: nat, shutdowns: nat, revived: nat, ended: bool, dropped: bool)

  const NOTHING := Story("", "", 0, 0, 0, 0, false, false)

  function StoryIn(c: Conn): Story {
    Story(c.accepted, c.taken, c.fins, c.closes, c.shutdowns, c.revived, c.ended, c.dropped)
  }

  function One(b: bool): nat {
    if b then 1 else 0
  }

  function Chapter(c: Conn, op: Op): Story {
    Story(Message(c, op), TakenBy(c, op), One(ShutsDown(c, op)), One(Closes(c, op)), One(CallsShutdown(c, op)),
          One(Revives(c, op)), Ends(c, op), Drops(c, op))
  }

  function Plus(a: Story, b: Story): Story {
    Story(a.accepted + b.accepted, a.taken + b.taken, a.fins + b.fins, a.closes + b.closes,
          a.shutdowns + b.shutdowns, a.revived + b.revived, a.ended || b.ended, a.dropped || b.dropped)
  }

  lemma SendTold(cfg: Config, c: Conn, data: string, wr: WriteResult)
    requires WriteContract(c, data, wr) && !c.phase.Disconnected?
    ensures var d := SendInLoop(cfg, c, data, wr);
            && d.accepted == c.accepted + data
            && d.taken == c.taken + (if !c.writing && c.backlog == "" && wr.Wrote? then data[..wr.n] else "")
            && d == c.(queue := d.queue, writing := d.writing, watched := d.watched, backlog := d.backlog,
                       accepted := d.accepted, taken := d.taken)
  {
    assert c.taken + "" == c.taken;
    hide WriteContract;
  }

  lemma WriteTold(cfg: Config, c: Conn, wr: WriteResult)
    requires Inv(c) && WriteContract(c, c.backlog, wr)
    ensures var d := HandleWrite(cfg, c, wr);
            && d.accepted == c.accepted
            && d.taken == c.taken + (if c.writing && wr.Wrote? then c.backlog[..wr.n] else "")
            && d.fins == c.fins + One(c.phase.Disconnecting? && c.writing && wr.Wrote? && wr.n == |c.backlog|)
            && d == c.(queue := d.queue, writing := d.writing, watched := d.watched, backlog := d.backlog,
                       taken := d.taken, fins := d.fins)
  {
    assert c.taken + "" == c.taken;
  }

  ghost predicate Follows(c: Conn, op: Op, d: Conn) {
    StoryIn(d) == Plus(StoryIn(c), Chapter(c, op)) && d.phase == PhaseAfter(c, op)
  }

  predicate IsQuiet(op: Op) {
    !op.Send? && !op.Writable? && !op.RunFunctor?
  }

  lemma QuietChapter(c: Conn, op: Op)
    requires IsQuiet(op)
    ensures Chapter(c, op) ==
            Story("", "", One(ShutsDown(c, op)), One(Closes(c, op)), One(CallsShutdown(c, op)), One(Revives(c, op)),
                  Ends(c, op), Drops(c, op))
  {
  }

  lemma QuietBytes(cfg: Config, c: Conn, op: Op)
    requires Legal(c, op) && IsQuiet(op)
    ensures var d := Step(cfg, c, op); d.accepted == c.accepted && d.taken == c.taken
  {
    hide SendInLoop, HandleWrite, RunHead;
    match op
    case Destroyed =>
    case Shutdown =>
    case CrossTest(_) =>
    case _ =>
  }

  lemma QuietEnds(cfg: Config, c: Conn, op: Op)
    requires Legal(c, op) && IsQuiet(op)
    ensures var d := Step(cfg, c, op);
            d.fins == c.fins + One(ShutsDown(c, op)) && d.closes == c.closes + One(Closes(c, op))
  {
    hide SendInLoop, HandleWrite, RunHead;
    match op
    case Shutdown =>
    case CrossTest(_) =>
    case _ =>
  }

  lemma QuietFlags(cfg: Config, c: Conn, op: Op)
    requires Legal(c, op) && IsQuiet(op)
    ensures var d := Step(cfg, c, op);
            d.ended == (c.ended || Ends(c, op)) && d.dropped == (c.dropped || Drops(c, op))
  {
    hide SendInLoop, HandleWrite, RunHead;
    match op
    case Destroyed =>
    case CrossTest(_) =>
    case _ =>
  }

  lemma QuietCalls(cfg: Config, c: Conn, op: Op)
    requires Legal(c, op) && IsQuiet(op)
    ensures var d := Step(cfg, c, op);
            d.shutdowns == c.shutdowns + One(CallsShutdown(c, op)) && d.revived == c.revived + One(Revives(c, op))
  {
    hide SendInLoop, HandleWrite, RunHead;
    match op
    case Shutdown =>
    case CrossTest(_) =>
    case _ =>
  }

  lemma QuietPhase(cfg: Config, c: Conn, op: Op)
    requires Legal(c, op) && IsQuiet(op)
    ensures Step(cfg, c, op).phase == PhaseAfter(c, op)
  {
    match op
    case Shutdown =>
    case ForceClose =>
    case CrossTest(_) =>
    case _ =>
  }

  /** An operation that neither sends nor writes nor runs a functor adds no bytes. */
  lemma QuietTold(cfg: Config, c: Conn, op: Op)
    requires Legal(c, op) && IsQuiet(op)
    ensures Follows(c, op, Step(cfg, c, op))
  {
    QuietChapter(c, op);
    QuietBytes(cfg, c, op);
    QuietEnds(cfg, c, op);
    QuietFlags(cfg, c, op);
    QuietCalls(cfg, c, op);
    QuietPhase(cfg, c, op);
    assert c.accepted + "" == c.accepted && c.taken + "" == c.taken;
    hide Step, Chapter, PhaseAfter, Legal;
  }

  lemma SendOpTold(cfg: Config, c: Conn, data: string, wr: WriteResult)
    requires Legal(c, Send(data, wr))
    ensures Follows(c, Send(data, wr), Step(cfg, c, Send(data, wr)))
  {
    assert c.accepted + "" == c.accepted && c.taken + "" == c.taken;
    if c.phase.Connected? {
      SendTold(cfg, c, data, wr);
    }
    hide SendInLoop;
  }

  lemma WriteChapter(c: Conn, wr: WriteResult)
    requires Inv(c) && WriteContract(c, c.backlog, wr)
    ensures Chapter(c, Writable(wr)) ==
            Story("", if c.writing && wr.Wrote? then c.backlog[..wr.n] else "",
                  One(c.phase.Disconnecting? && c.writing && wr.Wrote? && wr.n == |c.backlog|), 0, 0, 0, false, false)
  {
  }

  lemma WriteOpTold(cfg: Config, c: Conn, wr: WriteResult)
    requires Inv(c) && Legal(c, Writable(wr))
    ensures Follows(c, Writable(wr), Step(cfg, c, Writable(wr)))
  {
    assert c.accepted + "" == c.accepted;
    WriteTold(cfg, c, wr);
    WriteChapter(c, wr);
    hide HandleWrite, Chapter, Inv;
  }

  lemma HeadQuiet(cfg: Config, c: Conn, wr: WriteResult)
    requires Legal(c, RunFunctor(wr)) && !(c.queue[0].SendFn? && !c.phase.Disconnected?)
    ensures Chapter(c, RunFunctor(wr)) ==
            Story("", "", One(ShutsDown(c, RunFunctor(wr))), One(Closes(c, RunFunctor(wr))), 0, 0,
                  Ends(c, RunFunctor(wr)), false)
    ensures var d := RunHead(cfg, c, wr); d.accepted == c.accepted && d.taken == c.taken
  {
  }

  lemma HeadSendTold(cfg: Config, c: Conn, wr: WriteResult)
    requires Legal(c, RunFunctor(wr)) && c.queue[0].SendFn? && !c.phase.Disconnected?
    ensures Follows(c, RunFunctor(wr), RunHead(cfg, c, wr))
  {
    SendTold(cfg, c.(queue := c.queue[1..]), c.queue[0].message, wr);
    hide SendInLoop;
  }

  lemma HeadTold(cfg: Config, c: Conn, wr: WriteResult)
    requires Legal(c, RunFunctor(wr))
    ensures Follows(c, RunFunctor(wr), RunHead(cfg, c, wr))
  {
    if c.queue[0].SendFn? && !c.phase.Disconnected? {
      HeadSendTold(cfg, c, wr);
    } else {
      HeadQuiet(cfg, c, wr);
      hide Chapter, SendInLoop;
      assert c.accepted + "" == c.accepted && c.taken + "" == c.taken;
    }
  }

  /** Every operation adds its chapter to the story, and takes the phase where it says. */
  lemma OpTold(cfg: Config, c: Conn, op: Op)
    requires Inv(c) && Legal(c, op)
    ensures var d := Step(cfg, c, op); StoryIn(d) == Plus(StoryIn(c), Chapter(c, op)) && d.phase == PhaseAfter(c, op)
  {
    hide Inv, StoryIn, Plus, Chapter, PhaseAfter, RunHead;
    match op
    case Send(data, wr) => SendOpTold(cfg, c, data, wr);
    case Writable(wr) => WriteOpTold(cfg, c, wr);
    case RunFunctor(wr) => HeadTold(cfg, c, wr);
    case _ => QuietTold(cfg, c, op);
  }

  lemma OpFins(cfg: Config, c: Conn, op: Op)
    requires Inv(c) && Legal(c, op)
    ensures Step(cfg, c, op).fins == c.fins + One(ShutsDown(c, op))
  {
    OpTold(cfg, c, op);
    hide Inv, Legal, Step, Message, TakenBy, PhaseAfter;
  }

  // ----- Runs -----

  /** The story of a run, told from its operations. */
  function Told(cfg: Config, c: Conn, ops: seq<Op>): Story
    decreases |ops|
  {
    if ops == [] || !Legal(c, ops[0]) then NOTHING
    else Plus(Chapter(c, ops[0]), Told(cfg, Step(cfg, c, ops[0]), ops[1..]))
  }

  lemma PlusAssociates(a: Story, b: Story, c: Story)
    ensures Plus(Plus(a, b), c) == Plus(a, Plus(b, c))
  {
    Associate(a.accepted, b.accepted, c.accepted);
    Associate(a.taken, b.taken, c.taken);
  }

  /** A connection remembers exactly the story of its run. */
  lemma {:induction false} RunTold(cfg: Config, c: Conn, ops: seq<Op>, d: Conn)
    requires Inv(c) && Run(cfg, c, ops, d)
    ensures StoryIn(d) == Plus(StoryIn(c), Told(cfg, c, ops))
    decreases |ops|
  {
    if ops == [] {
      NothingPlus(StoryIn(c));
    } else {
      var m := Step(cfg, c, ops[0]);
      StepKeepsInv(cfg, c, ops[0]);
      OpTold(cfg, c, ops[0]);
      hide Inv, Step, Legal, Chapter, Plus, StoryIn, PhaseAfter;
      RunTold(cfg, m, ops[1..], d);
      PlusAssociates(StoryIn(c), Chapter(c, ops[0]), Told(cfg, m, ops[1..]));
    }
  }

  lemma NothingPlus(t: Story)
    ensures Plus(t, NOTHING) == t
  {
    assert t.accepted + "" == t.accepted && t.taken + "" == t.taken;
  }

  lemma FromInitial(cfg: Config, ops: seq<Op>, c: Conn)
    requires Run(cfg, INITIAL, ops, c)
    ensures Inv(c) && StoryIn(c) == Told(cfg, INITIAL, ops)
  {
    RunKeepsInv(cfg, INITIAL, ops, c);
    RunTold(cfg, INITIAL, ops, c);
    hide Run, Told, Inv;
    assert StoryIn(INITIAL) == NOTHING;
    PlusNothing(Told(cfg, INITIAL, ops));
  }

  lemma PlusNothing(t: Story)
    ensures Plus(NOTHING, t) == t
  {
    assert "" + t.accepted == t.accepted && "" + t.taken == t.taken;
  }

  /**
    In every run the bytes write(2) took, and then the backlog, are the messages accepted, in order and whole. The
    channel writes exactly when there is a backlog, until a call that tested the phase before the close sets it after.
   */
  lemma BytesConserved(cfg: Config, ops: seq<Op>, c: Conn)
    requires Run(cfg, INITIAL, ops, c)
    ensures Told(cfg, INITIAL, ops).taken + c.backlog == Told(cfg, INITIAL, ops).accepted
    ensures var t := Told(cfg, INITIAL, ops);
            !c.phase.Disconnected? && t.revived == 0 ==> (c.writing <==> c.backlog != "")
  {
    FromInitial(cfg, ops, c);
  }

  // ----- The queue -----

  function Rest(c: Conn, op: Op): seq<Functor> {
    if op.RunFunctor? && c.queue != [] then c.queue[1..] else c.queue
  }

  lemma SendQueuesTold(cfg: Config, c: Conn, data: string, wr: WriteResult)
    requires WriteContract(c, data, wr) && !c.phase.Disconnected?
    ensures var d := SendInLoop(cfg, c, data, wr);
            var direct := !c.writing && c.backlog == "" && wr.Wrote?;
            var left := |c.backlog| + |data| - if direct then wr.n else 0;
            d.queue == c.queue +
              if cfg.onHighWater && |c.backlog| < cfg.highWaterMark <= left then [HighWaterFn(left)]
              else if cfg.onWriteComplete && direct && wr.n == |data| then [WriteCompleteFn]
              else []
  {
    assert c.queue + [] == c.queue;
  }

  lemma WriteQueuesTold(cfg: Config, c: Conn, wr: WriteResult)
    requires Inv(c) && WriteContract(c, c.backlog, wr)
    ensures HandleWrite(cfg, c, wr).queue == c.queue +
              if cfg.onWriteComplete && c.writing && wr.Wrote? && wr.n == |c.backlog| then [WriteCompleteFn] else []
  {
    assert c.queue + [] == c.queue;
  }

  lemma QuietCallback(cfg: Config, c: Conn, op: Op)
    requires IsQuiet(op)
    ensures CallbackBy(cfg, c, op) == []
  {
  }

  lemma QuietCall(cfg: Config, c: Conn, op: Op)
    requires Legal(c, op) && IsQuiet(op)
    ensures Step(cfg, c, op).queue == c.queue + CallBy(c, op)
  {
    assert c.queue + [] == c.queue;
    match op
    case ForceClose =>
    case CrossQueue(_) =>
    case _ =>
  }

  lemma QuietQueues(cfg: Config, c: Conn, op: Op)
    requires Legal(c, op) && IsQuiet(op)
    ensures Step(cfg, c, op).queue == Rest(c, op) + (CallBy(c, op) + CallbackBy(cfg, c, op))
  {
    QuietCallback(cfg, c, op);
    QuietCall(cfg, c, op);
    hide Step, CallBy, CallbackBy;
    assert CallBy(c, op) + [] == CallBy(c, op);
  }

  lemma SendOpQueues(cfg: Config, c: Conn, data: string, wr: WriteResult)
    requires Legal(c, Send(data, wr))
    ensures var op := Send(data, wr);
            Step(cfg, c, op).queue == Rest(c, op) + (CallBy(c, op) + CallbackBy(cfg, c, op))
  {
    assert c.queue + [] == c.queue;
    if c.phase.Connected? {
      SendQueuesTold(cfg, c, data, wr);
    }
    hide SendInLoop;
  }

  lemma HeadCallback(cfg: Config, c: Conn, wr: WriteResult)
    requires Legal(c, RunFunctor(wr)) && !(c.queue[0].SendFn? && !c.phase.Disconnected?)
    ensures CallbackBy(cfg, c, RunFunctor(wr)) == [] && RunHead(cfg, c, wr).queue == c.queue[1..]
  {
  }

  lemma HeadQueues(cfg: Config, c: Conn, wr: WriteResult)
    requires Legal(c, RunFunctor(wr))
    ensures var op := RunFunctor(wr);
            RunHead(cfg, c, wr).queue == Rest(c, op) + (CallBy(c, op) + CallbackBy(cfg, c, op))
  {
    if c.queue[0].SendFn? && !c.phase.Disconnected? {
      SendQueuesTold(cfg, c.(queue := c.queue[1..]), c.queue[0].message, wr);
    } else {
      HeadCallback(cfg, c, wr);
      hide CallbackBy, RunHead;
      assert c.queue[1..] + ([] + []) == c.queue[1..];
    }
    hide SendInLoop;
  }

  /**
    Every operation queues its call and its callback, and running takes the oldest functor out; nothing else is moved.
   */
  lemma QueueTold(cfg: Config, c: Conn, op: Op)
    requires Inv(c) && Legal(c, op)
    ensures Step(cfg, c, op).queue == Rest(c, op) + (CallBy(c, op) + CallbackBy(cfg, c, op))
  {
    match op
    case Send(data, wr) => SendOpQueues(cfg, c, data, wr);
    case Writable(wr) =>
      WriteQueuesTold(cfg, c, wr);
      hide HandleWrite;
    case RunFunctor(wr) =>
      HeadQueues(cfg, c, wr);
      hide RunHead;
    case _ => QuietQueues(cfg, c, op);
  }

  /** All functors queued in a run, in order, and how many were run. */
  function Queued(cfg: Config, c: Conn, ops: seq<Op>): seq<Functor>
    decreases |ops|
  {
    if ops == [] || !Legal(c, ops[0]) then []
    else CallBy(c, ops[0]) + CallbackBy(cfg, c, ops[0]) + Queued(cfg, Step(cfg, c, ops[0]), ops[1..])
  }

  function Taken(ops: seq<Op>): nat {
    if ops == [] then 0 else One(ops[0].RunFunctor?) + Taken(ops[1..])
  }

  lemma TakeFirst(queue: seq<Functor>, more: seq<Functor>, later: seq<Functor>, k: nat, first: bool)
    requires first ==> queue != []
    requires var rest := if first then queue[1..] else queue; k <= |rest + more + later|
    ensures var rest := if first then queue[1..] else queue;
            && One(first) + k <= |queue + (more + later)|
            && (rest + more + later)[k..] == (queue + (more + later))[One(first) + k..]
  {
    var rest := if first then queue[1..] else queue;
    assert rest + more + later == (queue + (more + later))[One(first)..];
  }

  /** The queue is first in, first out: what was queued, without as many of the oldest as were run. */
  lemma {:induction false} QueueOfRun(cfg: Config, c: Conn, ops: seq<Op>, d: Conn)
    requires Inv(c) && Run(cfg, c, ops, d)
    ensures var all := c.queue + Queued(cfg, c, ops); Taken(ops) <= |all| && d.queue == all[Taken(ops)..]
    decreases |ops|
  {
    if ops == [] {
      assert c.queue + [] == c.queue;
    } else {
      var op := ops[0];
      var m := Step(cfg, c, op);
      StepKeepsInv(cfg, c, op);
      QueueTold(cfg, c, op);
      RunsNonEmpty(c, op);
      hide Inv, Step, Legal, CallBy, CallbackBy;
      QueueOfRun(cfg, m, ops[1..], d);
      var more, later := CallBy(c, op) + CallbackBy(cfg, c, op), Queued(cfg, m, ops[1..]);
      TakeFirst(c.queue, more, later, Taken(ops[1..]), op.RunFunctor?);
    }
  }

  lemma RunsNonEmpty(c: Conn, op: Op)
    requires Legal(c, op)
    ensures op.RunFunctor? ==> c.queue != []
  {
  }

  // ----- Calls by other threads -----

  /** A call that passes its test is in flight, in one place or the other, until it is queued. */
  lemma CallsTold(cfg: Config, c: Conn, op: Op)
    requires Legal(c, op)
    ensures var d := Step(cfg, c, op);
            match op
            case CrossTest(call) =>
              if call.SendFn? && c.phase.Connected? then
                d.queueing == c.queueing + multiset{call} && d.setting == c.setting
              else if (call.ShutdownFn? && c.phase.Connected?) || (call.ForceCloseFn? && IsOpen(c)) then
                d.setting == c.setting + multiset{call} && d.queueing == c.queueing
              else d == c
            case CrossSet(call) =>
              d.setting == c.setting - multiset{call} && d.queueing == c.queueing + multiset{call}
            case CrossQueue(call) => d.setting == c.setting && d.queueing == c.queueing - multiset{call}
            case _ => d.setting == c.setting && d.queueing == c.queueing
  {
    hide SendInLoop, HandleWrite, RunHead;
    match op
    case Send(data, wr) => SendQueues(cfg, c, data, wr);
    case Writable(wr) => WriteQueues(cfg, c, wr);
    case RunFunctor(wr) => HeadCalls(cfg, c, wr);
    case CrossTest(_) =>
    case CrossSet(_) =>
    case CrossQueue(_) =>
    case _ =>
  }

  lemma HeadCalls(cfg: Config, c: Conn, wr: WriteResult)
    requires Legal(c, RunFunctor(wr))
    ensures var d := RunHead(cfg, c, wr); d.setting == c.setting && d.queueing == c.queueing
  {
    if c.queue[0].SendFn? {
      SendQueues(cfg, c.(queue := c.queue[1..]), c.queue[0].message, wr);
    }
    hide SendInLoop;
  }
}
