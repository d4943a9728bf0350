/** The timer queue of src/timer/TimeQueue.cc: its loops over the expired batch, and the one timerfd it arms. */
module TimerQueues {
  import opened Bytes
  import opened TimerModel

  const MICROS_PER_SECOND: int := 1000 * 1000
  const MIN_DELAY: int := 100

  /** A call of addTimer made by a timer's callback. */
  datatype Request = Request(when: int, interval: nat, repeat: bool)

  datatype TimeSpec = TimeSpec(sec: int, nsec: int)

  /** The relative time handed to timerfd_settime; it is positive, so truncating and Euclidean division agree. */
  function Delay(micros: int): TimeSpec
  {
    var m := Max(MIN_DELAY, micros);
    TimeSpec(m / MICROS_PER_SECOND, m % MICROS_PER_SECOND * 1000)
  }

  /** The split is exact and normalised, and never the zero that would disarm the timer. */
  lemma DelayExact(micros: int)
    ensures var ts := Delay(micros);
            && ts.sec * 1_000_000_000 + ts.nsec == Max(100, micros) * 1000
            && 0 <= ts.sec && 0 <= ts.nsec < 1_000_000_000
            && ts != TimeSpec(0, 0)
  {
  }

  lemma {:induction false} FreshAddr(used: set<Addr>)
    ensures exists a: Addr :: a !in used && forall u :: u in used ==> u < a
    decreases |used|
  {
    if used == {} {
      assert 0 !in used;
    } else {
      var u :| u in used;
      FreshAddr(used - {u});
      var a: Addr :| a !in used - {u} && forall v :: v in used - {u} ==> v < a;
      var b: Addr := Max(a, u + 1);
      forall v | v in used
        ensures v < b
      {
        assert v == u || v in used - {u};
      }
      assert b !in used;
    }
  }

  lemma NotInSet(q: Queue, held: seq<Entry>, ran: nat, addr: Addr)
    requires Reachable(q, held, ran) && addr !in q.heap
    ensures Sorted(q.timers) && !HasAddr(q.timers, addr)
  {
    ReachableInv(q, held, ran);
  }

  /** The timers of a batch are alive, and all different. */
  lemma HeldIsAlive(q: Queue, held: seq<Entry>, ran: nat)
    requires Reachable(q, held, ran)
    ensures forall k :: 0 <= k < |held| ==> held[k].addr in q.heap
    ensures forall j, k :: 0 <= j < k < |held| ==> held[j].addr != held[k].addr
  {
    ReachableInv(q, held, ran);
  }

  /** Between batches every timer alive stands in the set, under its expiration. */
  ghost predicate Queued(heap: map<Addr, Timer>, timers: seq<Entry>) {
    forall a :: a in heap ==> Entry(heap[a].expiration, a) in timers
  }

  lemma AllQueued(q: Queue)
    requires Reachable(q, [], 0)
    ensures Queued(q.heap, q.timers)
  {
    ReachableInv(q, [], 0);
    forall a | a in q.heap
      ensures Entry(q.heap[a].expiration, a) in q.timers
    {
      assert HasAddr(q.timers, a) || HasAddr([], a);
      var i :| 0 <= i < |q.timers| && q.timers[i].addr == a;
      assert q.timers[i] == Entry(q.heap[a].expiration, a);
    }
  }

  /** The timers a series of requests asks for, the first with serial `first`. */
  function Asked(requests: seq<Request>, first: nat): (ts: seq<Timer>)
    ensures |ts| == |requests|
  {
    if requests == [] then []
    else
      var r := requests[|requests| - 1];
      Asked(requests[..|requests| - 1], first) + [Timer(first + |requests| - 1, r.when, r.interval, r.repeat)]
  }

  lemma {:induction false} AskedAppend(a: seq<Request>, b: seq<Request>, first: nat)
    ensures Asked(a + b, first) == Asked(a, first) + Asked(b, first + |a|)
  {
    if b == [] {
      assert a + b == a;
    } else {
      assert (a + b)[..|a + b| - 1] == a + b[..|b| - 1];
      AskedAppend(a, b[..|b| - 1], first);
    }
  }

  /** The serials of the one-shots of a batch, in order. */
  function OneShots(heap: map<Addr, Timer>, batch: seq<Entry>): seq<nat>
    requires forall k :: 0 <= k < |batch| ==> batch[k].addr in heap
  {
    if batch == [] then []
    else
      var t := heap[batch[|batch| - 1].addr];
      OneShots(heap, batch[..|batch| - 1]) + if t.repeat then [] else [t.serial]
  }

  lemma {:induction false} SameOneShots(before: map<Addr, Timer>, after: map<Addr, Timer>, batch: seq<Entry>)
    requires forall k :: 0 <= k < |batch| ==> batch[k].addr in before
    requires Kept(before, after)
    ensures OneShots(after, batch) == OneShots(before, batch)
  {
    if batch != [] {
      SameOneShots(before, after, batch[..|batch| - 1]);
    }
  }

  /**
    What finishing a batch does: each of its repeating timers is due again an interval after some time between `from`
    and `to`, and otherwise as it was; each of its one-shots is gone; and no other timer is touched.
   */
  ghost predicate Finished(before: map<Addr, Timer>, batch: seq<Entry>, after: map<Addr, Timer>, from: int, to: int) {
    && (forall k :: 0 <= k < |batch| ==>
          && batch[k].addr in before
          && (batch[k].addr in after <==> before[batch[k].addr].repeat)
          && (batch[k].addr in after ==> Restarted(before[batch[k].addr], after[batch[k].addr], from, to)))
    && (forall a :: a in before && !HasAddr(batch, a) ==> a in after && after[a] == before[a])
  }

  predicate Restarted(t: Timer, u: Timer, from: int, to: int) {
    u == t.(expiration := u.expiration) && from + t.interval <= u.expiration <= to + t.interval
  }

  /** One more timer of the batch is finished, at some time between those before and the clock. */
  lemma FinishedNext(before: map<Addr, Timer>, batch: seq<Entry>, k: nat, q: Queue, from: int, at: int)
    requires k < |batch| && forall i, j :: 0 <= i < j < |batch| ==> batch[i].addr != batch[j].addr
    requires Finished(before, batch[..k], q.heap, from, q.clock)
    requires batch[k].addr in before && batch[k].addr in q.heap && from <= q.clock <= at
    ensures Finished(before, batch[..k + 1], Finish(q.(clock := at), batch[k]).heap, from, at)
  {
    var less, more := batch[..k], batch[..k + 1];
    var n := Finish(q.(clock := at), batch[k]);
    assert !HasAddr(less, batch[k].addr);
    forall i | 0 <= i < |more|
      ensures more[i].addr in before
      ensures more[i].addr in n.heap <==> before[more[i].addr].repeat
      ensures more[i].addr in n.heap ==> Restarted(before[more[i].addr], n.heap[more[i].addr], from, at)
    {
      if i < k {
        assert more[i] == less[i] && more[i].addr != batch[k].addr;
      }
    }
    forall a | a in before && !HasAddr(more, a)
      ensures a in n.heap && n.heap[a] == before[a]
    {
      assert more[k].addr == batch[k].addr;
      forall i | 0 <= i < |less|
        ensures less[i].addr != a
      {
        assert more[i] == less[i];
      }
      assert !HasAddr(less, a);
    }
  }

  lemma OneShotsNext(before: map<Addr, Timer>, batch: seq<Entry>, k: nat, q: Queue, at: int, deleted: seq<nat>)
    requires k < |batch| && forall i :: 0 <= i < |batch| ==> batch[i].addr in before
    requires batch[k].addr in q.heap && q.heap[batch[k].addr] == before[batch[k].addr]
    requires q.deleted == deleted + OneShots(before, batch[..k])
    ensures Finish(q.(clock := at), batch[k]).deleted == deleted + OneShots(before, batch[..k + 1])
  {
    assert batch[..k + 1][..k] == batch[..k];
  }

  /** The next timer of the batch is still as it was. */
  lemma NotYetFinished(before: map<Addr, Timer>, batch: seq<Entry>, k: nat, q: Queue, from: int)
    requires k < |batch| && forall i, j :: 0 <= i < j < |batch| ==> batch[i].addr != batch[j].addr
    requires Finished(before, batch[..k], q.heap, from, q.clock) && batch[k].addr in before
    ensures batch[k].addr in q.heap && q.heap[batch[k].addr] == before[batch[k].addr]
  {
    assert !HasAddr(batch[..k], batch[k].addr);
  }

  lemma NothingFinished(heap: map<Addr, Timer>, deleted: seq<nat>, now: int)
    ensures Finished(heap, [], heap, now, now) && deleted + OneShots(heap, []) == deleted
  {
  }

  lemma FinishedBy(before: map<Addr, Timer>, batch: seq<Entry>, after: map<Addr, Timer>, from: int, to: int, end: int)
    requires Finished(before, batch, after, from, to) && to <= end
    ensures Finished(before, batch, after, from, end)
  {
  }

  lemma KeptOn(a: map<Addr, Timer>, b: map<Addr, Timer>, c: map<Addr, Timer>)
    requires Kept(a, b) && Kept(b, c)
    ensures Kept(a, c)
  {
  }

  /** Timers added before the batch is finished do not matter. */
  lemma FinishedAfterKept(
    before: map<Addr, Timer>, kept: map<Addr, Timer>, batch: seq<Entry>, after: map<Addr, Timer>, since: int, from: int,
    to: int)
    requires Kept(before, kept) && Finished(kept, batch, after, from, to) && since <= from
    requires forall k :: 0 <= k < |batch| ==> batch[k].addr in before
    ensures Finished(before, batch, after, since, to)
  {
  }

  /** Timers alive stay as they are; others may have been allocated. */
  ghost predicate Kept(before: map<Addr, Timer>, after: map<Addr, Timer>) {
    forall a :: a in before ==> a in after && after[a] == before[a]
  }

  /** The runs added are those of the batch's timers, one each and in order, none before `since`. */
  ghost predicate RunInOrder(
    before: seq<RunRecord>, heap: map<Addr, Timer>, batch: seq<Entry>, after: seq<RunRecord>, since: int)
  {
    && |after| == |before| + |batch| && before <= after
    && forall k :: 0 <= k < |batch| ==>
         batch[k].addr in heap && after[|before| + k].timer == heap[batch[k].addr] && since <= after[|before| + k].at
  }

  lemma BatchGoesOn(
    before: seq<RunRecord>, heap: map<Addr, Timer>, batch: seq<Entry>, k: nat, q: Queue, after: seq<RunRecord>,
    since: int, at: int)
    requires k < |batch| && RunInOrder(before, heap, batch[..k], q.runs, since)
    requires batch[k].addr in heap && batch[k].addr in q.heap && Kept(heap, q.heap)
    requires since <= at && after == q.runs + [RunRecord(q.heap[batch[k].addr], at)]
    ensures RunInOrder(before, heap, batch[..k + 1], after, since)
  {
    var less, more := batch[..k], batch[..k + 1];
    assert after[|before| + k].timer == heap[batch[k].addr];
    forall j | 0 <= j < |more|
      ensures more[j].addr in heap && after[|before| + j].timer == heap[more[j].addr] && since <= after[|before| + j].at
    {
      if j < k {
        assert more[j] == less[j] && after[|before| + j] == q.runs[|before| + j];
      }
    }
    assert RunInOrder(before, heap, more, after, since);
  }

  /** The front of a batch that has run: its timer is alive, and not in the set. */
  lemma HeldIsReady(q: Queue, held: seq<Entry>)
    requires Reachable(q, held, |held|) && held != []
    ensures held[0].addr in q.heap && Sorted(q.timers) && !HasAddr(q.timers, held[0].addr)
  {
    ReachableInv(q, held, |held|);
  }

  class TimerQueue {
    var timers: seq<Entry>
    var heap: map<Addr, Timer>
    var clock: int
    var deadline: Option<int>    // when the timerfd fires; it fires once
    var armedAt: int
    ghost var runs: seq<RunRecord>
    ghost var deleted: seq<nat>
    var nextSerial: nat
    ghost var added: seq<Timer>

    ghost function AsQueue(): Queue
      reads this
    {
      Queue(timers, heap, clock, runs, deleted, nextSerial, added)
    }

    ghost function Due(now: int): seq<Entry>
      reads this
    {
      TakeExpired(AsQueue(), now).1
    }

    /** While timers remain the timerfd is armed, for no later than the earliest of them or 100us after arming. */
    ghost predicate Armed()
      reads this
    {
      timers != [] ==> deadline.Some? && deadline.value <= Max(timers[0].when, armedAt + 100) && armedAt <= clock
    }

    /** The object has come where it is by steps of the machine. */
    ghost predicate Valid()
      reads this
    {
      Reachable(AsQueue(), [], 0) && Armed()
    }

    constructor (now: int)
      ensures Valid() && AsQueue() == Empty(now)
    {
      timers, heap, clock, deadline, armedAt := [], map[], now, None, now;
      runs, deleted, nextSerial, added := [], [], 0, [];
      EmptyReachable(now);
    }

    /** Reading the clock: any amount of time may have gone by. */
    method Now() returns (t: int)
      modifies this`clock
      ensures old(clock) <= clock == t
    {
      var passed: nat :| 0 <= passed;
      clock := clock + passed;
      t := clock;
    }

    method ResetTimerfd(expiration: int, ghost held: seq<Entry>, ghost ran: nat)
      requires Reachable(AsQueue(), held, ran)
      modifies this`clock, this`deadline, this`armedAt
      ensures old(clock) <= clock && Reachable(AsQueue(), held, ran)
      ensures armedAt == clock && deadline == Some(Max(expiration, armedAt + 100))
    {
      hide Reachable;
      ghost var q := AsQueue();
      var now := Now();
      StepReaches(q, held, ran, Tick(now));
      assert AsQueue() == q.(clock := now);
      var ts := Delay(expiration - now);
      DelayExact(expiration - now);
      armedAt := now;
      deadline := Some(now + ts.sec * MICROS_PER_SECOND + ts.nsec / 1000);
      assert ts.nsec / 1000 * 1000 == ts.nsec;
    }

    /** The set's insertion: the position is found from the front. */
    method InsertEntry(e: Entry) returns (earliestChanged: bool)
      modifies this`timers
      ensures timers == TimerModel.Insert(old(timers), e)
      ensures earliestChanged <==> old(timers) == [] || e.when < old(timers)[0].when
      ensures timers != [] && timers[0].when == if earliestChanged then e.when else old(timers)[0].when
    {
      earliestChanged := timers == [] || e.when < timers[0].when;
      InsertMembers(timers, e);
      var p := 0;
      while p < |timers| && Less(timers[p], e)
        invariant 0 <= p <= |timers|
        invariant Position(timers, e) == p + Position(timers[p..], e)
      {
        assert timers[p..][1..] == timers[p + 1..];
        p := p + 1;
      }
      timers := timers[..p] + [e] + timers[p..];
    }

    /** addTimer in the loop thread; `held` and `ran` tell where in a batch the call is made, if it is. */
    method AddTimerInLoop(r: Request, ghost held: seq<Entry>, ghost ran: nat)
      requires Reachable(AsQueue(), held, ran)
      modifies this
      ensures Reachable(AsQueue(), held, ran) && old(clock) <= clock
      ensures old(Armed()) ==> Armed()
      ensures runs == old(runs) && deleted == old(deleted) && nextSerial == old(nextSerial) + 1
      ensures added == old(added) + [Timer(old(nextSerial), r.when, r.interval, r.repeat)]
      ensures exists addr :: addr !in old(heap) && timers == TimerModel.Insert(old(timers), Entry(r.when, addr)) &&
                heap == old(heap)[addr := Timer(old(nextSerial), r.when, r.interval, r.repeat)]
      ensures if old(timers) == [] || r.when < old(timers)[0].when then
                armedAt == clock && deadline == Some(Max(r.when, armedAt + 100))
              else
                clock == old(clock) && armedAt == old(armedAt) && deadline == old(deadline)
    {
      hide Reachable;
      FreshAddr(heap.Keys);
      var addr: Addr :| addr !in heap;
      ghost var q := AsQueue();
      StepReaches(q, held, ran, AddTimer(addr, r.when, r.interval, r.repeat));
      NotInSet(q, held, ran, addr);
      heap := heap[addr := Timer(nextSerial, r.when, r.interval, r.repeat)];
      added := added + [Timer(nextSerial, r.when, r.interval, r.repeat)];
      nextSerial := nextSerial + 1;
      var earliestChanged := InsertEntry(Entry(r.when, addr));
      assert AsQueue() == Add(q, addr, r.when, r.interval, r.repeat);
      if earliestChanged {
        ResetTimerfd(r.when, held, ran);
      }
    }

    /** Splits off everything due by `now`. */
    method GetExpired(now: int) returns (expired: seq<Entry>)
      requires Reachable(AsQueue(), [], 0) && now <= clock
      modifies this`timers
      ensures (AsQueue(), expired) == TakeExpired(old(AsQueue()), now)
      ensures Reachable(AsQueue(), expired, 0)
    {
      hide Reachable;
      ghost var q := AsQueue();
      StepReaches(q, [], 0, TakeBatch(now));
      var end := 0;
      while end < |timers| && timers[end].when <= now
        invariant 0 <= end <= |timers|
        invariant DueCount(timers, now) == end + DueCount(timers[end..], now)
      {
        assert timers[end..][1..] == timers[end + 1..];
        end := end + 1;
      }
      expired := timers[..end];
      timers := timers[end..];
    }

    /** Runs the batch; `requests[k]` is what the k-th callback adds. */
    method RunExpired(expired: seq<Entry>, requests: seq<seq<Request>>)
      requires Reachable(AsQueue(), expired, 0) && |requests| == |expired|
      modifies this
      ensures Reachable(AsQueue(), expired, |expired|) && old(clock) <= clock && deleted == old(deleted)
      ensures RunInOrder(old(runs), old(heap), expired, runs, old(clock))
      ensures Kept(old(heap), heap) && added == old(added) + Asked(Flatten(requests), old(nextSerial))
    {
      hide Reachable, RunInOrder, Asked, Kept;
      var k := 0;
      BatchBegins(expired);
      HeldIsAlive(AsQueue(), expired, 0);
      ghost var asked: seq<Request> := [];
      NothingAsked();
      while k < |expired|
        invariant 0 <= k <= |expired| && old(clock) <= clock
        invariant Reachable(AsQueue(), expired, k) && deleted == old(deleted)
        invariant Kept(old(heap), heap)
        invariant RunInOrder(old(runs), old(heap), expired[..k], runs, old(clock))
        invariant asked == Flatten(requests[..k]) && nextSerial == old(nextSerial) + |asked|
        invariant added == old(added) + Asked(asked, old(nextSerial))
      {
        HeldIsAlive(AsQueue(), expired, k);
        ghost var before := AsQueue();
        var at := RunCallback(expired, k, requests[k]);
        KeptOn(old(heap), before.heap, heap);
        BatchGoesOn(old(runs), old(heap), expired, k, before, runs, old(clock), at);
        AskedAppend(asked, requests[k], old(nextSerial));
        assert requests[..k + 1][..k] == requests[..k];
        asked := asked + requests[k];
        k := k + 1;
      }
      assert expired[..|expired|] == expired && requests[..|requests|] == requests;
    }

    lemma NothingAsked()
      ensures Kept(heap, heap) && added == added + Asked([], nextSerial)
    {
    }

    lemma BatchBegins(expired: seq<Entry>)
      ensures RunInOrder(runs, heap, expired[..0], runs, clock)
    {
    }

    /** One callback: it starts at some time, and may add timers while it runs. */
    method RunCallback(expired: seq<Entry>, k: nat, requests: seq<Request>) returns (at: int)
      requires k < |expired| && Reachable(AsQueue(), expired, k) && expired[k].addr in heap
      modifies this
      ensures Reachable(AsQueue(), expired, k + 1) && old(clock) <= at <= clock
      ensures deleted == old(deleted) && runs == old(runs) + [RunRecord(old(heap)[expired[k].addr], at)]
      ensures Kept(old(heap), heap) && nextSerial == old(nextSerial) + |requests|
      ensures added == old(added) + Asked(requests, old(nextSerial))
    {
      hide Reachable;
      ghost var q := AsQueue();
      at := Now();
      StepReaches(q, expired, k, Tick(at));
      assert AsQueue() == q.(clock := at);
      q := AsQueue();
      StepReaches(q, expired, k, RunNext);
      runs := runs + [RunRecord(heap[expired[k].addr], clock)];
      assert AsQueue() == RunTimer(q, expired[k]);
      ghost var ran := runs;
      var j := 0;
      while j < |requests|
        invariant 0 <= j <= |requests| && at <= clock
        invariant Reachable(AsQueue(), expired, k + 1) && runs == ran && deleted == old(deleted)
        invariant Kept(old(heap), heap) && nextSerial == old(nextSerial) + j
        invariant added == old(added) + Asked(requests[..j], old(nextSerial))
      {
        AddTimerInLoop(requests[j], expired, k + 1);
        assert requests[..j + 1][..j] == requests[..j];
        j := j + 1;
      }
      assert requests[..|requests|] == requests;
    }

    /** Restarts or deletes the timers of the batch, each at a time of its own, and arms for the earliest timer left. */
    method Reset(expired: seq<Entry>)
      requires Reachable(AsQueue(), expired, |expired|)
      requires forall k :: 0 <= k < |expired| ==> expired[k].addr in heap
      modifies this
      ensures Valid() && runs == old(runs) && added == old(added) && old(clock) <= clock
      ensures Finished(old(heap), expired, heap, old(clock), clock) && Queued(heap, timers)
      ensures deleted == old(deleted) + OneShots(old(heap), expired)
      ensures timers != [] ==> deadline == Some(Max(timers[0].when, armedAt + 100))
    {
      hide Reachable, Finished, OneShots;
      HeldIsAlive(AsQueue(), expired, |expired|);
      NothingFinished(heap, deleted, clock);
      var k := 0;
      assert expired[0..] == expired && expired[..0] == [];
      while k < |expired|
        invariant 0 <= k <= |expired|
        invariant Reachable(AsQueue(), expired[k..], |expired| - k) && old(clock) <= clock
        invariant runs == old(runs) && added == old(added)
        invariant Finished(old(heap), expired[..k], heap, old(clock), clock)
        invariant deleted == old(deleted) + OneShots(old(heap), expired[..k])
      {
        ghost var q := AsQueue();
        NotYetFinished(old(heap), expired, k, q, old(clock));
        FinishOne(expired[k..], expired[k]);
        FinishedNext(old(heap), expired, k, q, old(clock), clock);
        OneShotsNext(old(heap), expired, k, q, clock, old(deleted));
        assert expired[k..][1..] == expired[k + 1..];
        k := k + 1;
      }
      assert expired[k..] == [] && expired[..k] == expired;
      ghost var to := clock;
      if timers != [] {
        ResetTimerfd(timers[0].when, [], 0);
      }
      FinishedBy(old(heap), expired, heap, old(clock), to, clock);
      AllQueued(AsQueue());
    }

    method FinishOne(ghost held: seq<Entry>, e: Entry)
      requires held != [] && e == held[0] && Reachable(AsQueue(), held, |held|)
      modifies this
      ensures Reachable(AsQueue(), held[1..], |held| - 1) && old(clock) <= clock
      ensures e.addr in old(heap) && AsQueue() == Finish(old(AsQueue()).(clock := clock), e)
    {
      hide Reachable;
      ghost var q := AsQueue();
      HeldIsReady(q, held);
      if heap[e.addr].repeat {
        var now := Now();
        StepReaches(q, held, |held|, Tick(now));
        assert AsQueue() == q.(clock := now);
        q := AsQueue();
        StepReaches(q, held, |held|, FinishNext);
        var again := heap[e.addr].(expiration := now + heap[e.addr].interval);
        heap := heap[e.addr := again];
        var _ := InsertEntry(Entry(again.expiration, e.addr));
        assert AsQueue() == Finish(q, e);
      } else {
        StepReaches(q, held, |held|, FinishNext);
        deleted := deleted + [heap[e.addr].serial];
        heap := heap - {e.addr};
        assert AsQueue() == Finish(q, e);
      }
    }

    /**
      The timerfd is readable, or was a moment ago. Everything due at the time read first is run, whatever the callbacks
      add; then repeating timers start again, the others are deleted, and the timerfd is armed if timers remain.
     */
    method HandleRead(requests: seq<seq<Request>>) returns (now: int)
      requires Valid() && |requests| == |timers|
      modifies this
      ensures Valid() && old(clock) <= now <= clock
      ensures timers != [] ==> deadline == Some(Max(timers[0].when, armedAt + 100))
      ensures RunInOrder(old(runs), old(heap), old(Due(now)), runs, now)
      ensures Finished(old(heap), old(Due(now)), heap, now, clock) && Queued(heap, timers)
      ensures forall k :: 0 <= k < |old(Due(now))| ==> old(Due(now))[k].addr in old(heap)
      ensures deleted == old(deleted) + OneShots(old(heap), old(Due(now)))
      ensures added == old(added) + Asked(Flatten(requests[..|old(Due(now))|]), old(nextSerial))
    {
      hide Reachable, RunInOrder, Finished, Kept, OneShots;
      ghost var q := AsQueue();
      now := Now();
      StepReaches(q, [], 0, Tick(now));
      assert AsQueue() == q.(clock := now);
      if deadline.Some? && deadline.value <= clock {
        deadline := None;
      }
      var expired := GetExpired(now);
      assert expired == old(Due(now));
      HeldIsAlive(AsQueue(), expired, 0);
      RunExpired(expired, requests[..|expired|]);
      HeldIsAlive(AsQueue(), expired, |expired|);
      ghost var kept, from := heap, clock;
      Reset(expired);
      FinishedAfterKept(old(heap), kept, expired, heap, now, from, clock);
      SameOneShots(old(heap), kept, expired);
    }
  }
}
