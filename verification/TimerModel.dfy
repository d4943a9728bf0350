/**
  The timers of one queue: the ordered set of (time, timer) entries, the heap the entries point into, and the histories
  of what was run and deleted. Times are microseconds read from one nondecreasing clock.
 */
module TimerModel {
  type Addr = nat

  /** `serial` names the object for the histories; an address can be used again after a delete. */
  datatype Timer = Timer(serial: nat, expiration: int, interval: nat, repeat: bool)

  datatype Entry = Entry(when: int, addr: Addr)

  datatype RunRecord = RunRecord(timer: Timer, at: int)

  datatype Queue = Queue(
    timers: seq<Entry>,      // _timers, in the order of the set
    heap: map<Addr, Timer>,  // the timers allocated and not yet deleted
    clock: int,              // the last time read
    runs: seq<RunRecord>,    // history: each call of a timer, with the timer as it was
    deleted: seq<nat>,       // history: serials of the timers deleted
    nextSerial: nat,
    added: seq<Timer>)       // history: each timer as it was asked for, by serial

  predicate Less(a: Entry, b: Entry) {
    a.when < b.when || (a.when == b.when && a.addr < b.addr)
  }

  ghost predicate Sorted(es: seq<Entry>) {
    forall i, j :: 0 <= i < j < |es| ==> Less(es[i], es[j])
  }

  predicate HasAddr(es: seq<Entry>, addr: Addr) {
    exists i :: 0 <= i < |es| && es[i].addr == addr
  }

  /** Where the ordered set puts an entry: before the first that is not less. */
  function Position(es: seq<Entry>, e: Entry): (p: nat)
    ensures p <= |es|
    ensures forall i :: 0 <= i < p ==> Less(es[i], e)
    ensures p < |es| ==> !Less(es[p], e)
  {
    if es == [] || !Less(es[0], e) then 0 else 1 + Position(es[1..], e)
  }

  function Insert(es: seq<Entry>, e: Entry): seq<Entry> {
    var p := Position(es, e);
    es[..p] + [e] + es[p..]
  }

  lemma InsertMembers(es: seq<Entry>, e: Entry)
    ensures forall x :: x in Insert(es, e) <==> x in es || x == e
    ensures Insert(es, e)[0].when == if es == [] || e.when < es[0].when then e.when else es[0].when
  {
  }

  lemma InsertSorted(es: seq<Entry>, e: Entry)
    requires Sorted(es) && !HasAddr(es, e.addr)
    ensures Sorted(Insert(es, e))
  {
  }

  /** How many entries are due: those before the sentry (now, highest address). */
  function DueCount(es: seq<Entry>, now: int): (n: nat)
    ensures n <= |es|
    ensures forall i :: 0 <= i < n ==> es[i].when <= now
    ensures n < |es| ==> now < es[n].when
  {
    if es == [] || now < es[0].when then 0 else 1 + DueCount(es[1..], now)
  }

  // ----- The four things that happen to a timer -----

  function Add(q: Queue, addr: Addr, when: int, interval: nat, repeat: bool): Queue {
    var t := Timer(q.nextSerial, when, interval, repeat);
    q.(heap := q.heap[addr := t],
       timers := Insert(q.timers, Entry(when, addr)),
       nextSerial := q.nextSerial + 1,
       added := q.added + [t])
  }

  function TakeExpired(q: Queue, now: int): (Queue, seq<Entry>) {
    var n := DueCount(q.timers, now);
    (q.(timers := q.timers[n..]), q.timers[..n])
  }

  function RunTimer(q: Queue, e: Entry): Queue
    requires e.addr in q.heap
  {
    q.(runs := q.runs + [RunRecord(q.heap[e.addr], q.clock)])
  }

  /** After the batch a repeating timer is restarted from the current time and inserted again; any other is deleted. */
  function Finish(q: Queue, e: Entry): Queue
    requires e.addr in q.heap
  {
    var t := q.heap[e.addr];
    if t.repeat then
      var again := t.(expiration := q.clock + t.interval);
      q.(heap := q.heap[e.addr := again], timers := Insert(q.timers, Entry(again.expiration, e.addr)))
    else
      q.(heap := q.heap - {e.addr}, deleted := q.deleted + [t.serial])
  }

  // ----- The invariant: `held` is the expired vector, of which the first `ran` were run -----

  /** Keys equal the timers' expirations, and every timer alive is in the set or held, once. */
  ghost predicate Owned(q: Queue, held: seq<Entry>) {
    && Sorted(q.timers)
    && (forall i :: 0 <= i < |q.timers| ==>
          q.timers[i].addr in q.heap && q.heap[q.timers[i].addr].expiration == q.timers[i].when)
    && (forall i, j :: 0 <= i < j < |q.timers| ==> q.timers[i].addr != q.timers[j].addr)
    && (forall k :: 0 <= k < |held| ==>
          && held[k].addr in q.heap && q.heap[held[k].addr].expiration == held[k].when <= q.clock
          && !HasAddr(q.timers, held[k].addr))
    && (forall j, k :: 0 <= j < k < |held| ==> held[j].addr != held[k].addr)
    && (forall a :: a in q.heap ==> HasAddr(q.timers, a) || HasAddr(held, a))
  }

  ghost predicate Serials(q: Queue) {
    && (forall a :: a in q.heap ==> q.heap[a].serial < q.nextSerial && q.heap[a].serial !in q.deleted)
    && (forall a, b :: a in q.heap && b in q.heap && a != b ==> q.heap[a].serial != q.heap[b].serial)
    && (forall i :: 0 <= i < |q.deleted| ==> q.deleted[i] < q.nextSerial)
    && (forall i, j :: 0 <= i < j < |q.deleted| ==> q.deleted[i] != q.deleted[j])
    && (forall i :: 0 <= i < |q.runs| ==> q.runs[i].timer.serial < q.nextSerial)
  }

  ghost predicate Spaced(r: RunRecord, s: RunRecord) {
    r.timer.serial == s.timer.serial ==>
      r.timer.repeat && s.timer.repeat && r.at + s.timer.interval <= s.at
  }

  /** No run is early, and runs of one timer are at least its interval apart: so a one-shot runs once at most. */
  ghost predicate RunsOk(q: Queue) {
    && (forall i :: 0 <= i < |q.runs| ==> q.runs[i].timer.expiration <= q.runs[i].at <= q.clock)
    && (forall i, j :: 0 <= i < j < |q.runs| ==> Spaced(q.runs[i], q.runs[j]))
  }

  /** A timer's next run is due at least its interval after each earlier one, unless it has just run in this batch. */
  ghost predicate NextOk(q: Queue, held: seq<Entry>, ran: nat)
    requires ran <= |held|
  {
    forall i, a :: 0 <= i < |q.runs| && a in q.heap && q.heap[a].serial == q.runs[i].timer.serial ==>
      && q.runs[i].timer.repeat == q.heap[a].repeat
      && (HasAddr(held[..ran], a) ||
          (q.heap[a].repeat && q.runs[i].at + q.heap[a].interval <= q.heap[a].expiration))
  }

  ghost predicate HasRun(q: Queue, serial: nat) {
    exists i :: 0 <= i < |q.runs| && q.runs[i].timer.serial == serial && !q.runs[i].timer.repeat
  }

  /** Deleted timers are one-shots that have run, and a one-shot that has run is deleted, or about to be. */
  ghost predicate DeletesOk(q: Queue, held: seq<Entry>, ran: nat)
    requires ran <= |held|
  {
    && (forall i :: 0 <= i < |q.deleted| ==> HasRun(q, q.deleted[i]))
    && (forall k :: 0 <= k < ran ==>
          held[k].addr in q.heap && (!q.heap[held[k].addr].repeat ==> HasRun(q, q.heap[held[k].addr].serial)))
    && (forall i :: 0 <= i < |q.runs| && !q.runs[i].timer.repeat ==>
          q.runs[i].timer.serial in q.deleted ||
          exists k :: 0 <= k < ran && held[k].addr in q.heap && q.heap[held[k].addr].serial == q.runs[i].timer.serial)
  }

  ghost predicate HasSerial(heap: map<Addr, Timer>, serial: nat) {
    exists a :: a in heap && heap[a].serial == serial
  }

  /** `t` is a timer as it is, or was when it ran, and `u` the same timer as it was asked for. */
  predicate LaterOf(t: Timer, u: Timer) {
    t.serial == u.serial && t.interval == u.interval && t.repeat == u.repeat && u.expiration <= t.expiration
  }

  /**
    No timer is lost or changed: each one ever added is alive as it was asked for, or it was a one-shot and is
    deleted.
   */
  ghost predicate Accounted(q: Queue) {
    && |q.added| == q.nextSerial
    && (forall a :: a in q.heap ==> q.heap[a].serial < |q.added| && LaterOf(q.heap[a], q.added[q.heap[a].serial]))
    && (forall i :: 0 <= i < |q.runs| ==>
          q.runs[i].timer.serial < |q.added| && LaterOf(q.runs[i].timer, q.added[q.runs[i].timer.serial]))
    && (forall i :: 0 <= i < |q.deleted| ==> q.deleted[i] < |q.added| && !q.added[q.deleted[i]].repeat)
    && (forall s :: 0 <= s < |q.added| ==> s in q.deleted || HasSerial(q.heap, s))
  }

  ghost predicate Inv(q: Queue, held: seq<Entry>, ran: nat) {
    && ran <= |held| && Owned(q, held) && Serials(q) && Accounted(q)
    && RunsOk(q) && NextOk(q, held, ran) && DeletesOk(q, held, ran)
  }

  // ----- Each of them keeps it -----

  lemma TickKeepsInv(q: Queue, held: seq<Entry>, ran: nat, now: int)
    requires Inv(q, held, ran) && q.clock <= now
    ensures Inv(q.(clock := now), held, ran)
  {
    assert forall s :: HasRun(q, s) ==> HasRun(q.(clock := now), s);
  }

  lemma OwnedInsert(q: Queue, held: seq<Entry>, n: Queue, e: Entry)
    requires Owned(q, held) && !HasAddr(q.timers, e.addr) && !HasAddr(held, e.addr)
    requires n.timers == Insert(q.timers, e) && n.clock == q.clock
    requires n.heap.Keys == q.heap.Keys + {e.addr} && n.heap[e.addr].expiration == e.when
    requires forall a :: a in q.heap && a != e.addr ==> n.heap[a] == q.heap[a]
    ensures Owned(n, held)
  {
    InsertSorted(q.timers, e);
    InsertMembers(q.timers, e);
    var p := Position(q.timers, e);
    forall i | 0 <= i < |n.timers|
      ensures n.timers[i] in q.timers || n.timers[i] == e
    {
      assert n.timers[i] in n.timers;
    }
    forall a | HasAddr(q.timers, a) || a == e.addr
      ensures HasAddr(n.timers, a)
    {
      if a == e.addr {
        assert n.timers[p] == e;
      } else {
        var i :| 0 <= i < |q.timers| && q.timers[i].addr == a;
        assert q.timers[i] in n.timers;
      }
    }
    assert forall a :: HasAddr(n.timers, a) ==> HasAddr(q.timers, a) || a == e.addr;
  }

  lemma AddKeepsSerials(q: Queue, addr: Addr, when: int, interval: nat, repeat: bool)
    requires Serials(q) && addr !in q.heap
    ensures Serials(Add(q, addr, when, interval, repeat))
  {
  }

  lemma AddKeepsAccounted(q: Queue, addr: Addr, when: int, interval: nat, repeat: bool)
    requires Accounted(q) && addr !in q.heap
    ensures Accounted(Add(q, addr, when, interval, repeat))
  {
    var n := Add(q, addr, when, interval, repeat);
    forall s | 0 <= s < |n.added| && s !in n.deleted
      ensures HasSerial(n.heap, s)
    {
      if s < |q.added| {
        var a :| a in q.heap && q.heap[a].serial == s;
        assert n.heap[a].serial == s;
      } else {
        assert n.heap[addr].serial == s;
      }
    }
  }

  lemma AddKeepsNext(q: Queue, held: seq<Entry>, ran: nat, addr: Addr, when: int, interval: nat, repeat: bool)
    requires Serials(q) && addr !in q.heap && ran <= |held| && NextOk(q, held, ran)
    ensures NextOk(Add(q, addr, when, interval, repeat), held, ran)
  {
  }

  lemma AddKeepsDeletes(q: Queue, held: seq<Entry>, ran: nat, n: Queue)
    requires ran <= |held| && DeletesOk(q, held, ran)
    requires n.runs == q.runs && n.deleted == q.deleted
    requires forall a :: a in q.heap ==> a in n.heap && n.heap[a] == q.heap[a]
    ensures DeletesOk(n, held, ran)
  {
  }

  lemma AddKeepsInv(q: Queue, held: seq<Entry>, ran: nat, addr: Addr, when: int, interval: nat, repeat: bool)
    requires Inv(q, held, ran) && addr !in q.heap
    ensures Inv(Add(q, addr, when, interval, repeat), held, ran)
  {
    var n := Add(q, addr, when, interval, repeat);
    OwnedInsert(q, held, n, Entry(when, addr));
    AddKeepsSerials(q, addr, when, interval, repeat);
    AddKeepsAccounted(q, addr, when, interval, repeat);
    AddKeepsNext(q, held, ran, addr, when, interval, repeat);
    AddKeepsDeletes(q, held, ran, n);
  }

  /** getExpired takes exactly the entries due by `now`, earliest first, and leaves the others. */
  lemma TakeExpiredExact(q: Queue, now: int)
    requires Sorted(q.timers)
    ensures var (n, expired) := TakeExpired(q, now);
            && q.timers == expired + n.timers
            && (forall i :: 0 <= i < |expired| ==> expired[i].when <= now)
            && (forall i :: 0 <= i < |n.timers| ==> now < n.timers[i].when)
            && (forall i, j :: 0 <= i < j < |expired| ==> expired[i].when <= expired[j].when)
  {
  }

  lemma TakeKeepsAll(q: Queue, now: int)
    requires Owned(q, [])
    ensures var (n, expired) := TakeExpired(q, now);
            forall a :: a in q.heap ==> HasAddr(n.timers, a) || HasAddr(expired, a)
  {
    hide Sorted;
    var k := DueCount(q.timers, now);
    var (n, expired) := TakeExpired(q, now);
    forall a | a in q.heap
      ensures HasAddr(n.timers, a) || HasAddr(expired, a)
    {
      assert HasAddr(q.timers, a) || HasAddr([], a);
      var i :| 0 <= i < |q.timers| && q.timers[i].addr == a;
      if i < k {
        assert expired[i].addr == a;
      } else {
        assert n.timers[i - k].addr == a;
      }
    }
  }

  lemma TakeParts(q: Queue, now: int)
    requires Owned(q, [])
    ensures var (n, expired) := TakeExpired(q, now);
            forall i :: 0 <= i < |expired| ==> !HasAddr(n.timers, expired[i].addr)
  {
    hide Sorted;
    var k := DueCount(q.timers, now);
    var (n, expired) := TakeExpired(q, now);
    forall i, j | 0 <= i < |expired| && 0 <= j < |n.timers|
      ensures n.timers[j].addr != expired[i].addr
    {
      assert n.timers[j] == q.timers[k + j];
    }
  }

  lemma TakeKeepsOwned(q: Queue, now: int)
    requires Owned(q, []) && now <= q.clock
    ensures var (n, expired) := TakeExpired(q, now); Owned(n, expired)
  {
    TakeKeepsAll(q, now);
    TakeParts(q, now);
    assert Sorted(TakeExpired(q, now).0.timers);
    hide Sorted, HasAddr;
  }

  lemma TakeKeepsInv(q: Queue, now: int)
    requires Inv(q, [], 0) && now <= q.clock
    ensures var (n, expired) := TakeExpired(q, now); Inv(n, expired, 0)
  {
    TakeKeepsOwned(q, now);
    var (n, expired) := TakeExpired(q, now);
    SameHistory(q, [], n, expired);
  }

  /** What is held does not matter to the histories as long as none of it has run. */
  lemma SameHistory(q: Queue, held: seq<Entry>, n: Queue, kept: seq<Entry>)
    requires NextOk(q, held, 0) && DeletesOk(q, held, 0)
    requires n.runs == q.runs && n.deleted == q.deleted && n.heap == q.heap
    ensures NextOk(n, kept, 0) && DeletesOk(n, kept, 0)
  {
  }

  lemma RunKeepsInv(q: Queue, held: seq<Entry>, ran: nat)
    requires Inv(q, held, ran) && ran < |held|
    ensures Inv(RunTimer(q, held[ran]), held, ran + 1)
  {
    RunKeepsSpacing(q, held, ran);
    RunKeepsNext(q, held, ran);
    RunKeepsDeletes(q, held, ran);
  }

  lemma RunKeepsSpacing(q: Queue, held: seq<Entry>, ran: nat)
    requires Inv(q, held, ran) && ran < |held|
    ensures RunsOk(RunTimer(q, held[ran])) && Serials(RunTimer(q, held[ran]))
  {
  }

  lemma RunKeepsNext(q: Queue, held: seq<Entry>, ran: nat)
    requires Inv(q, held, ran) && ran < |held|
    ensures NextOk(RunTimer(q, held[ran]), held, ran + 1)
  {
  }

  lemma RunKeepsDeletes(q: Queue, held: seq<Entry>, ran: nat)
    requires Inv(q, held, ran) && ran < |held|
    ensures DeletesOk(RunTimer(q, held[ran]), held, ran + 1)
  {
    var n := RunTimer(q, held[ran]);
    assert n.runs[|q.runs|].timer == q.heap[held[ran].addr];
    forall s | HasRun(q, s)
      ensures HasRun(n, s)
    {
      var i :| 0 <= i < |q.runs| && q.runs[i].timer.serial == s && !q.runs[i].timer.repeat;
      assert n.runs[i] == q.runs[i];
    }
    forall i | 0 <= i < |n.runs| && !n.runs[i].timer.repeat && n.runs[i].timer.serial !in n.deleted
      ensures exists k :: 0 <= k < ran + 1 && held[k].addr in n.heap &&
                n.heap[held[k].addr].serial == n.runs[i].timer.serial
    {
      if i < |q.runs| {
        assert n.runs[i] == q.runs[i];
        var k :| 0 <= k < ran && held[k].addr in q.heap && q.heap[held[k].addr].serial == q.runs[i].timer.serial;
        assert n.heap[held[k].addr].serial == n.runs[i].timer.serial;
      } else {
        assert n.heap[held[ran].addr].serial == n.runs[i].timer.serial;
      }
    }
  }

  /** When all of the batch has run, its timers are finished one by one from the front. */
  lemma FinishKeepsInv(q: Queue, held: seq<Entry>)
    requires Inv(q, held, |held|) && held != []
    ensures Inv(Finish(q, held[0]), held[1..], |held| - 1)
  {
    FinishKeepsOwned(q, held);
    FinishKeepsSerials(q, held);
    FinishKeepsAccounted(q, held);
    FinishKeepsNext(q, held);
    FinishKeepsDeletes(q, held);
  }

  lemma HeldRest(held: seq<Entry>)
    requires held != [] && forall j, k :: 0 <= j < k < |held| ==> held[j].addr != held[k].addr
    ensures !HasAddr(held[1..], held[0].addr)
    ensures forall a :: HasAddr(held, a) <==> HasAddr(held[1..], a) || a == held[0].addr
  {
  }

  lemma FinishKeepsOwned(q: Queue, held: seq<Entry>)
    requires Owned(q, held) && held != []
    ensures Owned(Finish(q, held[0]), held[1..])
  {
    Park(q, held);
    var a := held[0].addr;
    var n := Finish(q, held[0]);
    if q.heap[a].repeat {
      OwnedInsert(q.(heap := q.heap - {a}), held[1..], n, Entry(n.heap[a].expiration, a));
    }
  }

  lemma Park(q: Queue, held: seq<Entry>)
    requires Owned(q, held) && held != []
    ensures var a := held[0].addr;
            && Owned(q.(heap := q.heap - {a}), held[1..])
            && !HasAddr(q.timers, a) && !HasAddr(held[1..], a)
  {
    HeldRest(held);
    hide Sorted;
    forall i | 0 <= i < |q.timers|
      ensures q.timers[i].addr != held[0].addr
    {
      assert !HasAddr(q.timers, held[0].addr);
    }
  }

  lemma FinishKeepsSerials(q: Queue, held: seq<Entry>)
    requires Owned(q, held) && Serials(q) && held != []
    ensures Serials(Finish(q, held[0]))
  {
  }

  lemma FinishKeepsAccounted(q: Queue, held: seq<Entry>)
    requires Owned(q, held) && Accounted(q) && held != []
    ensures Accounted(Finish(q, held[0]))
  {
    var n, e := Finish(q, held[0]), held[0].addr;
    forall s | 0 <= s < |n.added| && s !in n.deleted
      ensures HasSerial(n.heap, s)
    {
      assert s !in q.deleted;
      var a :| a in q.heap && q.heap[a].serial == s;
      assert a == e ==> q.heap[e].repeat;
      assert n.heap[a].serial == s;
    }
  }

  lemma FinishKeepsNext(q: Queue, held: seq<Entry>)
    requires NextOk(q, held, |held|) && held != [] && held[0].addr in q.heap
    requires forall j, k :: 0 <= j < k < |held| ==> held[j].addr != held[k].addr
    requires forall i :: 0 <= i < |q.runs| ==> q.runs[i].at <= q.clock
    ensures NextOk(Finish(q, held[0]), held[1..], |held| - 1)
  {
    HeldRest(held);
    assert held[..|held|] == held && held[1..][..|held| - 1] == held[1..];
  }

  lemma FinishKeepsDeletes(q: Queue, held: seq<Entry>)
    requires Inv(q, held, |held|) && held != []
    ensures DeletesOk(Finish(q, held[0]), held[1..], |held| - 1)
  {
    FinishKeepsPending(q, held);
    var n, rest := Finish(q, held[0]), held[1..];
    FinishKeepsRan(q, held, n);
  }

  lemma FinishKeepsRan(q: Queue, held: seq<Entry>, n: Queue)
    requires Inv(q, held, |held|) && held != [] && n == Finish(q, held[0])
    ensures forall i :: 0 <= i < |n.deleted| ==> HasRun(n, n.deleted[i])
    ensures forall k :: 0 <= k < |held| - 1 ==>
              var e := held[1..][k];
              e.addr in n.heap && (!n.heap[e.addr].repeat ==> HasRun(n, n.heap[e.addr].serial))
  {
  }

  lemma FinishKeepsPending(q: Queue, held: seq<Entry>)
    requires Inv(q, held, |held|) && held != []
    ensures var n, rest := Finish(q, held[0]), held[1..];
            forall i :: 0 <= i < |n.runs| && !n.runs[i].timer.repeat ==>
              n.runs[i].timer.serial in n.deleted ||
              exists k :: 0 <= k < |rest| && rest[k].addr in n.heap &&
                n.heap[rest[k].addr].serial == n.runs[i].timer.serial
  {
    var a := held[0].addr;
    var n, rest := Finish(q, held[0]), held[1..];
    hide RunsOk, Sorted, Insert;
    forall i | 0 <= i < |n.runs| && !n.runs[i].timer.repeat && n.runs[i].timer.serial !in n.deleted
      ensures exists k :: 0 <= k < |rest| && rest[k].addr in n.heap &&
                n.heap[rest[k].addr].serial == n.runs[i].timer.serial
    {
      assert q.runs[i] == n.runs[i] && q.runs[i].timer.serial !in q.deleted;
      var k :| 0 <= k < |held| && held[k].addr in q.heap && q.heap[held[k].addr].serial == q.runs[i].timer.serial;
      assert 0 < k && rest[k - 1] == held[k];
      assert n.heap[rest[k - 1].addr].serial == n.runs[i].timer.serial;
    }
  }

  // ----- Runs -----

  /**
    Time passes, a timer is added, a due batch is taken, its next timer is run, its front timer restarted or deleted.
   */
  datatype Step =
    | Tick(now: int) | AddTimer(addr: Addr, when: int, interval: nat, repeat: bool)
    | TakeBatch(now: int) | RunNext | FinishNext

  /** A queue, the batch it has taken and not finished, and how many of the batch have run. */
  datatype Moment = Moment(q: Queue, held: seq<Entry>, ran: nat)

  predicate Enabled(m: Moment, step: Step) {
    match step
    case Tick(now) => m.q.clock <= now
    case AddTimer(addr, _, _, _) => addr !in m.q.heap
    case TakeBatch(now) => m.held == [] && m.ran == 0 && now <= m.q.clock
    case RunNext => m.ran < |m.held| && m.held[m.ran].addr in m.q.heap
    case FinishNext => m.held != [] && m.ran == |m.held| && m.held[0].addr in m.q.heap
  }

  function Apply(m: Moment, step: Step): Moment
    requires Enabled(m, step)
  {
    match step
    case Tick(now) => m.(q := m.q.(clock := now))
    case AddTimer(addr, when, interval, repeat) => m.(q := Add(m.q, addr, when, interval, repeat))
    case TakeBatch(now) => var (q, expired) := TakeExpired(m.q, now); Moment(q, expired, 0)
    case RunNext => m.(q := RunTimer(m.q, m.held[m.ran]), ran := m.ran + 1)
    case FinishNext => Moment(Finish(m.q, m.held[0]), m.held[1..], m.ran - 1)
  }

  function Empty(now: int): Queue {
    Queue([], map[], now, [], [], 0, [])
  }

  ghost predicate Run(m: Moment, steps: seq<Step>, n: Moment)
    decreases |steps|
  {
    if steps == [] then m == n
    else Enabled(m, steps[0]) && Run(Apply(m, steps[0]), steps[1..], n)
  }

  ghost predicate Reachable(q: Queue, held: seq<Entry>, ran: nat) {
    exists start, steps :: Run(Moment(Empty(start), [], 0), steps, Moment(q, held, ran))
  }

  lemma StepKeepsInv(m: Moment, step: Step)
    requires Inv(m.q, m.held, m.ran) && Enabled(m, step)
    ensures var n := Apply(m, step); Inv(n.q, n.held, n.ran)
  {
    hide Inv;
    match step
    case Tick(now) => TickKeepsInv(m.q, m.held, m.ran, now);
    case AddTimer(addr, when, interval, repeat) => AddKeepsInv(m.q, m.held, m.ran, addr, when, interval, repeat);
    case TakeBatch(now) => TakeKeepsInv(m.q, now);
    case RunNext => RunKeepsInv(m.q, m.held, m.ran);
    case FinishNext => FinishKeepsInv(m.q, m.held);
  }

  lemma {:induction false} RunFromKeepsInv(m: Moment, steps: seq<Step>, n: Moment)
    requires Inv(m.q, m.held, m.ran) && Run(m, steps, n)
    ensures Inv(n.q, n.held, n.ran)
    decreases |steps|
  {
    if steps != [] {
      StepKeepsInv(m, steps[0]);
      RunFromKeepsInv(Apply(m, steps[0]), steps[1..], n);
    }
  }

  lemma ReachableInv(q: Queue, held: seq<Entry>, ran: nat)
    requires Reachable(q, held, ran)
    ensures Inv(q, held, ran)
  {
    var start, steps :| Run(Moment(Empty(start), [], 0), steps, Moment(q, held, ran));
    RunFromKeepsInv(Moment(Empty(start), [], 0), steps, Moment(q, held, ran));
  }

  lemma {:induction false} RunAppend(m: Moment, steps: seq<Step>, n: Moment, step: Step)
    requires Run(m, steps, n) && Enabled(n, step)
    ensures Run(m, steps + [step], Apply(n, step))
    decreases |steps|
  {
    if steps == [] {
      assert Run(Apply(n, step), [], Apply(n, step));
      assert [step][1..] == [] && steps + [step] == [step];
    } else {
      assert (steps + [step])[1..] == steps[1..] + [step];
      RunAppend(Apply(m, steps[0]), steps[1..], n, step);
    }
  }

  lemma EmptyReachable(now: int)
    ensures Reachable(Empty(now), [], 0)
  {
    var m := Moment(Empty(now), [], 0);
    assert Run(m, [], m);
  }

  /** A step from a reachable moment leads to a reachable one. */
  lemma StepReaches(q: Queue, held: seq<Entry>, ran: nat, step: Step)
    requires Reachable(q, held, ran) && Enabled(Moment(q, held, ran), step)
    ensures var n := Apply(Moment(q, held, ran), step); Reachable(n.q, n.held, n.ran)
  {
    var start, steps :| Run(Moment(Empty(start), [], 0), steps, Moment(q, held, ran));
    RunAppend(Moment(Empty(start), [], 0), steps, Moment(q, held, ran), step);
  }

  // ----- What it means -----

  /** No timer ever ran early, and two runs of one timer, consecutive or not, are at least its interval apart. */
  lemma NeverEarlyAndSpaced(q: Queue, held: seq<Entry>, ran: nat, i: nat, j: nat)
    requires Reachable(q, held, ran) && i <= j < |q.runs|
    ensures var r, s := q.runs[i], q.runs[j];
            && s.timer.serial < |q.added| && q.added[s.timer.serial].expiration <= s.timer.expiration <= s.at <= q.clock
            && (i < j && r.timer.serial == s.timer.serial ==> r.at + q.added[s.timer.serial].interval <= s.at)
  {
    ReachableInv(q, held, ran);
    if i < j {
      assert Spaced(q.runs[i], q.runs[j]);
    }
  }

  /**
    At every moment a timer ever added is alive exactly when it is not deleted, under one address, as it was asked
    for, and in the set or the running batch, in one of the two; a repeating timer is alive for ever.
   */
  lemma NoTimerLost(q: Queue, held: seq<Entry>, ran: nat, s: nat)
    requires Reachable(q, held, ran) && s < |q.added|
    ensures HasSerial(q.heap, s) <==> s !in q.deleted
    ensures q.added[s].repeat ==> HasSerial(q.heap, s)
    ensures forall a :: a in q.heap && q.heap[a].serial == s ==>
              && LaterOf(q.heap[a], q.added[s])
              && (HasAddr(q.timers, a) <==> !HasAddr(held, a))
              && forall b :: b in q.heap && q.heap[b].serial == s ==> b == a
  {
    ReachableInv(q, held, ran);
    forall a | a in q.heap && HasAddr(held, a)
      ensures !HasAddr(q.timers, a)
    {
      var k :| 0 <= k < |held| && held[k].addr == a;
    }
  }

  function Occurrences(serials: seq<nat>, s: nat): nat {
    multiset(serials)[s]
  }

  function RunsOf(runs: seq<RunRecord>, s: nat): nat {
    if runs == [] then 0 else RunsOf(runs[..|runs| - 1], s) + if runs[|runs| - 1].timer.serial == s then 1 else 0
  }

  lemma {:induction false} RunsOfNone(runs: seq<RunRecord>, s: nat)
    requires forall i :: 0 <= i < |runs| ==> runs[i].timer.serial != s
    ensures RunsOf(runs, s) == 0
  {
    if runs != [] {
      RunsOfNone(runs[..|runs| - 1], s);
    }
  }

  lemma {:induction false} RunsOfOne(runs: seq<RunRecord>, k: nat)
    requires k < |runs| && forall i :: 0 <= i < |runs| && i != k ==> runs[i].timer.serial != runs[k].timer.serial
    ensures RunsOf(runs, runs[k].timer.serial) == 1
  {
    var n := |runs| - 1;
    if k == n {
      RunsOfNone(runs[..n], runs[k].timer.serial);
    } else {
      RunsOfOne(runs[..n], k);
    }
  }

  lemma {:induction false} DistinctOccurs(serials: seq<nat>, s: nat)
    requires forall i, j :: 0 <= i < j < |serials| ==> serials[i] != serials[j]
    ensures Occurrences(serials, s) == if s in serials then 1 else 0
  {
    if serials != [] {
      var n := |serials| - 1;
      DistinctOccurs(serials[..n], s);
      assert serials == serials[..n] + [serials[n]];
    }
  }

  /**
    Between batches, a timer is deleted exactly when it is a one-shot that has run; it ran once and is deleted once.
   */
  lemma OneShotsRunAndDieOnce(q: Queue, s: nat)
    requires Reachable(q, [], 0)
    ensures s in q.deleted <==> HasRun(q, s)
    ensures s in q.deleted ==> RunsOf(q.runs, s) == 1 && Occurrences(q.deleted, s) == 1
    ensures forall a :: a in q.heap <==> HasAddr(q.timers, a)
  {
    ReachableInv(q, [], 0);
    DistinctOccurs(q.deleted, s);
    if HasRun(q, s) {
      var i :| 0 <= i < |q.runs| && q.runs[i].timer.serial == s && !q.runs[i].timer.repeat;
      assert s in q.deleted;
      forall j | 0 <= j < |q.runs| && j != i
        ensures q.runs[j].timer.serial != s
      {
        if i < j {
          assert Spaced(q.runs[i], q.runs[j]);
        } else {
          assert Spaced(q.runs[j], q.runs[i]);
        }
      }
      RunsOfOne(q.runs, i);
    }
    forall a | a in q.heap
      ensures HasAddr(q.timers, a)
    {
      assert HasAddr(q.timers, a) || HasAddr([], a);
    }
  }
}
