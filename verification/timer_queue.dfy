/** The timer queue as a state machine of its loop thread: timers created by any thread, inserted and cancelled by
    functors, and expired in batches whose callbacks insert and cancel timers themselves. */
module TimerSpec {

  /** The address of a timer object; nullptr is 0. */
  type TimerId = nat

  const NULL: TimerId := 0

  /** Times are nanoseconds since the epoch, and the epoch doubles as the invalid time point. */
  const INVALID_TIME_POINT: int := 0

  datatype Timer = Timer(expiration: int, repeat: bool, interval: nat)

  function Restart(t: Timer, now: int): Timer {
    if t.repeat then t.(expiration := now + t.interval) else t.(expiration := INVALID_TIME_POINT)
  }

  // The ordered set of (time, address) pairs

  datatype Entry = Entry(when: int, id: TimerId)

  predicate Before(a: Entry, b: Entry) {
    a.when < b.when || (a.when == b.when && a.id < b.id)
  }

  predicate Sorted(ts: seq<Entry>) {
    forall i, j :: 0 <= i < j < |ts| ==> Before(ts[i], ts[j])
  }

  function LowerBound(ts: seq<Entry>, e: Entry): (k: nat)
    ensures k <= |ts|
    ensures forall i :: 0 <= i < k ==> Before(ts[i], e)
    ensures k < |ts| ==> !Before(ts[k], e)
  {
    if ts == [] || !Before(ts[0], e) then 0 else 1 + LowerBound(ts[1..], e)
  }

  predicate Found(ts: seq<Entry>, e: Entry) {
    var k := LowerBound(ts, e);
    k < |ts| && ts[k] == e
  }

  function Inserted(ts: seq<Entry>, e: Entry): seq<Entry> {
    var k := LowerBound(ts, e);
    if Found(ts, e) then ts else ts[..k] + [e] + ts[k..]
  }

  function Erased(ts: seq<Entry>, e: Entry): seq<Entry> {
    var k := LowerBound(ts, e);
    if Found(ts, e) then ts[..k] + ts[k + 1..] else ts
  }

  lemma FoundIffIn(ts: seq<Entry>, e: Entry)
    requires Sorted(ts)
    ensures Found(ts, e) <==> e in ts
  {
    var k := LowerBound(ts, e);
    if k < |ts| {
      assert forall i :: k < i < |ts| ==> Before(ts[k], ts[i]);
    }
  }

  lemma SpliceSorted(ts: seq<Entry>, k: nat, e: Entry)
    requires Sorted(ts) && k <= |ts|
    requires forall i :: 0 <= i < k ==> Before(ts[i], e)
    requires forall i :: k <= i < |ts| ==> Before(e, ts[i])
    ensures Sorted(ts[..k] + [e] + ts[k..])
    ensures forall x :: x in ts[..k] + [e] + ts[k..] <==> x in ts || x == e
  {
    assert ts == ts[..k] + ts[k..];
    var s := ts[..k] + [e] + ts[k..];
    forall i, j | 0 <= i < j < |s| ensures Before(s[i], s[j]) {
      assert s[i] == if i < k then ts[i] else if i == k then e else ts[i - 1];
      assert s[j] == if j < k then ts[j] else if j == k then e else ts[j - 1];
    }
  }

  lemma InsertedIsUnion(ts: seq<Entry>, e: Entry)
    requires Sorted(ts)
    ensures Sorted(Inserted(ts, e))
    ensures forall x :: x in Inserted(ts, e) <==> x in ts || x == e
    ensures Inserted(ts, e)[0] == if ts == [] || Before(e, ts[0]) then e else ts[0]
  {
    FoundIffIn(ts, e);
    if e !in ts {
      var k := LowerBound(ts, e);
      forall i | k <= i < |ts| ensures Before(e, ts[i]) {
        assert Before(e, ts[k]);
      }
      SpliceSorted(ts, k, e);
    }
  }

  lemma ErasedIsDifference(ts: seq<Entry>, e: Entry)
    requires Sorted(ts)
    ensures Sorted(Erased(ts, e))
    ensures forall x :: x in Erased(ts, e) <==> x in ts && x != e
  {
    FoundIffIn(ts, e);
    var k := LowerBound(ts, e);
    if e in ts {
      assert ts == ts[..k] + [e] + ts[k + 1..];
      assert forall i :: 0 <= i < |ts| && i != k ==> ts[i] != e;
    }
  }

  // The queue

  /** A one-shot descriptor: disarmed, armed for some time, or fired and not read yet. */
  datatype TimerFd = Disarmed | Armed(target: int) | Fired

  predicate Covers(fd: TimerFd, when: int) {
    fd.Fired? || (fd.Armed? && fd.target <= when)
  }

  /** One execution of a timer's callback. */
  datatype Ran = Ran(id: TimerId, batch: nat, now: int)

  /** The first cancellation of a timer: how many callbacks had run, in which batch, and whether the timer belonged to
      the batch being run. */
  datatype Cancelled = Cancelled(pos: nat, batch: nat, inBatch: bool)

  /** timers, canceling, calling and fd are the object's own; batch, done and now are the local variables of the read
      callback while calling is set. The rest is history: the timers inserted so far and the batch count at that time,
      every callback run, and the first cancellation of each inserted timer. */
  datatype Queue = Queue(
    timers: seq<Entry>, objs: map<TimerId, Timer>,
    calling: bool, canceling: set<TimerId>, fd: TimerFd,
    batch: seq<Entry>, done: nat, now: int,
    batchNo: nat, born: map<TimerId, nat>, ran: seq<Ran>, prior: nat,
    cancels: map<TimerId, Cancelled>)

  const EMPTY := Queue([], map[], false, {}, Disarmed, [], 0, 0, 0, map[], [], 0, map[])

  datatype Action =
    | Create(id: TimerId, timer: Timer)      // AddTimer allocates the object, on any thread
    | Insert(id: TimerId)                    // AddTimer's functor, on the loop
    | Cancel(id: TimerId, locked: bool)      // CancelTimer's functor; locked: the weak pointer still led somewhere
    | Fire                                   // the kernel
    | Begin(clock: int)                      // the read callback up to the first timer callback
    | RunNext                                // the next timer callback
    | End                                    // the rest of the read callback

  predicate Holds(ts: seq<Entry>, id: TimerId) {
    exists e :: e in ts && e.id == id
  }

  predicate Enabled(q: Queue, a: Action) {
    match a
    case Create(id, _) => id != NULL && id !in q.objs
    case Insert(id) => id in q.objs && id !in q.born
    case Cancel(id, locked) => id in q.objs && (Holds(q.timers, id) || Holds(q.batch, id) ==> locked)
    case Fire => q.fd.Armed?
    case Begin(clock) => !q.calling && clock > INVALID_TIME_POINT
    case RunNext => q.calling && q.done < |q.batch|
    case End => q.calling && q.done == |q.batch|
  }

  /** insert: the new set, and whether the earliest expiration changed. */
  predicate EarliestChanged(ts: seq<Entry>, when: int) {
    ts == [] || when < ts[0].when
  }

  function InsertTimer(q: Queue, id: TimerId): Queue
    requires id in q.objs
  {
    var when := q.objs[id].expiration;
    q.(timers := Inserted(q.timers, Entry(when, id)),
       born := q.born[id := q.batchNo],
       fd := if EarliestChanged(q.timers, when) then Armed(when) else q.fd)
  }

  function CancelTimer(q: Queue, id: TimerId, locked: bool): Queue
    requires id in q.objs
  {
    var e := Entry(q.objs[id].expiration, id);
    var r :=
      if !locked then q
      else if Found(q.timers, e) then q.(timers := Erased(q.timers, e))
      else if q.calling then q.(canceling := q.canceling + {id})
      else q;
    if id in q.born && id !in q.cancels then
      r.(cancels := q.cancels[id := Cancelled(|q.ran|, q.batchNo, Holds(q.batch, id))])
    else r
  }

  /** How many of the stored timers have expired: those before the pair of the clock and the null pointer. */
  function ExpiredCount(q: Queue, clock: int): (k: nat)
    ensures k <= |q.timers|
  {
    LowerBound(q.timers, Entry(clock, NULL))
  }

  function BeginBatch(q: Queue, clock: int): Queue {
    var k := ExpiredCount(q, clock);
    q.(fd := if q.fd.Fired? then Disarmed else q.fd,
       batch := q.timers[..k], timers := q.timers[k..], done := 0, now := clock,
       calling := true, canceling := {}, batchNo := q.batchNo + 1, prior := |q.ran|)
  }

  predicate Reinserts(objs: map<TimerId, Timer>, canceling: set<TimerId>, id: TimerId) {
    id in objs && objs[id].repeat && id !in canceling
  }

  /** The loop that restarts and reinserts the repeating timers of a batch. */
  function Reinsert(ts: seq<Entry>, objs: map<TimerId, Timer>, es: seq<Entry>, canceling: set<TimerId>, now: int)
    : (r: (seq<Entry>, map<TimerId, Timer>))
    decreases es
  {
    if es == [] then (ts, objs)
    else if Reinserts(objs, canceling, es[0].id) then
      var t := Restart(objs[es[0].id], now);
      Reinsert(Inserted(ts, Entry(t.expiration, es[0].id)), objs[es[0].id := t], es[1..], canceling, now)
    else Reinsert(ts, objs, es[1..], canceling, now)
  }

  /** The expiration the descriptor is set to at the end of a batch. */
  function NextExpiration(ts: seq<Entry>, objs: map<TimerId, Timer>): int {
    if ts != [] && ts[0].id in objs then objs[ts[0].id].expiration else INVALID_TIME_POINT
  }

  function EndBatch(q: Queue): Queue {
    var (ts, objs) := Reinsert(q.timers, q.objs, q.batch, q.canceling, q.now);
    var next := NextExpiration(ts, objs);
    q.(timers := ts, objs := objs, calling := false, batch := [], done := 0,
       fd := if next != INVALID_TIME_POINT then Armed(next) else q.fd)
  }

  function Step(q: Queue, a: Action): Queue
    requires Enabled(q, a)
  {
    match a
    case Create(id, timer) => q.(objs := q.objs[id := timer])
    case Insert(id) => InsertTimer(q, id)
    case Cancel(id, locked) => CancelTimer(q, id, locked)
    case Fire => q.(fd := Fired)
    case Begin(clock) => BeginBatch(q, clock)
    case RunNext => q.(done := q.done + 1, ran := q.ran + [Ran(q.batch[q.done].id, q.batchNo, q.now)])
    case End => EndBatch(q)
  }

  // Invariants

  /** Every stored key is its timer's expiration, so each timer is stored at most once. */
  ghost predicate Keyed(q: Queue, ts: seq<Entry>) {
    && Sorted(ts)
    && forall e :: e in ts ==> e.id in q.objs && e.id in q.born && q.objs[e.id].expiration == e.when
  }

  ghost predicate Stored(q: Queue) {
    && Keyed(q, q.timers) && Keyed(q, q.batch)
    && q.born.Keys <= q.objs.Keys && NULL !in q.objs
    && (forall e, f :: e in q.batch && f in q.timers ==> e.id != f.id)
    && (!q.calling ==> q.batch == [] && q.done == 0)
    && q.done <= |q.batch|
    && (q.calling ==> forall e :: e in q.batch ==> e.when < q.now)
  }

  /** No lost timer: between batches the descriptor covers the earliest stored expiration. While callbacks run it
      covers whatever they inserted in the past. */
  ghost predicate Watched(q: Queue) {
    && (!q.calling && q.timers != [] ==> Covers(q.fd, q.timers[0].when))
    && (q.calling ==> q.now > INVALID_TIME_POINT)
    && (q.calling ==> forall e :: e in q.timers && e.when < q.now ==> Covers(q.fd, e.when))
  }

  /** The current batch has run exactly its first done timers, in order; nothing runs in the batch it was born in. */
  ghost predicate Logged(q: Queue)
    requires Stored(q)
  {
    && (q.calling ==> q.prior + q.done == |q.ran|)
    && (q.calling ==> forall k {:trigger q.batch[k]} :: 0 <= k < q.done ==>
          q.ran[q.prior + k] == Ran(q.batch[k].id, q.batchNo, q.now))
    && (forall i :: 0 <= i < |q.ran| ==> q.ran[i].id in q.born && q.born[q.ran[i].id] < q.ran[i].batch <= q.batchNo)
    && (q.calling ==> forall i :: 0 <= i < q.prior ==> q.ran[i].batch < q.batchNo)
    && (forall id :: id in q.born ==> q.born[id] <= q.batchNo)
    && (q.calling ==> forall e :: e in q.batch ==> q.born[e.id] < q.batchNo)
  }

  /** A timer that ran may run again at when only if it repeats and its interval has gone by. */
  predicate Due(q: Queue, e: Entry) {
    forall i :: 0 <= i < |q.ran| && q.ran[i].id == e.id ==>
      e.id in q.objs && q.objs[e.id].repeat && q.ran[i].now + q.objs[e.id].interval <= e.when
  }

  predicate FarApart(q: Queue, r: Ran, later: Ran) {
    r.id in q.objs && q.objs[r.id].repeat && r.now + q.objs[r.id].interval < later.now
  }

  ghost predicate Spaced(q: Queue)
    requires Stored(q)
  {
    && (forall e :: e in q.timers ==> Due(q, e))
    && (forall k :: q.done <= k < |q.batch| ==> Due(q, q.batch[k]))
    && (forall k, i :: 0 <= k < q.done && 0 <= i < |q.ran| && q.ran[i].id == q.batch[k].id ==> q.ran[i].now <= q.now)
    && (forall i, j :: 0 <= i < j < |q.ran| && q.ran[i].id == q.ran[j].id ==> FarApart(q, q.ran[i], q.ran[j]))
  }

  /** A cancelled timer is not stored; if it is in the batch being run it is marked, so it will not be reinserted. */
  ghost predicate FinalFor(q: Queue, id: TimerId, c: Cancelled) {
    && id in q.born
    && (forall e :: e in q.timers ==> e.id != id)
    && (forall e :: e in q.batch && e.id == id ==> c.inBatch && c.batch == q.batchNo && id in q.canceling)
    && c.pos <= |q.ran|
    && (forall i :: c.pos <= i < |q.ran| && q.ran[i].id == id ==> c.inBatch && q.ran[i].batch == c.batch)
  }

  ghost predicate Final(q: Queue) {
    forall id :: id in q.cancels ==> FinalFor(q, id, q.cancels[id])
  }

  ghost predicate Inv(q: Queue) {
    Stored(q) && Watched(q) && Logged(q) && Spaced(q) && Final(q)
  }

  // Every step keeps the invariant

  lemma KeyedDistinct(q: Queue, ts: seq<Entry>)
    requires Keyed(q, ts)
    ensures forall i, j :: 0 <= i < j < |ts| ==> ts[i].id != ts[j].id
  {
    forall i, j | 0 <= i < j < |ts| ensures ts[i].id != ts[j].id {
      assert Before(ts[i], ts[j]) && ts[i] in ts && ts[j] in ts;
    }
  }

  lemma ExpiredPrefix(ts: seq<Entry>, clock: int)
    requires Sorted(ts)
    ensures forall i :: 0 <= i < |ts| ==> (ts[i].when < clock <==> i < LowerBound(ts, Entry(clock, NULL)))
  {
    var k := LowerBound(ts, Entry(clock, NULL));
    forall i | k <= i < |ts| ensures clock <= ts[i].when {
      assert k < i ==> Before(ts[k], ts[i]);
    }
  }

  lemma SplitAt(ts: seq<Entry>, k: nat, clock: int)
    requires k <= |ts|
    requires forall i :: 0 <= i < |ts| ==> (ts[i].when < clock <==> i < k)
    ensures forall e :: e in ts[..k] <==> e in ts && e.when < clock
    ensures forall e :: e in ts[k..] <==> e in ts && clock <= e.when
  {
    forall e | e in ts && clock <= e.when ensures e in ts[k..] {
      var i :| 0 <= i < |ts| && ts[i] == e;
      assert ts[k..][i - k] == e;
    }
  }

  lemma KeyedSlices(q: Queue, ts: seq<Entry>, k: nat)
    requires Keyed(q, ts) && k <= |ts|
    ensures Keyed(q, ts[..k]) && Keyed(q, ts[k..])
    ensures forall e, f :: e in ts[..k] && f in ts[k..] ==> e.id != f.id
  {
    KeyedDistinct(q, ts);
    assert forall e :: e in ts[..k] ==> e in ts;
    assert forall e :: e in ts[k..] ==> e in ts;
    forall e, f | e in ts[..k] && f in ts[k..] ensures e.id != f.id {
      var i :| 0 <= i < k && ts[i] == e;
      var j :| k <= j < |ts| && ts[j] == f;
    }
  }

  /** The batch is exactly the set of timers that expire strictly before the clock, in order of expiration; the timers
      left behind are exactly the others. */
  lemma BatchIsExpired(q: Queue, clock: int)
    requires Stored(q)
    ensures var r := BeginBatch(q, clock);
            && q.timers == r.batch + r.timers
            && Keyed(q, r.batch) && Keyed(q, r.timers)
            && (forall e :: e in r.batch <==> e in q.timers && e.when < clock)
            && (forall e :: e in r.timers <==> e in q.timers && clock <= e.when)
            && (forall e, f :: e in r.batch && f in r.timers ==> e.id != f.id)
  {
    assert Keyed(q, q.timers);
    assert Sorted(q.timers);
    hide LowerBound, Keyed, Stored, Sorted;
    ExpiredPrefix(q.timers, clock);
    var k := ExpiredCount(q, clock);
    SplitAt(q.timers, k, clock);
    KeyedSlices(q, q.timers, k);
    assert q.timers == q.timers[..k] + q.timers[k..];
  }

  lemma {:induction false} ReinsertAll(ts: seq<Entry>, objs: map<TimerId, Timer>, es: seq<Entry>,
                                       canceling: set<TimerId>, now: int)
    requires Sorted(ts)
    requires forall i, j :: 0 <= i < j < |es| ==> es[i].id != es[j].id
    requires forall e :: e in es ==> e.id in objs
    requires forall e, f :: e in es && f in ts ==> e.id != f.id
    ensures var r := Reinsert(ts, objs, es, canceling, now);
            && Sorted(r.0) && r.1.Keys == objs.Keys
            && (forall x :: x in r.0 <==>
                  || x in ts
                  || (Holds(es, x.id) && x.id in objs && objs[x.id].repeat && x.id !in canceling
                      && x.when == now + objs[x.id].interval))
            && (forall id :: id in objs ==>
                  r.1[id] == if Holds(es, id) && objs[id].repeat && id !in canceling
                             then objs[id].(expiration := now + objs[id].interval) else objs[id])
    decreases es
  {
    if es != [] {
      var id := es[0].id;
      assert es[0] in es && Holds(es, id) && !Holds(es[1..], id);
      assert forall i :: i != id ==> (Holds(es, i) <==> Holds(es[1..], i));
      if Reinserts(objs, canceling, id) {
        var t := Restart(objs[id], now);
        InsertedIsUnion(ts, Entry(t.expiration, id));
        ReinsertAll(Inserted(ts, Entry(t.expiration, id)), objs[id := t], es[1..], canceling, now);
      } else {
        ReinsertAll(ts, objs, es[1..], canceling, now);
      }
    }
  }

  /** What the end of a batch does to the set: the repeating timers that were not cancelled come back. */
  lemma EndReinserts(q: Queue)
    requires Stored(q) && q.calling
    ensures var r := EndBatch(q);
            && Sorted(r.timers) && r.objs.Keys == q.objs.Keys
            && (forall x :: x in r.timers <==>
                  || x in q.timers
                  || (Holds(q.batch, x.id) && x.id in q.objs && q.objs[x.id].repeat && x.id !in q.canceling
                      && x.when == q.now + q.objs[x.id].interval))
            && (forall id :: id in q.objs ==>
                  r.objs[id] == if Holds(q.batch, id) && q.objs[id].repeat && id !in q.canceling
                                then q.objs[id].(expiration := q.now + q.objs[id].interval) else q.objs[id])
  {
    KeyedDistinct(q, q.batch);
    ReinsertAll(q.timers, q.objs, q.batch, q.canceling, q.now);
  }

  lemma EndStored(q: Queue)
    requires Stored(q) && Enabled(q, End)
    ensures Stored(Step(q, End))
  {
    hide LowerBound, Found, Inserted, Erased, Reinsert;
    EndReinserts(q);
  }

  lemma CancelErases(q: Queue, id: TimerId, locked: bool)
    requires Stored(q) && Enabled(q, Cancel(id, locked))
    ensures var r := CancelTimer(q, id, locked);
            && Sorted(r.timers)
            && (forall x :: x in r.timers <==> x in q.timers && x.id != id)
            && (locked && q.calling && !Holds(q.timers, id) ==> id in r.canceling)
  {
    var e := Entry(q.objs[id].expiration, id);
    FoundIffIn(q.timers, e);
    ErasedIsDifference(q.timers, e);
  }

  lemma InsertStored(q: Queue, id: TimerId)
    requires Stored(q) && Enabled(q, Insert(id))
    ensures Stored(InsertTimer(q, id))
  {
    hide LowerBound, Found, Inserted;
    InsertedIsUnion(q.timers, Entry(q.objs[id].expiration, id));
  }

  lemma CancelStored(q: Queue, id: TimerId, locked: bool)
    requires Stored(q) && Enabled(q, Cancel(id, locked))
    ensures Stored(CancelTimer(q, id, locked))
  {
    hide LowerBound, Found, Erased, Holds;
    CancelErases(q, id, locked);
  }

  lemma BeginStored(q: Queue, clock: int)
    requires Stored(q) && Enabled(q, Begin(clock))
    ensures Stored(BeginBatch(q, clock))
  {
    hide LowerBound;
    BatchIsExpired(q, clock);
  }

  lemma StepStored(q: Queue, a: Action)
    requires Stored(q) && Enabled(q, a)
    ensures Stored(Step(q, a))
  {
    hide InsertTimer, CancelTimer, BeginBatch, EndBatch, Holds;
    match a
    case Insert(id) => InsertStored(q, id);
    case Cancel(id, locked) => CancelStored(q, id, locked);
    case Begin(clock) => BeginStored(q, clock);
    case End => EndStored(q);
    case _ =>
  }

  lemma FirstIsEarliest(ts: seq<Entry>)
    requires Sorted(ts)
    ensures forall e :: e in ts ==> ts[0].when <= e.when
  {
  }

  lemma InsertWatched(q: Queue, id: TimerId)
    requires Stored(q) && Watched(q) && Enabled(q, Insert(id))
    ensures Watched(InsertTimer(q, id))
  {
    hide LowerBound, Found, Inserted;
    InsertedIsUnion(q.timers, Entry(q.objs[id].expiration, id));
  }

  lemma CancelWatched(q: Queue, id: TimerId, locked: bool)
    requires Stored(q) && Watched(q) && Enabled(q, Cancel(id, locked))
    ensures Watched(CancelTimer(q, id, locked))
  {
    CancelErases(q, id, locked);
    FirstIsEarliest(q.timers);
    hide LowerBound, Found, Erased, Holds, Stored, Sorted;
    var r := CancelTimer(q, id, locked);
    assert r.timers != [] ==> r.timers[0] in r.timers;
  }

  lemma BeginWatched(q: Queue, clock: int)
    requires Stored(q) && Watched(q) && Enabled(q, Begin(clock))
    ensures Watched(BeginBatch(q, clock))
  {
    BatchIsExpired(q, clock);
    hide LowerBound, Stored, Sorted;
  }

  /** The descriptor is set again unless the earliest timer expires at the invalid time point; that timer lies in the
      past, so a callback of this very batch inserted it and armed the descriptor for it. */
  lemma EndWatched(q: Queue)
    requires Stored(q) && Watched(q) && Enabled(q, End)
    ensures Watched(Step(q, End))
  {
    hide LowerBound, Found, Inserted, Erased, Reinsert;
    EndReinserts(q);
    EndStored(q);
    var r := Step(q, End);
    if r.timers != [] {
      assert r.timers[0] in r.timers;
    }
  }

  lemma StepWatched(q: Queue, a: Action)
    requires Stored(q) && Watched(q) && Enabled(q, a)
    ensures Watched(Step(q, a))
  {
    hide InsertTimer, CancelTimer, BeginBatch, EndBatch, Stored, Holds;
    match a
    case Insert(id) => InsertWatched(q, id);
    case Cancel(id, locked) => CancelWatched(q, id, locked);
    case Begin(clock) => BeginWatched(q, clock);
    case End => EndWatched(q);
    case _ =>
  }

  /** Creating, inserting, cancelling and firing leave the running batch and the callback history alone. */
  lemma BatchFrame(q: Queue, a: Action)
    requires Enabled(q, a) && !a.Begin? && !a.RunNext?
    ensures var r := Step(q, a);
            && r.ran == q.ran && r.batchNo == q.batchNo && r.prior == q.prior && r.now == q.now
            && (!a.End? ==> r.calling == q.calling && r.batch == q.batch && r.done == q.done)
  {
    hide LowerBound, Found, Inserted, Erased, Reinsert, Holds;
  }

  lemma BornFrame(q: Queue, a: Action)
    requires Enabled(q, a) && !a.Begin?
    ensures a.Insert? ==> Step(q, a).born == q.born[a.id := q.batchNo]
    ensures !a.Insert? ==> Step(q, a).born == q.born
    ensures a.End? ==> !Step(q, a).calling && Step(q, a).batch == []
  {
    hide LowerBound, Found, Inserted, Erased, Reinsert, Holds;
  }

  lemma BeginLogged(q: Queue, clock: int)
    requires Stored(q) && Logged(q) && Enabled(q, Begin(clock))
    ensures Stored(BeginBatch(q, clock)) && Logged(BeginBatch(q, clock))
  {
    BeginStored(q, clock);
    BatchIsExpired(q, clock);
    hide LowerBound, Sorted;
  }

  lemma RunNextLogged(q: Queue)
    requires Stored(q) && Logged(q) && Enabled(q, RunNext)
    ensures Stored(Step(q, RunNext)) && Logged(Step(q, RunNext))
  {
    hide Sorted;
    StepStored(q, RunNext);
    assert q.batch[q.done] in q.batch;
  }

  lemma StepLogged(q: Queue, a: Action)
    requires Stored(q) && Logged(q) && Enabled(q, a)
    ensures Stored(Step(q, a)) && Logged(Step(q, a))
  {
    hide InsertTimer, CancelTimer, BeginBatch, EndBatch, Holds, Sorted;
    match a
    case Begin(clock) => BeginLogged(q, clock);
    case RunNext => RunNextLogged(q);
    case _ =>
      StepStored(q, a);
      BatchFrame(q, a);
      BornFrame(q, a);
  }

  lemma InsertSpaced(q: Queue, id: TimerId)
    requires Stored(q) && Logged(q) && Spaced(q) && Enabled(q, Insert(id))
    ensures Stored(InsertTimer(q, id)) && Spaced(InsertTimer(q, id))
  {
    hide LowerBound, Found, Inserted, Sorted;
    InsertStored(q, id);
    InsertedIsUnion(q.timers, Entry(q.objs[id].expiration, id));
  }

  lemma CancelSpaced(q: Queue, id: TimerId, locked: bool)
    requires Stored(q) && Spaced(q) && Enabled(q, Cancel(id, locked))
    ensures Stored(CancelTimer(q, id, locked)) && Spaced(CancelTimer(q, id, locked))
  {
    hide LowerBound, Found, Erased, Holds, Sorted;
    CancelStored(q, id, locked);
    CancelErases(q, id, locked);
    var r := CancelTimer(q, id, locked);
    assert forall e :: Due(q, e) ==> Due(r, e);
  }

  lemma BeginSpaced(q: Queue, clock: int)
    requires Stored(q) && Spaced(q) && Enabled(q, Begin(clock))
    ensures Stored(BeginBatch(q, clock)) && Spaced(BeginBatch(q, clock))
  {
    hide LowerBound, Sorted;
    BeginStored(q, clock);
    BatchIsExpired(q, clock);
    var r := BeginBatch(q, clock);
    assert forall e :: Due(q, e) ==> Due(r, e);
  }

  lemma RunNextSpaced(q: Queue)
    requires Stored(q) && Spaced(q) && Enabled(q, RunNext)
    ensures Stored(Step(q, RunNext)) && Spaced(Step(q, RunNext))
  {
    hide Sorted;
    KeyedDistinct(q, q.batch);
    StepStored(q, RunNext);
    var r := Step(q, RunNext);
    assert q.batch[q.done] in q.batch;
    assert forall e :: Due(q, e) && e.id != q.batch[q.done].id ==> Due(r, e);
  }

  lemma EndSpaced(q: Queue)
    requires Stored(q) && Spaced(q) && Enabled(q, End)
    ensures Stored(Step(q, End)) && Spaced(Step(q, End))
  {
    hide Sorted, LowerBound, Found, Inserted, Reinsert;
    EndReinserts(q);
    EndStored(q);
    var r := Step(q, End);
    forall x | x in r.timers ensures Due(r, x) {
      if x in q.timers {
        assert Due(q, x);
      } else {
        var e :| e in q.batch && e.id == x.id;
        var k :| 0 <= k < |q.batch| && q.batch[k] == e;
      }
    }
  }

  lemma StepSpaced(q: Queue, a: Action)
    requires Stored(q) && Logged(q) && Spaced(q) && Enabled(q, a)
    ensures Stored(Step(q, a)) && Spaced(Step(q, a))
  {
    hide InsertTimer, CancelTimer, BeginBatch, EndBatch, Holds, Sorted;
    match a
    case Insert(id) => InsertSpaced(q, id);
    case Cancel(id, locked) => CancelSpaced(q, id, locked);
    case Begin(clock) => BeginSpaced(q, clock);
    case RunNext => RunNextSpaced(q);
    case End => EndSpaced(q);
    case _ =>
      StepStored(q, a);
      assert forall e :: Due(q, e) && e.id in q.born ==> Due(Step(q, a), e);
  }

  lemma CancelFinal(q: Queue, id: TimerId, locked: bool)
    requires Stored(q) && Final(q) && Enabled(q, Cancel(id, locked))
    ensures Final(CancelTimer(q, id, locked))
  {
    hide LowerBound, Found, Erased, Sorted;
    CancelErases(q, id, locked);
    var r := CancelTimer(q, id, locked);
    assert Holds(q.batch, id) ==> locked && q.calling && !Holds(q.timers, id);
    assert forall e :: e in q.batch && e.id == id ==> Holds(q.batch, id);
    forall x | x in r.cancels ensures FinalFor(r, x, r.cancels[x]) {
      assert x in q.cancels ==> FinalFor(q, x, q.cancels[x]);
    }
  }

  lemma EndFinal(q: Queue)
    requires Stored(q) && Final(q) && Enabled(q, End)
    ensures Final(EndBatch(q))
  {
    hide LowerBound, Found, Inserted, Reinsert, Sorted;
    EndReinserts(q);
    var r := EndBatch(q);
    forall x | x in r.cancels ensures FinalFor(r, x, r.cancels[x]) {
      assert FinalFor(q, x, q.cancels[x]);
    }
  }

  lemma BeginFinal(q: Queue, clock: int)
    requires Stored(q) && Final(q) && Enabled(q, Begin(clock))
    ensures Final(BeginBatch(q, clock))
  {
    BatchIsExpired(q, clock);
    hide LowerBound, Stored;
    var r := BeginBatch(q, clock);
    forall x | x in r.cancels ensures FinalFor(r, x, r.cancels[x]) {
      assert FinalFor(q, x, q.cancels[x]);
    }
  }

  lemma StepFinal(q: Queue, a: Action)
    requires Stored(q) && Logged(q) && Final(q) && Enabled(q, a)
    ensures Final(Step(q, a))
  {
    hide LowerBound, Inserted, CancelTimer, BeginBatch, EndBatch, Holds, Sorted;
    match a
    case Insert(id) => InsertedIsUnion(q.timers, Entry(q.objs[id].expiration, id));
    case Cancel(id, locked) => CancelFinal(q, id, locked);
    case Begin(clock) => BeginFinal(q, clock);
    case RunNext => assert q.batch[q.done] in q.batch;
    case End => EndFinal(q);
    case _ =>
  }

  lemma StepKeeps(q: Queue, a: Action)
    requires Inv(q) && Enabled(q, a)
    ensures Inv(Step(q, a))
  {
    hide Step, Watched, Logged, Spaced, Final;
    StepStored(q, a);
    StepWatched(q, a);
    StepLogged(q, a);
    StepSpaced(q, a);
    StepFinal(q, a);
  }

  // Whole runs

  ghost predicate Runs(q: Queue, acts: seq<Action>)
    decreases |acts|
  {
    acts != [] ==> Enabled(q, acts[0]) && Runs(Step(q, acts[0]), acts[1..])
  }

  ghost function Run(q: Queue, acts: seq<Action>): Queue
    requires Runs(q, acts)
    decreases |acts|
  {
    if acts == [] then q else Run(Step(q, acts[0]), acts[1..])
  }

  lemma {:induction false} RunSplits(q: Queue, first: seq<Action>, rest: seq<Action>)
    requires Runs(q, first + rest)
    ensures Runs(q, first) && Runs(Run(q, first), rest) && Run(q, first + rest) == Run(Run(q, first), rest)
    decreases |first|
  {
    hide Step;
    if first == [] {
      assert first + rest == rest;
    } else {
      assert (first + rest)[1..] == first[1..] + rest;
      RunSplits(Step(q, first[0]), first[1..], rest);
    }
  }

  lemma {:induction false} RunKeeps(q: Queue, acts: seq<Action>)
    requires Inv(q) && Runs(q, acts)
    ensures Inv(Run(q, acts))
    decreases |acts|
  {
    hide Step, Inv;
    if acts != [] {
      StepKeeps(q, acts[0]);
      RunKeeps(Step(q, acts[0]), acts[1..]);
    }
  }

  lemma Reachable(acts: seq<Action>)
    requires Runs(EMPTY, acts)
    ensures Inv(Run(EMPTY, acts))
  {
    RunKeeps(EMPTY, acts);
  }

  /** No lost timer: after any history of additions, cancellations, expirations and batches whose callbacks add and
      cancel timers, the descriptor has fired or is armed no later than any stored timer. */
  lemma NoLostTimer(acts: seq<Action>)
    requires Runs(EMPTY, acts)
    requires !Run(EMPTY, acts).calling
    ensures forall e :: e in Run(EMPTY, acts).timers ==> Covers(Run(EMPTY, acts).fd, e.when)
  {
    Reachable(acts);
    FirstIsEarliest(Run(EMPTY, acts).timers);
  }

  function RunsOf(es: seq<Entry>, batch: nat, now: int): (rs: seq<Ran>)
    ensures |rs| == |es|
  {
    seq(|es|, i requires 0 <= i < |es| => Ran(es[i].id, batch, now))
  }

  lemma {:induction false} BatchIsFixed(q: Queue, acts: seq<Action>)
    requires q.calling && Runs(q, acts)
    requires forall a :: a in acts ==> !a.Begin? && !a.End?
    ensures var r := Run(q, acts);
            && r.calling && r.batch == q.batch && r.batchNo == q.batchNo && r.now == q.now
            && r.prior == q.prior && q.ran <= r.ran
    decreases |acts|
  {
    if acts != [] {
      assert acts[0] in acts;
      if !acts[0].RunNext? {
        BatchFrame(q, acts[0]);
      }
      BatchIsFixed(Step(q, acts[0]), acts[1..]);
    }
  }

  lemma LogIsBatch(q: Queue)
    requires Stored(q) && Logged(q) && Enabled(q, End)
    ensures q.ran == q.ran[..q.prior] + RunsOf(q.batch, q.batchNo, q.now)
  {
  }

  lemma LogOfBatch(q: Queue, clock: int, during: seq<Action>)
    requires Inv(q) && Enabled(q, Begin(clock))
    requires Runs(BeginBatch(q, clock), during)
    requires forall a :: a in during ==> !a.Begin? && !a.End?
    requires Enabled(Run(BeginBatch(q, clock), during), End)
    ensures Run(BeginBatch(q, clock), during).ran == q.ran + RunsOf(BeginBatch(q, clock).batch, q.batchNo + 1, clock)
  {
    hide Stored, Watched, Logged, Spaced, Final, LowerBound, RunsOf;
    StepKeeps(q, Begin(clock));
    var b := BeginBatch(q, clock);
    BatchIsFixed(b, during);
    RunKeeps(b, during);
    LogIsBatch(Run(b, during));
  }

  lemma RunOne(q: Queue, a: Action)
    ensures Runs(q, [a]) <==> Enabled(q, a)
    ensures Enabled(q, a) ==> Run(q, [a]) == Step(q, a)
  {
    assert [a][1..] == [];
    if Enabled(q, a) {
      assert Runs(Step(q, a), []) && Run(Step(q, a), []) == Step(q, a);
    }
  }

  lemma BatchFrom(q: Queue, clock: int, during: seq<Action>)
    requires Inv(q) && Runs(q, [Begin(clock)] + (during + [End]))
    requires forall a :: a in during ==> !a.Begin? && !a.End?
    ensures Run(q, [Begin(clock)] + (during + [End])).ran
         == q.ran + RunsOf(BeginBatch(q, clock).batch, q.batchNo + 1, clock)
  {
    hide Stored, Watched, Logged, Spaced, Final, BeginBatch, RunsOf, Reinsert, Inv;
    RunSplits(q, [Begin(clock)], during + [End]);
    RunOne(q, Begin(clock));
    var b := BeginBatch(q, clock);
    RunSplits(b, during, [End]);
    RunOne(Run(b, during), End);
    LogOfBatch(q, clock, during);
  }

  lemma ExpiredAre(q: Queue, clock: int)
    requires Inv(q)
    ensures var expired := q.timers[..ExpiredCount(q, clock)];
            && BeginBatch(q, clock).batch == expired && Sorted(expired)
            && forall e :: e in expired <==> e in q.timers && e.when < clock
  {
    BatchIsExpired(q, clock);
  }

  /** A whole batch, whatever its callbacks do, runs exactly the timers that had expired strictly before its clock
      reading when it began, each once, in order of expiration. */
  lemma BatchRunsExpired(past: seq<Action>, clock: int, during: seq<Action>)
    requires Runs(EMPTY, past + ([Begin(clock)] + (during + [End])))
    requires forall a :: a in during ==> !a.Begin? && !a.End?
    ensures Runs(EMPTY, past)
    ensures var q := Run(EMPTY, past);
            var expired := q.timers[..ExpiredCount(q, clock)];
            && (forall e :: e in expired <==> e in q.timers && e.when < clock)
            && Sorted(expired)
            && Run(EMPTY, past + ([Begin(clock)] + (during + [End]))).ran
               == q.ran + RunsOf(expired, q.batchNo + 1, clock)
  {
    RunSplits(EMPTY, past, [Begin(clock)] + (during + [End]));
    Reachable(past);
    var q := Run(EMPTY, past);
    hide *;
    ExpiredAre(q, clock);
    BatchFrom(q, clock, during);
  }

  /** A timer added by a callback never runs in the batch of that callback. */
  lemma AddedTimersWait(acts: seq<Action>, i: nat)
    requires Runs(EMPTY, acts) && i < |Run(EMPTY, acts).ran|
    ensures var q := Run(EMPTY, acts);
            q.ran[i].id in q.born && q.born[q.ran[i].id] < q.ran[i].batch
  {
    Reachable(acts);
  }

  /** Two callbacks of the same timer: it repeats, and the clock readings of their batches are further apart than its
      interval, even when the wall clock jumps. */
  lemma RepeatsAreSpaced(acts: seq<Action>, i: nat, j: nat)
    requires Runs(EMPTY, acts) && i < j < |Run(EMPTY, acts).ran|
    requires Run(EMPTY, acts).ran[i].id == Run(EMPTY, acts).ran[j].id
    ensures FarApart(Run(EMPTY, acts), Run(EMPTY, acts).ran[i], Run(EMPTY, acts).ran[j])
  {
    Reachable(acts);
  }

  // No timer goes missing

  predicate Cancels(acts: seq<Action>, id: TimerId) {
    exists a :: a in acts && a.Cancel? && a.id == id
  }

  lemma CancelsFirst(acts: seq<Action>, id: TimerId)
    requires acts != []
    ensures Cancels(acts, id) <==> (acts[0].Cancel? && acts[0].id == id) || Cancels(acts[1..], id)
  {
    assert acts == [acts[0]] + acts[1..];
    assert forall a :: a in acts <==> a == acts[0] || a in acts[1..];
  }

  /** Only the end of a batch changes a timer, and only one of the batch. */
  lemma ObjsStay(q: Queue, a: Action, id: TimerId)
    requires Stored(q) && Enabled(q, a) && id in q.objs && (a.End? ==> !Holds(q.batch, id))
    ensures id in Step(q, a).objs && Step(q, a).objs[id] == q.objs[id]
  {
    hide LowerBound, Found, Inserted, Erased, Reinsert;
    if a.End? {
      EndReinserts(q);
    }
  }

  /** canceling holds exactly the timers that steps since the beginning of the batch have cancelled while they were not
      stored. */
  ghost function Marked(q: Queue, acts: seq<Action>): set<TimerId>
    requires Runs(q, acts)
    decreases |acts|
  {
    if acts == [] then {}
    else
      var a := acts[0];
      (if a.Cancel? && a.locked && !Holds(q.timers, a.id) then {a.id} else {}) + Marked(Step(q, a), acts[1..])
  }

  lemma CancelMarks(q: Queue, id: TimerId, locked: bool)
    requires Stored(q) && Enabled(q, Cancel(id, locked)) && q.calling
    ensures CancelTimer(q, id, locked).canceling
         == q.canceling + if locked && !Holds(q.timers, id) then {id} else {}
  {
    FoundIffIn(q.timers, Entry(q.objs[id].expiration, id));
    hide LowerBound, Found, Erased, Sorted;
  }

  lemma OthersMarkNothing(q: Queue, a: Action)
    requires Enabled(q, a) && !a.Begin? && !a.Cancel?
    ensures Step(q, a).canceling == q.canceling
  {
    hide LowerBound, Found, Inserted, Reinsert, Holds;
  }

  lemma {:induction false} CancelingIsMarked(q: Queue, acts: seq<Action>)
    requires Stored(q) && q.calling && Runs(q, acts)
    requires forall a :: a in acts ==> !a.Begin? && !a.End?
    ensures Run(q, acts).canceling == q.canceling + Marked(q, acts)
    decreases |acts|
  {
    hide Stored, Holds, CancelTimer, InsertTimer, BeginBatch, EndBatch;
    if acts != [] {
      assert acts[0] in acts;
      var a := acts[0];
      StepStored(q, a);
      if a.Cancel? {
        CancelMarks(q, a.id, a.locked);
      } else {
        OthersMarkNothing(q, a);
      }
      if !a.RunNext? {
        BatchFrame(q, a);
      }
      CancelingIsMarked(Step(q, a), acts[1..]);
    }
  }

  lemma BatchNotStored(q: Queue, id: TimerId)
    requires Stored(q) && Holds(q.batch, id)
    ensures !Holds(q.timers, id) && id in q.objs && id in q.born
  {
    hide Sorted;
  }

  /** A timer of the batch is marked exactly if a callback cancels it. */
  lemma {:induction false} BatchMarks(q: Queue, acts: seq<Action>, id: TimerId)
    requires Stored(q) && q.calling && Runs(q, acts) && Holds(q.batch, id)
    requires forall a :: a in acts ==> !a.Begin? && !a.End?
    ensures id in Marked(q, acts) <==> Cancels(acts, id)
    ensures id in Run(q, acts).objs && Run(q, acts).objs[id] == q.objs[id]
    decreases |acts|
  {
    BatchNotStored(q, id);
    hide Stored, CancelTimer, InsertTimer, BeginBatch, EndBatch;
    if acts != [] {
      assert acts[0] in acts;
      var a := acts[0];
      StepStored(q, a);
      ObjsStay(q, a, id);
      CancelsFirst(acts, id);
      hide Cancels;
      if !a.RunNext? {
        BatchFrame(q, a);
      }
      BatchMarks(Step(q, a), acts[1..], id);
    }
  }

  lemma EndStoresAgain(q: Queue, id: TimerId)
    requires Stored(q) && Enabled(q, End) && Holds(q.batch, id)
    ensures id in q.objs
    ensures var back := q.objs[id].repeat && id !in q.canceling;
            && (Holds(EndBatch(q).timers, id) <==> back)
            && (back ==> Entry(q.now + q.objs[id].interval, id) in EndBatch(q).timers)
  {
    BatchNotStored(q, id);
    EndReinserts(q);
    hide Stored, EndBatch, Sorted;
    var back := Entry(q.now + q.objs[id].interval, id);
    assert back in EndBatch(q).timers <==> q.objs[id].repeat && id !in q.canceling;
  }

  lemma BatchTakes(q: Queue, clock: int, e: Entry)
    requires Stored(q) && e in q.timers && e.when < clock
    ensures var b := BeginBatch(q, clock);
            Holds(b.batch, e.id) && b.canceling == {} && b.calling && b.now == clock && b.objs == q.objs
  {
    BatchIsExpired(q, clock);
    hide Stored, LowerBound;
    assert e in BeginBatch(q, clock).batch;
  }

  lemma {:induction false} RunStored(q: Queue, acts: seq<Action>)
    requires Stored(q) && Runs(q, acts)
    ensures Stored(Run(q, acts))
    decreases |acts|
  {
    hide Step, Stored, Enabled;
    if acts != [] {
      StepStored(q, acts[0]);
      RunStored(Step(q, acts[0]), acts[1..]);
    }
  }

  lemma BatchComesBack(q: Queue, clock: int, during: seq<Action>, e: Entry)
    requires Inv(q) && Enabled(q, Begin(clock)) && e in q.timers && e.when < clock
    requires Runs(BeginBatch(q, clock), during) && Enabled(Run(BeginBatch(q, clock), during), End)
    requires forall a :: a in during ==> !a.Begin? && !a.End?
    ensures e.id in q.objs
    ensures var r := EndBatch(Run(BeginBatch(q, clock), during));
            var back := q.objs[e.id].repeat && !Cancels(during, e.id);
            && (Holds(r.timers, e.id) <==> back)
            && (back ==> Entry(clock + q.objs[e.id].interval, e.id) in r.timers)
  {
    hide Stored, Watched, Logged, Spaced, Final, BeginBatch, EndBatch, Cancels, Holds, Run, Runs, Marked;
    BatchTakes(q, clock, e);
    BeginStored(q, clock);
    var b := BeginBatch(q, clock);
    BatchIsFixed(b, during);
    RunStored(b, during);
    CancelingIsMarked(b, during);
    BatchMarks(b, during, e.id);
    BatchNotStored(b, e.id);
    EndStoresAgain(Run(b, during), e.id);
  }

  /** Of the timers a batch runs exactly those come back that repeat and that no callback of the batch cancels, one
      interval after the clock reading of the batch. */
  lemma RepeatersComeBack(past: seq<Action>, clock: int, during: seq<Action>, e: Entry)
    requires Runs(EMPTY, past + ([Begin(clock)] + (during + [End])))
    requires forall a :: a in during ==> !a.Begin? && !a.End?
    requires Runs(EMPTY, past) && e in Run(EMPTY, past).timers && e.when < clock
    ensures e.id in Run(EMPTY, past).objs
    ensures var timer := Run(EMPTY, past).objs[e.id];
            var r := Run(EMPTY, past + ([Begin(clock)] + (during + [End])));
            var back := timer.repeat && !Cancels(during, e.id);
            && (Holds(r.timers, e.id) <==> back)
            && (back ==> Entry(clock + timer.interval, e.id) in r.timers)
  {
    RunSplits(EMPTY, past, [Begin(clock)] + (during + [End]));
    Reachable(past);
    var q := Run(EMPTY, past);
    hide Inv, BeginBatch, EndBatch, Cancels, Holds;
    RunSplits(q, [Begin(clock)], during + [End]);
    RunOne(q, Begin(clock));
    var b := BeginBatch(q, clock);
    RunSplits(b, during, [End]);
    RunOne(Run(b, during), End);
    BatchComesBack(q, clock, during, e);
  }

  /** A stored timer leaves the set only by a cancellation or in a batch whose clock reading is past its expiration. */
  lemma TimerStaysStep(q: Queue, a: Action, e: Entry)
    requires Stored(q) && Enabled(q, a) && e in q.timers
    requires !(a.Cancel? && a.id == e.id) && !(a.Begin? && e.when < a.clock)
    ensures e in Step(q, a).timers
  {
    hide LowerBound, Found, Inserted, Erased, Reinsert, Holds, Sorted;
    match a
    case Insert(id) => InsertedIsUnion(q.timers, Entry(q.objs[id].expiration, id));
    case Cancel(id, locked) => CancelErases(q, id, locked);
    case Begin(clock) => BatchIsExpired(q, clock);
    case End => EndReinserts(q);
    case _ =>
  }

  /** No step cancels the timer or begins a batch in which it would have expired. */
  ghost predicate LeftAlone(acts: seq<Action>, e: Entry) {
    forall a :: a in acts ==> !(a.Cancel? && a.id == e.id) && !(a.Begin? && e.when < a.clock)
  }

  lemma {:induction false} TimerStays(q: Queue, acts: seq<Action>, e: Entry)
    requires Stored(q) && Runs(q, acts) && e in q.timers && LeftAlone(acts, e)
    ensures e in Run(q, acts).timers
    decreases |acts|
  {
    hide Stored, Step, Enabled;
    if acts != [] {
      assert acts[0] in acts && forall a :: a in acts[1..] ==> a in acts;
      StepStored(q, acts[0]);
      TimerStaysStep(q, acts[0], e);
      TimerStays(Step(q, acts[0]), acts[1..], e);
    }
  }

  lemma BornGrows(q: Queue, a: Action)
    requires Enabled(q, a)
    ensures q.born.Keys <= Step(q, a).born.Keys
  {
    hide LowerBound, Found, Inserted, Erased, Reinsert, Holds;
  }

  lemma {:induction false} BornLasts(q: Queue, acts: seq<Action>)
    requires Runs(q, acts)
    ensures q.born.Keys <= Run(q, acts).born.Keys
    decreases |acts|
  {
    hide Step, Enabled;
    if acts != [] {
      BornGrows(q, acts[0]);
      BornLasts(Step(q, acts[0]), acts[1..]);
    }
  }

  lemma {:induction false} CreatedStays(q: Queue, acts: seq<Action>, id: TimerId)
    requires Stored(q) && Runs(q, acts) && id in q.objs && id !in Run(q, acts).born
    ensures id in Run(q, acts).objs && Run(q, acts).objs[id] == q.objs[id] && id !in q.born
    decreases |acts|
  {
    hide Step, Enabled, Sorted;
    if acts != [] {
      StepStored(q, acts[0]);
      BornGrows(q, acts[0]);
      BornLasts(Step(q, acts[0]), acts[1..]);
      assert id !in q.born && !Holds(q.batch, id);
      ObjsStay(q, acts[0], id);
      CreatedStays(Step(q, acts[0]), acts[1..], id);
    }
  }

  /** However long the functor of AddTimer waits, it stores the timer at the expiration it was created with. */
  lemma StoredAsCreated(past: seq<Action>, id: TimerId, timer: Timer, meanwhile: seq<Action>)
    requires Runs(EMPTY, past) && Enabled(Run(EMPTY, past), Create(id, timer))
    requires Runs(Step(Run(EMPTY, past), Create(id, timer)), meanwhile)
    requires Enabled(Run(Step(Run(EMPTY, past), Create(id, timer)), meanwhile), Insert(id))
    ensures Entry(timer.expiration, id)
         in Step(Run(Step(Run(EMPTY, past), Create(id, timer)), meanwhile), Insert(id)).timers
  {
    Reachable(past);
    var q := Run(EMPTY, past);
    StepStored(q, Create(id, timer));
    var c := Step(q, Create(id, timer));
    RunStored(c, meanwhile);
    CreatedStays(c, meanwhile, id);
    hide Run, Runs;
    InsertedIsUnion(Run(c, meanwhile).timers, Entry(timer.expiration, id));
  }

  lemma RunsOfAll(es: seq<Entry>, batch: nat, now: int, e: Entry)
    requires e in es
    ensures Ran(e.id, batch, now) in RunsOf(es, batch, now)
  {
    var k :| 0 <= k < |es| && es[k] == e;
    assert RunsOf(es, batch, now)[k] == Ran(e.id, batch, now);
  }

  /** A stored timer that nobody cancels runs in the first batch whose clock reading is past its expiration. */
  lemma RunsWhenDue(past: seq<Action>, e: Entry, waiting: seq<Action>, clock: int, during: seq<Action>)
    requires Runs(EMPTY, past) && e in Run(EMPTY, past).timers
    requires LeftAlone(waiting, e) && e.when < clock
    requires Runs(EMPTY, past + waiting + ([Begin(clock)] + (during + [End])))
    requires forall a :: a in during ==> !a.Begin? && !a.End?
    ensures Runs(EMPTY, past + waiting)
    ensures var q := Run(EMPTY, past + waiting);
            var r := Run(EMPTY, past + waiting + ([Begin(clock)] + (during + [End])));
            q.ran <= r.ran && Ran(e.id, q.batchNo + 1, clock) in r.ran[|q.ran|..]
  {
    RunSplits(EMPTY, past + waiting, [Begin(clock)] + (during + [End]));
    RunSplits(EMPTY, past, waiting);
    Reachable(past);
    TimerStays(Run(EMPTY, past), waiting, e);
    hide Runs, Run;
    BatchRunsExpired(past + waiting, clock, during);
    var q := Run(EMPTY, past + waiting);
    var expired := q.timers[..ExpiredCount(q, clock)];
    hide ExpiredCount, RunsOf;
    RunsOfAll(expired, q.batchNo + 1, clock, e);
  }

  // The descriptor

  lemma EndSets(q: Queue)
    requires Stored(q) && Enabled(q, End)
    ensures var r := EndBatch(q);
            if r.timers != [] && r.timers[0].when != INVALID_TIME_POINT then r.fd == Armed(r.timers[0].when)
            else r.fd == q.fd
  {
    EndStored(q);
    var r := EndBatch(q);
    hide LowerBound, Inserted, Reinsert, Sorted;
    if r.timers != [] {
      assert r.timers[0] in r.timers;
    }
  }

  lemma StepSets(q: Queue, a: Action)
    requires Stored(q) && Enabled(q, a)
    ensures var r := Step(q, a);
            && (r.fd.Armed? && r.fd != q.fd ==> r.timers != [] && r.fd.target == r.timers[0].when)
            && (r.fd.Fired? && r.fd != q.fd ==> a == Fire && q.fd.Armed?)
            && (r.fd.Disarmed? && r.fd != q.fd ==> a.Begin? && q.fd.Fired?)
            && (a.Begin? ==> !r.fd.Fired?)
            && (a.Insert? && (q.timers == [] || q.objs[a.id].expiration < q.timers[0].when) ==>
                  r.fd == Armed(q.objs[a.id].expiration))
            && (a.End? && r.timers != [] && r.timers[0].when != INVALID_TIME_POINT ==> r.fd == Armed(r.timers[0].when))
  {
    hide LowerBound, Inserted, Erased, Holds, EndBatch;
    match a
    case Insert(id) => InsertedIsUnion(q.timers, Entry(q.objs[id].expiration, id));
    case End => EndSets(q);
    case _ =>
  }

  /** A step that sets the descriptor sets it for the earliest stored timer; only the kernel makes it fire; the read
      callback begins by reading it. */
  lemma DescriptorIsExact(past: seq<Action>, a: Action)
    requires Runs(EMPTY, past) && Enabled(Run(EMPTY, past), a)
    ensures var q := Run(EMPTY, past);
            var r := Step(q, a);
            && (r.fd.Armed? && r.fd != q.fd ==> r.timers != [] && r.fd.target == r.timers[0].when)
            && (r.fd.Fired? && r.fd != q.fd ==> a == Fire && q.fd.Armed?)
            && (r.fd.Disarmed? && r.fd != q.fd ==> a.Begin? && q.fd.Fired?)
            && (a.Begin? ==> !r.fd.Fired?)
            && (a.Insert? && (q.timers == [] || q.objs[a.id].expiration < q.timers[0].when) ==>
                  r.fd == Armed(q.objs[a.id].expiration))
            && (a.End? && r.timers != [] && r.timers[0].when != INVALID_TIME_POINT ==> r.fd == Armed(r.timers[0].when))
  {
    Reachable(past);
    hide Run, Runs;
    StepSets(Run(EMPTY, past), a);
  }

  lemma HistoryGrows(q: Queue, a: Action)
    requires Enabled(q, a)
    ensures q.ran <= Step(q, a).ran
    ensures forall id :: id in q.cancels ==> id in Step(q, a).cancels && Step(q, a).cancels[id] == q.cancels[id]
  {
    hide Found, Erased, Inserted, Holds, LowerBound, Reinsert;
  }

  lemma {:induction false} CancellationsLast(q: Queue, acts: seq<Action>)
    requires Runs(q, acts)
    ensures q.ran <= Run(q, acts).ran
    ensures forall id :: id in q.cancels ==> id in Run(q, acts).cancels && Run(q, acts).cancels[id] == q.cancels[id]
    decreases |acts|
  {
    hide Step;
    if acts != [] {
      HistoryGrows(q, acts[0]);
      CancellationsLast(Step(q, acts[0]), acts[1..]);
    }
  }

  /** Cancel is final: after the first cancellation of an inserted timer its callback runs at most in the batch that
      was being run, and only if it belonged to that batch. */
  lemma CancelIsFinal(past: seq<Action>, id: TimerId, locked: bool, future: seq<Action>, i: nat)
    requires Runs(EMPTY, past + ([Cancel(id, locked)] + future))
    requires Runs(EMPTY, past) && id in Run(EMPTY, past).born && id !in Run(EMPTY, past).cancels
    requires |Run(EMPTY, past).ran| <= i < |Run(EMPTY, past + ([Cancel(id, locked)] + future)).ran|
    requires Run(EMPTY, past + ([Cancel(id, locked)] + future)).ran[i].id == id
    ensures Holds(Run(EMPTY, past).batch, id)
    ensures Run(EMPTY, past + ([Cancel(id, locked)] + future)).ran[i].batch == Run(EMPTY, past).batchNo
  {
    var q := Run(EMPTY, past);
    RunSplits(EMPTY, past, [Cancel(id, locked)] + future);
    RunSplits(q, [Cancel(id, locked)], future);
    var c := Step(q, Cancel(id, locked));
    assert Run(q, [Cancel(id, locked)]) == c;
    assert c.cancels[id] == Cancelled(|q.ran|, q.batchNo, Holds(q.batch, id));
    CancellationsLast(c, future);
    Reachable(past + ([Cancel(id, locked)] + future));
  }

  /** Cancelling a timer whose insertion is still queued does nothing: the insertion stores it all the same. */
  lemma CancelBeforeInsertIsLost(q: Queue, id: TimerId)
    requires Inv(q) && Enabled(q, Cancel(id, true)) && id !in q.born
    ensures Enabled(Step(q, Cancel(id, true)), Insert(id))
    ensures Holds(Step(Step(q, Cancel(id, true)), Insert(id)).timers, id)
  {
    CancelStored(q, id, true);
    var c := Step(q, Cancel(id, true));
    var e := Entry(c.objs[id].expiration, id);
    InsertedIsUnion(c.timers, e);
    assert e in Step(c, Insert(id)).timers;
  }

  lemma StaysOut(q: Queue, id: TimerId, future: seq<Action>)
    requires Inv(q) && id in q.cancels && Runs(q, future)
    ensures !Holds(Run(q, future).timers, id)
  {
    CancellationsLast(q, future);
    RunKeeps(q, future);
    hide Run, Runs, Stored, Watched, Logged, Spaced;
  }

  /** A cancellation keeps the timer out of the queue for good exactly when the timer had been inserted by then. */
  lemma CancelCondition(q: Queue, id: TimerId)
    requires Inv(q) && Enabled(q, Cancel(id, true))
    ensures (forall future :: Runs(Step(q, Cancel(id, true)), future) ==>
               !Holds(Run(Step(q, Cancel(id, true)), future).timers, id))
       <==> id in q.born
  {
    var c := Step(q, Cancel(id, true));
    if id in q.born {
      StepKeeps(q, Cancel(id, true));
      assert id in c.cancels;
      forall future | Runs(c, future) ensures !Holds(Run(c, future).timers, id) {
        StaysOut(c, id, future);
      }
    } else {
      CancelBeforeInsertIsLost(q, id);
      RunOne(c, Insert(id));
      assert Runs(c, [Insert(id)]) && Holds(Run(c, [Insert(id)]).timers, id);
    }
  }

  /** The read callback asserts that the first timer left behind expires after the clock reading. It may expire
      exactly then: the assertion holds exactly when no stored timer does. */
  lemma ExpiryAssertionCondition(q: Queue, clock: int)
    requires Stored(q)
    ensures var left := BeginBatch(q, clock).timers;
            (left == [] || clock < left[0].when) <==> (forall e :: e in q.timers ==> e.when != clock)
  {
    BatchIsExpired(q, clock);
    var left := BeginBatch(q, clock).timers;
    FirstIsEarliest(left);
    if left != [] {
      assert left[0] in left;
    }
  }

  lemma ExpiryAssertionCanFail()
    ensures var acts := [Create(1, Timer(5, false, 0)), Insert(1), Fire];
            && Runs(EMPTY, acts)
            && BeginBatch(Run(EMPTY, acts), 5).timers == [Entry(5, 1)]
  {
    var q1 := Step(EMPTY, Create(1, Timer(5, false, 0)));
    var q2 := Step(q1, Insert(1));
    assert q2.timers == [Entry(5, 1)];
    var q3 := Step(q2, Fire);
    var acts := [Create(1, Timer(5, false, 0)), Insert(1), Fire];
    assert acts[1..] == [Insert(1), Fire] && acts[1..][1..] == [Fire] && [Fire][1..] == [];
    assert Runs(q3, []) && Run(q3, []) == q3;
    assert Runs(q2, [Fire]) && Run(q2, [Fire]) == q3;
    assert Runs(q1, acts[1..]) && Run(q1, acts[1..]) == q3;
  }

  // The delay handed to timerfd_settime

  datatype Timespec = Timespec(seconds: int, nanos: int)

  const NANOS: int := 1_000_000_000

  function HowLongFromNow(time: int, now: int): Timespec {
    if time <= now then Timespec(0, 1)
    else Timespec((time - now) / NANOS, (time - now) % NANOS)
  }

  /** The delay is normalised, never the zero that would disarm the descriptor, and exact for a time to come. */
  lemma DelayIsExact(time: int, now: int)
    ensures var d := HowLongFromNow(time, now);
            && d.seconds >= 0 && 0 <= d.nanos < NANOS && d != Timespec(0, 0)
            && d.seconds * NANOS + d.nanos == if now < time then time - now else 1
  {
  }
}

/** The timer queue object. The callbacks of a batch are given as scripts: what each of them asks of the queue. */
module TimerImpl {
  import opened S = TimerSpec

  // The read callback as one operation of the state machine

  /** The callbacks of the expired timers, one after the other, each followed by the actions it takes. */
  ghost predicate CallbacksRun(q: Queue, scripts: seq<seq<Action>>)
    decreases |scripts|
  {
    scripts != [] ==>
      && Enabled(q, RunNext) && Runs(Step(q, RunNext), scripts[0])
      && (forall a :: a in scripts[0] ==> !a.Begin? && !a.RunNext? && !a.End?)
      && CallbacksRun(Run(Step(q, RunNext), scripts[0]), scripts[1..])
  }

  ghost function Callbacks(q: Queue, scripts: seq<seq<Action>>): Queue
    requires CallbacksRun(q, scripts)
    decreases |scripts|
  {
    if scripts == [] then q else Callbacks(Run(Step(q, RunNext), scripts[0]), scripts[1..])
  }

  ghost function Flatten(scripts: seq<seq<Action>>): seq<Action> {
    if scripts == [] then [] else ([RunNext] + scripts[0]) + Flatten(scripts[1..])
  }

  lemma {:induction false} RunJoins(q: Queue, first: seq<Action>, rest: seq<Action>)
    requires Runs(q, first) && Runs(Run(q, first), rest)
    ensures Runs(q, first + rest) && Run(q, first + rest) == Run(Run(q, first), rest)
    decreases |first|
  {
    hide Step;
    if first == [] {
      assert first + rest == rest;
    } else {
      assert (first + rest)[1..] == first[1..] + rest;
      RunJoins(Step(q, first[0]), first[1..], rest);
    }
  }

  /** Executing the callbacks one by one is a run of the state machine, so its theorems apply to the object. */
  lemma {:induction false} CallbacksIsRun(q: Queue, scripts: seq<seq<Action>>)
    requires CallbacksRun(q, scripts)
    ensures Runs(q, Flatten(scripts)) && Run(q, Flatten(scripts)) == Callbacks(q, scripts)
    decreases |scripts|
  {
    if scripts != [] {
      hide Step;
      RunOne(q, RunNext);
      RunJoins(q, [RunNext], scripts[0]);
      var next := Run(Step(q, RunNext), scripts[0]);
      CallbacksIsRun(next, scripts[1..]);
      RunJoins(q, [RunNext] + scripts[0], Flatten(scripts[1..]));
    }
  }

  class TimerQueue {
    var timers: seq<Entry>
    var objs: map<TimerId, Timer>
    var calling: bool
    var canceling: set<TimerId>
    var fd: TimerFd
    ghost var rest: Queue  // the locals of the read callback and the history

    ghost function View(): Queue
      reads this
    {
      rest.(timers := timers, objs := objs, calling := calling, canceling := canceling, fd := fd)
    }

    constructor ()
      ensures View() == EMPTY && Inv(View())
    {
      timers, objs, calling, canceling, fd, rest := [], map[], false, {}, Disarmed, EMPTY;
    }

    /** std::set's lower_bound on the stored pairs. */
    method LowerBoundIndex(e: Entry) returns (k: nat)
      ensures k == LowerBound(timers, e)
    {
      k := 0;
      while k < |timers| && Before(timers[k], e)
        invariant k <= |timers|
        invariant forall i :: 0 <= i < k ==> Before(timers[i], e)
      {
        k := k + 1;
      }
    }

    method Insert(id: TimerId) returns (earliestChanged: bool)
      requires id in objs
      modifies this`timers
      ensures timers == Inserted(old(timers), Entry(objs[id].expiration, id))
      ensures earliestChanged == EarliestChanged(old(timers), objs[id].expiration)
    {
      var when := objs[id].expiration;
      earliestChanged := |timers| == 0 || when < timers[0].when;
      var k := LowerBoundIndex(Entry(when, id));
      if !(k < |timers| && timers[k] == Entry(when, id)) {
        timers := timers[..k] + [Entry(when, id)] + timers[k..];
      }
    }

    method AddTimerInLoop(id: TimerId)
      requires Enabled(View(), Action.Insert(id))
      modifies this
      ensures View() == Step(old(View()), Action.Insert(id))
    {
      var earliestChanged := Insert(id);
      rest := rest.(born := rest.born[id := rest.batchNo]);
      if earliestChanged {
        fd := Armed(objs[id].expiration);
      }
    }

    method CancelInLoop(id: TimerId, locked: bool)
      requires Enabled(View(), Cancel(id, locked))
      modifies this
      ensures View() == Step(old(View()), Cancel(id, locked))
    {
      hide LowerBound, Holds;
      if id in rest.born && id !in rest.cancels {
        rest := rest.(cancels := rest.cancels[id := Cancelled(|rest.ran|, rest.batchNo, Holds(rest.batch, id))]);
      }
      if !locked {
        return;
      }
      var e := Entry(objs[id].expiration, id);
      var k := LowerBoundIndex(e);
      if k < |timers| && timers[k] == e {
        timers := timers[..k] + timers[k + 1..];
      } else if calling {
        canceling := canceling + {id};
      }
    }

    /** One thing a callback, a functor or the kernel does to the queue. */
    method Perform(a: Action)
      requires Enabled(View(), a) && !a.Begin? && !a.RunNext? && !a.End?
      modifies this
      ensures View() == Step(old(View()), a)
    {
      match a
      case Create(id, timer) => objs := objs[id := timer];
      case Insert(id) => AddTimerInLoop(id);
      case Cancel(id, locked) => CancelInLoop(id, locked);
      case Fire => fd := Fired;
    }

    method PerformAll(acts: seq<Action>)
      requires Runs(View(), acts)
      requires forall a :: a in acts ==> !a.Begin? && !a.RunNext? && !a.End?
      modifies this
      ensures View() == Run(old(View()), acts)
    {
      hide Step, Enabled;
      var i := 0;
      while i < |acts|
        invariant i <= |acts|
        invariant Runs(View(), acts[i..]) && Run(View(), acts[i..]) == Run(old(View()), acts)
      {
        assert acts[i] in acts && acts[i..][1..] == acts[i + 1..];
        Perform(acts[i]);
        i := i + 1;
      }
    }

    /** Read the clock and the descriptor, and take the expired timers out. */
    method TakeExpired(clock: int) returns (expired: seq<Entry>)
      modifies this
      ensures View() == BeginBatch(old(View()), clock)
      ensures expired == rest.batch && rest.now == clock && calling
    {
      hide LowerBound;
      var k := LowerBoundIndex(Entry(clock, NULL));
      if fd.Fired? {
        fd := Disarmed;
      }
      expired := timers[..k];
      timers := timers[k..];
      calling, canceling := true, {};
      rest := rest.(batch := expired, done := 0, now := clock, batchNo := rest.batchNo + 1, prior := |rest.ran|);
    }

    method RunCallbacks(expired: seq<Entry>, scripts: seq<seq<Action>>)
      requires CallbacksRun(View(), scripts) && rest.batch == expired && calling
      modifies this
      ensures View() == Callbacks(old(View()), scripts)
      ensures rest.batch == expired && rest.now == old(rest.now)
    {
      var i := 0;
      while i < |scripts|
        invariant i <= |scripts|
        invariant rest.batch == expired && rest.now == old(rest.now) && calling
        invariant CallbacksRun(View(), scripts[i..])
        invariant Callbacks(View(), scripts[i..]) == Callbacks(old(View()), scripts)
      {
        ghost var before := View();
        assert scripts[i..][1..] == scripts[i + 1..] && scripts[i..][0] == scripts[i];
        rest := Step(before, RunNext);
        ghost var called := View();
        PerformAll(scripts[i]);
        BatchIsFixed(called, scripts[i]);
        i := i + 1;
      }
    }

    method Restart(expired: seq<Entry>, clock: int)
      modifies this`timers, this`objs
      ensures (timers, objs) == Reinsert(old(timers), old(objs), expired, canceling, clock)
    {
      var i := 0;
      while i < |expired|
        invariant i <= |expired|
        invariant Reinsert(timers, objs, expired[i..], canceling, clock)
               == Reinsert(old(timers), old(objs), expired, canceling, clock)
      {
        assert expired[i..][1..] == expired[i + 1..];
        var id := expired[i].id;
        if id in objs && objs[id].repeat && id !in canceling {
          objs := objs[id := S.Restart(objs[id], clock)];
          var _ := Insert(id);
        }
        i := i + 1;
      }
    }

    /** Restart the repeating timers, and set the descriptor for the earliest timer left. */
    method Finish(expired: seq<Entry>, clock: int)
      requires expired == rest.batch && rest.now == clock
      modifies this
      ensures View() == EndBatch(old(View()))
    {
      hide Reinsert;
      calling := false;
      Restart(expired, clock);
      rest := rest.(batch := [], done := 0);
      if |timers| > 0 && timers[0].id in objs && objs[timers[0].id].expiration != INVALID_TIME_POINT {
        fd := Armed(objs[timers[0].id].expiration);
      }
    }

    /** The read callback. */
    method HandleRead(clock: int, scripts: seq<seq<Action>>)
      requires Enabled(View(), Begin(clock))
      requires |scripts| == ExpiredCount(View(), clock)
      requires CallbacksRun(BeginBatch(View(), clock), scripts)
      modifies this
      ensures View() == EndBatch(Callbacks(BeginBatch(old(View()), clock), scripts))
    {
      hide BeginBatch, EndBatch, Callbacks, CallbacksRun;
      var expired := TakeExpired(clock);
      RunCallbacks(expired, scripts);
      Finish(expired, clock);
    }
  }
}
