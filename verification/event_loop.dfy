/** One event loop and the threads that queue functors on it or stop it, as interleaved atomic steps: pushing under the
    mutex, writing the eventfd, storing the quit flag, and the phases of the loop itself. */
module EventLoopSpec {

  type ThreadId = nat

  /** The thread that runs the loop. Every other thread is foreign. */
  const LOOP: ThreadId := 0

  datatype Phase =
    | Unstarted              // constructed; Start has not been called
    | Top                    // about to test the quit flag
    | Polling                // the flag was clear; in epoll_wait
    | Handling(wake: bool)   // dispatching active channels; wake: the eventfd's turn is still to come
    | Swapping               // calling_pendings is set, the queue not swapped yet
    | Running                // running the swapped batch
    | Stopped

  /** Where a thread stands inside QueueInLoop or Stop. */
  datatype CallPc = Idle | Pushed | QuitStored

  /** The loop's fields, the threads inside its calls, and the history of pushes and executions: functor k was pushed
      after pushedAt[k] swaps, and executed after ranAt[k] swaps. */
  datatype Loop<F> = Loop(
    phase: Phase, calling: bool, quitting: bool,
    pendings: seq<F>, batch: seq<F>, counter: nat, calls: map<ThreadId, CallPc>,
    swaps: nat, pushed: seq<F>, pushedAt: seq<nat>, executed: seq<F>, ranAt: seq<nat>)

  datatype Action<F> =
    | Push(t: ThreadId, f: F)       // QueueInLoop up to the unlock
    | AfterPush(t: ThreadId)        // its test and wakeup
    | StoreQuit(t: ThreadId)        // Stop's store
    | AfterQuit(t: ThreadId)        // its test and wakeup
    | Start                         // Start up to its loop
    | TestQuit
    | PollReturn(wake: bool)        // wake: the eventfd is among the channels reported
    | ResetWakeup
    | HandlingDone
    | Swap
    | RunNext
    | BatchDone

  function Pc<F>(s: Loop<F>, t: ThreadId): CallPc {
    if t in s.calls then s.calls[t] else Idle
  }

  /** The loop thread executes user code, and so may call the loop's interface, before Start, while handling events,
      while running functors and after Start has returned. */
  predicate UserCode(phase: Phase) {
    phase.Handling? || phase in {Unstarted, Running, Stopped}
  }

  predicate MayCall<F>(s: Loop<F>, t: ThreadId) {
    Pc(s, t) == Idle && (t == LOOP ==> UserCode(s.phase))
  }

  predicate Enabled<F>(s: Loop<F>, a: Action<F>) {
    match a
    case Push(t, _) => MayCall(s, t)
    case AfterPush(t) => Pc(s, t) == Pushed
    case StoreQuit(t) => MayCall(s, t)
    case AfterQuit(t) => Pc(s, t) == QuitStored
    case Start => s.phase == Unstarted && Pc(s, LOOP) == Idle && !s.quitting
    case TestQuit => s.phase == Top
    case PollReturn(wake) => s.phase == Polling && (wake ==> s.counter > 0)
    case ResetWakeup => s.phase == Handling(true) && Pc(s, LOOP) == Idle
    case HandlingDone => s.phase == Handling(false) && Pc(s, LOOP) == Idle
    case Swap => s.phase == Swapping
    case RunNext => s.phase == Running && Pc(s, LOOP) == Idle && s.batch != []
    case BatchDone => s.phase == Running && Pc(s, LOOP) == Idle && s.batch == []
  }

  function Step<F>(s: Loop<F>, a: Action<F>): Loop<F>
    requires Enabled(s, a)
  {
    match a
    case Push(t, f) =>
      s.(pendings := s.pendings + [f], calls := s.calls[t := Pushed],
         pushed := s.pushed + [f], pushedAt := s.pushedAt + [s.swaps])
    case AfterPush(t) =>
      s.(calls := s.calls[t := Idle], counter := if t != LOOP || s.calling then s.counter + 1 else s.counter)
    case StoreQuit(t) => s.(quitting := true, calls := s.calls[t := QuitStored])
    case AfterQuit(t) =>
      s.(calls := s.calls[t := Idle], counter := if t != LOOP then s.counter + 1 else s.counter)
    case Start => s.(phase := Top)
    case TestQuit => s.(phase := if s.quitting then Stopped else Polling)
    case PollReturn(wake) => s.(phase := Handling(wake))
    case ResetWakeup => s.(phase := Handling(false), counter := 0)
    case HandlingDone => s.(phase := Swapping, calling := true)
    case Swap => s.(phase := Running, batch := s.pendings, pendings := [], swaps := s.swaps + 1)
    case RunNext =>
      s.(batch := s.batch[1..], executed := s.executed + [s.batch[0]], ranAt := s.ranAt + [s.swaps])
    case BatchDone => s.(phase := Top, calling := false)
  }

  function Constructed<F>(): Loop<F> {
    Loop(Unstarted, false, false, [], [], 0, map[], 0, [], [], [], [])
  }

  // No lost wakeup

  ghost predicate SomeCall(calls: map<ThreadId, CallPc>, pc: CallPc) {
    exists t :: t in calls && calls[t] == pc
  }

  /** Someone has written the eventfd since it was last read, or is about to. */
  ghost predicate WakeComing<F>(s: Loop<F>, pc: CallPc) {
    s.counter > 0 || SomeCall(s.calls, pc)
  }

  ghost predicate NoLostWakeup<F>(s: Loop<F>) {
    && (s.phase in {Top, Polling} && s.pendings != [] ==> WakeComing(s, Pushed))
    && (s.phase == Polling && s.quitting ==> WakeComing(s, QuitStored))
  }

  /** While the batch runs, what it and others push is already announced: the poll that follows must not sleep. */
  ghost predicate WakeInv<F>(s: Loop<F>) {
    && NoLostWakeup(s)
    && (s.calling <==> s.phase in {Swapping, Running})
    && (s.phase == Running && s.pendings != [] ==> WakeComing(s, Pushed))
    && (Pc(s, LOOP) != Idle ==> UserCode(s.phase))
  }

  lemma OtherCallStays(calls: map<ThreadId, CallPc>, t: ThreadId, pc: CallPc, next: CallPc)
    requires t in calls ==> calls[t] != pc
    ensures SomeCall(calls, pc) ==> SomeCall(calls[t := next], pc)
  {
    if SomeCall(calls, pc) {
      var u :| u in calls && calls[u] == pc;
      assert calls[t := next][u] == pc;
    }
  }

  lemma StepKeepsWake<F>(s: Loop<F>, a: Action<F>)
    requires WakeInv(s) && Enabled(s, a)
    requires a.Start? && s.pendings != [] ==> WakeComing(s, Pushed)
    ensures WakeInv(Step(s, a))
  {
    var r := Step(s, a);
    match a
    case Push(t, f) =>
      assert r.calls[t] == Pushed;
      OtherCallStays(s.calls, t, QuitStored, Pushed);
    case AfterPush(t) => OtherCallStays(s.calls, t, QuitStored, Idle);
    case StoreQuit(t) =>
      assert r.calls[t] == QuitStored;
      OtherCallStays(s.calls, t, Pushed, QuitStored);
    case AfterQuit(t) => OtherCallStays(s.calls, t, Pushed, Idle);
    case _ =>
  }

  // First in, first out

  /** The functors queued and not run yet, oldest first. */
  function Outstanding<F>(s: Loop<F>): seq<F> {
    s.batch + s.pendings
  }

  /** The history is what ran, then what is left of the batch, then the queue; a functor pushed after n swaps runs in
      batch n + 1, neither earlier nor later. */
  ghost predicate FifoInv<F>(s: Loop<F>) {
    && s.pushed == s.executed + Outstanding(s)
    && |s.pushedAt| == |s.pushed| && |s.ranAt| == |s.executed|
    && (forall k :: 0 <= k < |s.executed| ==> s.ranAt[k] == s.pushedAt[k] + 1)
    && (forall k :: |s.executed| <= k < |s.executed| + |s.batch| ==> s.pushedAt[k] + 1 == s.swaps)
    && (forall k :: |s.executed| + |s.batch| <= k < |s.pushed| ==> s.pushedAt[k] == s.swaps)
    && (s.phase != Running ==> s.batch == [])
  }

  lemma StepKeepsFifo<F>(s: Loop<F>, a: Action<F>)
    requires FifoInv(s) && Enabled(s, a)
    ensures FifoInv(Step(s, a))
  {
    var r := Step(s, a);
    match a
    case Push(t, f) => assert r.pushed == r.executed + Outstanding(r);
    case Swap => assert Outstanding(r) == Outstanding(s);
    case RunNext => assert r.pushed == r.executed + Outstanding(r);
    case _ =>
  }

  /** The loop refines a queue: a push appends, an execution takes the oldest functor, nothing else touches it. */
  lemma StepRefinesQueue<F>(s: Loop<F>, a: Action<F>)
    requires FifoInv(s) && Enabled(s, a)
    ensures var r := Step(s, a);
            match a
            case Push(_, f) => Outstanding(r) == Outstanding(s) + [f] && r.executed == s.executed
            case RunNext => Outstanding(s) != [] && Outstanding(r) == Outstanding(s)[1..]
                            && r.executed == s.executed + [Outstanding(s)[0]]
            case _ => Outstanding(r) == Outstanding(s) && r.executed == s.executed
  {
    var r := Step(s, a);
    assert a.Push? ==> Outstanding(r) == Outstanding(s) + [a.f];
    assert a.Swap? ==> Outstanding(r) == Outstanding(s);
    assert a.RunNext? ==> Outstanding(r) == Outstanding(s)[1..];
  }

  // Whole runs

  ghost predicate Runs<F>(s: Loop<F>, acts: seq<Action<F>>)
    decreases |acts|
  {
    acts != [] ==> Enabled(s, acts[0]) && Runs(Step(s, acts[0]), acts[1..])
  }

  ghost function Run<F>(s: Loop<F>, acts: seq<Action<F>>): Loop<F>
    requires Runs(s, acts)
    decreases |acts|
  {
    if acts == [] then s else Run(Step(s, acts[0]), acts[1..])
  }

  lemma {:induction false} RunSnoc<F>(s: Loop<F>, acts: seq<Action<F>>, a: Action<F>)
    requires Runs(s, acts) && Enabled(Run(s, acts), a)
    ensures Runs(s, acts + [a]) && Run(s, acts + [a]) == Step(Run(s, acts), a)
    decreases |acts|
  {
    hide Step;
    if acts == [] {
      assert (acts + [a])[1..] == [];
      assert Runs(Step(s, a), []) && Run(Step(s, a), []) == Step(s, a);
    } else {
      assert (acts + [a])[1..] == acts[1..] + [a];
      RunSnoc(Step(s, acts[0]), acts[1..], a);
    }
  }

  lemma NoSteps<F>(s: Loop<F>)
    ensures Runs(s, []) && Run(s, []) == s
  {
  }

  /** The loop is started once. */
  lemma StartedStays<F>(s: Loop<F>, a: Action<F>)
    requires s.phase != Unstarted && Enabled(s, a)
    ensures !a.Start? && Step(s, a).phase != Unstarted
  {
  }

  lemma {:induction false} RunKeepsWake<F>(s: Loop<F>, acts: seq<Action<F>>)
    requires WakeInv(s) && s.phase != Unstarted && Runs(s, acts)
    ensures WakeInv(Run(s, acts))
    decreases |acts|
  {
    hide Step, WakeInv;
    if acts != [] {
      StartedStays(s, acts[0]);
      StepKeepsWake(s, acts[0]);
      RunKeepsWake(Step(s, acts[0]), acts[1..]);
    }
  }

  lemma {:induction false} RunKeepsFifo<F>(s: Loop<F>, acts: seq<Action<F>>)
    requires FifoInv(s) && Runs(s, acts)
    ensures FifoInv(Run(s, acts))
    decreases |acts|
  {
    hide Step, FifoInv;
    if acts != [] {
      StepKeepsFifo(s, acts[0]);
      RunKeepsFifo(Step(s, acts[0]), acts[1..]);
    }
  }

  /** If these steps can be taken, no wakeup is lost after them. */
  ghost predicate AwakeAfter<F>(s: Loop<F>, acts: seq<Action<F>>) {
    Runs(s, acts) ==> NoLostWakeup(Run(s, acts))
  }

  // Before Start

  ghost predicate Pushes<F>(acts: seq<Action<F>>) {
    exists a :: a in acts && a.Push?
  }

  ghost predicate ForeignPushes<F>(acts: seq<Action<F>>) {
    exists a :: a in acts && a.Push? && a.t != LOOP
  }

  lemma PushesFirst<F>(acts: seq<Action<F>>)
    requires acts != []
    ensures Pushes(acts) <==> acts[0].Push? || Pushes(acts[1..])
    ensures ForeignPushes(acts) <==> (acts[0].Push? && acts[0].t != LOOP) || ForeignPushes(acts[1..])
  {
    assert acts == [acts[0]] + acts[1..];
    assert forall a :: a in acts <==> a == acts[0] || a in acts[1..];
  }

  /** Some other thread has written the eventfd, or is about to. */
  ghost predicate Announced<F>(s: Loop<F>) {
    s.counter > 0 || exists t :: t != LOOP && t in s.calls && s.calls[t] == Pushed
  }

  /** Before Start only a push by another thread is announced. */
  lemma EarlyStep<F>(s: Loop<F>, a: Action<F>)
    requires s.phase == Unstarted && WakeInv(s) && Enabled(s, a) && !a.Start?
    ensures var r := Step(s, a);
            && r.phase == Unstarted && WakeInv(r) && (!r.quitting ==> !s.quitting)
            && (r.pendings != [] <==> s.pendings != [] || a.Push?)
            && (!r.quitting && !SomeCall(s.calls, QuitStored) ==>
                  && !SomeCall(r.calls, QuitStored)
                  && (Announced(r) <==> Announced(s) || (a.Push? && a.t != LOOP)))
  {
    StepKeepsWake(s, a);
    var r := Step(s, a);
    if a.Push? && a.t != LOOP {
      assert r.calls[a.t] == Pushed;
    }
    if t :| t != LOOP && t in s.calls && s.calls[t] == Pushed {
      assert (a.AfterPush? && a.t == t) || (t in r.calls && r.calls[t] == Pushed);
    }
  }

  lemma NothingPushed<F>()
    ensures !Pushes<F>([]) && !ForeignPushes<F>([])
  {
  }

  lemma {:induction false} EarlyRun<F>(s: Loop<F>, pre: seq<Action<F>>)
    requires s.phase == Unstarted && WakeInv(s) && Runs(s, pre) && Start !in pre
    ensures var r := Run(s, pre);
            && r.phase == Unstarted && WakeInv(r) && (!r.quitting ==> !s.quitting)
            && (r.pendings != [] <==> s.pendings != [] || Pushes(pre))
            && (!r.quitting && !SomeCall(s.calls, QuitStored) ==>
                  (Announced(r) <==> Announced(s) || ForeignPushes(pre)))
    decreases |pre|
  {
    hide Step, WakeInv, Announced, SomeCall, Pushes, ForeignPushes;
    if pre == [] {
      NothingPushed<F>();
    } else {
      EarlyStep(s, pre[0]);
      PushesFirst(pre);
      EarlyRun(Step(s, pre[0]), pre[1..]);
    }
  }

  /** A run of calls made before Start, after which Start is called. */
  ghost predicate LeadsToStart<F>(pre: seq<Action<F>>) {
    && Start !in pre && Runs(Constructed(), pre)
    && Enabled(Run(Constructed(), pre), Start)
  }

  ghost function Started<F>(pre: seq<Action<F>>): Loop<F>
    requires LeadsToStart(pre)
  {
    Step(Run(Constructed(), pre), Start)
  }

  lemma LoopThreadIsIdle<F>(s: Loop<F>)
    requires Pc(s, LOOP) == Idle
    ensures WakeComing(s, Pushed) <==> Announced(s)
  {
    if s.counter == 0 && WakeComing(s, Pushed) {
      var t :| t in s.calls && s.calls[t] == Pushed;
      assert t != LOOP;
    }
  }

  /** What was pushed before Start is announced when Start is called, unless only the loop thread pushed. */
  lemma StartedAnnounced<F>(pre: seq<Action<F>>)
    requires LeadsToStart(pre)
    ensures Started(pre).phase == Top
    ensures !Pushes(pre) || ForeignPushes(pre) ==> WakeInv(Started(pre))
    ensures Pushes(pre) && !ForeignPushes(pre) ==> !NoLostWakeup(Started(pre))
  {
    EarlyRun(Constructed<F>(), pre);
    var r := Run(Constructed<F>(), pre);
    hide Run, Runs;
    LoopThreadIsIdle(r);
    if !Pushes(pre) || ForeignPushes(pre) {
      StepKeepsWake(r, Start);
    }
  }

  /** Whatever the threads did before Start, no wakeup is lost in any interleaving after it exactly when nothing was
      queued by then or another thread queued something. A functor the loop thread queues before Start is not
      announced, because neither of QueueInLoop's two reasons to wake applies. */
  lemma NoWakeupIsLost<F(!new)>(pre: seq<Action<F>>)
    requires LeadsToStart(pre)
    ensures (forall acts :: AwakeAfter(Started(pre), acts)) <==> !Pushes(pre) || ForeignPushes(pre)
  {
    StartedAnnounced(pre);
    var s := Started(pre);
    if !Pushes(pre) || ForeignPushes(pre) {
      forall acts ensures AwakeAfter(s, acts) {
        if Runs(s, acts) {
          RunKeepsWake(s, acts);
        }
      }
    } else {
      assert !AwakeAfter(s, []);
    }
  }

  /** When the loop sleeps in poll with no other thread inside a call, there is nothing to wake it for. */
  lemma AsleepMeansIdle<F>(pre: seq<Action<F>>, acts: seq<Action<F>>)
    requires LeadsToStart(pre) && (!Pushes(pre) || ForeignPushes(pre)) && Runs(Started(pre), acts)
    requires var r := Run(Started(pre), acts);
             && r.phase == Polling && r.counter == 0
             && forall t :: t in r.calls ==> r.calls[t] == Idle
    ensures Run(Started(pre), acts).pendings == [] && !Run(Started(pre), acts).quitting
  {
    StartedAnnounced(pre);
    RunKeepsWake(Started(pre), acts);
  }

  /** The failing family in one run: the loop thread queues a functor, starts the loop, and the loop polls with nothing
      to wake it. */
  lemma EarlyFunctorIsUnannounced<F>(f: F)
    ensures var acts := [Push(LOOP, f), AfterPush(LOOP), Start, TestQuit];
            && Runs(Constructed(), acts)
            && var r := Run(Constructed(), acts);
               r.phase == Polling && r.pendings == [f] && r.counter == 0 && !NoLostWakeup(r)
  {
    hide Runs, Run;
    var s0: Loop<F> := Constructed();
    NoSteps(s0);
    RunSnoc(s0, [], Push(LOOP, f));
    RunSnoc(s0, [] + [Push(LOOP, f)], AfterPush(LOOP));
    RunSnoc(s0, [] + [Push(LOOP, f)] + [AfterPush(LOOP)], Start);
    RunSnoc(s0, [] + [Push(LOOP, f)] + [AfterPush(LOOP)] + [Start], TestQuit);
    assert [Push(LOOP, f), AfterPush(LOOP), Start, TestQuit]
        == [] + [Push(LOOP, f)] + [AfterPush(LOOP)] + [Start] + [TestQuit];
  }

  lemma {:induction false} CallingInBatch<F>(s: Loop<F>, acts: seq<Action<F>>)
    requires Runs(s, acts) && (s.calling <==> s.phase in {Swapping, Running})
    ensures Run(s, acts).calling <==> Run(s, acts).phase in {Swapping, Running}
    decreases |acts|
  {
    if acts != [] {
      CallingInBatch(Step(s, acts[0]), acts[1..]);
    }
  }

  /** How many batches the loop may still begin once it was asked to quit. */
  function BatchesLeft<F>(s: Loop<F>): nat {
    if s.phase.Polling? || s.phase.Handling? || s.phase.Swapping? then 1 else 0
  }

  lemma {:induction false} SwapsGrow<F>(s: Loop<F>, acts: seq<Action<F>>)
    requires Runs(s, acts)
    ensures Run(s, acts).swaps >= s.swaps
    decreases |acts|
  {
    if acts != [] {
      SwapsGrow(Step(s, acts[0]), acts[1..]);
    }
  }

  lemma QuitStep<F>(s: Loop<F>, a: Action<F>)
    requires s.quitting && Enabled(s, a)
    ensures var r := Step(s, a);
            r.quitting && r.swaps + BatchesLeft(r) <= s.swaps + BatchesLeft(s)
  {
  }

  /** Once Stop has stored its request, whoever called it, the loop begins at most the batch it is on its way to, and
      none from the top of its loop on. */
  lemma {:induction false} QuitEndsLoop<F>(s: Loop<F>, acts: seq<Action<F>>)
    requires s.quitting && Runs(s, acts)
    ensures var r := Run(s, acts);
            && r.quitting && r.swaps + BatchesLeft(r) <= s.swaps + BatchesLeft(s)
            && (s.phase in {Unstarted, Top, Running, Stopped} ==> r.swaps == s.swaps)
    decreases |acts|
  {
    hide Step, Enabled;
    if acts != [] {
      QuitStep(s, acts[0]);
      SwapsGrow(Step(s, acts[0]), acts[1..]);
      SwapsGrow(s, acts);
      QuitEndsLoop(Step(s, acts[0]), acts[1..]);
    }
  }

  /** Exactly once, in push order, calls before Start included: the functors run so far are the oldest ones pushed, each
      in the batch after its push, so what a batch queues waits for the next one. */
  lemma FunctorsRunInOrder<F>(acts: seq<Action<F>>)
    requires Runs(Constructed(), acts)
    ensures var r := Run(Constructed(), acts);
            && r.pushed == r.executed + r.batch + r.pendings
            && |r.ranAt| == |r.executed| <= |r.pushedAt|
            && forall k :: 0 <= k < |r.executed| ==> r.ranAt[k] == r.pushedAt[k] + 1
  {
    RunKeepsFifo(Constructed<F>(), acts);
    var r := Run(Constructed<F>(), acts);
    assert r.executed + r.batch + r.pendings == r.executed + Outstanding(r);
  }
}

/** The event loop object, as its own thread sees it. */
module EventLoopImpl {
  import opened S = EventLoopSpec

  /** What the functors fs queue when they run, in order. */
  function QueuedBy<F>(body: F -> seq<F>, fs: seq<F>): seq<F> {
    if fs == [] then [] else body(fs[0]) + QueuedBy(body, fs[1..])
  }

  lemma QueuedByNext<F>(body: F -> seq<F>, fs: seq<F>, i: nat)
    requires i < |fs|
    ensures QueuedBy(body, fs[i..]) == body(fs[i]) + QueuedBy(body, fs[i + 1..])
    ensures fs[i..][0] == fs[i] && fs[i..][1..] == fs[i + 1..] && fs[..i] + [fs[i]] == fs[..i + 1]
  {
    assert fs[i..][1..] == fs[i + 1..];
  }

  lemma QueuedByNone<F>(body: F -> seq<F>, fs: seq<F>)
    ensures QueuedBy(body, fs[|fs|..]) == [] && fs[..0] == [] && fs[0..] == fs && fs[..|fs|] == fs && fs[|fs|..] == []
  {
  }

  class EventLoop<F(==)> {
    var pendings: seq<F>
    var calling: bool
    var quitting: bool
    var counter: nat
    ghost var rest: Loop<F>      // phase, batch, the calls in progress and the history
    ghost var trace: seq<Action<F>>

    ghost function View(): Loop<F>
      reads this
    {
      rest.(pendings := pendings, calling := calling, quitting := quitting, counter := counter)
    }

    /** Everything that happened to the object is a run of the state machine. */
    ghost predicate Valid()
      reads this
    {
      Runs(Constructed(), trace) && Run(Constructed(), trace) == View()
    }

    constructor ()
      ensures Valid() && View() == Constructed()
    {
      pendings, calling, quitting, counter := [], false, false, 0;
      rest, trace := Constructed(), [];
    }

    /** Record that the fields now hold the result of a step. */
    ghost method Record(a: Action<F>, before: Loop<F>)
      requires Runs(Constructed(), trace) && Run(Constructed(), trace) == before
      requires Enabled(before, a)
      requires var next := Step(before, a);
               && pendings == next.pendings && calling == next.calling
               && quitting == next.quitting && counter == next.counter
      modifies this`rest, this`trace
      ensures Valid() && View() == Step(before, a)
    {
      RunSnoc(Constructed(), trace, a);
      rest := Step(before, a);
      trace := trace + [a];
    }

    method QueueInLoop(t: ThreadId, f: F)
      requires Valid() && MayCall(View(), t)
      modifies this
      ensures Valid() && View() == Step(Step(old(View()), Push(t, f)), AfterPush(t))
      ensures pendings == old(pendings) + [f] && quitting == old(quitting)
      ensures counter == old(counter) + if t != LOOP || calling then 1 else 0
    {
      hide Run, Runs;
      ghost var before := View();
      pendings := pendings + [f];
      Record(Push(t, f), before);
      before := View();
      if t != LOOP || calling {
        counter := counter + 1;
      }
      Record(AfterPush(t), before);
    }

    method Stop(t: ThreadId)
      requires Valid() && MayCall(View(), t)
      modifies this
      ensures Valid() && View() == Step(Step(old(View()), StoreQuit(t)), AfterQuit(t))
      ensures quitting && counter == old(counter) + (if t != LOOP then 1 else 0) && pendings == old(pendings)
    {
      hide Run, Runs;
      ghost var before := View();
      quitting := true;
      Record(StoreQuit(t), before);
      before := View();
      if t != LOOP {
        counter := counter + 1;
      }
      Record(AfterQuit(t), before);
    }

    method QueueAll(fs: seq<F>)
      requires Valid() && MayCall(View(), LOOP)
      modifies this
      ensures Valid() && MayCall(View(), LOOP)
      ensures pendings == old(pendings) + fs && calling == old(calling) && quitting == old(quitting)
      ensures counter == old(counter) + if calling then |fs| else 0
      ensures rest.phase == old(rest.phase) && rest.executed == old(rest.executed) && rest.batch == old(rest.batch)
    {
      hide Run, Runs;
      var i := 0;
      while i < |fs|
        invariant i <= |fs| && Valid() && MayCall(View(), LOOP)
        invariant pendings == old(pendings) + fs[..i] && calling == old(calling) && quitting == old(quitting)
        invariant counter == old(counter) + if calling then i else 0
        invariant rest.phase == old(rest.phase) && rest.executed == old(rest.executed) && rest.batch == old(rest.batch)
      {
        QueueInLoop(LOOP, fs[i]);
        i := i + 1;
      }
    }

    method SwapPendings() returns (batch: seq<F>)
      requires Valid() && rest.phase == Handling(false) && Pc(View(), LOOP) == Idle
      modifies this
      ensures Valid() && rest.phase == Running && calling && Pc(View(), LOOP) == Idle
      ensures batch == rest.batch == old(pendings) && pendings == []
      ensures rest.executed == old(rest.executed) && counter == old(counter) && quitting == old(quitting)
    {
      hide Run, Runs;
      ghost var before := View();
      calling := true;
      Record(HandlingDone, before);
      before := View();
      batch := pendings;
      pendings := [];
      Record(Swap, before);
    }

    /** Run the functor at the head of the batch; it queues fs. */
    method RunOne(fs: seq<F>)
      requires Valid() && rest.phase == Running && calling && Pc(View(), LOOP) == Idle && rest.batch != []
      modifies this
      ensures Valid() && rest.phase == Running && calling && Pc(View(), LOOP) == Idle
      ensures rest.batch == old(rest.batch)[1..] && rest.executed == old(rest.executed) + [old(rest.batch)[0]]
      ensures pendings == old(pendings) + fs && counter == old(counter) + |fs| && quitting == old(quitting)
    {
      hide Run, Runs;
      ghost var before := View();
      Record(RunNext, before);
      QueueAll(fs);
    }

    /** The pass over pendings: swap under the mutex, then run the batch; each functor f queues body(f). */
    method RunPendings(body: F -> seq<F>)
      requires Valid() && rest.phase == Handling(false) && Pc(View(), LOOP) == Idle
      modifies this
      ensures Valid() && rest.phase == Top && !calling && Pc(View(), LOOP) == Idle
      ensures rest.executed == old(rest.executed) + old(pendings)
      ensures pendings == QueuedBy(body, old(pendings))
      ensures counter == old(counter) + |pendings| && quitting == old(quitting)
    {
      hide Run, Runs, QueuedBy;
      var batch := SwapPendings();
      QueuedByNone(body, batch);
      var i := 0;
      while i < |batch|
        invariant i <= |batch| && Valid() && rest.phase == Running && calling && Pc(View(), LOOP) == Idle
        invariant rest.batch == batch[i..] && rest.executed == old(rest.executed) + batch[..i]
        invariant pendings + QueuedBy(body, batch[i..]) == QueuedBy(body, batch)
        invariant counter == old(counter) + |pendings| && quitting == old(quitting)
      {
        QueuedByNext(body, batch, i);
        RunOne(body(batch[i]));
        i := i + 1;
      }
      ghost var before := View();
      calling := false;
      Record(BatchDone, before);
    }

    /** Start up to its loop. */
    method EnterLoop()
      requires Valid() && Enabled(View(), Start)
      modifies this`rest, this`trace
      ensures Valid() && View() == Step(old(View()), Start)
    {
      hide Run, Runs;
      ghost var before := View();
      Record(Start, before);
    }

    /** The head of a turn: the test of the quit flag, poll, and the eventfd's own handler if it is reported. */
    method PollOnce(wake: bool)
      requires Valid() && rest.phase == Top && Pc(View(), LOOP) == Idle
      requires !quitting && (wake ==> counter > 0)
      modifies this
      ensures Valid() && rest.phase == Handling(false) && Pc(View(), LOOP) == Idle && !calling
      ensures rest.executed == old(rest.executed) && pendings == old(pendings) && quitting == old(quitting)
      ensures counter == if wake then 0 else old(counter)
    {
      CallingInBatch(Constructed<F>(), trace);
      hide Run, Runs;
      ghost var before := View();
      Record(TestQuit, before);
      before := View();
      Record(PollReturn(wake), before);
      if wake {
        before := View();
        counter := 0;
        Record(ResetWakeup, before);
      }
    }

    /** One turn of Start's loop. The kernel reports the eventfd or not; the handlers of the active channels queue
        handled. */
    method Turn(wake: bool, handled: seq<F>, body: F -> seq<F>)
      requires Valid() && rest.phase == Top && Pc(View(), LOOP) == Idle
      requires !quitting && (wake ==> counter > 0)
      modifies this
      ensures Valid() && rest.phase == Top && Pc(View(), LOOP) == Idle
      ensures rest.executed == old(rest.executed) + old(pendings) + handled
      ensures pendings == QueuedBy(body, old(pendings) + handled)
      ensures counter == (if wake then 0 else old(counter)) + |pendings| && quitting == old(quitting)
    {
      hide Run, Runs;
      PollOnce(wake);
      QueueAll(handled);
      RunPendings(body);
    }
  }
}
