/** What a connection guarantees about the functors it queues, about messages from other threads, and about read
    control that comes too late; and what of it the server builds on. */
module ConnectionRuns {
  import opened ByteCodec
  import opened ConnectionSpec

  // The functors a step queues

  /** What was queued and is not taken up by the step. */
  function Kept(c: Conn, a: Action): seq<Task> {
    if a == Enter(RunTask) && c.tasks != [] then c.tasks[1..] else c.tasks
  }

  /** The functor a call from another thread queues, and ForceClose from any thread. */
  function Called(c: Conn, a: Action): seq<Task> {
    if !a.By? then []
    else
      match a.call
      case SendGo => if a.t != LOOP && Api(c, a.t).SendLoaded? then [SendTask(Api(c, a.t).msg)] else []
      case ShutdownGo => if a.t != LOOP then [ShutdownTask] else []
      case ForceGo => [ForceCloseTask]
      case _ => []
  }

  /** Between p and r a send left the buffer empty, and someone wants to know. */
  predicate Completes(p: Conn, r: Conn) {
    p.cfg.wantsComplete && |r.o.wire| == |p.o.wire| + 1 && r.o.wire[|p.o.wire|].WSend? && r.o.buf == []
  }

  function Notices(p: Conn, r: Conn): seq<Task> {
    (if Completes(p, r) then [WriteComplete] else [])
    + (if Crosses(p.cfg, |p.o.buf|, |r.o.buf|) then [HighWater(|r.o.buf|)] else [])
  }

  predicate SameLife(p: Conn, r: Conn) {
    r.st == p.st && r.notes == p.notes && r.destroyed == p.destroyed && (p.registered ==> r.registered)
  }

  predicate Untouched(p: Conn, r: Conn) {
    && SameLife(p, r) && r.ctl == p.ctl && r.api == p.api && r.reading == p.reading && r.registered == p.registered
    && r.todo == p.todo && r.duty == p.duty
  }

  /** A step that buffers nothing and hands nothing to the kernel. */
  predicate Plain(p: Conn, r: Conn) {
    && r.o.buf == p.o.buf && r.o.kernel == p.o.kernel && r.cfg == p.cfg
    && (r.o.wire == p.o.wire || r.o.wire == p.o.wire + [WShut(p.st, |p.o.buf|)])
  }

  lemma PlainIsSilent(p: Conn, r: Conn)
    requires Plain(p, r)
    ensures Notices(p, r) == []
  {
  }

  lemma EnqueueFields(c: Conn, o: Output, rest: seq<Byte>, queued: seq<Task>)
    requires o.buf == c.o.buf
    ensures var d := Enqueue(c, o, rest, queued);
            && d.st == c.st && d.reading == c.reading && d.ctl == c.ctl && d.cfg == c.cfg && d.pc == Free
            && d.writing == (c.writing || rest != []) && d.o == o.(buf := c.o.buf + rest)
            && d.tasks == c.tasks + queued
                          + (if Crosses(c.cfg, |c.o.buf|, |d.o.buf|) then [HighWater(|d.o.buf|)] else [])
  {
  }

  lemma SendRestTasks(c: Conn, r: SendResult)
    requires Inv(c) && InnerEnabled(c, SendRest(r))
    ensures var d := SendRestOf(c, c.pc.msg, r);
            && d.tasks == c.tasks + Notices(c, d) && d.cfg == c.cfg
            && (Completes(c, d) ==> !d.pc.SendChecked? && d.o.dropped == [])
  {
    assert c.o.dropped == [];
    hide Inv, Enqueue, Crosses;
    var msg := c.pc.msg;
    assert c.tasks + [] == c.tasks;
    if !c.writing && c.o.buf == [] && r.Sent? {
      var queued := if r.n == |msg| && c.cfg.wantsComplete then [WriteComplete] else [];
      EnqueueFields(c, ToKernel(c.o, msg[..r.n]), msg[r.n..], queued);
      assert msg[r.n..] == [] <==> r.n == |msg|;
    } else if !(!c.writing && c.o.buf == [] && r == PeerGone) {
      EnqueueFields(c, c.o, msg, []);
    } else {
      PlainIsSilent(c, SendRestOf(c, msg, r));
    }
  }

  lemma WriteReadyTasks(c: Conn, r: SendResult)
    requires Inv(c) && c.pc == Free && (r.Sent? ==> 0 < r.n <= |c.o.buf|)
    ensures var d := WriteReady(c, r);
            && d.tasks == c.tasks + Notices(c, d) && d.cfg == c.cfg
            && (Completes(c, d) ==> !d.pc.SendChecked? && d.o.dropped == [])
  {
    assert c.writing ==> c.o.dropped == [];
    hide Inv;
    assert c.tasks + [] == c.tasks;
  }

  lemma InnerPlain(c: Conn, i: Inner)
    requires InnerEnabled(c, i) && !i.SendRest?
    ensures Plain(c, InnerStep(c, i)) && InnerStep(c, i).tasks == c.tasks
  {
  }

  lemma ShutdownBodyPlain(c: Conn)
    ensures Plain(c, ShutdownBody(c)) && ShutdownBody(c).tasks == c.tasks && Untouched(c, ShutdownBody(c))
  {
  }

  lemma TestSendPlain(c: Conn, msg: seq<Byte>)
    ensures Plain(c, TestSend(c, msg)) && TestSend(c, msg).tasks == c.tasks && Untouched(c, TestSend(c, msg))
  {
  }

  lemma RunTaskPlain(c: Conn, task: Task)
    ensures Plain(c, RunTaskOf(c, task)) && RunTaskOf(c, task).tasks == c.tasks
  {
    hide ShutdownBody, TestSend;
    ShutdownBodyPlain(c);
    if task.SendTask? {
      TestSendPlain(c, task.msg);
    }
  }

  lemma EntryPlain(c: Conn, e: Entry)
    requires EntryEnabled(c, e) && !e.HandleWrite?
    ensures Plain(c, EntryStep(c, e)) && EntryStep(c, e).tasks == Kept(c, Enter(e))
  {
    hide RunTaskOf, Dispatch, TopLevel, LoopFree;
    if e == RunTask {
      RunTaskPlain(c.(tasks := c.tasks[1..]), c.tasks[0]);
    }
  }

  lemma GoPlain(c: Conn, t: ThreadId, call: Call)
    requires CallEnabled(c, t, call) && (call == SendGo || call == ShutdownGo)
    ensures Plain(c, CallStep(c, t, call)) && CallStep(c, t, call).tasks == c.tasks + Called(c, By(t, call))
  {
    hide TestSend, ShutdownBody;
    var d := At(c, t, ApiIdle);
    assert c.tasks + [] == c.tasks;
    if call == SendGo {
      TestSendPlain(d, Api(c, t).msg);
    } else {
      ShutdownBodyPlain(d);
    }
  }

  lemma CallPlain(c: Conn, t: ThreadId, call: Call)
    requires CallEnabled(c, t, call)
    ensures Plain(c, CallStep(c, t, call)) && CallStep(c, t, call).tasks == c.tasks + Called(c, By(t, call))
  {
    hide TestSend, ShutdownBody;
    assert c.tasks + [] == c.tasks;
    if call == SendGo || call == ShutdownGo {
      GoPlain(c, t, call);
    }
  }

  ghost predicate Accurate(p: Conn, a: Action, r: Conn) {
    && r.tasks == Kept(p, a) + Called(p, a) + Notices(p, r)
    && r.cfg == p.cfg
    && (Completes(p, r) ==> !r.pc.SendChecked? && r.o.dropped == [])
  }

  lemma PlainAccurate(p: Conn, a: Action, r: Conn)
    requires Plain(p, r) && r.tasks == Kept(p, a) + Called(p, a)
    ensures Accurate(p, a, r)
  {
    PlainIsSilent(p, r);
    assert r.tasks + [] == r.tasks;
  }

  lemma HandleWriteAccurate(c: Conn, r: SendResult)
    requires Inv(c) && EntryEnabled(c, HandleWrite(r))
    ensures Accurate(c, Enter(HandleWrite(r)), EntryStep(c, HandleWrite(r)))
  {
    hide WriteReady;
    var d := c.(todo := c.todo[1..]);
    TodoKeeps(c);
    hide Inv;
    WriteReadyTasks(d, r);
    assert c.tasks + [] == c.tasks;
  }

  lemma InnerAccurate(c: Conn, i: Inner)
    requires Inv(c) && InnerEnabled(c, i)
    ensures Accurate(c, Inside(i), InnerStep(c, i))
  {
    hide Inv, Notices, Completes, Plain, SendRestOf;
    assert c.tasks + [] == c.tasks;
    if i.SendRest? {
      SendRestTasks(c, i.result);
    } else {
      InnerPlain(c, i);
      PlainAccurate(c, Inside(i), InnerStep(c, i));
    }
  }

  lemma StepAccurate(c: Conn, a: Action)
    requires Inv(c) && Enabled(c, a)
    ensures Accurate(c, a, Step(c, a))
  {
    hide Inv, EntryStep, InnerStep, CallStep, Notices, Completes, Plain, Accurate;
    match a
    case Enter(e) =>
      if e.HandleWrite? {
        HandleWriteAccurate(c, e.sent);
      } else {
        EntryPlain(c, e);
        assert Kept(c, a) + [] == Kept(c, a);
        PlainAccurate(c, a, EntryStep(c, e));
      }
    case Inside(i) => InnerAccurate(c, i);
    case By(t, call) =>
      CallPlain(c, t, call);
      PlainAccurate(c, a, CallStep(c, t, call));
  }

  lemma CompleteMeansSent(p: Conn, r: Conn)
    requires Conserved(r) && (Completes(p, r) ==> !r.pc.SendChecked? && r.o.dropped == [])
    ensures Completes(p, r) ==> r.o.kernel == r.o.accepted
  {
    assert r.o.kernel + [] + [] + [] == r.o.kernel;
  }

  /** What a step of any run queues is exactly this: the functor of the call, if the step is one; the write-complete
      callback, if a send left the buffer empty, and every accepted byte is in the kernel then; the high-water callback
      with the new length, if the buffered length crossed the mark upwards. */
  lemma NotificationsAccurate(c: Conn, acts: seq<Action>, a: Action)
    requires Fresh(c) && Runs(c, acts) && Enabled(Run(c, acts), a)
    ensures var p := Run(c, acts);
            var r := Step(p, a);
            var complete := p.cfg.wantsComplete && r.o.buf == []
                            && |r.o.wire| == |p.o.wire| + 1 && r.o.wire[|p.o.wire|].WSend?;
            && r.tasks == Kept(p, a) + Called(p, a)
                          + ((if complete then [WriteComplete] else [])
                             + (if p.cfg.wantsMark && |p.o.buf| < p.cfg.mark <= |r.o.buf| then [HighWater(|r.o.buf|)]
                                else []))
            && (complete ==> r.o.kernel == r.o.accepted)
  {
    FreshInv(c);
    RunKeeps(c, acts);
    var p := Run(c, acts);
    hide Run, Runs, Step, Notified, Raced, HalfClosed, Interested;
    StepAccurate(p, a);
    StepKeeps(p, a);
    CompleteMeansSent(p, Step(p, a));
  }

  lemma CallsQueueNoAlarm(c: Conn, a: Action, n: nat)
    ensures HighWater(n) !in Called(c, a)
  {
  }

  lemma CountInAppended(kept: seq<Task>, called: seq<Task>, notices: seq<Task>, t: Task)
    requires t !in called
    ensures multiset(kept + called + notices)[t] == multiset(kept)[t] + multiset(notices)[t]
  {
  }

  /** In a step of any run the functors gain the high-water callback with length n, once, exactly if someone wants it
      and the step takes the buffered length from below the mark to n, at or above it. */
  lemma HighWaterCondition(c: Conn, acts: seq<Action>, a: Action, n: nat)
    requires Fresh(c) && Runs(c, acts) && Enabled(Run(c, acts), a)
    ensures var p := Run(c, acts);
            var r := Step(p, a);
            multiset(r.tasks)[HighWater(n)]
            == multiset(Kept(p, a))[HighWater(n)]
               + if p.cfg.wantsMark && |p.o.buf| < p.cfg.mark <= |r.o.buf| && n == |r.o.buf| then 1 else 0
  {
    NotificationsAccurate(c, acts, a);
    var p := Run(c, acts);
    var r := Step(p, a);
    hide Run, Runs, Step, Enabled;
    CallsQueueNoAlarm(p, a, n);
    var notices := r.tasks[|Kept(p, a)| + |Called(p, a)|..];
    assert r.tasks == Kept(p, a) + Called(p, a) + notices;
    CountInAppended(Kept(p, a), Called(p, a), notices, HighWater(n));
  }

  lemma {:induction false} RunPrefix(c: Conn, acts: seq<Action>, k: nat)
    requires Runs(c, acts) && k <= |acts|
    ensures Runs(c, acts[..k])
    ensures k < |acts| ==> Enabled(Run(c, acts[..k]), acts[k])
                           && Runs(c, acts[..k + 1]) && Run(c, acts[..k + 1]) == Step(Run(c, acts[..k]), acts[k])
    decreases k
  {
    hide Step, Enabled;
    if k == 0 {
      if acts != [] {
        assert acts[..1][1..] == [];
        assert Runs(Step(c, acts[0]), []) && Run(Step(c, acts[0]), []) == Step(c, acts[0]);
      }
    } else {
      RunPrefix(Step(c, acts[0]), acts[1..], k - 1);
      assert acts[..k][1..] == acts[1..][..k - 1];
      if k < |acts| {
        assert acts[..k + 1][1..] == acts[1..][..k];
      }
    }
  }

  lemma {:induction false} ConfigStays(c: Conn, acts: seq<Action>)
    requires Inv(c) && Runs(c, acts)
    ensures Run(c, acts).cfg == c.cfg
    decreases |acts|
  {
    hide Step, Inv, Notices, Kept, Called, Completes;
    if acts != [] {
      StepAccurate(c, acts[0]);
      StepKeeps(c, acts[0]);
      ConfigStays(Step(c, acts[0]), acts[1..]);
    }
  }

  /** A step that queues the high-water callback. */
  ghost predicate Alarms(c: Conn, acts: seq<Action>, k: nat)
    requires Runs(c, acts) && k < |acts|
  {
    Runs(c, acts[..k]) && Runs(c, acts[..k + 1])
    && exists len :: HighWater(len) in Notices(Run(c, acts[..k]), Run(c, acts[..k + 1]))
  }

  /** Between two high-water callbacks of a run the buffered length was below the mark. */
  lemma AlarmsAlternate(c: Conn, acts: seq<Action>, i: nat, j: nat)
    requires Fresh(c) && Runs(c, acts) && i < j < |acts| && Alarms(c, acts, i) && Alarms(c, acts, j)
    ensures i + 1 < j && Runs(c, acts[..i + 1]) && Runs(c, acts[..j])
    ensures |Run(c, acts[..j]).o.buf| < c.cfg.mark <= |Run(c, acts[..i + 1]).o.buf|
  {
    FreshInv(c);
    RunPrefix(c, acts, i);
    RunPrefix(c, acts, j);
    ConfigStays(c, acts[..i]);
    ConfigStays(c, acts[..j]);
    hide Run, Runs, Step, Inv, Enabled;
  }

  /** A connection that a hang-up has closed. */
  function Closed(cfg: Config): Conn {
    Initial(cfg).(st := Disconnected, registered := true, notes := [Up, Down, Close])
  }

  lemma RunOpens(cfg: Config) returns (acts: seq<Action>)
    ensures Runs(Initial(cfg), acts) && Run(Initial(cfg), acts) == Opened(cfg)
    ensures acts == [Enter(Establish), Inside(EstablishUp)]
  {
    hide Runs, Run;
    NoSteps(Initial(cfg));
    RunSnoc(Initial(cfg), [], Enter(Establish));
    RunSnoc(Initial(cfg), [] + [Enter(Establish)], Inside(EstablishUp));
    acts := [Enter(Establish), Inside(EstablishUp)];
    assert acts == [] + [Enter(Establish)] + [Inside(EstablishUp)];
  }

  /** Establishing, a hang-up, and the close it causes. */
  lemma RunCloses(cfg: Config) returns (acts: seq<Action>)
    ensures Runs(Initial(cfg), acts) && Run(Initial(cfg), acts) == Closed(cfg)
  {
    var c := Initial(cfg);
    acts := RunOpens(cfg);
    hide Runs, Run;
    RunSnoc(c, acts, Enter(Polled(HANG_UP)));
    acts := acts + [Enter(Polled(HANG_UP))];
    RunSnoc(c, acts, Enter(HandleClose));
    acts := acts + [Enter(HandleClose)];
    RunSnoc(c, acts, Inside(TestClose));
    acts := acts + [Inside(TestClose)];
    RunSnoc(c, acts, Inside(StoreClose));
    acts := acts + [Inside(StoreClose)];
    RunSnoc(c, acts, Inside(NotifyDown));
    acts := acts + [Inside(NotifyDown)];
    RunSnoc(c, acts, Inside(EmitClose));
    acts := acts + [Inside(EmitClose)];
  }

  // Where the guarantees end

  /** ConnectionDestroyed leaves the connection disconnected and without interest in events exactly when it was
      connected, or disconnected and not made to read again; a connection that is shutting down, or not established
      yet, keeps its state, as when the server is torn down around it. */
  lemma DestroyCondition(c: Conn)
    requires Inv(c)
    ensures (DestroyOf(c).st == Disconnected && !DestroyOf(c).reading && !DestroyOf(c).writing)
       <==> c.st == Connected || (c.st == Disconnected && !c.reading)
  {
  }

  /** A run to such a connection: established, then shut down by the user on the loop thread. */
  lemma DestroyCanLeaveOpen(cfg: Config)
    ensures var acts := [Enter(Establish), Inside(EstablishUp), By(LOOP, Shutdown), By(LOOP, ShutdownGo)];
            && Runs(Initial(cfg), acts)
            && DestroyOf(Run(Initial(cfg), acts)).st == Disconnecting && DestroyOf(Run(Initial(cfg), acts)).reading
  {
    hide Runs, Run;
    var c := Initial(cfg);
    NoSteps(c);
    RunSnoc(c, [], Enter(Establish));
    RunSnoc(c, [] + [Enter(Establish)], Inside(EstablishUp));
    RunSnoc(c, [] + [Enter(Establish)] + [Inside(EstablishUp)], By(LOOP, Shutdown));
    RunSnoc(c, [] + [Enter(Establish)] + [Inside(EstablishUp)] + [By(LOOP, Shutdown)], By(LOOP, ShutdownGo));
    assert [Enter(Establish), Inside(EstablishUp), By(LOOP, Shutdown), By(LOOP, ShutdownGo)]
        == [] + [Enter(Establish)] + [Inside(EstablishUp)] + [By(LOOP, Shutdown)] + [By(LOOP, ShutdownGo)];
  }

  predicate ControlsRead(a: Action) {
    a == Enter(StartRead) || a == Enter(StopRead)
  }

  /** If these steps can be taken and none of them is read control, then the assertion in RemoveFromLoop holds in case
      ConnectionDestroyed comes next, and the poller has not kept a destroyed connection. */
  ghost predicate EndsWell(c: Conn, future: seq<Action>) {
    Runs(c, future) && (forall k :: 0 <= k < |future| ==> !ControlsRead(future[k])) ==>
      var d := Run(c, future);
      && (Enabled(d, Enter(Destroy)) ==> !d.reading && !d.writing)
      && (d.destroyed ==> !d.registered)
  }

  lemma RunTaskUntouched(c: Conn, task: Task)
    ensures Untouched(c, RunTaskOf(c, task))
  {
  }

  lemma SendRestUntouched(c: Conn, msg: seq<Byte>, r: SendResult)
    requires r.Sent? ==> r.n <= |msg|
    ensures Untouched(c, SendRestOf(c, msg, r))
  {
  }

  lemma WriteReadyUntouched(c: Conn, r: SendResult)
    requires r.Sent? ==> 0 < r.n <= |c.o.buf|
    ensures Untouched(c, WriteReady(c, r))
  {
  }

  lemma EntrySameLife(c: Conn, e: Entry)
    requires EntryEnabled(c, e) && e != Establish && e != Destroy
    ensures SameLife(c, EntryStep(c, e))
  {
    hide RunTaskOf, WriteReady, Dispatch, TopLevel, LoopFree;
    if e.HandleWrite? {
      WriteReadyUntouched(c.(todo := c.todo[1..]), e.sent);
    } else if e.RunTask? {
      RunTaskUntouched(c.(tasks := c.tasks[1..]), c.tasks[0]);
    }
  }

  lemma EntryControl(c: Conn, e: Entry)
    requires EntryEnabled(c, e)
    ensures e != StartRead && e != StopRead ==> EntryStep(c, e).ctl == c.ctl
    ensures e != StartRead && e != StopRead && e != Establish && e != Destroy ==>
              EntryStep(c, e).reading == c.reading && EntryStep(c, e).registered == c.registered
    ensures EntryStep(c, e).api == c.api
  {
    hide RunTaskOf, WriteReady, Dispatch, TopLevel, LoopFree;
    if e.HandleWrite? {
      WriteReadyUntouched(c.(todo := c.todo[1..]), e.sent);
    } else if e.RunTask? {
      RunTaskUntouched(c.(tasks := c.tasks[1..]), c.tasks[0]);
    }
  }

  lemma InnerControl(c: Conn, i: Inner)
    requires InnerEnabled(c, i)
    ensures InnerStep(c, i).ctl == c.ctl && InnerStep(c, i).api == c.api
    ensures InnerStep(c, i).registered == c.registered && InnerStep(c, i).reading == (c.reading && i != StoreClose)
  {
    hide SendRestOf;
    if i.SendRest? {
      SendRestUntouched(c, c.pc.msg, i.result);
    }
  }

  lemma CallControl(c: Conn, t: ThreadId, call: Call)
    requires CallEnabled(c, t, call)
    ensures CallStep(c, t, call).ctl == c.ctl
    ensures CallStep(c, t, call).reading == c.reading && CallStep(c, t, call).registered == c.registered
  {
    hide TestSend, ShutdownBody, Plain;
    var d := At(c, t, ApiIdle);
    if call == SendGo {
      TestSendPlain(d, Api(c, t).msg);
    }
    ShutdownBodyPlain(d);
  }

  lemma GoMoves(c: Conn, t: ThreadId, call: Call)
    requires CallEnabled(c, t, call) && (call == SendGo || call == ShutdownGo)
    ensures CallStep(c, t, call).api == c.api[t := ApiIdle]
  {
    hide TestSend, ShutdownBody, Plain, SameLife;
    var d := At(c, t, ApiIdle);
    if call == SendGo {
      TestSendPlain(d, Api(c, t).msg);
    } else {
      ShutdownBodyPlain(d);
    }
  }

  /** A call moves no thread but its own. */
  lemma CallMoves(c: Conn, t: ThreadId, call: Call, u: ThreadId)
    requires CallEnabled(c, t, call) && u != t
    ensures Api(CallStep(c, t, call), u) == Api(c, u)
  {
    hide TestSend, ShutdownBody;
    if call == SendGo || call == ShutdownGo {
      GoMoves(c, t, call);
      hide CallStep, CallEnabled;
    }
  }

  // What the tests in the calls decide

  /** Send goes on exactly if it finds the connection connected. Shutdown and ForceClose win exactly then, ForceClose
      also if its second look finds a connection shutting down; whoever does not win changes nothing. */
  lemma TestsDecide(c: Conn, t: ThreadId, call: Call)
    requires CallEnabled(c, t, call)
    ensures var r := CallStep(c, t, call);
            match call
            case Send(msg) => (Api(r, t) == SendLoaded(msg) <==> c.st == Connected) && (c.st != Connected ==> r == c)
            case Shutdown => (Api(r, t) == ShutdownWon <==> c.st == Connected) && (c.st != Connected ==> r == c)
            case Force => (Api(r, t) == ForceWon <==> c.st == Connected) && (c.st != Connected ==> r.st == c.st)
            case ForceLoad => (Api(r, t) == ForceWon <==> c.st == Disconnecting) && r.st == c.st && r.tasks == c.tasks
            case _ => Api(r, t) == ApiIdle
  {
    hide TestSend, ShutdownBody;
    if call == SendGo || call == ShutdownGo {
      GoMoves(c, t, call);
    }
  }

  // What the socket was told

  /** The bytes of all sends. */
  function SentTotal(wire: seq<Wire>): nat {
    if wire == [] then 0
    else SentTotal(wire[..|wire| - 1]) + match wire[|wire| - 1] case WSend(n) => n case WShut(_, _) => 0
  }

  /** Between p and r the kernel gained the bytes the socket was told of, at the end. */
  ghost predicate Hands(p: Conn, r: Conn) {
    || (r.o.kernel == p.o.kernel && r.o.wire == p.o.wire)
    || (r.o.kernel == p.o.kernel && r.o.wire == p.o.wire + [WShut(p.st, |p.o.buf|)])
    || (p.o.kernel <= r.o.kernel && r.o.wire == p.o.wire + [WSend(|r.o.kernel| - |p.o.kernel|)])
  }

  lemma SendRestHands(c: Conn, msg: seq<Byte>, r: SendResult)
    requires r.Sent? ==> r.n <= |msg|
    ensures Hands(c, SendRestOf(c, msg, r))
  {
  }

  lemma WriteHands(c: Conn, r: SendResult)
    requires EntryEnabled(c, HandleWrite(r))
    ensures Hands(c, EntryStep(c, HandleWrite(r)))
  {
  }

  lemma StepHands(c: Conn, a: Action)
    requires Enabled(c, a)
    ensures Hands(c, Step(c, a))
  {
    hide EntryStep, CallStep, SendRestOf, WriteReady;
    match a
    case Enter(e) =>
      if e.HandleWrite? {
        WriteHands(c, e.sent);
      } else {
        EntryPlain(c, e);
      }
    case Inside(i) =>
      if i.SendRest? {
        SendRestHands(c, c.pc.msg, i.result);
      } else {
        InnerPlain(c, i);
      }
    case By(t, call) => CallPlain(c, t, call);
  }

  /** In every run the bytes in the kernel are as many as the sends have reported, and the kernel gives none back. */
  lemma {:induction false} WireTellsKernel(c: Conn, acts: seq<Action>)
    requires Runs(c, acts) && SentTotal(c.o.wire) == |c.o.kernel|
    ensures SentTotal(Run(c, acts).o.wire) == |Run(c, acts).o.kernel| && c.o.kernel <= Run(c, acts).o.kernel
    decreases |acts|
  {
    hide Step, Enabled;
    if acts != [] {
      StepHands(c, acts[0]);
      var d := Step(c, acts[0]);
      assert d.o.wire != c.o.wire ==> d.o.wire[..|d.o.wire| - 1] == c.o.wire;
      WireTellsKernel(d, acts[1..]);
    }
  }

  // Events and their handlers

  /** The handler a step serves. */
  function ServedBy(a: Action): seq<Handler> {
    if !a.Enter? then []
    else
      match a.entry
      case HandleError => [OnError]
      case HandleClose => [OnClose]
      case HandleRead(_) => [OnRead]
      case HandleWrite(_) => [OnWrite]
      case _ => []
  }

  function Served(acts: seq<Action>): seq<Handler> {
    if acts == [] then [] else ServedBy(acts[0]) + Served(acts[1..])
  }

  predicate Polls(a: Action) {
    a.Enter? && a.entry.Polled?
  }

  lemma EntryServes(c: Conn, e: Entry)
    requires EntryEnabled(c, e) && !e.Polled?
    ensures c.todo == ServedBy(Enter(e)) + EntryStep(c, e).todo
  {
    hide RunTaskOf, WriteReady, Dispatch;
    if e.HandleWrite? {
      WriteReadyUntouched(c.(todo := c.todo[1..]), e.sent);
    } else if e.RunTask? {
      RunTaskUntouched(c.(tasks := c.tasks[1..]), c.tasks[0]);
    }
  }

  lemma CallServesNothing(c: Conn, t: ThreadId, call: Call)
    requires CallEnabled(c, t, call)
    ensures CallStep(c, t, call).todo == c.todo
  {
    hide TestSend, ShutdownBody, Plain;
    var d := At(c, t, ApiIdle);
    if call == SendGo {
      TestSendPlain(d, Api(c, t).msg);
    }
    ShutdownBodyPlain(d);
  }

  lemma StepServes(c: Conn, a: Action)
    requires Enabled(c, a) && !Polls(a)
    ensures c.todo == ServedBy(a) + Step(c, a).todo
  {
    hide EntryStep, CallStep, SendRestOf;
    match a
    case Enter(e) => EntryServes(c, e);
    case Inside(i) =>
      if i.SendRest? {
        SendRestUntouched(c, c.pc.msg, i.result);
      }
    case By(t, call) => CallServesNothing(c, t, call);
  }

  /** Until the next poll the handlers are served in order, and none is left out. */
  lemma {:induction false} HandlersAreServed(c: Conn, acts: seq<Action>)
    requires Runs(c, acts) && forall k :: 0 <= k < |acts| ==> !Polls(acts[k])
    ensures c.todo == Served(acts) + Run(c, acts).todo
    decreases |acts|
  {
    hide Step, Enabled, ServedBy, Polls;
    if acts != [] {
      StepServes(c, acts[0]);
      HandlersAreServed(Step(c, acts[0]), acts[1..]);
      assert Served(acts) + Run(c, acts).todo
          == ServedBy(acts[0]) + (Served(acts[1..]) + Run(Step(c, acts[0]), acts[1..]).todo);
    }
  }

  lemma PollSets(c: Conn, r: Revents)
    requires Enabled(c, Enter(Polled(r)))
    ensures Step(c, Enter(Polled(r))).todo == Dispatch(r)
  {
    hide Dispatch;
  }

  lemma NothingLeft(c: Conn, next: Action)
    requires Enabled(c, next) && (Polls(next) || next == Enter(RunTask))
    ensures c.todo == []
  {
  }

  /** From a poll that reports events to the next poll, or to the functors behind it, whatever other threads and the
      handlers do: exactly the handlers of these events have been served, each once, in order. */
  lemma EventsAreServed(c: Conn, r: Revents, acts: seq<Action>, next: Action)
    requires Enabled(c, Enter(Polled(r))) && Runs(Step(c, Enter(Polled(r))), acts)
    requires forall k :: 0 <= k < |acts| ==> !Polls(acts[k])
    requires Enabled(Run(Step(c, Enter(Polled(r))), acts), next) && (Polls(next) || next == Enter(RunTask))
    ensures var hs := Served(acts);
            && (OnError in hs <==> r.err)
            && (OnClose in hs <==> (r.hup || r.rdhup) && !r.readable)
            && (OnRead in hs <==> r.readable || r.pri || r.rdhup)
            && (OnWrite in hs <==> r.writable)
            && InOrder(hs)
  {
    hide Run, Runs, Served, Dispatch, Step, Enabled, InOrder;
    var d := Step(c, Enter(Polled(r)));
    PollSets(c, r);
    HandlersAreServed(d, acts);
    NothingLeft(Run(d, acts), next);
    assert Served(acts) + [] == Served(acts);
    DispatchMeans(r);
  }

  // Reading as told

  /** Whether the last StartRead or StopRead was a StartRead. */
  function ToldToRead(acts: seq<Action>, before: bool): bool
    decreases |acts|
  {
    if acts == [] then before
    else ToldToRead(acts[1..], acts[0] == Enter(StartRead) || (before && acts[0] != Enter(StopRead)))
  }

  predicate ReadsAs(c: Conn, told: bool) {
    c.ctl.flag == told && (Open(c) ==> c.reading == told) && (c.st == Connecting ==> told)
  }

  lemma EntryReads(c: Conn, e: Entry, told: bool)
    requires Inv(c) && EntryEnabled(c, e) && ReadsAs(c, told)
    ensures ReadsAs(EntryStep(c, e), e == StartRead || (told && e != StopRead))
  {
    hide Raced, Interested, Conserved, HalfClosed, RunTaskOf, WriteReady, Dispatch, TopLevel, LoopFree;
    EntryControl(c, e);
    if e != Establish && e != Destroy {
      EntrySameLife(c, e);
    }
  }

  lemma InnerReads(c: Conn, i: Inner, told: bool)
    requires Inv(c) && InnerEnabled(c, i) && ReadsAs(c, told)
    ensures ReadsAs(InnerStep(c, i), told)
  {
    hide Raced, Interested, Conserved, HalfClosed, SendRestOf;
    InnerControl(c, i);
    if i.SendRest? {
      SendRestUntouched(c, c.pc.msg, i.result);
    }
  }

  lemma CallOpens(c: Conn, t: ThreadId, call: Call)
    requires CallEnabled(c, t, call)
    ensures Open(CallStep(c, t, call)) <==> Open(c)
    ensures CallStep(c, t, call).st == Connecting <==> c.st == Connecting
  {
    hide TestSend, ShutdownBody, Plain;
    var d := At(c, t, ApiIdle);
    if call == SendGo {
      TestSendPlain(d, Api(c, t).msg);
    }
    ShutdownBodyPlain(d);
  }

  lemma CallReads(c: Conn, t: ThreadId, call: Call, told: bool)
    requires CallEnabled(c, t, call) && ReadsAs(c, told)
    ensures ReadsAs(CallStep(c, t, call), told)
  {
    CallControl(c, t, call);
    CallOpens(c, t, call);
    hide CallStep, CallEnabled;
  }

  lemma StepReads(c: Conn, a: Action, told: bool)
    requires Inv(c) && Enabled(c, a) && ReadsAs(c, told)
    ensures ReadsAs(Step(c, a), a == Enter(StartRead) || (told && a != Enter(StopRead)))
  {
    hide Inv, EntryStep, InnerStep, CallStep, ReadsAs;
    match a
    case Enter(e) => EntryReads(c, e, told);
    case Inside(i) => InnerReads(c, i, told);
    case By(t, call) => CallReads(c, t, call, told);
  }

  lemma {:induction false} RunReads(c: Conn, acts: seq<Action>, told: bool)
    requires Inv(c) && Runs(c, acts) && ReadsAs(c, told)
    ensures ReadsAs(Run(c, acts), ToldToRead(acts, told))
    decreases |acts|
  {
    hide Step, Inv, Enabled, ReadsAs;
    if acts != [] {
      StepKeeps(c, acts[0]);
      StepReads(c, acts[0], told);
      RunReads(Step(c, acts[0]), acts[1..], acts[0] == Enter(StartRead) || (told && acts[0] != Enter(StopRead)));
    }
  }

  /** In every run an open connection asks the kernel for reading exactly if the last StartRead or StopRead, if any, was
      a StartRead. */
  lemma ReadsAsTold(cfg: Config, acts: seq<Action>)
    requires Runs(Initial(cfg), acts)
    ensures Open(Run(Initial(cfg), acts)) ==> Run(Initial(cfg), acts).reading == ToldToRead(acts, true)
  {
    FreshInv(Initial(cfg));
    RunReads(Initial(cfg), acts, true);
  }

  /** A closed connection asks for nothing, and a destroyed one is not registered. */
  predicate Released(c: Conn) {
    && (c.st == Disconnected && !c.destroyed ==> !c.reading)
    && (c.destroyed ==> !c.registered)
  }

  lemma CallCloses(c: Conn, t: ThreadId, call: Call)
    requires CallEnabled(c, t, call)
    ensures CallStep(c, t, call).destroyed == c.destroyed
    ensures CallStep(c, t, call).st == Disconnected <==> c.st == Disconnected
  {
    hide TestSend, ShutdownBody, Plain;
    var d := At(c, t, ApiIdle);
    if call == SendGo {
      TestSendPlain(d, Api(c, t).msg);
    }
    ShutdownBodyPlain(d);
  }

  lemma EntryReleased(c: Conn, e: Entry)
    requires Inv(c) && EntryEnabled(c, e) && Released(c) && e != StartRead && e != StopRead
    ensures Released(EntryStep(c, e))
  {
    hide Raced, Interested, Conserved, HalfClosed, RunTaskOf, WriteReady, Dispatch, TopLevel, LoopFree;
    EntryControl(c, e);
    if e != Establish && e != Destroy {
      EntrySameLife(c, e);
      hide EntryStep, Inv;
    }
  }

  lemma InnerReleased(c: Conn, i: Inner)
    requires Inv(c) && InnerEnabled(c, i) && Released(c)
    ensures Released(InnerStep(c, i))
  {
    hide Raced, Interested, Conserved, HalfClosed, SendRestOf;
    InnerControl(c, i);
    if i.SendRest? {
      SendRestUntouched(c, c.pc.msg, i.result);
    }
  }

  lemma CallReleased(c: Conn, t: ThreadId, call: Call)
    requires CallEnabled(c, t, call) && Released(c)
    ensures Released(CallStep(c, t, call))
  {
    CallControl(c, t, call);
    CallCloses(c, t, call);
    hide CallStep, CallEnabled;
  }

  lemma StepReleased(c: Conn, a: Action)
    requires Inv(c) && Enabled(c, a) && Released(c) && !ControlsRead(a)
    ensures Released(Step(c, a))
  {
    hide Inv, EntryStep, InnerStep, CallStep, Released;
    match a
    case Enter(e) => EntryReleased(c, e);
    case Inside(i) => InnerReleased(c, i);
    case By(t, call) => CallReleased(c, t, call);
  }

  lemma {:induction false} StaysReleased(c: Conn, future: seq<Action>)
    requires Inv(c) && Released(c) && Runs(c, future)
    requires forall k :: 0 <= k < |future| ==> !ControlsRead(future[k])
    ensures Inv(Run(c, future)) && Released(Run(c, future))
    decreases |future|
  {
    hide Step, Inv, Enabled, ControlsRead, Released;
    if future != [] {
      StepKeeps(c, future[0]);
      StepReleased(c, future[0]);
      StaysReleased(Step(c, future[0]), future[1..]);
    }
  }

  lemma ReleasedMayGo(c: Conn)
    requires Inv(c) && Released(c)
    ensures EntryEnabled(c, Destroy) ==> !c.reading && !c.writing
    ensures c.destroyed ==> !c.registered
  {
    hide Raced, Conserved, HalfClosed;
  }

  lemma ReleasedEndsWell(c: Conn, future: seq<Action>)
    requires Inv(c) && Released(c)
    ensures EndsWell(c, future)
  {
    hide Inv, Run, Runs, EntryEnabled, ControlsRead, Released;
    if Runs(c, future) && forall k :: 0 <= k < |future| ==> !ControlsRead(future[k]) {
      StaysReleased(c, future);
      ReleasedMayGo(Run(c, future));
    }
  }

  // A closed connection gets to its destruction

  lemma Prefixed(c: Conn, a: Action, rest: seq<Action>)
    requires Enabled(c, a) && Runs(Step(c, a), rest)
    ensures Runs(c, [a] + rest) && Run(c, [a] + rest) == Run(Step(c, a), rest)
  {
    hide Step, Enabled;
    assert ([a] + rest)[1..] == rest;
  }

  /** One run, without read control, from c to a state in which the connection may be destroyed. */
  ghost predicate Drains(c: Conn, acts: seq<Action>) {
    && Runs(c, acts) && (forall k :: 0 <= k < |acts| ==> !ControlsRead(acts[k]))
    && EntryEnabled(Run(c, acts), Destroy) && Run(c, acts).reading == c.reading
  }

  lemma DrainsFirst(c: Conn, a: Action, rest: seq<Action>)
    requires Enabled(c, a) && !ControlsRead(a) && Step(c, a).reading == c.reading && Drains(Step(c, a), rest)
    ensures Drains(c, [a] + rest)
  {
    Prefixed(c, a, rest);
  }

  ghost predicate Winding(c: Conn) {
    Inv(c) && c.st == Disconnected && LoopFree(c) && !c.destroyed
  }

  function HandlerEntry(h: Handler): Entry {
    match h
    case OnError => HandleError
    case OnClose => HandleClose
    case OnRead => HandleRead(Data)
    case OnWrite => HandleWrite(WouldBlock)
  }

  /** The next handler of a closed connection has nothing to do but look. */
  lemma HandlerLooks(c: Conn)
    requires Winding(c) && c.duty == NoDuty && c.todo != []
    ensures EntryEnabled(c, HandlerEntry(c.todo[0]))
    ensures EntryStep(c, HandlerEntry(c.todo[0]))
         == c.(todo := c.todo[1..], pc := if c.todo[0] == OnClose then CloseTest else Free)
    ensures Winding(c.(todo := c.todo[1..]))
  {
    TodoKeeps(c);
  }

  lemma DrainHandler(c: Conn, rest: seq<Action>) returns (acts: seq<Action>)
    requires Winding(c) && c.duty == NoDuty && c.todo != [] && Drains(c.(todo := c.todo[1..]), rest)
    ensures Drains(c, acts)
  {
    HandlerLooks(c);
    hide Drains, Winding, EntryStep, EntryEnabled;
    var d := c.(todo := c.todo[1..]);
    var a := Enter(HandlerEntry(c.todo[0]));
    if c.todo[0] == OnClose {
      assert InnerStep(Step(c, a), TestClose) == d;
      DrainsFirst(Step(c, a), Inside(TestClose), rest);
      DrainsFirst(c, a, [Inside(TestClose)] + rest);
      acts := [a] + ([Inside(TestClose)] + rest);
    } else {
      assert Step(c, a) == d;
      DrainsFirst(c, a, rest);
      acts := [a] + rest;
    }
  }

  lemma {:induction false} DrainHandlers(c: Conn) returns (acts: seq<Action>)
    requires Winding(c) && c.duty == NoDuty
    ensures Drains(c, acts)
    decreases |c.todo|
  {
    if c.todo == [] {
      acts := [];
    } else {
      HandlerLooks(c);
      hide Drains, Winding, EntryStep, EntryEnabled;
      var rest := DrainHandlers(c.(todo := c.todo[1..]));
      acts := DrainHandler(c, rest);
    }
  }

  lemma Drain(c: Conn) returns (acts: seq<Action>)
    requires Winding(c) && c.duty != OweDown
    ensures Drains(c, acts)
  {
    if c.duty == OweClose {
      StepKeeps(c, Inside(EmitClose));
      hide Inv, Drains;
      var rest := DrainHandlers(Step(c, Inside(EmitClose)));
      DrainsFirst(c, Inside(EmitClose), rest);
      acts := [Inside(EmitClose)] + rest;
    } else {
      acts := DrainHandlers(c);
    }
  }

  /** Every future of the loop thread's code ends well exactly when the connection is released. */
  lemma EndsWellIffReleased(c: Conn)
    requires Inv(c) && LoopFree(c) && c.duty != OweDown
    ensures (forall future :: EndsWell(c, future)) <==> Released(c)
  {
    if Released(c) {
      forall future ensures EndsWell(c, future) {
        ReleasedEndsWell(c, future);
      }
    } else if c.destroyed {
      assert !EndsWell(c, []);
    } else {
      assert c.reading && Winding(c);
      hide Inv;
      var acts := Drain(c);
      assert !EndsWell(c, acts);
    }
  }

  /** StartRead ends well in every future exactly when it finds the connection open, or destroyed with nothing to do:
      the flag and the read events still set, and the channel not registered. On a closed connection it asks the kernel
      for events again: ConnectionDestroyed then reaches RemoveFromLoop with events set, and after ConnectionDestroyed
      the poller holds the raw pointer once more. */
  lemma StartReadCondition(c: Conn)
    requires Inv(c) && EntryEnabled(c, StartRead)
    ensures (forall future :: EndsWell(EntryStep(c, StartRead), future)) <==>
            Open(c) || (c.destroyed && c.ctl.flag && c.reading && !c.registered)
  {
    EntryKeeps(c, StartRead);
    EndsWellIffReleased(EntryStep(c, StartRead));
    hide Raced, Interested, Conserved, HalfClosed, EndsWell;
  }

  /** StopRead ends well in every future exactly when the connection is not destroyed, or destroyed with nothing to do.
      It takes back what a late StartRead did to a connection not destroyed yet. On a destroyed one it leaves no events,
      but updating the channel registers it. */
  lemma StopReadCondition(c: Conn)
    requires Inv(c) && EntryEnabled(c, StopRead)
    ensures (forall future :: EndsWell(EntryStep(c, StopRead), future)) <==>
            !c.destroyed || (!c.ctl.flag && !c.reading && !c.registered)
  {
    EntryKeeps(c, StopRead);
    EndsWellIffReleased(EntryStep(c, StopRead));
    hide Raced, Interested, Conserved, HalfClosed, EndsWell;
  }

  /** Runs to both: StartRead on a connection closed by a hang-up leaves the assertion of RemoveFromLoop false when
      ConnectionDestroyed comes, and read control after ConnectionDestroyed registers the channel again. */
  lemma ReadControlCanRevive(cfg: Config, start: bool) returns (early: seq<Action>, after: seq<Action>)
    ensures Runs(Initial(cfg), early)
    ensures var c := Run(Initial(cfg), early); EntryEnabled(c, Destroy) && c.reading
    ensures Runs(Initial(cfg), after)
    ensures var c := Run(Initial(cfg), after); c.destroyed && c.registered
  {
    var c := Initial(cfg);
    var acts := RunCloses(cfg);
    hide Runs, Run;
    RunSnoc(c, acts, Enter(StartRead));
    early := acts + [Enter(StartRead)];
    RunSnoc(c, acts, Enter(Destroy));
    after := acts + [Enter(Destroy)];
    var control := Enter(if start then StartRead else StopRead);
    RunSnoc(c, after, control);
    after := after + [control];
  }

  // Messages from other threads

  /** The steps that end the state Connected. */
  predicate Concedes(a: Action) {
    a == Inside(StoreClose) || (a.By? && (a.call == Shutdown || a.call == Force))
  }

  lemma CallState(c: Conn, t: ThreadId, call: Call)
    requires CallEnabled(c, t, call) && c.st == Connected
    ensures CallStep(c, t, call).st == Connected <==> !Concedes(By(t, call))
  {
    hide TestSend, ShutdownBody, Plain;
    var d := At(c, t, ApiIdle);
    if call == SendGo {
      TestSendPlain(d, Api(c, t).msg);
    }
    ShutdownBodyPlain(d);
  }

  lemma StaysConnected(c: Conn, a: Action)
    requires Inv(c) && Enabled(c, a) && c.st == Connected
    ensures Step(c, a).st == Connected <==> !Concedes(a)
  {
    hide Raced, Interested, Conserved, HalfClosed, SendRestOf, WriteReady, RunTaskOf, TestSend, ShutdownBody, Dispatch;
    match a
    case Enter(e) => if e != Destroy && e != Establish { EntrySameLife(c, e); }
    case Inside(i) => if i.SendRest? { SendRestUntouched(c, c.pc.msg, i.result); }
    case By(t, call) => CallState(c, t, call);
  }

  lemma {:induction false} ConnectedUntilConceded(c: Conn, acts: seq<Action>)
    requires Inv(c) && c.st == Connected && Runs(c, acts)
    ensures Run(c, acts).st == Connected <==> forall k :: 0 <= k < |acts| ==> !Concedes(acts[k])
    decreases |acts|
  {
    hide Step, Inv, Enabled, Concedes;
    if acts != [] {
      StepKeeps(c, acts[0]);
      StaysConnected(c, acts[0]);
      if Concedes(acts[0]) {
        StateMovesForward(Step(c, acts[0]), acts[1..]);
        assert Rank(Step(c, acts[0]).st) >= 1;
      } else {
        ConnectedUntilConceded(Step(c, acts[0]), acts[1..]);
        assert forall k :: 0 < k < |acts| ==> acts[k] == acts[1..][k - 1];
      }
    }
  }

  /** How many functors these steps take up. */
  function TasksRun(acts: seq<Action>): nat {
    if acts == [] then 0 else (if acts[0] == Enter(RunTask) then 1 else 0) + TasksRun(acts[1..])
  }

  lemma StillThere(tasks: seq<Task>, kept: seq<Task>, called: seq<Task>, notices: seq<Task>, i: nat)
    requires tasks == kept + called + notices && i < |kept|
    ensures i < |tasks| && tasks[i] == kept[i]
  {
  }

  /** Where the functor at position i is after the step. */
  function MovedUp(a: Action, i: nat): int {
    if a == Enter(RunTask) then i - 1 else i
  }

  lemma StepMovesUp(c: Conn, a: Action, i: nat)
    requires Inv(c) && Enabled(c, a) && i < |c.tasks| && MovedUp(a, i) >= 0
    ensures Inv(Step(c, a))
    ensures MovedUp(a, i) < |Step(c, a).tasks| && Step(c, a).tasks[MovedUp(a, i)] == c.tasks[i]
  {
    hide Step, Inv, Enabled, Notices, Called, Completes;
    StepKeeps(c, a);
    StepAccurate(c, a);
    StillThere(Step(c, a).tasks, Kept(c, a), Called(c, a), Notices(c, Step(c, a)), MovedUp(a, i));
  }

  /** A queued functor moves up by one for each functor taken up. */
  lemma {:induction false} TaskMovesUp(c: Conn, acts: seq<Action>, i: nat)
    requires Inv(c) && Runs(c, acts) && TasksRun(acts) <= i < |c.tasks|
    ensures var j := i - TasksRun(acts); j < |Run(c, acts).tasks| && Run(c, acts).tasks[j] == c.tasks[i]
    decreases |acts|
  {
    hide Step, Inv, Enabled;
    if acts != [] {
      StepMovesUp(c, acts[0], i);
      TaskMovesUp(Step(c, acts[0]), acts[1..], MovedUp(acts[0], i));
    }
  }

  /** A thread inside a call stays where it is until its own next step. */
  lemma OthersCalls(c: Conn, a: Action, t: ThreadId)
    requires Enabled(c, a) && !(a.By? && a.t == t)
    ensures Api(Step(c, a), t) == Api(c, t)
  {
    hide EntryStep, InnerStep, CallStep;
    match a
    case Enter(e) => EntryControl(c, e);
    case Inside(i) => InnerControl(c, i);
    case By(u, call) => CallMoves(c, u, call, t);
  }

  lemma {:induction false} CallWaits(c: Conn, acts: seq<Action>, t: ThreadId)
    requires Runs(c, acts) && forall k :: 0 <= k < |acts| ==> !(acts[k].By? && acts[k].t == t)
    ensures Api(Run(c, acts), t) == Api(c, t)
    decreases |acts|
  {
    hide Step;
    if acts != [] {
      OthersCalls(c, acts[0], t);
      CallWaits(Step(c, acts[0]), acts[1..], t);
    }
  }

  lemma TakenUp(c: Conn, msg: seq<Byte>)
    requires EntryEnabled(c, RunTask) && c.tasks[0] == SendTask(msg)
    ensures var r := EntryStep(c, RunTask);
            && (r.pc == SendChecked(msg) <==> c.st == Connected)
            && r.o.accepted == if c.st == Connected then c.o.accepted + msg else c.o.accepted
  {
  }

  /** From Send's test of the state to the queueing of its functor. */
  lemma SendGetsQueued(c: Conn, t: ThreadId, msg: seq<Byte>, mid: seq<Action>)
    requires Inv(c) && c.st == Connected && t != LOOP && CallEnabled(c, t, Send(msg))
    requires Runs(CallStep(c, t, Send(msg)), mid)
    requires forall k :: 0 <= k < |mid| ==> !(mid[k].By? && mid[k].t == t)
    ensures var d := Run(CallStep(c, t, Send(msg)), mid);
            && CallEnabled(d, t, SendGo)
            && var q := CallStep(d, t, SendGo);
               && Inv(q) && q.tasks == d.tasks + [SendTask(msg)] && Rank(q.st) >= 1
               && (q.st == Connected <==> forall k :: 0 <= k < |mid| ==> !Concedes(mid[k]))
  {
    var loaded := CallStep(c, t, Send(msg));
    CallKeeps(c, t, Send(msg));
    assert loaded.st == Connected && Api(loaded, t) == SendLoaded(msg);
    hide Inv, Concedes;
    CallWaits(loaded, mid, t);
    RunKeeps(loaded, mid);
    ConnectedUntilConceded(loaded, mid);
    StateMovesForward(loaded, mid);
    CallKeeps(Run(loaded, mid), t, SendGo);
  }

  /** From the queueing of the functor to its turn. */
  lemma QueuedSendCondition(q: Conn, msg: seq<Byte>, wait: seq<Action>)
    requires Inv(q) && Rank(q.st) >= 1 && Runs(q, wait)
    requires TasksRun(wait) < |q.tasks| && q.tasks[TasksRun(wait)] == SendTask(msg)
    requires EntryEnabled(Run(q, wait), RunTask)
    ensures var e := Run(q, wait);
            var r := EntryStep(e, RunTask);
            && e.tasks[0] == SendTask(msg)
            && r.o.accepted == (if r.pc == SendChecked(msg) then e.o.accepted + msg else e.o.accepted)
            && (r.pc == SendChecked(msg) <==> q.st == Connected && forall k :: 0 <= k < |wait| ==> !Concedes(wait[k]))
  {
    hide Inv, Concedes;
    TaskMovesUp(q, wait, TasksRun(wait));
    StateMovesForward(q, wait);
    if q.st == Connected {
      ConnectedUntilConceded(q, wait);
    }
    TakenUp(Run(q, wait), msg);
  }

  /** Send from another thread, step by step: its test of the state, steps of others, the queueing of the functor, and
      steps until as many functors have been taken up as were ahead of it. Then it is the functor's turn, and the
      message is accepted exactly when meanwhile nobody called Shutdown or ForceClose and handle_close did not store
      the state. */
  lemma ForeignSendCondition(c: Conn, t: ThreadId, msg: seq<Byte>, mid: seq<Action>, d: Conn, wait: seq<Action>)
    requires Inv(c) && c.st == Connected && t != LOOP && CallEnabled(c, t, Send(msg))
    requires Runs(CallStep(c, t, Send(msg)), mid) && d == Run(CallStep(c, t, Send(msg)), mid)
    requires forall k :: 0 <= k < |mid| ==> !(mid[k].By? && mid[k].t == t)
    requires CallEnabled(d, t, SendGo) && Runs(CallStep(d, t, SendGo), wait) && TasksRun(wait) == |d.tasks|
    requires EntryEnabled(Run(CallStep(d, t, SendGo), wait), RunTask)
    ensures var e := Run(CallStep(d, t, SendGo), wait);
            var r := EntryStep(e, RunTask);
            && e.tasks[0] == SendTask(msg)
            && r.o.accepted == (if r.pc == SendChecked(msg) then e.o.accepted + msg else e.o.accepted)
            && (r.pc == SendChecked(msg) <==>
                  && (forall k :: 0 <= k < |mid| ==> !Concedes(mid[k]))
                  && (forall k :: 0 <= k < |wait| ==> !Concedes(wait[k])))
  {
    hide Inv, Concedes, CallEnabled, EntryEnabled, CallStep, EntryStep, Run, Runs, TasksRun;
    SendGetsQueued(c, t, msg, mid);
    QueuedSendCondition(CallStep(d, t, SendGo), msg, wait);
  }

  /** A message sent from another thread is lost when the same thread shuts the connection down before the loop has
      taken the message up. */
  lemma ForeignSendThenShutdownIsDropped(c: Conn, t: ThreadId, msg: seq<Byte>)
    requires Inv(c) && c.st == Connected && TopLevel(c) && c.todo == [] && c.tasks == []
    requires t != LOOP && Api(c, t) == ApiIdle
    ensures CallEnabled(c, t, Send(msg))
    ensures var c1 := CallStep(c, t, Send(msg));
            && CallEnabled(c1, t, SendGo)
            && var c2 := CallStep(c1, t, SendGo);
            && CallEnabled(c2, t, Shutdown)
            && var c3 := CallStep(c2, t, Shutdown);
            && EntryEnabled(c3, RunTask) && c3.tasks == [SendTask(msg)]
            && EntryStep(c3, RunTask).o.accepted == c.o.accepted && EntryStep(c3, RunTask).tasks == []
  {
  }

  // What the server needs to know

  lemma InnerLife(c: Conn, i: Inner)
    requires Inv(c) && InnerEnabled(c, i) && i != EmitClose
    ensures var r := InnerStep(c, i);
            && (r.st == Connecting <==> c.st == Connecting)
            && (Close in r.notes <==> Close in c.notes)
            && r.destroyed == c.destroyed && (c.registered ==> r.registered)
  {
    hide SendRestOf, Raced, Interested, HalfClosed;
    if i.SendRest? {
      SendRestUntouched(c, c.pc.msg, i.result);
    }
  }

  lemma CallLife(c: Conn, t: ThreadId, call: Call)
    requires CallEnabled(c, t, call)
    ensures var r := CallStep(c, t, call);
            && (r.st == Connecting <==> c.st == Connecting) && r.notes == c.notes
            && r.destroyed == c.destroyed && (c.registered ==> r.registered)
  {
    hide TestSend, ShutdownBody, Plain;
    var d := At(c, t, ApiIdle);
    if call == SendGo {
      TestSendPlain(d, Api(c, t).msg);
    }
    ShutdownBodyPlain(d);
  }

  /** No other step establishes, reports the close of, or destroys a connection. */
  lemma OnlyLifecycleSteps(c: Conn, a: Action)
    requires Inv(c) && Enabled(c, a) && !IsLifecycle(a)
    ensures var r := Step(c, a);
            && Inv(r)
            && (r.st == Connecting <==> c.st == Connecting)
            && (Close in r.notes <==> Close in c.notes)
            && r.destroyed == c.destroyed && (c.registered ==> r.registered)
  {
    StepKeeps(c, a);
    hide Inv, EntryStep, InnerStep, CallStep;
    match a
    case Enter(e) => EntrySameLife(c, e);
    case Inside(i) => InnerLife(c, i);
    case By(t, call) => CallLife(c, t, call);
  }

}
