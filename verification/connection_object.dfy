/** The connection object. A method returns where the code calls back: into the user, which is the last thing the code
    does (but for ConnectionDestroyed on a connection still connected), or into the server with on_close_. What a
    callback does are the calls that follow. All the object ever does is a run of the state machine, so what the machine
    guarantees in every interleaving holds of it. */
module ConnectionImpl {
  import opened ByteCodec
  import opened S = ConnectionSpec
  import opened ConnectionRuns
  import B = BufferSpec
  import BufferImpl

  // Runs from one state of an object to a later one

  /** These steps lead from p to r, and none is one of the three the server's protocol watches. */
  ghost predicate Leads(p: Conn, acts: seq<Action>, r: Conn) {
    && Runs(p, acts) && Run(p, acts) == r
    && forall k :: 0 <= k < |acts| ==> !IsLifecycle(acts[k])
  }

  /** So do the steps by which the history was has grown to now. */
  ghost predicate Follows(p: Conn, was: seq<Action>, r: Conn, now: seq<Action>) {
    was <= now && Leads(p, now[|was|..], r)
  }

  lemma LeadsNowhere(c: Conn)
    ensures Leads(c, [], c)
  {
    NoSteps(c);
  }

  lemma LeadsStep(c: Conn, a: Action)
    requires Enabled(c, a) && !IsLifecycle(a)
    ensures Leads(c, [a], Step(c, a))
  {
    NoSteps(c);
    hide Step, Enabled, Runs, Run;
    RunSnoc(c, [], a);
    assert [] + [a] == [a];
  }

  lemma LeadsJoin(p: Conn, first: seq<Action>, q: Conn, rest: seq<Action>, r: Conn)
    requires Leads(p, first, q) && Leads(q, rest, r)
    ensures Leads(p, first + rest, r)
  {
    hide Run, Runs;
    RunJoins(p, first, rest);
  }

  lemma LeadsOn(p: Conn, acts: seq<Action>, c: Conn, a: Action)
    requires Leads(p, acts, c) && Enabled(c, a) && !IsLifecycle(a)
    ensures Leads(p, acts + [a], Step(c, a))
  {
    hide Leads, Step, Enabled;
    LeadsStep(c, a);
    LeadsJoin(p, acts, c, [a], Step(c, a));
  }

  lemma FollowsNothing(c: Conn, trace: seq<Action>)
    ensures Follows(c, trace, c, trace)
  {
    LeadsNowhere(c);
    assert trace[|trace|..] == [];
  }

  lemma FollowsChains(p: Conn, was: seq<Action>, q: Conn, mid: seq<Action>, r: Conn, now: seq<Action>)
    requires Follows(p, was, q, mid) && Follows(q, mid, r, now)
    ensures Follows(p, was, r, now)
  {
    hide Leads;
    LeadsJoin(p, mid[|was|..], q, now[|mid|..], r);
    assert now[|was|..] == mid[|was|..] + now[|mid|..];
  }

  // The loop thread's way out of the connection's code

  /** handle_close up to on_close_. */
  function CloseOf(c: Conn): Conn {
    if Open(c) then
      c.(pc := Free, st := Disconnected, reading := false, writing := false, duty := OweClose,
         notes := c.notes + [Down])
    else c.(pc := Free)
  }

  /** Where the code goes on from, with nothing owed and no call of the interface under way. */
  predicate Ready(c: Conn, r: SendResult) {
    && Api(c, LOOP) == ApiIdle && (c.pc != Free ==> c.duty == NoDuty)
    && c.pc != CloseStore && c.pc != EstablishNotify
    && (c.pc.SendChecked? && r.Sent? ==> r.n <= |c.pc.msg|)
  }

  /** What the loop thread makes of the state before it leaves the code, or stops to call back. */
  function Settle(c: Conn, r: SendResult): Conn
    requires Ready(c, r)
  {
    match c.pc
    case SendChecked(msg) => var d := SendRestOf(c, msg, r); if d.pc == CloseTest then CloseOf(d) else d
    case CloseTest => CloseOf(c)
    case ForceTest => if c.st == Disconnecting then CloseOf(c) else c.(pc := Free)
    case WriteTest => InnerStep(c, TestWrite)
    case _ => c
  }

  lemma CloseLeads(c: Conn) returns (acts: seq<Action>)
    requires c.pc == CloseTest && Api(c, LOOP) == ApiIdle && c.duty == NoDuty
    ensures Leads(c, acts, CloseOf(c))
  {
    hide Leads;
    LeadsStep(c, Inside(TestClose));
    acts := [Inside(TestClose)];
    if Open(c) {
      var d := InnerStep(c, TestClose);
      LeadsOn(c, acts, d, Inside(StoreClose));
      acts := acts + [Inside(StoreClose)];
      var e := InnerStep(d, StoreClose);
      LeadsOn(c, acts, e, Inside(NotifyDown));
      acts := acts + [Inside(NotifyDown)];
    }
  }

  lemma StepThenClose(c: Conn, a: Action) returns (acts: seq<Action>)
    requires Enabled(c, a) && !IsLifecycle(a)
    requires var d := Step(c, a); d.pc == CloseTest && Api(d, LOOP) == ApiIdle && d.duty == NoDuty
    ensures Leads(c, acts, CloseOf(Step(c, a)))
  {
    hide Leads, Step, Enabled, CloseOf;
    LeadsStep(c, a);
    var rest := CloseLeads(Step(c, a));
    LeadsJoin(c, [a], Step(c, a), rest, CloseOf(Step(c, a)));
    acts := [a] + rest;
  }

  lemma SendSettles(c: Conn, r: SendResult) returns (acts: seq<Action>)
    requires Ready(c, r) && c.pc.SendChecked?
    ensures Leads(c, acts, Settle(c, r))
  {
    SendRestUntouched(c, c.pc.msg, r);
    hide Leads, SendRestOf, CloseOf;
    if SendRestOf(c, c.pc.msg, r).pc == CloseTest {
      acts := StepThenClose(c, Inside(SendRest(r)));
    } else {
      LeadsStep(c, Inside(SendRest(r)));
      acts := [Inside(SendRest(r))];
    }
  }

  lemma ForceSettles(c: Conn, r: SendResult) returns (acts: seq<Action>)
    requires Ready(c, r) && c.pc == ForceTest
    ensures Leads(c, acts, Settle(c, r))
  {
    hide Leads;
    if c.st == Disconnecting {
      acts := StepThenClose(c, Inside(TestForce));
    } else {
      LeadsStep(c, Inside(TestForce));
      acts := [Inside(TestForce)];
    }
  }

  lemma Settles(c: Conn, r: SendResult) returns (acts: seq<Action>)
    requires Ready(c, r)
    ensures Leads(c, acts, Settle(c, r))
  {
    hide Leads, SendRestOf, CloseOf;
    match c.pc
    case SendChecked(_) => acts := SendSettles(c, r);
    case CloseTest => acts := CloseLeads(c);
    case ForceTest => acts := ForceSettles(c, r);
    case WriteTest =>
      LeadsStep(c, Inside(TestWrite));
      acts := [Inside(TestWrite)];
    case _ =>
      LeadsNowhere(c);
      acts := [];
  }

  /** One step into the code, and out again. */
  lemma StepSettles(c: Conn, a: Action, r: SendResult) returns (acts: seq<Action>)
    requires Enabled(c, a) && !IsLifecycle(a) && Ready(Step(c, a), r)
    ensures Leads(c, acts, Settle(Step(c, a), r))
  {
    hide Leads, Step, Enabled, Settle, Ready;
    LeadsStep(c, a);
    var rest := Settles(Step(c, a), r);
    LeadsJoin(c, [a], Step(c, a), rest, Settle(Step(c, a), r));
    acts := [a] + rest;
  }

  /** A direct send finds the peer gone. */
  predicate FindsPeerGone(c: Conn, r: SendResult) {
    !c.writing && c.o.buf == [] && r == PeerGone
  }

  /** What is left of a message to buffer. */
  function Left(c: Conn, msg: seq<Byte>, r: SendResult): seq<Byte>
    requires r.Sent? ==> r.n <= |msg|
  {
    if c.writing || c.o.buf != [] then msg
    else if r.Sent? then msg[r.n..]
    else if r == PeerGone then []
    else msg
  }

  lemma NoCrossing(c: Conn)
    ensures !Crosses(c.cfg, |c.o.buf|, |c.o.buf|)
  {
  }

  /** What the kernel takes of it directly. */
  function Taken(c: Conn, msg: seq<Byte>, r: SendResult): seq<Byte>
    requires r.Sent? ==> r.n <= |msg|
  {
    if !c.writing && c.o.buf == [] && r.Sent? then msg[..r.n] else []
  }

  lemma SendRestFields(c: Conn, msg: seq<Byte>, r: SendResult)
    requires r.Sent? ==> r.n <= |msg|
    ensures var d := SendRestOf(c, msg, r);
            var left := Left(c, msg, r);
            && d.st == c.st && d.reading == c.reading && d.ctl == c.ctl && d.cfg == c.cfg
            && d.o.buf == c.o.buf + left && d.writing == (c.writing || left != [])
            && d.o.kernel == c.o.kernel + Taken(c, msg, r) && d.o.accepted == c.o.accepted
            && d.pc == (if FindsPeerGone(c, r) then CloseTest else Free)
            && d.tasks == c.tasks
                          + (if !c.writing && c.o.buf == [] && r.Sent? && left == [] && c.cfg.wantsComplete
                             then [WriteComplete] else [])
                          + (if Crosses(c.cfg, |c.o.buf|, |d.o.buf|) then [HighWater(|d.o.buf|)] else [])
  {
    hide Enqueue, Crosses;
    var direct := !c.writing && c.o.buf == [];
    assert c.o.kernel + [] == c.o.kernel && c.o.buf + [] == c.o.buf && c.tasks + [] == c.tasks;
    if direct && r.Sent? {
      assert msg[r.n..] == [] <==> r.n == |msg|;
      EnqueueFields(c, ToKernel(c.o, msg[..r.n]), msg[r.n..],
                    if r.n == |msg| && c.cfg.wantsComplete then [WriteComplete] else []);
    } else if !(direct && r == PeerGone) {
      EnqueueFields(c, c.o, msg, []);
    } else {
      NoCrossing(c);
    }
  }

  /** A settled connection is where it was, but for a close. */
  lemma SettledPlace(c: Conn, r: SendResult)
    requires Ready(c, r)
    ensures var d := Settle(c, r);
            && d.pc == Free && d.api == c.api && d.todo == c.todo && d.ctl == c.ctl
            && d.registered == c.registered && d.destroyed == c.destroyed
  {
    if c.pc.SendChecked? {
      SendRestUntouched(c, c.pc.msg, r);
      SendRestFields(c, c.pc.msg, r);
      hide SendRestOf;
    }
  }

  // What the operations mean

  /** From p to r the connection was closed, and on_close_ is still to be called. */
  predicate Closes(p: Conn, r: Conn) {
    && Open(p) && r.st == Disconnected && !r.reading && !r.writing
    && r.duty == OweClose && r.notes == p.notes + [Down]
  }

  /** From p to r it was not. */
  predicate NoClose(p: Conn, r: Conn) {
    (Open(r) <==> Open(p)) && r.duty == p.duty && r.notes == p.notes
  }

  /** From p to r a message went out: what the kernel did not take is buffered, or the peer was found gone and the
      connection closed. */
  predicate Delivers(p: Conn, r: Conn, msg: seq<Byte>, result: SendResult)
    requires result.Sent? ==> result.n <= |msg|
  {
    var direct := !p.writing && p.o.buf == [];
    if direct && result == PeerGone then Closes(p, r) && r.o.kernel == p.o.kernel && r.o.buf == []
    else
      && NoClose(p, r) && r.st == p.st
      && if direct && result.Sent? then r.o.kernel == p.o.kernel + msg[..result.n] && r.o.buf == msg[result.n..]
         else r.o.kernel == p.o.kernel && r.o.buf == p.o.buf + msg
  }

  /** What running a queued functor does. */
  predicate RanTask(p: Conn, r: Conn, task: Task, result: SendResult)
    requires task.SendTask? && result.Sent? ==> result.n <= |task.msg|
  {
    match task
    case SendTask(msg) =>
      if p.st == Connected then Delivers(p, r, msg, result) && r.o.accepted == p.o.accepted + msg
      else r.o == p.o && r.st == p.st && NoClose(p, r)
    case ShutdownTask =>
      && r.o.shutdownRan && r.o.kernel == p.o.kernel && r.o.buf == p.o.buf && r.st == p.st && NoClose(p, r)
      && r.o.wire == if p.writing then p.o.wire else p.o.wire + [WShut(p.st, |p.o.buf|)]
    case ForceCloseTask => r.o == p.o && if Open(p) then Closes(p, r) else NoClose(p, r)
    case _ => r.o == p.o && r.st == p.st && NoClose(p, r)
  }

  lemma CloseMeans(c: Conn, d: Conn)
    requires d == c.(todo := d.todo)
    ensures if Open(c) then Closes(c, CloseOf(d)) else NoClose(c, CloseOf(d))
    ensures NoClose(c, d)
    ensures var e := CloseOf(d); e.todo == d.todo && e.o == d.o && e.tasks == d.tasks
  {
  }

  /** A message that passed the test, once the loop thread is done with it. */
  lemma SendDelivers(c: Conn, r: SendResult)
    requires Ready(c, r) && c.pc.SendChecked? && Open(c)
    ensures Delivers(c, Settle(c, r), c.pc.msg, r) && Settle(c, r).o.accepted == c.o.accepted
  {
    SendRestFields(c, c.pc.msg, r);
    SendRestUntouched(c, c.pc.msg, r);
    hide SendRestOf;
  }

  /** The test before it changes nothing of that. */
  lemma DeliversFrom(c: Conn, d: Conn, e: Conn, msg: seq<Byte>, r: SendResult)
    requires r.Sent? ==> r.n <= |msg|
    requires d.o == c.o.(accepted := d.o.accepted) && d.writing == c.writing && d.st == c.st
    requires d.duty == c.duty && d.notes == c.notes && Delivers(d, e, msg, r)
    ensures Delivers(c, e, msg, r)
  {
  }

  /** Where handle_write leaves the loop thread, and with what. */
  lemma WriteReadyFields(c: Conn, r: SendResult)
    requires c.pc == Free && (r.Sent? ==> 0 < r.n <= |c.o.buf|)
    ensures var d := WriteReady(c, r);
            && Untouched(c, d) && d.cfg == c.cfg
            && (var drained := c.writing && r.Sent? && r.n == |c.o.buf|;
                && d.writing == (c.writing && !drained)
                && d.tasks == (if drained && c.cfg.wantsComplete then c.tasks + [WriteComplete] else c.tasks))
            && (!(c.writing && r.Sent?) ==> d.o.buf == c.o.buf && d.o.kernel == c.o.kernel)
            && (c.writing && r.Sent? ==> d.o.buf == c.o.buf[r.n..] && d.o.kernel == c.o.kernel + c.o.buf[..r.n])
            && d.pc == if !c.writing || r == WouldBlock || r == Interrupted then Free
                       else if r.Sent? then (if r.n == |c.o.buf| then WriteTest else Free)
                       else CloseTest
  {
    WriteReadyUntouched(c, r);
  }

  lemma HandleWriteStep(c: Conn, r: SendResult)
    requires EntryEnabled(c, HandleWrite(r))
    ensures EntryStep(c, HandleWrite(r)) == WriteReady(c.(todo := c.todo[1..]), r)
  {
    hide WriteReady;
  }

  /** Both tests of the state on the loop's own thread. */
  lemma AcceptLeads(c: Conn, msg: seq<Byte>) returns (acts: seq<Action>, d: Conn)
    requires CallEnabled(c, LOOP, Send(msg)) && c.st == Connected
    ensures Leads(c, acts, d) && Api(d, LOOP) == ApiIdle && d.api.Keys == c.api.Keys + {LOOP}
    ensures forall t :: t != LOOP && t in c.api ==> d.api[t] == c.api[t]
    ensures d == c.(api := d.api, pc := SendChecked(msg), o := c.o.(accepted := c.o.accepted + msg))
  {
    hide Leads;
    LeadsStep(c, By(LOOP, Send(msg)));
    var e := CallStep(c, LOOP, Send(msg));
    LeadsOn(c, [By(LOOP, Send(msg))], e, By(LOOP, SendGo));
    acts := [By(LOOP, Send(msg))] + [By(LOOP, SendGo)];
    d := CallStep(e, LOOP, SendGo);
  }

  /** Send from another thread. */
  lemma QueueSendLeads(c: Conn, t: ThreadId, msg: seq<Byte>) returns (acts: seq<Action>, d: Conn)
    requires CallEnabled(c, t, Send(msg)) && c.st == Connected && t != LOOP
    ensures Leads(c, acts, d)
    ensures d == c.(api := c.api[t := SendLoaded(msg)][t := ApiIdle], tasks := c.tasks + [SendTask(msg)])
  {
    hide Leads;
    LeadsStep(c, By(t, Send(msg)));
    var e := CallStep(c, t, Send(msg));
    LeadsOn(c, [By(t, Send(msg))], e, By(t, SendGo));
    acts := [By(t, Send(msg))] + [By(t, SendGo)];
    d := CallStep(e, t, SendGo);
  }

  /** What Shutdown makes of a connected connection. */
  function ShutdownOf(c: Conn, t: ThreadId): Conn {
    var d := c.(st := Disconnecting, api := c.api[t := ShutdownWon][t := ApiIdle]);
    if t == LOOP then ShutdownBody(d) else Queue(d, ShutdownTask)
  }

  lemma ShutdownLeads(c: Conn, t: ThreadId) returns (acts: seq<Action>)
    requires CallEnabled(c, t, Shutdown) && c.st == Connected
    ensures Leads(c, acts, ShutdownOf(c, t))
  {
    hide Leads, ShutdownBody;
    LeadsStep(c, By(t, Shutdown));
    var e := CallStep(c, t, Shutdown);
    LeadsOn(c, [By(t, Shutdown)], e, By(t, ShutdownGo));
    acts := [By(t, Shutdown)] + [By(t, ShutdownGo)];
  }

  lemma ShutdownFields(c: Conn, t: ThreadId)
    ensures var d := ShutdownOf(c, t);
            && d == c.(st := Disconnecting, api := c.api[t := ShutdownWon][t := ApiIdle], tasks := d.tasks, o := d.o)
            && d.tasks == (if t == LOOP then c.tasks else c.tasks + [ShutdownTask])
            && d.o == if t == LOOP
                      then c.o.(shutdownRan := true,
                                wire := c.o.wire + if c.writing then [] else [WShut(Disconnecting, |c.o.buf|)])
                      else c.o
  {
    assert c.o.wire + [] == c.o.wire;
  }

  /** No thread is inside the connection's code. */
  predicate AtEase(c: Conn) {
    c.pc == Free && forall t :: t in c.api ==> c.api[t] == ApiIdle
  }

  lemma EaseEnables(c: Conn)
    requires AtEase(c)
    ensures LoopFree(c) && (TopLevel(c) <==> c.duty == NoDuty)
    ensures forall t, call: Call :: call.Send? || call == Shutdown || call == Force ==> CallEnabled(c, t, call)
  {
  }

  lemma ForceWins(c: Conn, t: ThreadId) returns (acts: seq<Action>, d: Conn)
    requires CallEnabled(c, t, Force) && c.st == Connected
    ensures Leads(c, acts, d)
    ensures d == c.(st := Disconnecting, api := c.api[t := ForceWon][t := ApiIdle], tasks := c.tasks + [ForceCloseTask])
  {
    hide Leads;
    LeadsStep(c, By(t, Force));
    var e := CallStep(c, t, Force);
    LeadsOn(c, [By(t, Force)], e, By(t, ForceGo));
    acts := [By(t, Force)] + [By(t, ForceGo)];
    d := CallStep(e, t, ForceGo);
  }

  lemma ForceLoses(c: Conn, t: ThreadId) returns (acts: seq<Action>, d: Conn)
    requires CallEnabled(c, t, Force) && c.st != Connected
    ensures Leads(c, acts, d)
    ensures d == c.(api := c.api[t := ForceLost][t := if c.st == Disconnecting then ForceWon else ApiIdle])
  {
    hide Leads;
    LeadsStep(c, By(t, Force));
    var e := CallStep(c, t, Force);
    LeadsOn(c, [By(t, Force)], e, By(t, ForceLoad));
    acts := [By(t, Force)] + [By(t, ForceLoad)];
    d := CallStep(e, t, ForceLoad);
  }

  lemma ForceLeads(c: Conn, t: ThreadId) returns (acts: seq<Action>, d: Conn)
    requires AtEase(c)
    ensures Leads(c, acts, d) && AtEase(d)
    ensures d == c.(st := if c.st == Connected then Disconnecting else c.st, api := d.api,
                    tasks := if Open(c) then c.tasks + [ForceCloseTask] else c.tasks)
  {
    hide Leads;
    EaseEnables(c);
    if c.st == Connected {
      acts, d := ForceWins(c, t);
    } else {
      acts, d := ForceLoses(c, t);
      if c.st == Disconnecting {
        LeadsOn(c, acts, d, By(t, ForceGo));
        acts := acts + [By(t, ForceGo)];
        d := CallStep(d, t, ForceGo);
      }
    }
  }

  /** Where taking up a queued functor leaves the loop thread, and with what. */
  lemma RunTaskFields(c: Conn)
    requires EntryEnabled(c, RunTask)
    ensures var d := EntryStep(c, RunTask);
            && Untouched(c.(tasks := c.tasks[1..]), d) && d.writing == c.writing && d.o.buf == c.o.buf
            && d.cfg == c.cfg && d.tasks == c.tasks[1..]
            && match c.tasks[0]
               case SendTask(msg) =>
                 && d.pc == (if c.st == Connected then SendChecked(msg) else Free)
                 && d.o == (if c.st == Connected then c.o.(accepted := c.o.accepted + msg) else c.o)
                 && NoClose(c, d)
               case ForceCloseTask => d.pc == (if c.st == Connected then CloseTest else ForceTest) && d.o == c.o
               case task => d.pc == Free && RanTask(c, d, task, WouldBlock)
  {
    RunTaskUntouched(c.(tasks := c.tasks[1..]), c.tasks[0]);
  }

  /** The loop thread stands where the functor begins. */
  predicate BeginsTask(c: Conn, task: Task) {
    c.pc == if task.SendTask? && c.st == Connected then SendChecked(task.msg)
            else if task == ForceCloseTask then (if c.st == Connected then CloseTest else ForceTest)
            else Free
  }

  lemma ForceMeans(c: Conn, d: Conn, r: SendResult)
    requires Ready(d, r) && d.pc == (if c.st == Connected then CloseTest else ForceTest) && c.st != Connecting
    requires d.st == c.st && d.duty == c.duty && d.notes == c.notes && d.o == c.o
    ensures RanTask(c, Settle(d, r), ForceCloseTask, r)
  {
    hide SendRestOf;
  }

  lemma SameTask(c: Conn, d: Conn, task: Task, r: SendResult)
    requires task.SendTask? && r.Sent? ==> r.n <= |task.msg|
    requires (task.SendTask? && c.st != Connected && d.o == c.o && d.st == c.st && NoClose(c, d))
             || (!task.SendTask? && RanTask(c, d, task, WouldBlock))
    ensures RanTask(c, d, task, r)
  {
    hide NoClose;
  }

  /** The functor, and what the loop thread does before it leaves. */
  lemma TaskSettles(c: Conn, r: SendResult)
    requires EntryEnabled(c, RunTask) && c.duty == NoDuty && c.st != Connecting
    requires c.tasks[0].SendTask? && r.Sent? ==> r.n <= |c.tasks[0].msg|
    ensures Ready(EntryStep(c, RunTask), r) && BeginsTask(EntryStep(c, RunTask), c.tasks[0])
    ensures RanTask(c, Settle(EntryStep(c, RunTask), r), c.tasks[0], r)
  {
    RunTaskFields(c);
    var d, task := EntryStep(c, RunTask), c.tasks[0];
    hide EntryStep, SendRestOf, Delivers, CloseOf, Closes, NoClose;
    if d.pc.SendChecked? {
      hide Settle;
      SendDelivers(d, r);
      DeliversFrom(c, d, Settle(d, r), d.pc.msg, r);
    } else if task == ForceCloseTask {
      ForceMeans(c, d, r);
      hide Settle;
    } else {
      hide RanTask;
      SameTask(c, d, task, r);
    }
  }

  lemma TasksMeanConnected(c: Conn)
    requires Inv(c) && c.tasks != []
    ensures c.st != Connecting
  {
  }

  lemma TaskLeads(c: Conn, r: SendResult) returns (acts: seq<Action>, d: Conn)
    requires Inv(c) && AtEase(c) && c.duty == NoDuty && c.todo == [] && c.tasks != []
    requires c.tasks[0].SendTask? && r.Sent? ==> r.n <= |c.tasks[0].msg|
    ensures Ready(d, r) && BeginsTask(d, c.tasks[0]) && d.cfg == c.cfg && d.todo == [] && d.duty == NoDuty
    ensures d.st == c.st && d.reading == c.reading && d.writing == c.writing && d.ctl == c.ctl && d.o.buf == c.o.buf
    ensures d.tasks == c.tasks[1..]
    ensures var e := Settle(d, r);
            && Leads(c, acts, e) && AtEase(e) && RanTask(c, e, c.tasks[0], r)
            && e.todo == c.todo && e.registered == c.registered && e.destroyed == c.destroyed
  {
    TasksMeanConnected(c);
    EaseEnables(c);
    TaskSettles(c, r);
    RunTaskFields(c);
    hide Inv, Leads, RanTask, EntryStep, Settle;
    d := EntryStep(c, RunTask);
    acts := StepSettles(c, Enter(RunTask), r);
    SettledPlace(d, r);
  }

  /** The handler called for the next of the events, given what the read or the send will report. */
  function EntryFor(h: Handler, read: ReadResult, sent: SendResult): Entry {
    match h
    case OnError => HandleError
    case OnClose => HandleClose
    case OnRead => HandleRead(read)
    case OnWrite => HandleWrite(sent)
  }

  predicate EndsReading(r: ReadResult) {
    r == EndOfStream || r == ReadFailed
  }

  lemma OpenOwesNothing(c: Conn)
    requires Inv(c) && c.st != Disconnected
    ensures c.duty == NoDuty && (Open(c) ==> c.registered)
  {
  }

  /** Send on the loop's own thread as a whole: d is the state after both tests. */
  lemma SendLeads(c: Conn, msg: seq<Byte>, r: SendResult) returns (acts: seq<Action>, d: Conn)
    requires Inv(c) && AtEase(c) && c.st == Connected && (r.Sent? ==> r.n <= |msg|)
    ensures d == c.(api := d.api, pc := SendChecked(msg), o := c.o.(accepted := c.o.accepted + msg)) && Ready(d, r)
    ensures var e := Settle(d, r);
            && Leads(c, acts, e) && AtEase(e) && Delivers(c, e, msg, r) && e.o.accepted == c.o.accepted + msg
            && e.todo == c.todo && e.registered == c.registered && e.destroyed == c.destroyed
  {
    OpenOwesNothing(c);
    hide Inv, Leads, Settle;
    EaseEnables(c);
    acts, d := AcceptLeads(c, msg);
    var more := Settles(d, r);
    LeadsJoin(c, acts, d, more, Settle(d, r));
    hide Settle, Delivers;
    SendDelivers(d, r);
    DeliversFrom(c, d, Settle(d, r), msg, r);
    SettledPlace(d, r);
    acts := acts + more;
  }

  lemma DestroyRuns(c: Conn)
    requires Inv(c) && AtEase(c) && EntryEnabled(c, Destroy)
    ensures Runs(c, [Enter(Destroy)]) && Run(c, [Enter(Destroy)]) == DestroyOf(c) && AtEase(DestroyOf(c))
    ensures var d := DestroyOf(c); d.st == Disconnected && !d.writing && (d.reading ==> d.ctl.late)
  {
    NoSteps(c);
    RegisteredWhile(c);
    hide Runs, Run, Inv;
    RunSnoc(c, [], Enter(Destroy));
    assert [] + [Enter(Destroy)] == [Enter(Destroy)];
  }

  lemma EstablishRuns(c: Conn) returns (acts: seq<Action>)
    requires AtEase(c) && c.duty == NoDuty && c.st == Connecting
    ensures Runs(c, acts) && Run(c, acts) == InnerStep(EntryStep(c, Establish), EstablishUp)
  {
    NoSteps(c);
    hide Runs, Run;
    RunSnoc(c, [], Enter(Establish));
    acts := [] + [Enter(Establish)];
    RunSnoc(c, acts, Inside(EstablishUp));
    acts := acts + [Inside(EstablishUp)];
  }

  /** Reading, closing and error handlers, once the loop thread is done. */
  lemma HandlerSettles(c: Conn, h: Handler, read: ReadResult)
    requires AtEase(c) && c.duty == NoDuty && c.todo != [] && c.todo[0] == h && h != OnWrite
    ensures var e := EntryFor(h, read, WouldBlock);
            && EntryEnabled(c, e) && Ready(EntryStep(c, e), WouldBlock)
            && Settle(EntryStep(c, e), WouldBlock)
               == (var d := c.(todo := c.todo[1..]);
                   if h == OnClose || (h == OnRead && EndsReading(read)) then CloseOf(d) else d)
  {
  }

  /** What handle_write means for the buffer, the kernel and the state. */
  ghost predicate Writes(p: Conn, r: Conn, sent: SendResult)
    requires sent.Sent? ==> 0 < sent.n <= |p.o.buf|
  {
    && (p.writing && sent.Sent? ==>
          && r.o.buf == p.o.buf[sent.n..] && r.o.kernel == p.o.kernel + p.o.buf[..sent.n]
          && (p.st == Disconnecting && r.o.buf == [] ==> Shut(r)))
    && (!(p.writing && sent.Sent?) ==> r.o.buf == p.o.buf && r.o.kernel == p.o.kernel)
    && if p.writing && Open(p) && (sent == PeerGone || sent == OtherError) then Closes(p, r)
       else NoClose(p, r) && r.st == p.st
  }

  /** handle_write, once the loop thread is done. */
  lemma WriteSettles(c: Conn, r: SendResult)
    requires AtEase(c) && c.duty == NoDuty && (r.Sent? ==> 0 < r.n <= |c.o.buf|)
    ensures Ready(WriteReady(c, r), WouldBlock) && Writes(c, Settle(WriteReady(c, r), WouldBlock), r)
  {
    WriteReadyFields(c, r);
    hide WriteReady;
  }

  lemma WritesSame(c: Conn, d: Conn, e: Conn, r: SendResult)
    requires d == c.(todo := d.todo) && (r.Sent? ==> 0 < r.n <= |c.o.buf|) && Writes(d, e, r)
    ensures Writes(c, e, r)
  {
  }

  lemma WriteLeads(c: Conn, r: SendResult) returns (acts: seq<Action>)
    requires AtEase(c) && c.duty == NoDuty && c.todo != [] && c.todo[0] == OnWrite
    requires r.Sent? ==> 0 < r.n <= |c.o.buf|
    ensures c.pc == Free
    ensures var d := WriteReady(c.(todo := c.todo[1..]), r);
            && Ready(d, WouldBlock)
            && var e := Settle(d, WouldBlock);
               Leads(c, acts, e) && AtEase(e) && Writes(c, e, r) && e.todo == c.todo[1..]
  {
    EaseEnables(c);
    var d := c.(todo := c.todo[1..]);
    WriteSettles(d, r);
    HandleWriteStep(c, r);
    WriteReadyFields(d, r);
    hide Leads, WriteReady, Settle, EntryStep;
    acts := StepSettles(c, Enter(HandleWrite(r)), WouldBlock);
    SettledPlace(WriteReady(d, r), WouldBlock);
    WritesSame(c, d, Settle(WriteReady(d, r), WouldBlock), r);
  }

  class TcpConnection {
    const cfg: Config
    const input: BufferImpl.Buffer
    var st: State
    var reading: bool
    var writing: bool
    var readFlag: bool
    var out: seq<Byte>
    var tasks: seq<Task>
    var todo: seq<Handler>   // the handlers the event being dispatched still calls for
    var owes: bool           // handle_close has come to on_close_
    ghost var rest: Conn
    ghost var trace: seq<Action>

    ghost function View(): Conn
      reads this
    {
      rest.(st := st, reading := reading, writing := writing, ctl := rest.ctl.(flag := readFlag), tasks := tasks,
            todo := todo, duty := if owes then OweClose else NoDuty, o := rest.o.(buf := out), cfg := cfg)
    }

    /** The fields are those of r. */
    ghost predicate Shows(r: Conn)
      reads this
    {
      && st == r.st && reading == r.reading && writing == r.writing && readFlag == r.ctl.flag
      && out == r.o.buf && tasks == r.tasks && cfg == r.cfg
      && todo == r.todo && r.duty == if owes then OweClose else NoDuty
    }

    /** All that has happened to the object is a run of the machine, and no thread is inside its code. */
    ghost predicate Valid()
      reads this
    {
      && Runs(Initial(cfg), trace) && Run(Initial(cfg), trace) == View()
      && Inv(View()) && AtEase(View())
    }

    constructor (cfg: Config)
      ensures Valid() && View() == Initial(cfg) && trace == [] && this.cfg == cfg
      ensures fresh(input) && fresh(input.data) && input.Valid() && B.Content(input.View()) == []
    {
      this.cfg := cfg;
      input := new BufferImpl.Buffer(1024);
      st, reading, writing, readFlag := Connecting, false, false, true;
      out, tasks, todo, owes, rest, trace := [], [], [], false, Initial(cfg), [];
      new;
      FreshInv(Initial(cfg));
      NoSteps(Initial(cfg));
    }

    // The fields hold the result of some steps: record the rest of it

    ghost method RecordRun(before: Conn, acts: seq<Action>, after: Conn)
      requires Runs(Initial(cfg), trace) && Run(Initial(cfg), trace) == before
      requires Runs(before, acts) && Run(before, acts) == after && Shows(after) && AtEase(after)
      modifies this`rest, this`trace
      ensures Valid() && View() == after && trace == old(trace) + acts
    {
      hide Run, Runs, Inv;
      RunJoins(Initial(cfg), trace, acts);
      FreshInv(Initial(cfg));
      RunKeeps(Initial(cfg), trace + acts);
      rest, trace := after, trace + acts;
    }

    ghost method Record(before: Conn, acts: seq<Action>, after: Conn)
      requires Runs(Initial(cfg), trace) && Run(Initial(cfg), trace) == before
      requires Leads(before, acts, after) && Shows(after) && AtEase(after)
      modifies this`rest, this`trace
      ensures Valid() && View() == after && Follows(before, old(trace), after, trace)
    {
      hide Run, Runs, Inv;
      ghost var was := trace;
      RecordRun(before, acts, after);
      assert trace[|was|..] == acts;
    }

    // The lifecycle

    method ConnectionEstablished()
      requires Valid() && st == Connecting
      modifies this
      ensures Valid() && View() == InnerStep(EntryStep(old(View()), Establish), EstablishUp)
      ensures st == Connected && reading && View().registered && View().notes == old(View()).notes + [Up]
    {
      ghost var before := View();
      ghost var acts := EstablishRuns(before);
      hide Run, Runs, Inv;
      st := Connected;
      reading := true;
      RecordRun(before, acts, InnerStep(EntryStep(before, Establish), EstablishUp));
    }

    /** on_close_ has been called. */
    method OnClosed()
      requires Valid() && owes
      modifies this
      ensures Valid() && View() == InnerStep(old(View()), EmitClose)
      ensures !owes && View().notes == old(View()).notes + [S.Close]
    {
      ghost var before := View();
      EaseEnables(before);
      NoSteps(before);
      RunSnoc(before, [], Inside(EmitClose));
      hide Run, Runs, Inv;
      owes := false;
      RecordRun(before, [] + [Inside(EmitClose)], InnerStep(before, EmitClose));
    }

    /** In the server's protocol the connection is closed by now; at teardown it may be in any state. */
    method ConnectionDestroyed()
      modifies this
      ensures View() == DestroyOf(old(View()))
      ensures View().destroyed && !View().registered
      ensures if old(st) == Connected then
                st == Disconnected && !reading && !writing && View().notes == old(View()).notes + [Down]
              else
                st == old(st) && reading == old(reading) && writing == old(writing) && View().notes == old(View()).notes
      ensures old(Valid() && EntryEnabled(View(), Destroy)) ==>
                Valid() && st == Disconnected && !writing && (reading ==> View().ctl.late)
    {
      ghost var before := View();
      if st == Connected {
        st := Disconnected;
        reading, writing := false, false;
      }
      hide Run, Runs, Inv, EntryEnabled, AtEase;
      if old(Valid()) && EntryEnabled(before, Destroy) {
        DestroyRuns(before);
        RecordRun(before, [Enter(Destroy)], DestroyOf(before));
      } else {
        rest := DestroyOf(before);
      }
    }

    // Read control

    /** The functor of StartRead, open or closed. */
    method StartReadInLoop()
      requires Valid() && st != Connecting
      modifies this
      ensures Valid() && View() == EntryStep(old(View()), StartRead) && reading && readFlag
      ensures Follows(old(View()), old(trace), View(), trace)
    {
      ghost var before := View();
      EaseEnables(before);
      LeadsStep(before, Enter(StartRead));
      hide Run, Runs, Inv, Leads;
      if !readFlag || !reading {
        reading := true;
        readFlag := true;
      }
      Record(before, [Enter(StartRead)], StartReadOf(before));
    }

    /** The functor of StopRead, open or closed. */
    method StopReadInLoop()
      requires Valid() && st != Connecting
      modifies this
      ensures Valid() && View() == EntryStep(old(View()), StopRead) && !reading && !readFlag
      ensures Follows(old(View()), old(trace), View(), trace)
    {
      ghost var before := View();
      EaseEnables(before);
      LeadsStep(before, Enter(StopRead));
      hide Run, Runs, Inv, Leads;
      if readFlag || reading {
        reading := false;
        readFlag := false;
      }
      Record(before, [Enter(StopRead)], StopReadOf(before));
    }

    // The parts of the code that change the fields; c is the state they work on

    /** handle_close up to on_close_. */
    method Close(ghost c: Conn)
      requires Shows(c) && c.duty == NoDuty
      modifies this`st, this`reading, this`writing, this`owes
      ensures Shows(CloseOf(c))
    {
      if st == Connected || st == Disconnecting {
        st := Disconnected;
        reading, writing := false, false;
        owes := true;
      }
    }

    /** Add what is left of a message to the output buffer. */
    method BufferRest(left: seq<Byte>)
      modifies this`out, this`writing, this`tasks
      ensures out == old(out) + left && writing == (old(writing) || left != [])
      ensures tasks == old(tasks) + if cfg.wantsMark && |old(out)| < cfg.mark <= |out| then [HighWater(|out|)] else []
    {
      if |left| == 0 {
        return;
      }
      var len := |out| + |left|;
      if len >= cfg.mark && |out| < cfg.mark && cfg.wantsMark {
        tasks := tasks + [HighWater(len)];
      }
      out := out + left;
      writing := true;
    }

    /** send_in_loop after its check, up to the possible close. */
    method SendOrBuffer(ghost c: Conn, msg: seq<Byte>, result: SendResult) returns (fault: bool)
      requires Shows(c) && c.pc == SendChecked(msg) && (result.Sent? ==> result.n <= |msg|)
      modifies this`out, this`writing, this`tasks
      ensures Shows(SendRestOf(c, msg, result)) && fault == (SendRestOf(c, msg, result).pc == CloseTest)
    {
      SendRestFields(c, msg, result);
      SendRestUntouched(c, msg, result);
      hide SendRestOf, Crosses, SameLife;
      var left := msg;
      fault := false;
      if !writing && |out| == 0 {
        if result.Sent? {
          left := msg[result.n..];
          if |left| == 0 && cfg.wantsComplete {
            tasks := tasks + [WriteComplete];
          }
        } else if result == PeerGone {
          fault := true;
          left := [];
        }
      }
      BufferRest(left);
    }

    /** send_in_loop after its check. */
    method SendInLoop(ghost c: Conn, msg: seq<Byte>, result: SendResult)
      requires Shows(c) && Ready(c, result) && c.pc == SendChecked(msg)
      modifies this
      ensures Shows(Settle(c, result)) && rest == old(rest) && trace == old(trace)
    {
      hide CloseOf, SendRestOf;
      SendRestUntouched(c, msg, result);
      var fault := SendOrBuffer(c, msg, result);
      if fault {
        Close(SendRestOf(c, msg, result));
      }
    }

    // Events

    method Handlers(revents: Revents) returns (hs: seq<Handler>)
      ensures hs == Dispatch(revents)
    {
      hs := [];
      if revents.err {
        hs := hs + [OnError];
      }
      if (revents.hup || revents.rdhup) && !revents.readable {
        hs := hs + [OnClose];
      }
      if revents.readable || revents.pri || revents.rdhup {
        hs := hs + [OnRead];
      }
      if revents.writable {
        hs := hs + [OnWrite];
      }
    }

    /** Channel::HandleEvent: the handlers to call, in order. */
    method HandleEvent(revents: Revents)
      requires Valid() && !owes && todo == [] && View().registered
      modifies this
      ensures Valid() && View() == old(View()).(todo := Dispatch(revents))
      ensures OnError in todo <==> revents.err
      ensures OnClose in todo <==> (revents.hup || revents.rdhup) && !revents.readable
      ensures OnRead in todo <==> revents.readable || revents.pri || revents.rdhup
      ensures OnWrite in todo <==> revents.writable
      ensures forall i, j :: 0 <= i < j < |todo| ==> HandlerRank(todo[i]) < HandlerRank(todo[j])
      ensures Follows(old(View()), old(trace), View(), trace)
    {
      DispatchMeans(revents);
      hide Run, Runs, Inv, Leads, Dispatch;
      ghost var before := View();
      EaseEnables(before);
      LeadsStep(before, Enter(Polled(revents)));
      hide AtEase;
      todo := Handlers(revents);
      Record(before, [Enter(Polled(revents))], before.(todo := todo));
    }

    /** The handler at the head is done with; h is none that writes. */
    ghost method RecordHandler(before: Conn, read: ReadResult, after: Conn)
      requires Runs(Initial(cfg), trace) && Run(Initial(cfg), trace) == before
      requires AtEase(before) && before.duty == NoDuty && before.todo != [] && before.todo[0] != OnWrite
      requires var d, h := before.(todo := before.todo[1..]), before.todo[0];
               after == if h == OnClose || (h == OnRead && EndsReading(read)) then CloseOf(d) else d
      requires Shows(after)
      modifies this`rest, this`trace
      ensures Valid() && View() == after && Follows(before, old(trace), after, trace)
    {
      hide Run, Runs, Inv, Leads, Settle, EntryStep, EntryEnabled, Ready;
      HandlerSettles(before, before.todo[0], read);
      var acts := StepSettles(before, Enter(EntryFor(before.todo[0], read, WouldBlock)), WouldBlock);
      Record(before, acts, after);
    }

    /** handle_error only logs. */
    method HandleErrorEvent()
      requires Valid() && !owes && todo != [] && todo[0] == OnError
      modifies this
      ensures Valid() && View() == old(View()).(todo := old(todo)[1..])
      ensures Follows(old(View()), old(trace), View(), trace)
    {
      hide Run, Runs, Inv;
      ghost var before := View();
      todo := todo[1..];
      RecordHandler(before, Data, before.(todo := todo));
    }

    /** The close handler, called for a hang-up without data: an open connection is closed. */
    method HandleClose()
      requires Valid() && !owes && todo != [] && todo[0] == OnClose
      modifies this
      ensures Valid() && View() == CloseOf(old(View()).(todo := old(todo)[1..]))
      ensures if old(Open(View())) then Closes(old(View()), View()) else NoClose(old(View()), View())
      ensures Follows(old(View()), old(trace), View(), trace)
    {
      hide Run, Runs, Inv;
      ghost var before := View();
      todo := todo[1..];
      Close(before.(todo := todo));
      RecordHandler(before, Data, CloseOf(before.(todo := todo)));
    }

    /** handle_read once ReadFd has returned. */
    method FinishRead(kind: ReadResult)
      requires Valid() && !owes && todo != [] && todo[0] == OnRead
      modifies this
      ensures Valid() && todo == old(todo)[1..] && out == old(out) && tasks == old(tasks)
      ensures var ends := kind == EndOfStream || kind == ReadFailed;
              && View() == (var d := old(View()).(todo := old(todo)[1..]); if ends then CloseOf(d) else d)
              && if ends && old(Open(View())) then Closes(old(View()), View()) else NoClose(old(View()), View())
      ensures Follows(old(View()), old(trace), View(), trace)
    {
      hide Run, Runs, Inv, AtEase, CloseOf, Follows, Closes, NoClose;
      ghost var before := View();
      ghost var d := before.(todo := before.todo[1..]);
      CloseMeans(before, d);
      todo := todo[1..];
      if kind == EndOfStream || kind == ReadFailed {
        Close(d);
      }
      RecordHandler(before, kind, if EndsReading(kind) then CloseOf(d) else d);
    }

    /** The read handler: what readv delivered is in the input buffer; the end of the stream, and an error other than
        those to try again after, close an open connection. */
    method HandleRead(r: B.ReadResult, again: bool)
      requires Valid() && !owes && todo != [] && todo[0] == OnRead
      requires input.Valid() && B.ReadPossible(input.View(), r)
      modifies this, input, input.data
      ensures Valid() && todo == old(todo)[1..] && out == old(out) && tasks == old(tasks)
      ensures var ends := if r.ReadBytes? then r.bytes == [] else !again;
              && View() == (var d := old(View()).(todo := old(todo)[1..]); if ends then CloseOf(d) else d)
              && if ends && old(Open(View())) then Closes(old(View()), View()) else NoClose(old(View()), View())
      ensures input.Valid() && (fresh(input.data) || input.data == old(input.data))
      ensures B.Content(input.View()) == old(B.Content(input.View())) + if r.ReadBytes? then r.bytes else []
      ensures Follows(old(View()), old(trace), View(), trace)
    {
      hide Run, Runs, Inv, CloseOf, Closes, NoClose, Follows, B.Content, B.ReadFd, B.Valid, Valid;
      var n := input.ReadFd(r);
      FinishRead(if n > 0 then Data else if n == 0 then EndOfStream else if again then Retry else ReadFailed);
    }

    /** handle_write up to the test of the state, or to the possible close. */
    method SendBuffered(ghost c: Conn, result: SendResult)
      requires Shows(c) && c.pc == Free && (result.Sent? ==> 0 < result.n <= |c.o.buf|)
      modifies this`out, this`writing, this`tasks
      ensures Shows(WriteReady(c, result))
    {
      WriteReadyFields(c, result);
      hide WriteReady;
      if writing && result.Sent? {
        out := out[result.n..];
        if |out| == 0 {
          writing := false;
          if cfg.wantsComplete {
            tasks := tasks + [WriteComplete];
          }
        }
      }
    }

    method WriteInLoop(ghost c: Conn, result: SendResult)
      requires Shows(c) && c.pc == Free && c.duty == NoDuty && (result.Sent? ==> 0 < result.n <= |c.o.buf|)
      requires Ready(WriteReady(c, result), WouldBlock)
      modifies this
      ensures Shows(Settle(WriteReady(c, result), WouldBlock)) && rest == old(rest) && trace == old(trace)
    {
      WriteReadyFields(c, result);
      hide WriteReady;
      var wrote := writing;
      SendBuffered(c, result);
      if wrote && (result == PeerGone || result == OtherError) {
        Close(WriteReady(c, result));
      }
    }

    /** The write handler: what the kernel takes leaves the buffer; once the buffer is drained a connection that is
        shutting down is shut for writing; an error other than those to try again after closes the connection. */
    method HandleWrite(result: SendResult)
      requires Valid() && !owes && todo != [] && todo[0] == OnWrite
      requires result.Sent? ==> 0 < result.n <= |out|
      modifies this
      ensures Valid() && todo == old(todo)[1..] && Writes(old(View()), View(), result)
      ensures Follows(old(View()), old(trace), View(), trace)
    {
      hide Run, Runs, Inv, Leads, WriteReady, Settle, Writes, AtEase;
      ghost var before := View();
      ghost var d := before.(todo := before.todo[1..]);
      ghost var acts := WriteLeads(before, result);
      todo := todo[1..];
      WriteInLoop(d, result);
      Record(before, acts, Settle(WriteReady(d, result), WouldBlock));
    }

    // The interface

    /** The state of a thread inside a call is forgotten once the call is over. */
    ghost predicate SamePlace(p: Conn)
      reads this
    {
      todo == p.todo && View().registered == p.registered && View().destroyed == p.destroyed
    }

    /** On the loop's own thread: the state is tested once more, and the message goes out. */
    method SendHere(msg: seq<Byte>, result: SendResult)
      requires Valid() && st == Connected && (result.Sent? ==> result.n <= |msg|)
      modifies this
      ensures Valid() && SamePlace(old(View())) && Follows(old(View()), old(trace), View(), trace)
      ensures Delivers(old(View()), View(), msg, result) && rest.o.accepted == old(rest.o.accepted) + msg
    {
      hide Run, Runs, Inv, Leads, Settle, Delivers, AtEase;
      ghost var before := View();
      ghost var acts, d := SendLeads(before, msg, result);
      SendInLoop(d, msg, result);
      Record(before, acts, Settle(d, result));
    }

    /** On any other thread: a copy of the message is queued. */
    method SendLater(t: ThreadId, msg: seq<Byte>)
      requires Valid() && t != LOOP && st == Connected
      modifies this
      ensures Valid() && SamePlace(old(View())) && Follows(old(View()), old(trace), View(), trace)
      ensures tasks == old(tasks) + [SendTask(msg)] && View().o == old(View().o) && st == old(st) && owes == old(owes)
    {
      hide Run, Runs, Inv, Leads;
      ghost var before := View();
      EaseEnables(before);
      ghost var acts, d := QueueSendLeads(before, t, msg);
      tasks := tasks + [SendTask(msg)];
      Record(before, acts, d);
    }

    method Send(t: ThreadId, msg: seq<Byte>, result: SendResult)
      requires Valid() && (result.Sent? ==> result.n <= |msg|)
      modifies this
      ensures Valid() && SamePlace(old(View())) && Follows(old(View()), old(trace), View(), trace)
      ensures old(st) != Connected ==> View() == old(View())
      ensures old(st) == Connected && t != LOOP ==>
                tasks == old(tasks) + [SendTask(msg)] && View().o == old(View().o) && st == old(st) && owes == old(owes)
      ensures old(st) == Connected && t == LOOP ==>
                Delivers(old(View()), View(), msg, result) && rest.o.accepted == old(rest.o.accepted) + msg
    {
      hide Run, Runs, Inv, Leads, Delivers;
      if st != Connected {
        FollowsNothing(View(), trace);
        return;
      }
      if t == LOOP {
        SendHere(msg, result);
      } else {
        SendLater(t, msg);
      }
    }

    /** Shutdown from any thread: RunInLoop runs the functor at once on the loop's own thread. */
    method Shutdown(t: ThreadId)
      requires Valid()
      modifies this
      ensures Valid() && SamePlace(old(View())) && Follows(old(View()), old(trace), View(), trace)
      ensures st == (if old(st) == Connected then Disconnecting else old(st)) && owes == old(owes) && out == old(out)
      ensures old(st) != Connected ==> View() == old(View())
      ensures old(st) == Connected && t != LOOP ==> tasks == old(tasks) + [ShutdownTask] && View().o == old(View().o)
      ensures old(st) == Connected && t == LOOP ==>
                && tasks == old(tasks) && View().o.shutdownRan
                && View().o.wire == old(View().o.wire) + if old(writing) then [] else [WShut(Disconnecting, |out|)]
    {
      hide Run, Runs, Inv, Leads;
      ghost var before := View();
      if st != Connected {
        FollowsNothing(before, trace);
        return;
      }
      EaseEnables(before);
      ShutdownFields(before, t);
      ghost var acts := ShutdownLeads(before, t);
      hide ShutdownOf;
      st := Disconnecting;
      if t != LOOP {
        tasks := tasks + [ShutdownTask];
      }
      Record(before, acts, ShutdownOf(before, t));
    }

    /** ForceClose from any thread: the functor is queued even on the loop's own thread. */
    method ForceClose(t: ThreadId)
      requires Valid()
      modifies this
      ensures Valid() && SamePlace(old(View())) && Follows(old(View()), old(trace), View(), trace)
      ensures st == (if old(st) == Connected then Disconnecting else old(st)) && owes == old(owes)
      ensures tasks == if old(Open(View())) then old(tasks) + [ForceCloseTask] else old(tasks)
      ensures View().notes == old(View()).notes && View().o == old(View().o)
    {
      hide Run, Runs, Inv, Leads;
      hide AtEase;
      ghost var before := View();
      ghost var acts, d := ForceLeads(before, t);
      if st == Connected {
        st := Disconnecting;
      }
      if st == Disconnecting {
        tasks := tasks + [ForceCloseTask];
      }
      Record(before, acts, d);
    }

    /** The body of the functor taken up. */
    method RunBody(task: Task, ghost c: Conn, result: SendResult)
      requires Shows(c) && Ready(c, result) && BeginsTask(c, task)
      modifies this
      ensures Shows(Settle(c, result)) && rest == old(rest) && trace == old(trace)
    {
      hide SendRestOf;
      if task.SendTask? && st == Connected {
        SendInLoop(c, task.msg, result);
      } else if task == ForceCloseTask && (st == Connected || st == Disconnecting) {
        Close(c);
      }
    }

    /** The functor at the head of the queue: the connection's share of a pass over the pending functors. */
    method RunTask(result: SendResult)
      requires Valid() && !owes && todo == [] && tasks != []
      requires tasks[0].SendTask? && result.Sent? ==> result.n <= |tasks[0].msg|
      modifies this
      ensures Valid() && SamePlace(old(View())) && Follows(old(View()), old(trace), View(), trace)
      ensures RanTask(old(View()), View(), old(tasks)[0], result)
    {
      hide Run, Runs, Inv, Leads, RanTask, AtEase, Settle;
      ghost var before := View();
      ghost var acts, d := TaskLeads(before, result);
      var task := tasks[0];
      tasks := tasks[1..];
      RunBody(task, d, result);
      Record(before, acts, Settle(d, result));
    }
  }
}
