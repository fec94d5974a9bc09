/** One TCP connection, its loop thread and any number of other threads calling its interface, as interleaved atomic
    steps: every load, store and compare-and-swap of the connection state is a step of its own. Work the loop thread
    does between two of them on fields only it touches belongs to the step before. User callbacks may call the
    interface again; since they run between the steps of the code that calls them, they need no steps of their own. */
module ConnectionSpec {
  import opened ByteCodec

  type ThreadId = nat

  /** The thread of the connection's loop. */
  const LOOP: ThreadId := 0

  datatype State = Connecting | Connected | Disconnecting | Disconnected

  function Rank(s: State): nat {
    match s
    case Connecting => 0
    case Connected => 1
    case Disconnecting => 2
    case Disconnected => 3
  }

  /** ::send, by the cases the code tells apart: EAGAIN or EWOULDBLOCK, EINTR, EPIPE or ECONNRESET, anything else. */
  datatype SendResult = Sent(n: nat) | WouldBlock | Interrupted | PeerGone | OtherError

  /** Buffer::ReadFd on the socket: data, end of stream, EAGAIN or EINTR, another error. */
  datatype ReadResult = Data | EndOfStream | Retry | ReadFailed

  datatype Revents = Revents(err: bool, hup: bool, rdhup: bool, readable: bool, pri: bool, writable: bool)

  datatype Handler = OnError | OnClose | OnRead | OnWrite

  function Also(hs: seq<Handler>, called: bool, h: Handler): seq<Handler> {
    if called then hs + [h] else hs
  }

  /** Channel::HandleEvent: the handlers called for a set of events, in order. */
  function Dispatch(r: Revents): seq<Handler> {
    var error := Also([], r.err, OnError);
    var close := Also(error, (r.hup || r.rdhup) && !r.readable, OnClose);
    var read := Also(close, r.readable || r.pri || r.rdhup, OnRead);
    Also(read, r.writable, OnWrite)
  }

  function HandlerRank(h: Handler): nat {
    match h
    case OnError => 0
    case OnClose => 1
    case OnRead => 2
    case OnWrite => 3
  }

  ghost predicate InOrder(hs: seq<Handler>) {
    forall i, j :: 0 <= i < j < |hs| ==> HandlerRank(hs[i]) < HandlerRank(hs[j])
  }

  lemma OneMore(hs: seq<Handler>, called: bool, h: Handler)
    requires InOrder(hs) && forall x :: x in hs ==> HandlerRank(x) < HandlerRank(h)
    ensures var more := Also(hs, called, h);
            && InOrder(more) && (forall x :: x in more <==> x in hs || (called && x == h))
            && forall x :: x in more ==> HandlerRank(x) <= HandlerRank(h)
  {
  }

  lemma NoneCalled()
    ensures InOrder([])
  {
  }

  /** Each handler is called exactly for its events, at most once, errors first, then the close, reading and writing. */
  lemma DispatchMeans(r: Revents)
    ensures var hs := Dispatch(r);
            && (OnError in hs <==> r.err)
            && (OnClose in hs <==> (r.hup || r.rdhup) && !r.readable)
            && (OnRead in hs <==> r.readable || r.pri || r.rdhup)
            && (OnWrite in hs <==> r.writable)
            && InOrder(hs)
  {
    hide InOrder, Also;
    NoneCalled();
    OneMore([], r.err, OnError);
    var error := Also([], r.err, OnError);
    OneMore(error, (r.hup || r.rdhup) && !r.readable, OnClose);
    var close := Also(error, (r.hup || r.rdhup) && !r.readable, OnClose);
    OneMore(close, r.readable || r.pri || r.rdhup, OnRead);
    OneMore(Also(close, r.readable || r.pri || r.rdhup, OnRead), r.writable, OnWrite);
  }

  /** Functors of this connection queued on its loop. */
  datatype Task = SendTask(msg: seq<Byte>) | ShutdownTask | ForceCloseTask | WriteComplete | HighWater(len: nat)

  /** Where the loop thread stands inside the connection's code. */
  datatype LoopPc =
    | Free
    | EstablishNotify             // state stored, "up" not notified yet
    | SendChecked(msg: seq<Byte>) // send_in_loop found the state Connected
    | CloseTest                   // entering handle_close
    | CloseStore                  // handle_close found the connection open
    | ForceTest                   // the ForceClose functor's second load
    | WriteTest                   // handle_write drained the buffer and will load the state

  /** What handle_close still has to call. */
  datatype Duty = NoDuty | OweDown | OweClose

  /** Where a thread stands inside Send, Shutdown or ForceClose. */
  datatype ApiPc = ApiIdle | SendLoaded(msg: seq<Byte>) | ShutdownWon | ForceLost | ForceWon

  /** on_connection_ with the connection up or down, and on_close_. */
  datatype Note = Up | Down | Close

  /** What the socket was told: n bytes, or ShutdownWrite, with the state and the buffered bytes at that time. */
  datatype Wire = WSend(n: nat) | WShut(st: State, buffered: nat)

  /** The high-water mark, and which of the two optional callbacks are bound. */
  datatype Config = Config(mark: nat, wantsMark: bool, wantsComplete: bool)

  /** The output buffer, and history: bytes handed to the kernel, messages that passed the Connected check, bytes of a
      message abandoned because the peer was gone, socket calls, and whether the Shutdown functor has run. */
  datatype Output = Output(
    buf: seq<Byte>, kernel: seq<Byte>, accepted: seq<Byte>, dropped: seq<Byte>, wire: seq<Wire>, shutdownRan: bool)

  /** The flag StartRead and StopRead keep, and history: whether one of the two came too late, StartRead to a closed
      connection or StopRead to a destroyed one. */
  datatype ReadControl = ReadControl(flag: bool, late: bool)

  /** reading and writing are the channel's interest, registered its presence in the poller's map. notes is the history
      of notifications. */
  datatype Conn = Conn(
    st: State, pc: LoopPc, duty: Duty, todo: seq<Handler>,
    reading: bool, writing: bool, registered: bool, destroyed: bool, ctl: ReadControl,
    tasks: seq<Task>, api: map<ThreadId, ApiPc>, o: Output, notes: seq<Note>, cfg: Config)

  function Initial(cfg: Config): Conn {
    Conn(Connecting, Free, NoDuty, [], false, false, false, false, ReadControl(true, false),
         [], map[], Output([], [], [], [], [], false), [], cfg)
  }

  /** What the loop thread enters: lifecycle functors, event dispatch, handlers, queued functors, read control. */
  datatype Entry =
    | Establish                             // ConnectionEstablished up to the callback
    | Polled(revents: Revents)              // HandleEvent begins
    | HandleError
    | HandleClose
    | HandleRead(read: ReadResult)
    | HandleWrite(sent: SendResult)
    | RunTask
    | StartRead                             // its functor, queued or run at once
    | StopRead
    | Destroy                               // ConnectionDestroyed

  /** The steps by which it gets through what it entered. */
  datatype Inner =
    | EstablishUp
    | SendRest(result: SendResult)          // send_in_loop after its check
    | TestClose                             // handle_close's load
    | StoreClose                            // its store, and giving up all events
    | NotifyDown
    | EmitClose
    | TestForce
    | TestWrite

  /** The steps of the interface, open to every thread. */
  datatype Call =
    | Send(msg: seq<Byte>)                  // Send's own test
    | SendGo
    | Shutdown                              // the compare-and-swap
    | ShutdownGo
    | Force                                 // the compare-and-swap
    | ForceLoad
    | ForceGo

  datatype Action = Enter(entry: Entry) | Inside(inner: Inner) | By(t: ThreadId, call: Call)

  function Api(c: Conn, t: ThreadId): ApiPc {
    if t in c.api then c.api[t] else ApiIdle
  }

  predicate Open(c: Conn) {
    c.st == Connected || c.st == Disconnecting
  }

  predicate LoopFree(c: Conn) {
    c.pc == Free && Api(c, LOOP) == ApiIdle
  }

  predicate TopLevel(c: Conn) {
    LoopFree(c) && c.duty == NoDuty
  }

  predicate EntryEnabled(c: Conn, e: Entry) {
    match e
    case Establish => TopLevel(c) && c.st == Connecting
    case Polled(_) => TopLevel(c) && c.todo == [] && c.registered
    case HandleError => TopLevel(c) && c.todo != [] && c.todo[0] == OnError
    case HandleClose => TopLevel(c) && c.todo != [] && c.todo[0] == OnClose
    case HandleRead(_) => TopLevel(c) && c.todo != [] && c.todo[0] == OnRead
    case HandleWrite(r) => TopLevel(c) && c.todo != [] && c.todo[0] == OnWrite && (r.Sent? ==> 0 < r.n <= |c.o.buf|)
    case RunTask => TopLevel(c) && c.todo == [] && c.tasks != []
    case StartRead => LoopFree(c) && c.duty != OweDown && c.st != Connecting
    case StopRead => LoopFree(c) && c.duty != OweDown && c.st != Connecting
    case Destroy => TopLevel(c) && c.todo == [] && Close in c.notes && !c.destroyed
  }

  predicate InnerEnabled(c: Conn, i: Inner) {
    match i
    case EstablishUp => c.pc == EstablishNotify
    case SendRest(r) => c.pc.SendChecked? && (r.Sent? ==> r.n <= |c.pc.msg|)
    case TestClose => c.pc == CloseTest
    case StoreClose => c.pc == CloseStore
    case NotifyDown => LoopFree(c) && c.duty == OweDown
    case EmitClose => LoopFree(c) && c.duty == OweClose
    case TestForce => c.pc == ForceTest
    case TestWrite => c.pc == WriteTest
  }

  /** The loop thread calls the interface from user code only. */
  predicate CallEnabled(c: Conn, t: ThreadId, call: Call) {
    && (t == LOOP ==> c.pc == Free)
    && match call
       case SendGo => Api(c, t).SendLoaded?
       case ShutdownGo => Api(c, t) == ShutdownWon
       case ForceLoad => Api(c, t) == ForceLost
       case ForceGo => Api(c, t) == ForceWon
       case _ => Api(c, t) == ApiIdle
  }

  predicate Enabled(c: Conn, a: Action) {
    match a
    case Enter(e) => EntryEnabled(c, e)
    case Inside(i) => InnerEnabled(c, i)
    case By(t, call) => CallEnabled(c, t, call)
  }

  function At(c: Conn, t: ThreadId, pc: ApiPc): Conn {
    c.(api := c.api[t := pc])
  }

  function Queue(c: Conn, task: Task): Conn {
    c.(tasks := c.tasks + [task])
  }

  /** The check at the head of send_in_loop; a message is accepted when it passes. */
  function TestSend(c: Conn, msg: seq<Byte>): Conn {
    if c.st == Connected then c.(pc := SendChecked(msg), o := c.o.(accepted := c.o.accepted + msg)) else c
  }

  function ToKernel(o: Output, bytes: seq<Byte>): Output {
    o.(kernel := o.kernel + bytes, wire := o.wire + [WSend(|bytes|)])
  }

  predicate Crosses(cfg: Config, before: nat, after: nat) {
    cfg.wantsMark && before < cfg.mark <= after
  }

  /** Append the rest of a message, if any, with the high-water mark test before; queued are the functors so far. */
  function Enqueue(c: Conn, o: Output, rest: seq<Byte>, queued: seq<Task>): Conn {
    var len := |o.buf| + |rest|;
    c.(pc := Free, writing := c.writing || rest != [], o := o.(buf := o.buf + rest),
       tasks := c.tasks + queued + if Crosses(c.cfg, |o.buf|, len) then [HighWater(len)] else [])
  }

  /** send_in_loop after its check: send directly if nothing waits, then buffer what is left. */
  function SendRestOf(c: Conn, msg: seq<Byte>, r: SendResult): Conn
    requires r.Sent? ==> r.n <= |msg|
  {
    var direct := !c.writing && c.o.buf == [];
    if direct && r == PeerGone then
      c.(pc := CloseTest, o := c.o.(dropped := c.o.dropped + msg))
    else if direct && r.Sent? then
      Enqueue(c, ToKernel(c.o, msg[..r.n]), msg[r.n..],
              if r.n == |msg| && c.cfg.wantsComplete then [WriteComplete] else [])
    else
      Enqueue(c, c.o, msg, [])
  }

  function ShutdownWrite(c: Conn): Conn {
    c.(o := c.o.(wire := c.o.wire + [WShut(c.st, |c.o.buf|)]))
  }

  /** The Shutdown functor: pending output is left to handle_write. */
  function ShutdownBody(c: Conn): Conn {
    var d := c.(o := c.o.(shutdownRan := true));
    if !c.writing then ShutdownWrite(d) else d
  }

  function WriteReady(c: Conn, r: SendResult): Conn
    requires r.Sent? ==> 0 < r.n <= |c.o.buf|
  {
    if !c.writing || r == WouldBlock || r == Interrupted then c
    else if r.Sent? then
      var o := ToKernel(c.o, c.o.buf[..r.n]).(buf := c.o.buf[r.n..]);
      if r.n < |c.o.buf| then c.(o := o)
      else c.(o := o, writing := false, pc := WriteTest,
              tasks := c.tasks + if c.cfg.wantsComplete then [WriteComplete] else [])
    else c.(pc := CloseTest)
  }

  function RunTaskOf(c: Conn, task: Task): Conn
  {
    match task
    case SendTask(msg) => TestSend(c, msg)
    case ShutdownTask => ShutdownBody(c)
    case ForceCloseTask => c.(pc := if c.st == Connected then CloseTest else ForceTest)
    case _ => c
  }

  /** ConnectionDestroyed, whatever the state. */
  function DestroyOf(c: Conn): Conn
  {
    var d := if c.st == Connected then
               c.(st := Disconnected, reading := false, writing := false, notes := c.notes + [Down])
             else c;
    d.(registered := false, destroyed := true)
  }

  /** StartRead's functor. Neither of the two looks at the state. */
  function StartReadOf(c: Conn): Conn {
    if c.ctl.flag && c.reading then c
    else c.(reading := true, registered := true, ctl := ReadControl(true, c.ctl.late || c.st == Disconnected))
  }

  /** Updating the channel registers it, also when there is nothing left to ask for. */
  function StopReadOf(c: Conn): Conn {
    if !c.ctl.flag && !c.reading then c
    else c.(reading := false, registered := true, ctl := ReadControl(false, c.ctl.late || c.destroyed))
  }

  function EntryStep(c: Conn, e: Entry): (r: Conn)
    requires EntryEnabled(c, e)
    ensures Rank(r.st) >= Rank(c.st)
  {
    match e
    case Establish => c.(st := Connected, reading := true, registered := true, pc := EstablishNotify)
    case Polled(revents) => c.(todo := Dispatch(revents))
    case HandleError => c.(todo := c.todo[1..])
    case HandleClose => c.(todo := c.todo[1..], pc := CloseTest)
    case HandleRead(r) => c.(todo := c.todo[1..], pc := if r == EndOfStream || r == ReadFailed then CloseTest else Free)
    case HandleWrite(r) => WriteReady(c.(todo := c.todo[1..]), r)
    case RunTask => RunTaskOf(c.(tasks := c.tasks[1..]), c.tasks[0])
    case StartRead => StartReadOf(c)
    case StopRead => StopReadOf(c)
    case Destroy => DestroyOf(c)
  }

  function InnerStep(c: Conn, i: Inner): (r: Conn)
    requires InnerEnabled(c, i)
    ensures Rank(r.st) >= Rank(c.st)
  {
    match i
    case EstablishUp => c.(pc := Free, notes := c.notes + [Up])
    case SendRest(r) => SendRestOf(c, c.pc.msg, r)
    case TestClose => c.(pc := if Open(c) then CloseStore else Free)
    case StoreClose => c.(st := Disconnected, reading := false, writing := false, duty := OweDown, pc := Free)
    case NotifyDown => c.(duty := OweClose, notes := c.notes + [Down])
    case EmitClose => c.(duty := NoDuty, notes := c.notes + [Close])
    case TestForce => c.(pc := if c.st == Disconnecting then CloseTest else Free)
    case TestWrite => if c.st == Disconnecting then ShutdownWrite(c.(pc := Free)) else c.(pc := Free)
  }

  function CallStep(c: Conn, t: ThreadId, call: Call): (r: Conn)
    requires CallEnabled(c, t, call)
    ensures Rank(r.st) >= Rank(c.st)
  {
    match call
    case Send(msg) => if c.st == Connected then At(c, t, SendLoaded(msg)) else c
    case SendGo =>
      var d := At(c, t, ApiIdle);
      if t == LOOP then TestSend(d, Api(c, t).msg) else Queue(d, SendTask(Api(c, t).msg))
    case Shutdown => if c.st == Connected then At(c, t, ShutdownWon).(st := Disconnecting) else c
    case ShutdownGo =>
      var d := At(c, t, ApiIdle);
      if t == LOOP then ShutdownBody(d) else Queue(d, ShutdownTask)
    case Force => if c.st == Connected then At(c, t, ForceWon).(st := Disconnecting) else At(c, t, ForceLost)
    case ForceLoad => At(c, t, if c.st == Disconnecting then ForceWon else ApiIdle)
    case ForceGo => Queue(At(c, t, ApiIdle), ForceCloseTask)
  }

  function Step(c: Conn, a: Action): (r: Conn)
    requires Enabled(c, a)
    ensures Rank(r.st) >= Rank(c.st)
  {
    match a
    case Enter(e) => EntryStep(c, e)
    case Inside(i) => InnerStep(c, i)
    case By(t, call) => CallStep(c, t, call)
  }

  // Invariants

  /** The notifications so far are exactly those the state calls for. */
  ghost predicate Notified(c: Conn) {
    match c.st
    case Connecting =>
      && c.notes == [] && c.pc == Free && c.duty == NoDuty && !c.registered && !c.destroyed
      && c.todo == [] && c.tasks == [] && !c.ctl.late
    case Disconnected =>
      && c.pc in {Free, CloseTest, ForceTest}
      && c.notes == (match c.duty case OweDown => [Up] case OweClose => [Up, Down] case NoDuty => [Up, Down, Close])
      && (!c.destroyed ==> c.registered)
      && (c.destroyed ==> c.duty == NoDuty)
      && (c.destroyed && !c.ctl.late ==> !c.registered && c.todo == [])
    case _ =>
      && c.duty == NoDuty && c.registered && !c.destroyed && !c.ctl.late
      && c.notes == (if c.pc == EstablishNotify then [] else [Up])
      && (c.pc == ForceTest ==> c.st == Disconnecting)
  }

  /** Who won a race leaves its mark on the state. */
  ghost predicate Raced(c: Conn) {
    && (forall i :: 0 <= i < |c.tasks| ==> c.tasks[i] in {ShutdownTask, ForceCloseTask} ==> Rank(c.st) >= 2)
    && (forall t :: t in c.api ==> c.api[t] in {ShutdownWon, ForceWon} ==> Rank(c.st) >= 2)
    && (forall t :: t in c.api ==> c.api[t].SendLoaded? ==> Rank(c.st) >= 1)
  }

  /** The kernel is asked about writability exactly while there is output to write. */
  ghost predicate Interested(c: Conn) {
    && (Open(c) ==> (c.writing <==> c.o.buf != []))
    && (!Open(c) ==> !c.writing && (c.reading ==> c.ctl.late))
    && (c.st == Connecting ==> c.o.buf == [])
    && (c.pc == WriteTest ==> c.o.buf == [])
  }

  function InFlight(pc: LoopPc): seq<Byte> {
    if pc.SendChecked? then pc.msg else []
  }

  /** No byte of an accepted message is lost, repeated or reordered. */
  ghost predicate Conserved(c: Conn) {
    && c.o.kernel + c.o.buf + InFlight(c.pc) + c.o.dropped == c.o.accepted
    && (c.o.dropped != [] ==> c.pc in {CloseTest, CloseStore} || c.st == Disconnected)
    && (c.pc.SendChecked? ==> Open(c))
  }

  ghost predicate Shut(c: Conn) {
    c.o.wire != [] && c.o.wire[|c.o.wire| - 1].WShut?
  }

  /** Half-close: ShutdownWrite comes after the last byte, and does come. */
  ghost predicate HalfClosed(c: Conn) {
    && (Shut(c) || c.o.shutdownRan ==> Rank(c.st) >= 2 && !c.pc.SendChecked?)
    && (Shut(c) ==> !c.writing)
    && (c.o.shutdownRan && c.st == Disconnecting && !c.writing && c.pc != WriteTest ==> Shut(c))
    && (forall i, j :: 0 <= i < j < |c.o.wire| && c.o.wire[i].WShut? ==> c.o.wire[j].WShut?)
    && (forall i :: 0 <= i < |c.o.wire| && c.o.wire[i].WShut? && c.o.wire[i].st == Disconnecting ==>
          c.o.wire[i].buffered == 0)
  }

  ghost predicate Inv(c: Conn) {
    Notified(c) && Raced(c) && Interested(c) && Conserved(c) && HalfClosed(c)
  }

  // Every step keeps the invariant: first the pieces steps are made of

  ghost predicate TaskFits(c: Conn, task: Task) {
    Rank(c.st) >= if task in {ShutdownTask, ForceCloseTask} then 2 else 1
  }

  lemma QueueKeeps(c: Conn, task: Task)
    requires Inv(c) && TaskFits(c, task)
    ensures Inv(Queue(c, task))
  {
  }

  lemma PopKeeps(c: Conn)
    requires Inv(c) && c.tasks != []
    ensures Inv(c.(tasks := c.tasks[1..])) && TaskFits(c, c.tasks[0])
  {
  }

  lemma AtKeeps(c: Conn, t: ThreadId, pc: ApiPc)
    requires Inv(c)
    requires pc.SendLoaded? ==> Rank(c.st) >= 1
    requires pc in {ShutdownWon, ForceWon} ==> Rank(c.st) >= 2
    ensures Inv(At(c, t, pc))
  {
  }

  /** A compare-and-swap from Connected to Disconnecting, by any thread at any moment. */
  lemma ConcedeKeeps(c: Conn)
    requires Inv(c) && c.st == Connected
    ensures Inv(c.(st := Disconnecting))
  {
  }

  lemma TestSendKeeps(c: Conn, msg: seq<Byte>)
    requires Inv(c) && c.pc == Free
    ensures Inv(TestSend(c, msg))
  {
    if c.st == Connected {
      assert c.o.kernel + c.o.buf + [] + c.o.dropped == c.o.kernel + c.o.buf;
      assert c.o.kernel + c.o.buf + msg + c.o.dropped == c.o.accepted + msg;
    }
  }

  lemma ShutdownWriteKeeps(c: Conn)
    requires Inv(c) && Rank(c.st) >= 2 && !c.writing && !c.pc.SendChecked?
    ensures Inv(ShutdownWrite(c)) && Shut(ShutdownWrite(c))
  {
  }

  lemma ShutdownBodyKeeps(c: Conn)
    requires Inv(c) && c.pc == Free && Rank(c.st) >= 2
    ensures Inv(ShutdownBody(c))
  {
    if !c.writing {
      ShutdownWriteKeeps(c);
    }
  }

  lemma WireSend(c: Conn)
    requires HalfClosed(c) && !Shut(c)
    ensures forall i :: 0 <= i < |c.o.wire| ==> !c.o.wire[i].WShut?
  {
    var last := |c.o.wire| - 1;
    assert forall i :: 0 <= i < last ==> c.o.wire[i].WShut? ==> c.o.wire[last].WShut?;
  }

  lemma EnqueueInterested(c: Conn, o: Output, rest: seq<Byte>, queued: seq<Task>)
    requires Notified(c) && Raced(c) && Interested(c) && c.pc.SendChecked? && Open(c) && o.buf == c.o.buf
    requires queued == [] || queued == [WriteComplete]
    ensures var d := Enqueue(c, o, rest, queued); Notified(d) && Raced(d) && Interested(d)
  {
    assert c.o.buf + rest != [] <==> c.o.buf != [] || rest != [];
  }

  lemma EnqueueConserved(c: Conn, o: Output, rest: seq<Byte>, queued: seq<Task>)
    requires Conserved(c) && c.pc.SendChecked? && o.dropped == c.o.dropped && o.accepted == c.o.accepted
    requires o.kernel + o.buf + rest == c.o.kernel + c.o.buf + c.pc.msg
    ensures Conserved(Enqueue(c, o, rest, queued))
  {
    assert o.kernel + (o.buf + rest) + [] + o.dropped == o.kernel + o.buf + rest + o.dropped;
  }

  lemma EnqueueHalfClosed(c: Conn, o: Output, rest: seq<Byte>, queued: seq<Task>)
    requires HalfClosed(c) && c.pc.SendChecked? && o.shutdownRan == c.o.shutdownRan
    requires o.wire == c.o.wire || exists n :: o.wire == c.o.wire + [WSend(n)]
    ensures HalfClosed(Enqueue(c, o, rest, queued))
  {
    WireSend(c);
  }

  /** Buffering the rest of a message once n bytes of it have gone to the kernel, or none were tried. */
  lemma EnqueueKeeps(c: Conn, msg: seq<Byte>, n: nat, tried: bool, queued: seq<Task>)
    requires Inv(c) && c.pc == SendChecked(msg) && n <= |msg|
    requires if tried then !c.writing && c.o.buf == [] else n == 0
    requires queued == [] || queued == [WriteComplete]
    ensures Inv(Enqueue(c, if tried then ToKernel(c.o, msg[..n]) else c.o, msg[n..], queued))
  {
    assert Open(c);
    hide Notified, Raced, Interested, Conserved, HalfClosed, Enqueue;
    var o := if tried then ToKernel(c.o, msg[..n]) else c.o;
    assert o.kernel + o.buf + msg[n..] == c.o.kernel + c.o.buf + msg;
    EnqueueInterested(c, o, msg[n..], queued);
    EnqueueConserved(c, o, msg[n..], queued);
    EnqueueHalfClosed(c, o, msg[n..], queued);
  }

  lemma PeerGoneKeeps(c: Conn, msg: seq<Byte>)
    requires Inv(c) && c.pc == SendChecked(msg)
    ensures Inv(c.(pc := CloseTest, o := c.o.(dropped := c.o.dropped + msg)))
  {
    assert c.o.kernel + c.o.buf + [] + (c.o.dropped + msg) == c.o.kernel + c.o.buf + msg + c.o.dropped;
  }

  lemma SendRestKeeps(c: Conn, r: SendResult)
    requires Inv(c) && InnerEnabled(c, SendRest(r))
    ensures Inv(SendRestOf(c, c.pc.msg, r))
  {
    hide Notified, Raced, Interested, Conserved, HalfClosed, Enqueue;
    var msg := c.pc.msg;
    PeerGoneKeeps(c, msg);
    if !c.writing && c.o.buf == [] && r.Sent? {
      EnqueueKeeps(c, msg, r.n, true, if r.n == |msg| && c.cfg.wantsComplete then [WriteComplete] else []);
    } else {
      assert msg[0..] == msg;
      EnqueueKeeps(c, msg, 0, false, []);
    }
  }

  lemma WriteReadyKeeps(c: Conn, r: SendResult)
    requires Inv(c) && c.pc == Free && (r.Sent? ==> 0 < r.n <= |c.o.buf|)
    ensures Inv(WriteReady(c, r))
  {
    if c.writing && r.Sent? {
      WireSend(c);
      assert c.o.buf == c.o.buf[..r.n] + c.o.buf[r.n..];
      assert c.o.kernel + c.o.buf[..r.n] + c.o.buf[r.n..] + [] + c.o.dropped == c.o.kernel + c.o.buf + [] + c.o.dropped;
    }
  }

  lemma RunTaskKeeps(c: Conn)
    requires Inv(c) && EntryEnabled(c, RunTask)
    ensures Inv(EntryStep(c, RunTask))
  {
    PopKeeps(c);
    var d := c.(tasks := c.tasks[1..]);
    match c.tasks[0]
    case SendTask(msg) => TestSendKeeps(d, msg);
    case ShutdownTask => ShutdownBodyKeeps(d);
    case _ =>
  }

  lemma TodoKeeps(c: Conn)
    requires Inv(c) && c.todo != []
    ensures Inv(c.(todo := c.todo[1..]))
  {
  }

  lemma ReadControlKeeps(c: Conn)
    requires Inv(c) && c.st != Connecting
    ensures Inv(StartReadOf(c)) && Inv(StopReadOf(c))
  {
  }

  lemma DestroyKeeps(c: Conn)
    requires Inv(c) && EntryEnabled(c, Destroy)
    ensures Inv(DestroyOf(c))
  {
  }

  lemma EntryKeeps(c: Conn, e: Entry)
    requires Inv(c) && EntryEnabled(c, e)
    ensures Inv(EntryStep(c, e))
  {
    hide Dispatch, WriteReady, RunTaskOf, DestroyOf, StartReadOf, StopReadOf;
    match e
    case HandleWrite(r) =>
      TodoKeeps(c);
      WriteReadyKeeps(c.(todo := c.todo[1..]), r);
    case RunTask => RunTaskKeeps(c);
    case StartRead => ReadControlKeeps(c);
    case StopRead => ReadControlKeeps(c);
    case Destroy => DestroyKeeps(c);
    case _ =>
  }

  lemma TestWriteKeeps(c: Conn)
    requires Inv(c) && c.pc == WriteTest
    ensures Inv(InnerStep(c, TestWrite))
  {
  }

  lemma InnerKeeps(c: Conn, i: Inner)
    requires Inv(c) && InnerEnabled(c, i)
    ensures Inv(InnerStep(c, i))
  {
    hide SendRestOf;
    match i
    case SendRest(r) => SendRestKeeps(c, r);
    case TestWrite => TestWriteKeeps(c);
    case _ =>
  }

  lemma ApiStateFits(c: Conn, t: ThreadId)
    requires Inv(c)
    ensures Api(c, t) in {ShutdownWon, ForceWon} ==> Rank(c.st) >= 2
    ensures Api(c, t).SendLoaded? ==> Rank(c.st) >= 1
  {
  }

  lemma CallKeeps(c: Conn, t: ThreadId, call: Call)
    requires Inv(c) && CallEnabled(c, t, call)
    ensures Inv(CallStep(c, t, call))
  {
    ApiStateFits(c, t);
    hide Notified, Raced, Interested, Conserved, HalfClosed, TestSend, ShutdownBody;
    var d := At(c, t, ApiIdle);
    AtKeeps(c, t, ApiIdle);
    if c.st == Connected {
      ConcedeKeeps(c);
    }
    match call
    case Send(msg) => if c.st == Connected { AtKeeps(c, t, SendLoaded(msg)); }
    case SendGo =>
      var msg := Api(c, t).msg;
      if t == LOOP { TestSendKeeps(d, msg); } else { QueueKeeps(d, SendTask(msg)); }
    case Shutdown => if c.st == Connected { AtKeeps(c.(st := Disconnecting), t, ShutdownWon); }
    case ShutdownGo => if t == LOOP { ShutdownBodyKeeps(d); } else { QueueKeeps(d, ShutdownTask); }
    case Force =>
      if c.st == Connected { AtKeeps(c.(st := Disconnecting), t, ForceWon); } else { AtKeeps(c, t, ForceLost); }
    case ForceLoad => if c.st == Disconnecting { AtKeeps(c, t, ForceWon); }
    case ForceGo => QueueKeeps(d, ForceCloseTask);
  }

  lemma StepKeeps(c: Conn, a: Action)
    requires Inv(c) && Enabled(c, a)
    ensures Inv(Step(c, a))
  {
    hide Inv, EntryStep, InnerStep, CallStep;
    match a
    case Enter(e) => EntryKeeps(c, e);
    case Inside(i) => InnerKeeps(c, i);
    case By(t, call) => CallKeeps(c, t, call);
  }

  // Whole runs

  ghost predicate Runs(c: Conn, acts: seq<Action>)
    decreases |acts|
  {
    acts != [] ==> Enabled(c, acts[0]) && Runs(Step(c, acts[0]), acts[1..])
  }

  ghost function Run(c: Conn, acts: seq<Action>): Conn
    requires Runs(c, acts)
    decreases |acts|
  {
    if acts == [] then c else Run(Step(c, acts[0]), acts[1..])
  }

  lemma {:induction false} RunKeeps(c: Conn, acts: seq<Action>)
    requires Inv(c) && Runs(c, acts)
    ensures Inv(Run(c, acts))
    decreases |acts|
  {
    hide Step, Inv;
    if acts != [] {
      StepKeeps(c, acts[0]);
      RunKeeps(Step(c, acts[0]), acts[1..]);
    }
  }

  lemma NoSteps(c: Conn)
    ensures Runs(c, []) && Run(c, []) == c
  {
  }

  lemma {:induction false} RunSnoc(c: Conn, acts: seq<Action>, a: Action)
    requires Runs(c, acts) && Enabled(Run(c, acts), a)
    ensures Runs(c, acts + [a]) && Run(c, acts + [a]) == Step(Run(c, acts), a)
    decreases |acts|
  {
    hide Step, Enabled;
    if acts == [] {
      assert (acts + [a])[1..] == [];
      NoSteps(Step(c, a));
    } else {
      assert (acts + [a])[1..] == acts[1..] + [a];
      RunSnoc(Step(c, acts[0]), acts[1..], a);
    }
  }

  lemma {:induction false} RunJoins(c: Conn, first: seq<Action>, rest: seq<Action>)
    requires Runs(c, first) && Runs(Run(c, first), rest)
    ensures Runs(c, first + rest) && Run(c, first + rest) == Run(Run(c, first), rest)
    decreases |first|
  {
    hide Step, Enabled;
    if first == [] {
      assert first + rest == rest;
    } else {
      assert (first + rest)[1..] == first[1..] + rest;
      RunJoins(Step(c, first[0]), first[1..], rest);
    }
  }

  /** A connection as TcpServer creates it. */
  predicate Fresh(c: Conn) {
    c == Initial(c.cfg)
  }

  lemma FreshInv(c: Conn)
    requires Fresh(c)
    ensures Inv(c)
  {
  }

  lemma KernelIsPrefix(kernel: seq<Byte>, out: seq<Byte>, flight: seq<Byte>, dropped: seq<Byte>)
    ensures kernel <= kernel + out + flight + dropped
    ensures kernel + out + [] + [] == kernel + out
  {
    assert kernel + out + flight + dropped == kernel + (out + flight + dropped);
  }

  /** Outbound conservation: whatever mix of direct sends, partial writes, errors and closes, the accepted messages are
      the bytes the kernel has received, the output buffer, the message being sent and what was given up because the
      peer was gone, in this order; nothing is given up while the connection stays open. */
  lemma OutboundConservation(c: Conn, acts: seq<Action>)
    requires Fresh(c) && Runs(c, acts)
    ensures var r := Run(c, acts);
            && r.o.kernel <= r.o.accepted
            && r.o.kernel + r.o.buf + InFlight(r.pc) + r.o.dropped == r.o.accepted
            && (Open(r) && r.pc != CloseTest && r.pc != CloseStore ==> r.o.dropped == [])
            && (Open(r) && r.pc == Free ==> r.o.kernel + r.o.buf == r.o.accepted)
  {
    FreshInv(c);
    RunKeeps(c, acts);
    var r := Run(c, acts);
    hide Run, Runs, Notified, Raced, Interested, HalfClosed;
    KernelIsPrefix(r.o.kernel, r.o.buf, InFlight(r.pc), r.o.dropped);
  }

  /** Half-close safety: write interest follows the buffer; ShutdownWrite on an open connection finds the buffer empty;
      nothing is sent after it; and once the Shutdown functor has run it is issued as soon as nothing is left to
      write. */
  lemma HalfCloseSafety(c: Conn, acts: seq<Action>)
    requires Fresh(c) && Runs(c, acts)
    ensures var r := Run(c, acts);
            && (Open(r) ==> (r.writing <==> r.o.buf != []))
            && (forall i :: 0 <= i < |r.o.wire| && r.o.wire[i].WShut? && r.o.wire[i].st == Disconnecting ==>
                  r.o.wire[i].buffered == 0)
            && (forall i, j :: 0 <= i < j < |r.o.wire| && r.o.wire[i].WShut? ==> !r.o.wire[j].WSend?)
            && (r.o.shutdownRan && r.st == Disconnecting && r.o.buf == [] && r.pc != WriteTest ==>
                  exists i :: 0 <= i < |r.o.wire| && r.o.wire[i].WShut?)
  {
    FreshInv(c);
    RunKeeps(c, acts);
    hide Run, Runs, Raced, Notified, Conserved;
  }

  /** One "up", then at most one "down", then at most one on_close_, under every race and every set of events; and each
      has been given once the code that owes it is done. */
  lemma NotifiedInOrder(c: Conn, acts: seq<Action>)
    requires Fresh(c) && Runs(c, acts)
    ensures var r := Run(c, acts);
            && r.notes <= [Up, Down, Close]
            && (r.notes == [] <==> r.st == Connecting || r.pc == EstablishNotify)
            && (Down in r.notes <==> r.st == Disconnected && r.duty != OweDown)
            && (Close in r.notes <==> r.st == Disconnected && r.duty == NoDuty)
  {
    FreshInv(c);
    RunKeeps(c, acts);
    hide Run, Runs, Raced, Interested, Conserved, HalfClosed;
  }

  /** The state never moves backwards, although some writers store without looking. */
  lemma {:induction false} StateMovesForward(c: Conn, acts: seq<Action>)
    requires Runs(c, acts)
    ensures Rank(Run(c, acts).st) >= Rank(c.st)
    decreases |acts|
  {
    hide Step;
    if acts != [] {
      StateMovesForward(Step(c, acts[0]), acts[1..]);
    }
  }

  /** The poller holds the channel's raw pointer from the establishing to the destroying of the connection, and never
      again unless read control came too late. */
  lemma RegisteredWhile(c: Conn)
    requires Inv(c)
    ensures !c.destroyed ==> (c.registered <==> c.st != Connecting)
    ensures c.destroyed ==> Close in c.notes && c.duty == NoDuty
    ensures c.destroyed && !c.ctl.late ==> !c.registered && c.todo == []
    ensures Close in c.notes ==> c.st == Disconnected
    ensures c.st == Disconnected ==> !c.writing && (c.reading ==> c.ctl.late)
    ensures c.st == Connecting ==> c.notes == [] && c.todo == []
  {
  }

  // What the server looks at

  /** The steps the server's protocol drives or listens to. */
  predicate IsLifecycle(a: Action) {
    a == Enter(Establish) || a == Enter(Destroy) || a == Inside(EmitClose)
  }

  /** A connection just established and notified. */
  function Opened(cfg: Config): Conn {
    Initial(cfg).(st := Connected, reading := true, registered := true, notes := [Up])
  }

  const HANG_UP := Revents(false, true, false, false, false, false)
}
