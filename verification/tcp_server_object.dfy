/** The server object, its connection objects, and the functor queues and lists of polled channels of the loops. */
module ServerImpl {
  import C = ConnectionSpec
  import O = ConnectionImpl
  import opened S = ServerSpec

  // The operations as functions of the state, and as steps of the machine

  /** ConnectionEstablished goes on to the callback without a break. */
  function UpNow(s: Sys, c: ConnId): Sys {
    if c in s.conns && C.InnerEnabled(s.conns[c], C.EstablishUp) then
      SetConn(s, c, C.InnerStep(s.conns[c], C.EstablishUp))
    else s
  }

  function Welcomed(s: Sys, l: LoopId, cfg: C.Config): Sys {
    var r := AcceptNow(s, l, cfg);
    if l == BASE then UpNow(r, s.next) else r
  }

  /** A loop has run the functor at the head of its queue. */
  function Ran(s: Sys, l: LoopId): Sys {
    if Queue(s, l) != [] then RunTaskNow(s, l) else s
  }

  function ClosedNow(s: Sys, c: ConnId): Sys {
    if c in s.conns && c in s.home && C.InnerEnabled(s.conns[c], C.EmitClose) then CloseNow(s, c) else s
  }

  function Pushed(queues: map<LoopId, seq<Task>>, l: LoopId, t: Task): map<LoopId, seq<Task>> {
    queues[l := (if l in queues then queues[l] else []) + [t]]
  }

  function Popped(queues: map<LoopId, seq<Task>>, l: LoopId): map<LoopId, seq<Task>>
    requires l in queues && queues[l] != []
  {
    queues[l := queues[l][1..]]
  }

  /** These are the steps of the machine. */
  lemma RanIsStep(s: Sys, l: LoopId, c: ConnId)
    ensures Enabled(s, RunTask(l)) ==> Ran(s, l) == Step(s, RunTask(l))
    ensures Enabled(s, Action.Close(c)) ==> ClosedNow(s, c) == Step(s, Action.Close(c))
    ensures Enabled(s, Act(c, C.Inside(C.EstablishUp))) ==>
              UpNow(s, c) == Step(s, Act(c, C.Inside(C.EstablishUp)))
  {
    hide C.InnerStep, RunTaskNow, CloseNow;
  }

  // What the operations do to the server's fields and to the one connection they touch

  lemma PopFields(s: Sys, l: LoopId)
    requires Queue(s, l) != []
    ensures var p := Pop(s, l);
            && p.entries == s.entries && p.next == s.next && p.home == s.home && p.conns == s.conns
            && p.active == s.active && l in s.queues && s.queues[l] != [] && p.queues == Popped(s.queues, l)
  {
  }

  lemma PushQueues(s: Sys, l: LoopId, t: Task)
    ensures Push(s, l, t).queues == Pushed(s.queues, l, t)
  {
  }

  lemma UpFields(s: Sys, c: ConnId)
    requires c in s.conns && C.InnerEnabled(s.conns[c], C.EstablishUp)
    ensures UpNow(s, c) == s.(conns := s.conns[c := C.InnerStep(s.conns[c], C.EstablishUp)])
  {
    hide C.InnerStep, C.InnerEnabled;
  }

  lemma UpKeeps(s: Sys, c: ConnId)
    requires Inv(s)
    ensures Inv(UpNow(s, c))
  {
    hide Inv, C.InnerStep, C.InnerEnabled;
    if c in s.conns && C.InnerEnabled(s.conns[c], C.EstablishUp) {
      ConnStepKeeps(s, UpNow(s, c), c, C.Inside(C.EstablishUp));
    }
  }

  lemma EstablishThenUp(k: C.Conn)
    requires C.EntryEnabled(k, C.Establish)
    ensures C.InnerEnabled(C.EntryStep(k, C.Establish), C.EstablishUp)
  {
  }

  lemma NextIsNew(s: Sys)
    requires Inv(s)
    ensures s.next !in s.entries && s.next !in s.conns && s.next !in s.stages
  {
    hide Known, Count, Listed;
  }

  lemma TwiceUpdated(m: map<ConnId, C.Conn>, c: ConnId, k: C.Conn, k': C.Conn)
    ensures m[c := k][c := k'] == m[c := k']
  {
  }

  lemma AcceptOutside(s: Sys, l: LoopId, cfg: C.Config)
    requires Inv(s)
    ensures s.next !in s.entries && s.next !in s.conns
    ensures var r := Welcomed(s, l, cfg);
            && Inv(r) && r.entries == s.entries + {s.next} && r.next == s.next + 1 && r.home == s.home[s.next := l]
            && r.conns == s.conns[s.next := if l == BASE then C.Opened(cfg) else C.Initial(cfg)]
            && r.queues == (if l == BASE then s.queues else Pushed(s.queues, l, Establish(s.next)))
            && r.active == s.active
  {
    NextIsNew(s);
    OpeningSteps(cfg);
    hide Inv, Push, Pushed, AcceptNow, UpNow, Known, SameBut, C.EntryStep, C.EntryEnabled, C.Step, C.Enabled, AtRest;
    AcceptKeeps(s, l, cfg);
    AcceptFits(s, l, cfg);
    PushQueues(s, l, Establish(s.next));
    var r := AcceptNow(s, l, cfg);
    if l == BASE {
      UpKeeps(r, s.next);
      UpFields(r, s.next);
      TwiceUpdated(s.conns, s.next, r.conns[s.next], C.Opened(cfg));
    }
  }

  lemma RanFirst(s: Sys, l: LoopId)
    requires Queue(s, l) != []
    ensures match Queue(s, l)[0]
            case Establish(c) => Ran(s, l) == EstablishNow(Pop(s, l), c)
            case Remove(c) => Ran(s, l) == EraseNow(Pop(s, l), c)
            case Destroy(c) => Ran(s, l) == DestroyNow(Pop(s, l), c)
            case Control(c, start) => Ran(s, l) == ControlNow(Pop(s, l), c, start)
  {
  }

  lemma EstablishOutside(s: Sys, l: LoopId, c: ConnId)
    requires Inv(s) && Enabled(s, RunTask(l)) && Queue(s, l)[0] == Establish(c)
    ensures c in s.conns && s.conns[c].st == C.Connecting && l in s.queues && s.queues[l] != []
    ensures C.EntryEnabled(s.conns[c], C.Establish)
    ensures var r := UpNow(Ran(s, l), c);
            && Inv(r) && r.entries == s.entries && r.next == s.next && r.home == s.home && r.active == s.active
            && r.conns == s.conns[c := C.InnerStep(C.EntryStep(s.conns[c], C.Establish), C.EstablishUp)]
            && r.queues == Popped(s.queues, l)
  {
    HeadAsserts(s, l);
    HeadStage(s, l);
    hide Inv, Quiet, Known, Due, Pop, UpNow, EstablishNow, SameBut, C.Inv, C.EntryStep, C.EntryEnabled, C.InnerStep;
    hide C.InnerEnabled, C.TopLevel;
    RanFirst(s, l);
    hide Ran, RunTaskNow;
    PopFields(s, l);
    PopKnown(s, l, c);
    var p := Pop(s, l);
    EstablishFits(p, c);
    EstablishThenUp(p.conns[c]);
    var e := EstablishNow(p, c);
    RunEstablishKeeps(s, l, c);
    UpKeeps(e, c);
    UpFields(e, c);
    TwiceUpdated(s.conns, c, e.conns[c], C.InnerStep(e.conns[c], C.EstablishUp));
  }

  lemma CloseOutside(s: Sys, c: ConnId)
    requires Inv(s) && Enabled(s, Action.Close(c))
    ensures c in s.home && c in s.conns
    ensures var r := ClosedNow(s, c);
            && Inv(r) && r.next == s.next && r.home == s.home && r.active == s.active
            && r.conns == s.conns[c := C.InnerStep(s.conns[c], C.EmitClose)]
            && r.entries == (if s.home[c] == BASE then s.entries - {c} else s.entries)
            && r.queues == Pushed(s.queues, BASE, if s.home[c] == BASE then Destroy(c) else Remove(c))
  {
    assert Known(s, c);
    PushQueues(s, BASE, if s.home[c] == BASE then Destroy(c) else Remove(c));
    hide Inv, Push, Pushed, CloseNow, Known, SameBut, C.Inv, C.InnerStep, C.InnerEnabled;
    CloseKeeps(s, c);
    CloseFits(s, c);
  }

  lemma RemoveOutside(s: Sys, c: ConnId)
    requires Inv(s) && Enabled(s, RunTask(BASE)) && Queue(s, BASE)[0] == Remove(c)
    ensures c in s.home && c in s.entries && BASE in s.queues && s.queues[BASE] != []
    ensures var r := Ran(s, BASE);
            && Inv(r) && r.next == s.next && r.home == s.home && r.conns == s.conns && r.active == s.active
            && r.entries == s.entries - {c} && r.queues == Pushed(Popped(s.queues, BASE), s.home[c], Destroy(c))
  {
    HeadStage(s, BASE);
    StageIsKnown(s, c);
    hide Inv, Quiet, Known, Due, Pop, Push, Pushed, Popped, EraseNow, SameBut, C.Inv;
    PopFields(s, BASE);
    PopKnown(s, BASE, c);
    PopReached(s, BASE, c);
    EraseFits(Pop(s, BASE), c);
    PushQueues(Pop(s, BASE), s.home[c], Destroy(c));
    RunRemoveKeeps(s, BASE, c);
  }

  lemma DestroyOutside(s: Sys, l: LoopId, c: ConnId)
    requires Inv(s) && Enabled(s, RunTask(l)) && Queue(s, l)[0] == Destroy(c)
    ensures c in s.conns && C.EntryEnabled(s.conns[c], C.Destroy) && l in s.queues && s.queues[l] != []
    ensures var r := Ran(s, l);
            && Inv(r) && r.next == s.next && r.home == s.home && r.active == s.active
            && r.conns == s.conns[c := C.DestroyOf(s.conns[c])]
            && r.entries == s.entries && r.queues == Popped(s.queues, l)
  {
    HeadStage(s, l);
    hide Inv, Quiet, Known, Due, Pop, DestroyNow, SameBut, C.Inv, C.DestroyOf, C.EntryEnabled, C.TopLevel;
    PopFields(s, l);
    PopKnown(s, l, c);
    PopReached(s, l, c);
    DestroyFits(Pop(s, l), c);
    RunDestroyKeeps(s, l, c);
  }

  lemma HomeKnown(s: Sys, c: ConnId)
    requires Inv(s) && c in s.conns
    ensures c in s.home
  {
    assert Known(s, c);
  }

  lemma PollFields(s: Sys, l: LoopId, ready: seq<ConnId>)
    requires Enabled(s, Poll(l, ready))
    ensures Step(s, Poll(l, ready)) == s.(active := s.active[l := ready])
  {
    hide Quiet, AcceptNow, CloseNow, RunTaskNow, C.Step, C.Enabled, C.InnerEnabled;
  }

  lemma DispatchOutside(s: Sys, l: LoopId, c: ConnId, revents: C.Revents)
    requires Active(s, l) != [] && Active(s, l)[0] == c && Enabled(s, Dispatch(l, revents))
    requires c in s.conns && s.conns[c].registered && AtRest(s.conns[c])
    ensures var r := Step(s, Dispatch(l, revents));
            && r == s.(active := r.active, conns := s.conns[c := s.conns[c].(todo := C.Dispatch(revents))])
            && r.active == s.active[l := Active(s, l)[1..]]
  {
    hide Quiet, C.Dispatch, AcceptNow, CloseNow, RunTaskNow, C.Step, C.Enabled, C.InnerEnabled, C.InnerStep;
  }

  lemma MayAsk(s: Sys, c: ConnId, start: bool)
    requires c in s.conns && s.conns[c].st != C.Connecting && Inv(s)
    ensures c in s.home && Enabled(s, AskControl(c, start))
  {
    assert Known(s, c);
    hide Inv, Known, C.Enabled, C.InnerEnabled;
  }

  lemma AskFields(s: Sys, c: ConnId, start: bool)
    requires Enabled(s, AskControl(c, start))
    ensures Step(s, AskControl(c, start)) == s.(queues := Pushed(s.queues, s.home[c], Control(c, start)))
  {
    PushQueues(s, s.home[c], Control(c, start));
    hide AcceptNow, CloseNow, RunTaskNow, C.Step, C.Enabled, C.InnerEnabled;
  }

  lemma ControlOutside(s: Sys, l: LoopId, c: ConnId, start: bool)
    requires Queue(s, l) != [] && Queue(s, l)[0] == Control(c, start) && c in s.conns
    requires C.EntryEnabled(s.conns[c], ControlEntry(start)) && Enabled(s, RunTask(l)) && Inv(s)
    ensures l in s.queues && s.queues[l] != []
    ensures var r := Ran(s, l);
            && Inv(r) && r == s.(queues := r.queues, conns := r.conns) && r.queues == Popped(s.queues, l)
            && r.conns == s.conns[c := C.EntryStep(s.conns[c], ControlEntry(start))]
  {
    hide Inv, Quiet, C.EntryStep, C.EntryEnabled, Enabled;
    RunTaskKeeps(s, l);
  }

  /** Whatever a connection does on its own account leaves the server's invariant alone. */
  lemma {:induction false} ActedKeeps(s: Sys, c: ConnId, acts: seq<C.Action>, k: C.Conn)
    requires Inv(s) && c in s.conns && O.Leads(s.conns[c], acts, k)
    ensures Inv(SetConn(s, c, k))
    decreases |acts|
  {
    hide Inv, C.Step, C.Enabled;
    if acts == [] {
      assert s.conns[c := k] == s.conns;
    } else {
      var k' := C.Step(s.conns[c], acts[0]);
      ConnStepKeeps(s, SetConn(s, c, k'), c, acts[0]);
      ActedKeeps(SetConn(s, c, k'), c, acts[1..], k);
      TwiceUpdated(s.conns, c, k', k);
    }
  }

  // The states of connection objects

  ghost function States(held: map<ConnId, O.TcpConnection>): map<ConnId, C.Conn>
    reads held.Values
  {
    map c | c in held :: held[c].View()
  }

  /** Each connection is an object of its own. */
  ghost predicate Apart(held: map<ConnId, O.TcpConnection>) {
    forall c, d :: c in held && d in held && c != d ==> held[c] != held[d]
  }

  /** The entries of the map are among the objects held. */
  ghost predicate Entered(entries: map<ConnId, O.TcpConnection>, held: map<ConnId, O.TcpConnection>) {
    forall c :: c in entries ==> c in held && entries[c] == held[c]
  }

  lemma EnteredOneMore(entries: map<ConnId, O.TcpConnection>, held: map<ConnId, O.TcpConnection>, c: ConnId,
                       conn: O.TcpConnection)
    requires Entered(entries, held)
    ensures Entered(entries[c := conn], held[c := conn]) && entries[c := conn].Keys == entries.Keys + {c}
  {
  }

  lemma EnteredOneLess(entries: map<ConnId, O.TcpConnection>, held: map<ConnId, O.TcpConnection>, c: ConnId)
    requires Entered(entries, held)
    ensures Entered(entries - {c}, held) && (entries - {c}).Keys == entries.Keys - {c}
  {
  }

  ghost predicate AllValid(held: map<ConnId, O.TcpConnection>)
    reads held.Values
  {
    forall c :: c in held ==> held[c].Valid()
  }

  lemma StatesKeys(held: map<ConnId, O.TcpConnection>)
    ensures States(held).Keys == held.Keys
    ensures forall c :: c in held ==> States(held)[c] == held[c].View()
  {
  }

  lemma StateShown(conn: O.TcpConnection)
    ensures conn.View().st == conn.st
  {
  }

  lemma StatesAdd(held: map<ConnId, O.TcpConnection>, c: ConnId, conn: O.TcpConnection)
    ensures States(held[c := conn]) == States(held)[c := conn.View()]
  {
  }

  lemma NewIsApart(held: map<ConnId, O.TcpConnection>, c: ConnId, conn: O.TcpConnection)
    requires Apart(held) && AllValid(held) && conn !in held.Values && conn.Valid()
    ensures Apart(held[c := conn]) && AllValid(held[c := conn])
  {
    hide O.TcpConnection.Valid;
  }

  lemma OneChanged(before: map<ConnId, C.Conn>, now: map<ConnId, C.Conn>, c: ConnId)
    requires now.Keys == before.Keys && c in now && forall d :: d in now && d != c ==> now[d] == before[d]
    ensures now == before[c := now[c]]
  {
  }

  class TcpServer {
    var connections: map<ConnId, O.TcpConnection>
    var held: map<ConnId, O.TcpConnection>    // what the shared pointers of the map and the functors lead to
    var nextConnId: ConnId
    var ioLoops: map<ConnId, LoopId>
    var queues: map<LoopId, seq<Task>>
    var active: map<LoopId, seq<ConnId>>
    ghost var rest: Sys                       // the history

    ghost function View(): Sys
      reads this, held.Values
    {
      rest.(entries := connections.Keys, next := nextConnId, home := ioLoops, queues := queues, active := active,
            conns := States(held))
    }

    ghost predicate Valid()
      reads this, held.Values
    {
      Inv(View()) && Apart(held) && AllValid(held) && Entered(connections, held)
    }

    lemma Open()
      requires Valid()
      ensures Inv(View()) && Apart(held) && AllValid(held) && Entered(connections, held)
      ensures var s := View();
              && connections.Keys == s.entries && nextConnId == s.next && ioLoops == s.home && queues == s.queues
              && active == s.active && States(held) == s.conns
    {
      hide Inv, States, Apart, AllValid, Entered;
    }

    /** The fields agree with a state of the machine. */
    lemma Agree(s: Sys)
      requires connections.Keys == s.entries && nextConnId == s.next && ioLoops == s.home && queues == s.queues
      requires active == s.active && States(held) == s.conns && rest == s
      requires Inv(s) && Apart(held) && AllValid(held) && Entered(connections, held)
      ensures Valid() && View() == s
    {
      hide Inv, States, Apart, AllValid, Entered;
    }

    constructor ()
      ensures Valid() && View() == EMPTY && held == map[]
    {
      connections, held, nextConnId, ioLoops, queues, active := map[], map[], 0, map[], map[], map[];
      rest := EMPTY;
      new;
      Reachable([]);
      assert View() == EMPTY;
    }

    // What happens to the objects held

    /** The object of a new connection, established if up is set. */
    method MakeOne(cfg: C.Config, up: bool) returns (conn: O.TcpConnection)
      ensures fresh(conn) && conn.Valid() && conn.View() == if up then C.Opened(cfg) else C.Initial(cfg)
    {
      OpeningSteps(cfg);
      hide C.Inv, C.EntryEnabled, C.EntryStep, C.Run, C.Runs;
      conn := new O.TcpConnection(cfg);
      if up {
        conn.ConnectionEstablished();
      }
    }

    method Make(c: ConnId, cfg: C.Config, up: bool) returns (conn: O.TcpConnection)
      requires Apart(held) && AllValid(held) && c !in held
      modifies this`held
      ensures fresh(conn) && held == old(held)[c := conn] && Apart(held) && AllValid(held)
      ensures conn.View() == if up then C.Opened(cfg) else C.Initial(cfg)
      ensures States(held) == old(States(held))[c := conn.View()]
    {
      hide C.Opened, C.Initial, States, Apart, AllValid, O.TcpConnection.View, O.TcpConnection.Valid;
      conn := MakeOne(cfg, up);
      NewIsApart(held, c, conn);
      StatesAdd(held, c, conn);
      held := held[c := conn];
    }

    method EstablishHeld(c: ConnId)
      requires Apart(held) && AllValid(held) && c in held && held[c].View().st == C.Connecting
      modifies held[c]
      ensures unchanged(this) && AllValid(held)
      ensures C.EntryEnabled(old(held[c].View()), C.Establish) ==>
                States(held)
                == old(States(held))[c := C.InnerStep(C.EntryStep(old(held[c].View()), C.Establish), C.EstablishUp)]
    {
      hide C.Inv, C.EntryEnabled, C.EntryStep, C.InnerStep, C.Run, C.Runs;
      held[c].ConnectionEstablished();
      OneChanged(old(States(held)), States(held), c);
    }

    method DestroyHeld(c: ConnId)
      requires Apart(held) && AllValid(held) && c in held && C.EntryEnabled(held[c].View(), C.Destroy)
      modifies held[c]
      ensures unchanged(this) && AllValid(held)
      ensures States(held) == old(States(held))[c := C.DestroyOf(old(held[c].View()))]
    {
      hide C.Inv, C.DestroyOf, C.EntryEnabled, C.Run, C.Runs;
      held[c].ConnectionDestroyed();
      OneChanged(old(States(held)), States(held), c);
    }

    method CloseHeld(c: ConnId)
      requires Apart(held) && AllValid(held) && c in held && held[c].owes
      requires C.InnerEnabled(held[c].View(), C.EmitClose)
      modifies held[c]
      ensures unchanged(this) && AllValid(held)
      ensures States(held) == old(States(held))[c := C.InnerStep(old(held[c].View()), C.EmitClose)]
    {
      hide C.Inv, C.Run, C.Runs, C.InnerStep, C.InnerEnabled, O.AtEase;
      held[c].OnClosed();
      OneChanged(old(States(held)), States(held), c);
    }

    method DispatchHeld(c: ConnId, revents: C.Revents)
      requires Apart(held) && AllValid(held) && c in held && held[c].View().registered && AtRest(held[c].View())
      modifies held[c]
      ensures unchanged(this) && AllValid(held)
      ensures States(held) == old(States(held))[c := old(held[c].View()).(todo := C.Dispatch(revents))]
      ensures held[c].todo == C.Dispatch(revents)
    {
      hide C.Inv, C.Run, C.Runs, C.Dispatch;
      held[c].HandleEvent(revents);
      OneChanged(old(States(held)), States(held), c);
    }

    method ControlHeld(c: ConnId, start: bool)
      requires Apart(held) && AllValid(held) && c in held && held[c].st != C.Connecting
      requires C.EntryEnabled(held[c].View(), ControlEntry(start))
      modifies held[c]
      ensures unchanged(this) && AllValid(held)
      ensures States(held) == old(States(held))[c := C.EntryStep(old(held[c].View()), ControlEntry(start))]
      ensures held[c].reading == start && held[c].readFlag == start
    {
      hide C.Inv, C.Run, C.Runs, C.EntryStep, C.EntryEnabled, O.AtEase;
      if start {
        held[c].StartReadInLoop();
      } else {
        held[c].StopReadInLoop();
      }
      OneChanged(old(States(held)), States(held), c);
    }

    // The operations

    method QueueInLoop(l: LoopId, t: Task)
      modifies this`queues
      ensures queues == Pushed(old(queues), l, t)
    {
      queues := queues[l := (if l in queues then queues[l] else []) + [t]];
    }

    method PopQueue(l: LoopId)
      requires l in queues && queues[l] != []
      modifies this`queues
      ensures queues == Popped(old(queues), l)
    {
      queues := queues[l := queues[l][1..]];
    }

    /** Enter a connection in the map, and have it established on its loop if that is another one. */
    method Enter(conn: O.TcpConnection, l: LoopId)
      modifies this`nextConnId, this`connections, this`ioLoops, this`queues
      ensures var c := old(nextConnId);
              && nextConnId == c + 1 && ioLoops == old(ioLoops)[c := l]
              && connections == old(connections)[c := conn] && connections.Keys == old(connections).Keys + {c}
              && queues == if l == BASE then old(queues) else Pushed(old(queues), l, Establish(c))
    {
      var c := nextConnId;
      if l != BASE {
        QueueInLoop(l, Establish(c));
      }
      nextConnId := nextConnId + 1;
      connections := connections[c := conn];
      ioLoops := ioLoops[c := l];
    }

    /** Called on the base loop for a socket just accepted. */
    method NewConnection(l: LoopId, cfg: C.Config) returns (conn: O.TcpConnection)
      requires Valid()
      modifies this
      ensures Valid() && View() == Welcomed(old(View()), l, cfg)
      ensures var c := old(nextConnId);
              && c !in old(connections) && connections == old(connections)[c := conn] && fresh(conn)
              && held == old(held)[c := conn] && ioLoops == old(ioLoops)[c := l] && nextConnId == c + 1
              && queues == (if l == BASE then old(queues) else Pushed(old(queues), l, Establish(c)))
              && conn.View() == if l == BASE then C.Opened(cfg) else C.Initial(cfg)
    {
      hide Inv, Welcomed, Pushed, Queue, States, Apart, AllValid, Entered, Valid, View, O.TcpConnection.View;
      hide C.Opened, C.Initial;
      ghost var before, entries, others := View(), connections, held;
      Open();
      AcceptOutside(before, l, cfg);
      StatesKeys(held);
      conn := Make(nextConnId, cfg, l == BASE);
      EnteredOneMore(entries, others, nextConnId, conn);
      Enter(conn, l);
      rest := Welcomed(before, l, cfg);
      Agree(rest);
    }

    /** It is the turn of the given functor of a loop. */
    ghost predicate HasTurn(l: LoopId, t: Task)
      reads this, held.Values
    {
      Queue(View(), l) != [] && Queue(View(), l)[0] == t && Valid() && Enabled(View(), RunTask(l))
    }

    /** The functor new_connection queued on the connection's loop. */
    method EstablishInLoop(l: LoopId, c: ConnId)
      requires HasTurn(l, Establish(c)) && c in held
      modifies this, held[c]
      ensures Valid() && held == old(held) && connections == old(connections)
      ensures View() == UpNow(Ran(old(View()), l), c)
    {
      hide Inv, Ran, UpNow, Popped, Quiet, Active, C.EntryStep, C.InnerStep, C.EntryEnabled, States, Apart, AllValid;
      hide Entered, Valid, View, Enabled, O.TcpConnection.View;
      ghost var before := View();
      Open();
      EstablishOutside(before, l, c);
      StatesKeys(held);
      PopQueue(l);
      EstablishHeld(c);
      rest := UpNow(Ran(before, l), c);
      Agree(rest);
    }

    /** A loop's poll has returned. */
    method PollReturn(l: LoopId, ready: seq<ConnId>)
      requires Valid() && Enabled(View(), Poll(l, ready))
      modifies this`active, this`rest
      ensures Valid() && View() == Step(old(View()), Poll(l, ready)) && active == old(active)[l := ready]
    {
      hide Inv, Step, Enabled, States, Apart, AllValid, Entered, Valid, View, O.TcpConnection.View;
      ghost var before := View();
      Open();
      StepKeeps(before, Poll(l, ready));
      PollFields(before, l, ready);
      active := active[l := ready];
      rest := Step(before, Poll(l, ready));
      Agree(rest);
    }

    /** The loop comes to the next of the channels polled. */
    method DispatchNext(l: LoopId, c: ConnId, revents: C.Revents)
      requires Active(View(), l) != [] && Active(View(), l)[0] == c && c in held && Valid() && Quiet(View(), l)
      modifies this, held[c]
      ensures Valid() && held == old(held) && connections == old(connections)
      ensures Enabled(old(View()), Dispatch(l, revents)) && View() == Step(old(View()), Dispatch(l, revents))
      ensures l in old(active) && active == old(active)[l := old(active)[l][1..]]
      ensures held[c].todo == C.Dispatch(revents)
    {
      hide Inv, Quiet, Step, Enabled, States, Apart, AllValid, AtRest, Entered, Valid, View, C.Dispatch;
      hide O.TcpConnection.View;
      ghost var before := View();
      Open();
      DispatchReady(before, l, c, revents);
      DispatchOutside(before, l, c, revents);
      StepKeeps(before, Dispatch(l, revents));
      StatesKeys(held);
      active := active[l := active[l][1..]];
      DispatchHeld(c, revents);
      rest := Step(before, Dispatch(l, revents));
      Agree(rest);
    }

    /** StartRead and StopRead, from any thread, for a connection that has been up. */
    method AskControl(c: ConnId, start: bool)
      requires Valid() && c in held && held[c].st != C.Connecting
      modifies this
      ensures Valid() && held == old(held) && connections == old(connections)
      ensures Enabled(old(View()), Action.AskControl(c, start))
      ensures View() == Step(old(View()), Action.AskControl(c, start))
      ensures c in ioLoops && queues == Pushed(old(queues), ioLoops[c], Control(c, start))
    {
      hide Inv, Step, Enabled, Pushed, Queue, States, Apart, AllValid, Entered, Valid, View, O.TcpConnection.View;
      ghost var before := View();
      Open();
      StatesKeys(held);
      StateShown(held[c]);
      MayAsk(before, c, start);
      StepKeeps(before, Action.AskControl(c, start));
      AskFields(before, c, start);
      QueueInLoop(ioLoops[c], Control(c, start));
      rest := Step(before, Action.AskControl(c, start));
      Agree(rest);
    }

    lemma EaseControls(c: ConnId, start: bool)
      requires c in held && AllValid(held) && held[c].st != C.Connecting
      ensures C.EntryEnabled(held[c].View(), ControlEntry(start))
    {
      assert held[c].Valid();
      O.EaseEnables(held[c].View());
    }

    /** Their functors. */
    method ControlInLoop(l: LoopId, c: ConnId, start: bool)
      requires HasTurn(l, Control(c, start)) && c in held && held[c].st != C.Connecting
      modifies this, held[c]
      ensures Valid() && held == old(held) && connections == old(connections) && View() == Ran(old(View()), l)
      ensures held[c].reading == start && held[c].readFlag == start
    {
      hide Inv, Ran, Popped, Quiet, Active, C.EntryStep, C.EntryEnabled, States, Apart, AllValid, Entered, Valid;
      hide View, O.TcpConnection.View, Enabled;
      ghost var before := View();
      Open();
      StatesKeys(held);
      EaseControls(c, start);
      ControlOutside(before, l, c, start);
      PopQueue(l);
      ControlHeld(c, start);
      rest := Ran(before, l);
      Agree(rest);
    }

    /** A connection has acted on its own account, on whatever thread: the server is as valid as before. */
    lemma Acted(before: Sys, c: ConnId, was: seq<C.Action>)
      requires Inv(before) && c in before.conns && c in held && Apart(held) && AllValid(held)
      requires Entered(connections, held)
      requires View() == before.(conns := View().conns) && before.conns.Keys == held.Keys
      requires forall d :: d in held && d != c ==> held[d].View() == before.conns[d]
      requires O.Follows(before.conns[c], was, held[c].View(), held[c].trace)
      ensures Valid()
    {
      hide Inv, O.Leads, States, O.TcpConnection.View;
      StatesKeys(held);
      OneChanged(before.conns, States(held), c);
      ActedKeeps(before, c, held[c].trace[|was|..], held[c].View());
    }

    /** RunInLoop of the functor that erases the entry: at once on the base loop, queued otherwise. */
    method AskRemoval(c: ConnId)
      requires c in ioLoops
      modifies this`connections, this`queues
      ensures connections == (if ioLoops[c] == BASE then old(connections) - {c} else old(connections))
      ensures connections.Keys == if ioLoops[c] == BASE then old(connections.Keys) - {c} else old(connections.Keys)
      ensures queues == Pushed(old(queues), BASE, if ioLoops[c] == BASE then Destroy(c) else Remove(c))
    {
      if ioLoops[c] == BASE {
        connections := connections - {c};
        QueueInLoop(BASE, Destroy(c));
      } else {
        QueueInLoop(BASE, Remove(c));
      }
    }

    lemma OwingMayClose(c: ConnId)
      requires Valid() && c in held && held[c].owes
      ensures Enabled(View(), Action.Close(c)) && C.InnerEnabled(held[c].View(), C.EmitClose)
    {
      StatesKeys(held);
      assert held[c].Valid();
      O.EaseEnables(held[c].View());
    }

    /** on_close_ and its removal of the connection, as far as the fields go. */
    method CloseAndRemove(c: ConnId)
      requires Apart(held) && AllValid(held) && c in held && held[c].owes && c in ioLoops
      requires C.InnerEnabled(held[c].View(), C.EmitClose)
      modifies this`connections, this`queues, held[c]
      ensures connections == (if ioLoops[c] == BASE then old(connections) - {c} else old(connections))
      ensures connections.Keys == if ioLoops[c] == BASE then old(connections.Keys) - {c} else old(connections.Keys)
      ensures queues == Pushed(old(queues), BASE, if ioLoops[c] == BASE then Destroy(c) else Remove(c))
      ensures unchanged(`nextConnId, `ioLoops, `held, `active) && AllValid(held)
      ensures States(held) == old(States(held))[c := C.InnerStep(old(held[c].View()), C.EmitClose)]
    {
      hide C.InnerStep, C.InnerEnabled, States, Apart, AllValid, Pushed, O.TcpConnection.View;
      AskRemoval(c);
      CloseHeld(c);
    }

    lemma ClosedAgree(s: Sys, c: ConnId)
      requires Inv(s) && Enabled(s, Action.Close(c)) && c in s.home && c in s.conns && rest == ClosedNow(s, c)
      requires connections.Keys == (if s.home[c] == BASE then s.entries - {c} else s.entries)
      requires nextConnId == s.next && ioLoops == s.home && active == s.active
      requires queues == Pushed(s.queues, BASE, if s.home[c] == BASE then Destroy(c) else Remove(c))
      requires C.InnerEnabled(s.conns[c], C.EmitClose)
      requires States(held) == s.conns[c := C.InnerStep(s.conns[c], C.EmitClose)]
      requires Apart(held) && AllValid(held) && Entered(connections, held)
      ensures Valid() && View() == ClosedNow(s, c)
    {
      hide Inv, Enabled, ClosedNow, Pushed, C.InnerStep, C.InnerEnabled, States, Apart, AllValid, Entered, Valid, View;
      CloseOutside(s, c);
      Agree(rest);
    }

    /** remove_connection: what handle_close calls as on_close_, on the connection's own loop. */
    method RemoveConnection(c: ConnId)
      requires Valid() && c in held && held[c].owes
      modifies this, held[c]
      ensures Valid() && held == old(held)
      ensures Enabled(old(View()), Action.Close(c)) && View() == ClosedNow(old(View()), c)
      ensures c in ioLoops && connections == if ioLoops[c] == BASE then old(connections) - {c} else old(connections)
    {
      hide Inv, ClosedNow, Pushed, Queue, C.InnerStep, C.InnerEnabled, States, Apart, AllValid, Entered, Valid, View;
      hide O.TcpConnection.View, Enabled;
      ghost var before := View();
      Open();
      StatesKeys(held);
      EnteredOneLess(connections, held, c);
      OwingMayClose(c);
      HomeKnown(before, c);
      CloseAndRemove(c);
      rest := ClosedNow(before, c);
      ClosedAgree(before, c);
    }

    /** The functor remove_connection queued on the base loop. */
    method RemoveInLoop(c: ConnId)
      requires HasTurn(BASE, Remove(c))
      modifies this
      ensures Valid() && held == old(held) && View() == Ran(old(View()), BASE)
      ensures c in old(connections) && connections == old(connections) - {c}
    {
      hide Inv, Ran, Pushed, Popped, Quiet, Active, States, Apart, AllValid, Entered, Valid, View, Enabled;
      hide O.TcpConnection.View;
      ghost var before := View();
      Open();
      RemoveOutside(before, c);
      EnteredOneLess(connections, held, c);
      PopQueue(BASE);
      connections := connections - {c};
      QueueInLoop(ioLoops[c], Destroy(c));
      rest := Ran(before, BASE);
      Agree(rest);
    }

    /** The functor RemoveInLoop queued on the connection's loop. */
    method DestroyInLoop(l: LoopId, c: ConnId)
      requires HasTurn(l, Destroy(c)) && c in held
      modifies this, held[c]
      ensures Valid() && held == old(held) && connections == old(connections) && View() == Ran(old(View()), l)
    {
      hide Inv, Ran, Popped, Quiet, Active, C.EntryEnabled, C.DestroyOf, States, Apart, AllValid, Entered, Valid;
      hide View, Enabled, O.TcpConnection.View;
      ghost var before := View();
      Open();
      DestroyOutside(before, l, c);
      StatesKeys(held);
      PopQueue(l);
      DestroyHeld(c);
      rest := Ran(before, l);
      Agree(rest);
    }
  }

  // A connection's whole life, in the objects

  /** A server with one connection object, on loop 1. */
  ghost predicate Alive(server: TcpServer, conn: O.TcpConnection, base: seq<Task>, io: seq<Task>, polled: seq<ConnId>,
                        n: nat)
    reads server, server.held.Values, conn
  {
    server.held == map[0 := conn] && server.Valid() && Alone(server.View(), conn.View(), base, io, polled, n)
  }

  lemma OnlyOne(held: map<ConnId, O.TcpConnection>, conn: O.TcpConnection)
    requires held == map[0 := conn]
    ensures held.Keys == {0} && held[0] == conn && Apart(held)
    ensures States(held) == map[0 := conn.View()] && (AllValid(held) <==> conn.Valid())
  {
    hide O.TcpConnection.Valid, O.TcpConnection.View;
    assert AllValid(held) ==> held[0].Valid();
  }

  lemma AloneActs(s: Sys, k: C.Conn, n: nat, k': C.Conn)
    requires Alone(s, k, [], [], [], n)
    ensures s.conns.Keys == {0} && s.conns[0] == k && s.conns[0 := k'] == map[0 := k']
    ensures Alone(s.(conns := map[0 := k']), k', [], [], [], n)
  {
    AloneAct(s, k, [], [], [], n, k');
    assert s.conns[0 := k'] == map[0 := k'];
  }

  lemma AloneShows(server: TcpServer, conn: O.TcpConnection, k: C.Conn, base: seq<Task>, io: seq<Task>,
                   polled: seq<ConnId>, n: nat)
    requires server.held == map[0 := conn] && Alone(server.View(), k, base, io, polled, n)
    ensures conn.View() == k
  {
    OnlyOne(server.held, conn);
    hide States, O.TcpConnection.View;
  }

  lemma AloneUp(s: Sys, cfg: C.Config)
    requires Alone(s, C.Initial(cfg), [], [Establish(0)], [], 1)
    ensures Enabled(s, RunTask(1)) && Queue(s, 1) == [Establish(0)]
    ensures Alone(UpNow(Ran(s, 1), 0), C.Opened(cfg), [], [], [], 2)
  {
    OpeningSteps(cfg);
    hide Quiet, RunTaskNow, AtRest, C.EntryStep, C.EntryEnabled, C.InnerStep, C.InnerEnabled;
    AloneEstablish(s, C.Initial(cfg));
    var k := C.EntryStep(C.Initial(cfg), C.Establish);
    AloneAct(Ran(s, 1), k, [], [], [], 2, C.InnerStep(k, C.EstablishUp));
  }

  /** Accepted on the base loop and established on its own. */
  method Opens(server: TcpServer, cfg: C.Config) returns (conn: O.TcpConnection)
    requires server.Valid() && server.View() == EMPTY && server.held == map[]
    modifies server
    ensures fresh(conn) && server.connections == map[0 := conn]
    ensures Alive(server, conn, [], [], [], 2) && conn.View() == C.Opened(cfg)
  {
    AloneAccept(cfg);
    hide TcpServer.Valid, Inv, Alone, AtRest, Quiet, AcceptNow, RunTaskNow, UpNow, Ran, O.TcpConnection.View, States;
    hide AllValid, TcpServer.View, Enabled;
    server.Open();
    conn := server.NewConnection(1, cfg);
    AloneUp(server.View(), cfg);
    server.EstablishInLoop(1, 0);
    AloneShows(server, conn, C.Opened(cfg), [], [], [], 2);
  }

  /** What the connection does on its own account leaves it alone with the server. */
  lemma StillAlone(server: TcpServer, conn: O.TcpConnection, before: Sys, k: C.Conn, was: seq<C.Action>, n: nat)
    requires server.held == map[0 := conn] && conn.Valid() && Entered(server.connections, server.held)
    requires Alone(before, k, [], [], [], n) && Inv(before)
    requires server.View() == before.(conns := server.View().conns)
    requires O.Follows(k, was, conn.View(), conn.trace)
    ensures Alive(server, conn, [], [], [], n)
  {
    hide Inv, Alone, Entered, Apart, AllValid, States, TcpServer.Valid, O.Follows, O.TcpConnection.Valid;
    hide O.TcpConnection.View;
    OnlyOne(server.held, conn);
    AloneActs(before, k, n, conn.View());
    server.Acted(before, 0, was);
  }

  lemma EasyAtRest(conn: O.TcpConnection)
    requires conn.Valid()
    ensures conn.todo == [] && !conn.owes <==> AtRest(conn.View())
  {
    O.EaseEnables(conn.View());
  }

  /** Another thread asks to shut the connection down. */
  method ShutsDown(server: TcpServer, conn: O.TcpConnection)
    requires Alive(server, conn, [], [], [], 2) && conn.View().registered && AtRest(conn.View()) && C.Open(conn.View())
    modifies conn
    ensures Alive(server, conn, [], [], [], 2)
    ensures conn.View().registered && AtRest(conn.View()) && C.Open(conn.View())
    ensures unchanged(server)
  {
    hide TcpServer.Valid, Inv, Alone, O.Follows, States, Apart, AllValid, C.Inv, C.Run, C.Runs, Entered, AtRest;
    hide O.TcpConnection.Valid;
    ghost var before, k, was := server.View(), conn.View(), conn.trace;
    server.Open();
    OnlyOne(server.held, conn);
    EasyAtRest(conn);
    conn.Shutdown(1);
    EasyAtRest(conn);
    StillAlone(server, conn, before, k, was, 2);
  }

  lemma AloneHangsUp(s: Sys, k: C.Conn)
    requires Alone(s, k, [], [], [0], 2) && AtRest(k) && k.registered
    ensures Active(s, 1) == [0] && Quiet(s, 1) && Enabled(s, Dispatch(1, C.HANG_UP))
    ensures Alone(Step(s, Dispatch(1, C.HANG_UP)), k.(todo := [C.OnClose]), [], [], [], 2)
  {
    hide Step, C.EntryStep, C.EntryEnabled, AtRest;
    AloneDispatch(s, k, C.HANG_UP);
    HangUpIsPolled(k);
  }

  /** Its loop's poll finds the peer gone. */
  method FindsHangUp(server: TcpServer, conn: O.TcpConnection)
    requires Alive(server, conn, [], [], [], 2) && conn.View().registered && AtRest(conn.View())
    modifies server, conn
    ensures Alive(server, conn, [], [], [], 2) && conn.View() == old(conn.View()).(todo := [C.OnClose])
    ensures server.connections == old(server.connections)
  {
    hide TcpServer.Valid, TcpServer.View, Inv, Alone, States, AllValid, AtRest, Step, Enabled, Active, Quiet;
    hide O.TcpConnection.View;
    ghost var k := conn.View();
    AlonePoll(server.View(), k);
    server.PollReturn(1, [0]);
    AloneHangsUp(server.View(), k);
    server.DispatchNext(1, 0, C.HANG_UP);
    AloneShows(server, conn, k.(todo := [C.OnClose]), [], [], [], 2);
  }

  lemma ClosingIsShutting(k: C.Conn)
    requires AtRest(k) && C.Open(k)
    ensures var d := k.(todo := [C.OnClose]); O.CloseOf(d.(todo := d.todo[1..])) == Shutting(k)
  {
    assert [C.OnClose][1..] == [];
  }

  /** The handler closes it, up to on_close_. */
  method Closes(server: TcpServer, conn: O.TcpConnection, ghost k: C.Conn)
    requires Alive(server, conn, [], [], [], 2) && conn.View() == k.(todo := [C.OnClose]) && AtRest(k) && C.Open(k)
    modifies conn
    ensures Alive(server, conn, [], [], [], 2) && conn.View() == Shutting(k) && unchanged(server)
  {
    hide TcpServer.Valid, Inv, Alone, O.Follows, States, Apart, AllValid, C.Inv, C.Run, C.Runs, Entered;
    hide O.TcpConnection.Valid, O.CloseOf, Shutting;
    ghost var before, was := server.View(), conn.trace;
    server.Open();
    OnlyOne(server.held, conn);
    ClosingIsShutting(k);
    conn.HandleClose();
    StillAlone(server, conn, before, k.(todo := [C.OnClose]), was, 2);
  }

  lemma AloneCloses(s: Sys, k: C.Conn)
    requires Alone(s, k, [], [], [], 2) && C.InnerEnabled(k, C.EmitClose)
    ensures 0 in s.home && s.home[0] == 1
    ensures Alone(ClosedNow(s, 0), C.InnerStep(k, C.EmitClose), [Remove(0)], [], [], 3)
  {
    hide C.InnerStep, C.InnerEnabled, CloseNow;
    AloneClose(s, k);
  }

  lemma AloneTurn(s: Sys, k: C.Conn, base: seq<Task>, io: seq<Task>, n: nat)
    requires Alone(s, k, base, io, [], n)
    ensures Queue(s, BASE) == base && Queue(s, 1) == io
  {
  }

  /** on_close_ runs remove_connection, and the base loop runs its functor. */
  method IsErased(server: TcpServer, conn: O.TcpConnection)
    requires Alive(server, conn, [], [], [], 2) && conn.owes && C.InnerEnabled(conn.View(), C.EmitClose)
    requires server.connections == map[0 := conn]
    modifies server, conn
    ensures Alive(server, conn, [], [Destroy(0)], [], 4) && server.connections == map[]
    ensures conn.View() == C.InnerStep(old(conn.View()), C.EmitClose)
  {
    hide TcpServer.Valid, TcpServer.View, Inv, Alone, States, AllValid, Enabled, Active, Quiet, RunTaskNow, ClosedNow;
    hide O.TcpConnection.View, C.InnerEnabled, C.InnerStep;
    ghost var k := conn.View();
    server.Open();
    AloneCloses(server.View(), k);
    server.RemoveConnection(0);
    k := C.InnerStep(k, C.EmitClose);
    AloneErase(server.View(), k);
    AloneTurn(server.View(), k, [Remove(0)], [], 3);
    server.RemoveInLoop(0);
    AloneShows(server, conn, k, [], [Destroy(0)], [], 4);
  }

  /** Its loop runs the last functor. */
  method IsDestroyed(server: TcpServer, conn: O.TcpConnection)
    requires Alive(server, conn, [], [Destroy(0)], [], 4) && AtRest(conn.View())
    requires C.EntryEnabled(conn.View(), C.Destroy)
    modifies server, conn
    ensures Alive(server, conn, [], [], [], 5) && server.connections == old(server.connections)
    ensures conn.View() == C.DestroyOf(old(conn.View()))
  {
    hide TcpServer.Valid, TcpServer.View, Inv, Alone, States, AllValid, AtRest, Enabled, Active, Quiet, RunTaskNow;
    hide O.TcpConnection.View, C.EntryEnabled, C.DestroyOf;
    ghost var k := conn.View();
    assert [Destroy(0)] + [] == [Destroy(0)];
    AloneDestroy(server.View(), k, []);
    AloneTurn(server.View(), k, [], [Destroy(0)], 4);
    server.DestroyInLoop(1, 0);
    AloneShows(server, conn, C.DestroyOf(k), [], [], [], 5);
  }

  lemma AliveIsSound(server: TcpServer, conn: O.TcpConnection, base: seq<Task>, io: seq<Task>, n: nat)
    requires Alive(server, conn, base, io, [], n)
    ensures conn.Valid() && C.Inv(conn.View())
  {
    OnlyOne(server.held, conn);
    hide Inv, C.Inv, C.Run, C.Runs;
  }

  lemma LifeEnds(k: C.Conn)
    requires C.Inv(k) && C.Open(k) && AtRest(k)
    ensures C.InnerEnabled(Shutting(k), C.EmitClose) && Shutting(k).duty == C.OweClose
    ensures var e := C.InnerStep(Shutting(k), C.EmitClose);
            && AtRest(e) && C.EntryEnabled(e, C.Destroy)
            && var d := C.DestroyOf(e);
            d.notes == [C.Up, C.Down, C.Close] && d.st == C.Disconnected && d.destroyed && !d.registered
  {
    ShuttingMayGo(k);
    hide C.Inv;
  }

  lemma Owes(conn: O.TcpConnection)
    ensures conn.owes <==> conn.View().duty == C.OweClose
  {
  }

  /** The objects take a connection through all five stages. A new server accepts it for loop 1, which establishes it;
      another thread shuts it down, the poll finds the peer gone, the handler closes it, and the functors of the two
      loops erase and destroy it. */
  method WholeLife(cfg: C.Config) returns (server: TcpServer, conn: O.TcpConnection)
    ensures server.Valid() && server.connections == map[] && server.held == map[0 := conn]
    ensures 0 in server.View().stages && server.View().stages[0] == ORDER
    ensures conn.Valid() && conn.View().notes == [C.Up, C.Down, C.Close]
    ensures conn.View().st == C.Disconnected && conn.View().destroyed && !conn.View().registered
  {
    OpenedIsSound(cfg);
    hide TcpServer.Valid, TcpServer.View, Alone, Inv, States, O.TcpConnection.View, O.TcpConnection.Valid;
    hide C.Inv, AtRest, Shutting, C.InnerStep, C.DestroyOf, C.InnerEnabled, C.EntryEnabled;
    server := new TcpServer();
    conn := Opens(server, cfg);
    ShutsDown(server, conn);
    AliveIsSound(server, conn, [], [], 2);
    ghost var k := conn.View();
    LifeEnds(k);
    FindsHangUp(server, conn);
    Closes(server, conn, k);
    Owes(conn);
    IsErased(server, conn);
    IsDestroyed(server, conn);
    AliveIsSound(server, conn, [], [], 5);
    AloneIsDone(server.View(), conn.View(), []);
  }
}
