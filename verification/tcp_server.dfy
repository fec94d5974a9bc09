/** The server's connections over all event loops. The base loop accepts a connection and later erases it; the
    connection's own loop establishes, closes and destroys it; the two talk through the loops' functor queues. Every
    connection is the full connection of ConnectionSpec, and every one of its steps may come between any two steps
    here. The queues are first-in first-out, which is what EventLoopSpec shows a loop to be. */
module ServerSpec {
  import C = ConnectionSpec
  import R = ConnectionRuns

  type LoopId = nat
  type ConnId = nat

  /** The loop of the server itself. With no thread pool it is also the loop of every connection. */
  const BASE: LoopId := 0

  /** The lifecycle functors, each of which holds a shared pointer to its connection, and the functor StartRead or
      StopRead queues from another thread, which holds the raw one. */
  datatype Task = Establish(c: ConnId) | Remove(c: ConnId) | Destroy(c: ConnId) | Control(c: ConnId, start: bool)

  datatype Stage = Accepted | Established | Closed | Erased | Destroyed

  const ORDER: seq<Stage> := [Accepted, Established, Closed, Erased, Destroyed]

  /** entries are the keys of the server's connection map, active the channels a loop's poll reported and has not
      dispatched yet, and stages the history of each connection. */
  datatype Sys = Sys(
    entries: set<ConnId>, home: map<ConnId, LoopId>, conns: map<ConnId, C.Conn>,
    queues: map<LoopId, seq<Task>>, active: map<LoopId, seq<ConnId>>,
    next: ConnId, stages: map<ConnId, seq<Stage>>)

  const EMPTY := Sys({}, map[], map[], map[], map[], 0, map[])

  datatype Action =
    | Accept(l: LoopId, cfg: C.Config)      // new_connection; l is the pool's choice
    | Act(c: ConnId, a: C.Action)           // a step of one connection, by its loop or any other thread
    | Close(c: ConnId)                      // handle_close's on_close_: remove_connection
    | Poll(l: LoopId, ready: seq<ConnId>)
    | Dispatch(l: LoopId, revents: C.Revents)
    | RunTask(l: LoopId)                    // the next of these functors of a loop
    | AskControl(c: ConnId, start: bool)    // StartRead or StopRead called on another thread

  function Queue(s: Sys, l: LoopId): seq<Task> {
    if l in s.queues then s.queues[l] else []
  }

  function Active(s: Sys, l: LoopId): seq<ConnId> {
    if l in s.active then s.active[l] else []
  }

  /** No connection of the loop is inside a handler. */
  ghost predicate Quiet(s: Sys, l: LoopId) {
    forall c :: c in s.conns && c in s.home && s.home[c] == l ==> C.TopLevel(s.conns[c]) && s.conns[c].todo == []
  }

  ghost predicate Enabled(s: Sys, a: Action) {
    match a
    case Accept(_, _) => true
    case Act(c, act) =>
      && c in s.conns && C.Enabled(s.conns[c], act)
      && !C.IsLifecycle(act) && !(act.Enter? && act.entry.Polled?)
    case Close(c) => c in s.conns && c in s.home && c in s.stages && C.InnerEnabled(s.conns[c], C.EmitClose)
    case Poll(l, ready) =>
      && Quiet(s, l) && Active(s, l) == []
      && forall i :: 0 <= i < |ready| ==>
           ready[i] in s.conns && ready[i] in s.home && s.home[ready[i]] == l && s.conns[ready[i]].registered
    case Dispatch(l, _) => Quiet(s, l) && Active(s, l) != []
    case RunTask(l) => Quiet(s, l) && Active(s, l) == [] && Queue(s, l) != []
    case AskControl(c, _) => c in s.conns && c in s.home && s.conns[c].st != C.Connecting
  }

  function Push(s: Sys, l: LoopId, t: Task): Sys {
    s.(queues := s.queues[l := Queue(s, l) + [t]])
  }

  function Pop(s: Sys, l: LoopId): Sys
    requires Queue(s, l) != []
  {
    s.(queues := s.queues[l := Queue(s, l)[1..]])
  }

  function Reach(s: Sys, c: ConnId, stage: Stage): Sys {
    s.(stages := s.stages[c := (if c in s.stages then s.stages[c] else []) + [stage]])
  }

  function SetConn(s: Sys, c: ConnId, k: C.Conn): Sys {
    s.(conns := s.conns[c := k])
  }

  /** ConnectionEstablished up to its callback. Its assertion that the connection is connecting is EntryEnabled. */
  function EstablishNow(s: Sys, c: ConnId): Sys {
    if c in s.conns && C.EntryEnabled(s.conns[c], C.Establish) then
      Reach(SetConn(s, c, C.EntryStep(s.conns[c], C.Establish)), c, Established)
    else s
  }

  /** remove_connection's functor on the base loop. */
  function EraseNow(s: Sys, c: ConnId): Sys {
    if c in s.home then
      Push(Reach(s.(entries := s.entries - {c}), c, Erased), s.home[c], Destroy(c))
    else s
  }

  function DestroyNow(s: Sys, c: ConnId): Sys {
    if c in s.conns && C.EntryEnabled(s.conns[c], C.Destroy) then
      Reach(SetConn(s, c, C.EntryStep(s.conns[c], C.Destroy)), c, Destroyed)
    else s
  }

  function ControlEntry(start: bool): C.Entry {
    if start then C.StartRead else C.StopRead
  }

  /** The functor works on the connection, whether anything still owns it or not. */
  function ControlNow(s: Sys, c: ConnId, start: bool): Sys {
    if c in s.conns && C.EntryEnabled(s.conns[c], ControlEntry(start)) then
      SetConn(s, c, C.EntryStep(s.conns[c], ControlEntry(start)))
    else s
  }

  function AddConn(s: Sys, l: LoopId, cfg: C.Config): Sys {
    Reach(s.(next := s.next + 1, entries := s.entries + {s.next}, home := s.home[s.next := l],
             conns := s.conns[s.next := C.Initial(cfg)]), s.next, Accepted)
  }

  function AcceptNow(s: Sys, l: LoopId, cfg: C.Config): Sys {
    var t := AddConn(s, l, cfg);
    // RunInLoop: at once on the same loop, queued otherwise
    if l == BASE then EstablishNow(t, s.next) else Push(t, l, Establish(s.next))
  }

  /** handle_close has called on_close_; the queues do not know yet. */
  function Closing(s: Sys, c: ConnId): Sys
    requires c in s.conns && C.InnerEnabled(s.conns[c], C.EmitClose)
  {
    Reach(SetConn(s, c, C.InnerStep(s.conns[c], C.EmitClose)), c, Closed)
  }

  function CloseNow(s: Sys, c: ConnId): Sys
    requires c in s.conns && c in s.home && C.InnerEnabled(s.conns[c], C.EmitClose)
  {
    var t := Closing(s, c);
    if s.home[c] == BASE then EraseNow(t, c) else Push(t, BASE, Remove(c))
  }

  function RunTaskNow(s: Sys, l: LoopId): Sys
    requires Queue(s, l) != []
  {
    match Queue(s, l)[0]
    case Establish(c) => EstablishNow(Pop(s, l), c)
    case Remove(c) => EraseNow(Pop(s, l), c)
    case Destroy(c) => DestroyNow(Pop(s, l), c)
    case Control(c, start) => ControlNow(Pop(s, l), c, start)
  }

  ghost function Step(s: Sys, a: Action): Sys
    requires Enabled(s, a)
  {
    match a
    case Accept(l, cfg) => AcceptNow(s, l, cfg)
    case Act(c, act) => SetConn(s, c, C.Step(s.conns[c], act))
    case Close(c) => CloseNow(s, c)
    case Poll(l, ready) => s.(active := s.active[l := ready])
    case Dispatch(l, revents) =>
      var c := Active(s, l)[0];
      var t := s.(active := s.active[l := Active(s, l)[1..]]);
      if c in s.conns && C.EntryEnabled(s.conns[c], C.Polled(revents)) then
        SetConn(t, c, C.EntryStep(s.conns[c], C.Polled(revents)))
      else t
    case RunTask(l) => RunTaskNow(s, l)
    case AskControl(c, start) => Push(s, s.home[c], Control(c, start))
  }

  // Invariant

  /** How far a connection has come: the number of stages reached. */
  function Reached(s: Sys, c: ConnId): nat {
    if c in s.stages then |s.stages[c]| else 0
  }

  /** How often a functor is queued on a loop, and how often the stage of its connection says a lifecycle functor should
      be. */
  ghost function Count(s: Sys, l: LoopId, t: Task): nat {
    multiset(Queue(s, l))[t]
  }

  function Due(s: Sys, l: LoopId, t: Task): nat {
    if t.c !in s.home then 0
    else
      match t
      case Establish(c) => if Reached(s, c) == 1 && l == s.home[c] then 1 else 0
      case Remove(c) => if Reached(s, c) == 3 && l == BASE then 1 else 0
      case Destroy(c) => if Reached(s, c) == 4 && l == s.home[c] then 1 else 0
      case Control(_, _) => 0
  }

  ghost predicate StageFits(s: Sys, c: ConnId)
    requires c in s.conns && c in s.home && c in s.stages
  {
    var k := s.conns[c];
    var n := Reached(s, c);
    && 1 <= n <= 5 && s.stages[c] == ORDER[..n]
    && (c in s.entries <==> n <= 3)
    && (k.st == C.Connecting <==> n == 1)
    && (C.Close in k.notes <==> n >= 3)
    && (k.destroyed <==> n == 5)
  }

  ghost predicate Known(s: Sys, c: ConnId) {
    && c in s.conns && c in s.home && c in s.stages
    && C.Inv(s.conns[c])
    && StageFits(s, c)
  }

  /** A channel reported by poll and not dispatched yet. */
  ghost predicate Listed(s: Sys, l: LoopId, c: ConnId) {
    c in s.conns && c in s.home && s.home[c] == l && s.conns[c].registered
  }

  ghost predicate Inv(s: Sys) {
    && (forall c: ConnId :: c < s.next <==> c in s.conns)
    && s.home.Keys == s.conns.Keys && s.stages.Keys == s.conns.Keys && s.entries <= s.conns.Keys
    && (forall c :: c in s.conns ==> Known(s, c))
    && (forall l, t: Task :: !t.Control? ==> Count(s, l, t) == Due(s, l, t))
    && (forall l, i :: 0 <= i < |Active(s, l)| ==> Listed(s, l, Active(s, l)[i]))
  }

  /** The server's map or a queued lifecycle functor owns the connection. */
  ghost predicate OwnedByServer(s: Sys, c: ConnId) {
    c in s.entries || exists l, t :: t in Queue(s, l) && t.c == c && !t.Control?
  }

  /** So does each functor the connection itself has queued. */
  ghost predicate Owned(s: Sys, c: ConnId) {
    OwnedByServer(s, c) || (c in s.conns && s.conns[c].tasks != [])
  }

  // Every step keeps the invariant

  lemma CountPush(s: Sys, l0: LoopId, t0: Task)
    ensures forall l, t :: Count(Push(s, l0, t0), l, t) == Count(s, l, t) + if l == l0 && t == t0 then 1 else 0
  {
  }

  lemma CountPop(s: Sys, l0: LoopId)
    requires Queue(s, l0) != []
    ensures forall l, t :: Count(s, l, t) == Count(Pop(s, l0), l, t) + if l == l0 && t == Queue(s, l0)[0] then 1 else 0
  {
    var q := Queue(s, l0);
    assert q == [q[0]] + q[1..];
    assert multiset(q) == multiset{q[0]} + multiset(q[1..]);
  }

  /** r differs from s in connection c at most, apart from the queues and the active lists. */
  ghost predicate SameBut(s: Sys, r: Sys, c: ConnId) {
    && r.conns.Keys == s.conns.Keys + {c} && r.home.Keys == s.home.Keys + {c} && r.stages.Keys == s.stages.Keys + {c}
    && r.entries - {c} == s.entries - {c}
    && (forall d :: d in s.conns && d != c && d in s.home && d in s.stages ==>
          r.conns[d] == s.conns[d] && r.home[d] == s.home[d] && r.stages[d] == s.stages[d])
  }

  lemma KnownSame(s: Sys, r: Sys, d: ConnId)
    requires Known(s, d) && d in r.conns && d in r.home && d in r.stages
    requires r.conns[d] == s.conns[d] && r.home[d] == s.home[d] && r.stages[d] == s.stages[d]
    requires d in r.entries <==> d in s.entries
    ensures Known(r, d)
  {
    hide C.Inv;
  }

  lemma DueSame(s: Sys, r: Sys, c: ConnId)
    requires Inv(s) && SameBut(s, r, c)
    ensures forall l, t: Task :: t.c != c ==> Due(r, l, t) == Due(s, l, t)
  {
    hide Count, Listed, Known, Active;
  }

  /** To keep the invariant it is enough to see to the connection touched and to the functors queued. */
  lemma OneKeeps(s: Sys, r: Sys, c: ConnId)
    requires Inv(s) && SameBut(s, r, c) && Known(r, c)
    requires if c in s.conns then r.next == s.next else c == s.next && r.next == s.next + 1
    requires forall l, t: Task :: !t.Control? ==>
               Count(r, l, t) == if t.c == c then Due(r, l, t) else Count(s, l, t)
    requires forall l, i :: 0 <= i < |Active(r, l)| ==> Listed(r, l, Active(r, l)[i])
    ensures Inv(r)
  {
    hide C.Inv, Count, Listed, Known, Active;
    assert Known(r, c);
    forall d | d in r.conns ensures Known(r, d) {
      if d != c {
        assert d in r.entries <==> d in r.entries - {c};
        assert d in s.entries <==> d in s.entries - {c};
        KnownSame(s, r, d);
      }
    }
    DueSame(s, r, c);
    assert r.entries <= r.entries - {c} + {c};
  }

  lemma ConnStepFits(s: Sys, r: Sys, c: ConnId, a: C.Action)
    requires Known(s, c) && !C.IsLifecycle(a) && C.Enabled(s.conns[c], a)
    requires r == SetConn(s, c, C.Step(s.conns[c], a))
    ensures Known(r, c) && (s.conns[c].registered ==> r.conns[c].registered)
  {
    R.OnlyLifecycleSteps(s.conns[c], a);
    hide C.Step, C.Inv, C.Enabled;
  }

  lemma ConnStepKeeps(s: Sys, r: Sys, c: ConnId, a: C.Action)
    requires Inv(s) && c in s.conns && !C.IsLifecycle(a) && C.Enabled(s.conns[c], a)
    requires r == SetConn(s, c, C.Step(s.conns[c], a))
    ensures Inv(r)
  {
    hide C.Step, C.Inv, C.Enabled;
    assert Known(s, c);
    ConnStepFits(s, r, c, a);
    forall l, t: Task | !t.Control? ensures Count(r, l, t) == Count(s, l, t) == Due(s, l, t) == Due(r, l, t) {
    }
    forall l, i | 0 <= i < |Active(r, l)| ensures Listed(r, l, Active(r, l)[i]) {
      assert Listed(s, l, Active(s, l)[i]);
    }
    OneKeeps(s, r, c);
  }

  lemma DueIsOne(s: Sys, l: LoopId, t: Task)
    requires Inv(s) && Due(s, l, t) >= 1
    ensures Due(s, l, t) == 1 && Known(s, t.c)
  {
  }

  /** The functor at the head of a queue is the one its connection's stage calls for. */
  lemma HeadIsDue(s: Sys, l: LoopId)
    requires Inv(s) && Queue(s, l) != [] && !Queue(s, l)[0].Control?
    ensures Due(s, l, Queue(s, l)[0]) == 1 && Known(s, Queue(s, l)[0].c)
  {
    hide Listed, Active, Known, Due;
    var t := Queue(s, l)[0];
    assert t in Queue(s, l);
    assert Count(s, l, t) == Due(s, l, t) >= 1;
    DueIsOne(s, l, t);
  }

  lemma DueStage(s: Sys, l: LoopId, t: Task)
    requires Due(s, l, t) == 1
    ensures t.c in s.home && (!t.Remove? ==> s.home[t.c] == l)
    ensures Reached(s, t.c) == (if t.Establish? then 1 else if t.Remove? then 3 else 4)
  {
    hide Reached;
  }

  lemma HeadStage(s: Sys, l: LoopId)
    requires Queue(s, l) != [] && !Queue(s, l)[0].Control? && Enabled(s, RunTask(l)) && Inv(s)
    ensures var t := Queue(s, l)[0];
            && Known(s, t.c) && Due(s, l, t) == 1
            && Reached(s, t.c) == (if t.Establish? then 1 else if t.Remove? then 3 else 4)
            && (!t.Remove? ==> s.home[t.c] == l && C.TopLevel(s.conns[t.c]) && s.conns[t.c].todo == [])
  {
    hide Inv, Count, Listed, C.Inv, C.TopLevel, StageFits, Active, Reached;
    HeadIsDue(s, l);
    var t := Queue(s, l)[0];
    DueStage(s, l, t);
    assert t.c in s.conns && t.c in s.home;
    hide Known, Due;
  }

  lemma NewConnection(cfg: C.Config)
    ensures C.Inv(C.Initial(cfg)) && C.EntryEnabled(C.Initial(cfg), C.Establish)
    ensures var k := C.EntryStep(C.Initial(cfg), C.Establish);
            C.Inv(k) && k.st == C.Connected && k.notes == [] && !k.destroyed && k.registered
  {
    C.FreshInv(C.Initial(cfg));
    C.EntryKeeps(C.Initial(cfg), C.Establish);
  }

  lemma AddConnFits(s: Sys, l: LoopId, cfg: C.Config)
    requires s.next !in s.stages
    ensures var r := AddConn(s, l, cfg);
            && Known(r, s.next) && SameBut(s, r, s.next)
            && r.stages[s.next] == [Accepted] && C.TopLevel(r.conns[s.next])
  {
    NewConnection(cfg);
    hide C.Inv, C.EntryStep, C.EntryEnabled;
  }

  lemma SameButTrans(s: Sys, t: Sys, r: Sys, c: ConnId)
    requires SameBut(s, t, c) && SameBut(t, r, c)
    ensures SameBut(s, r, c)
  {
  }

  lemma SameButQueues(s: Sys, t: Sys, r: Sys, c: ConnId)
    requires SameBut(s, t, c) && r == t.(queues := r.queues)
    ensures SameBut(s, r, c)
  {
  }

  lemma EstablishFits(s: Sys, c: ConnId)
    requires Known(s, c) && Reached(s, c) == 1 && C.TopLevel(s.conns[c])
    ensures C.EntryEnabled(s.conns[c], C.Establish)
    ensures var r := EstablishNow(s, c);
            && Known(r, c) && SameBut(s, r, c) && r.next == s.next && r.active == s.active && r.queues == s.queues
            && Reached(r, c) == 2 && r.home == s.home && r.conns[c].registered
            && r.entries == s.entries && r.conns == s.conns[c := C.EntryStep(s.conns[c], C.Establish)]
  {
    C.EntryKeeps(s.conns[c], C.Establish);
    C.RegisteredWhile(s.conns[c]);
    hide C.Inv;
    var r := EstablishNow(s, c);
    assert r.stages[c] == [Accepted, Established];
  }

  lemma AcceptFits(s: Sys, l: LoopId, cfg: C.Config)
    requires s.next !in s.stages
    ensures var r := AcceptNow(s, l, cfg);
            && Known(r, s.next) && SameBut(s, r, s.next) && r.next == s.next + 1 && r.active == s.active
            && Reached(r, s.next) == (if l == BASE then 2 else 1) && r.home == s.home[s.next := l]
            && r.queues == (if l == BASE then s.queues else Push(s, l, Establish(s.next)).queues)
            && r.entries == s.entries + {s.next}
            && r.conns == s.conns[s.next := if l == BASE then C.EntryStep(C.Initial(cfg), C.Establish)
                                            else C.Initial(cfg)]
  {
    hide EstablishNow, SameBut, C.Inv, C.TopLevel;
    var c := s.next;
    var t := AddConn(s, l, cfg);
    AddConnFits(s, l, cfg);
    if l == BASE {
      EstablishFits(t, c);
      hide Known;
      SameButTrans(s, t, EstablishNow(t, c), c);
    } else {
      KnownSame(t, Push(t, l, Establish(c)), c);
      SameButQueues(s, t, Push(t, l, Establish(c)), c);
      hide Known;
    }
  }

  lemma CountSame(s: Sys, r: Sys)
    requires r.queues == s.queues
    ensures forall m, u :: Count(r, m, u) == Count(s, m, u)
  {
  }

  lemma AcceptCounts(s: Sys, l: LoopId, r: Sys)
    requires Inv(s) && r.home == s.home[s.next := l]
    requires Reached(r, s.next) == (if l == BASE then 2 else 1)
    requires r.queues == if l == BASE then s.queues else Push(s, l, Establish(s.next)).queues
    ensures forall m, u: Task :: !u.Control? ==>
              Count(r, m, u) == if u.c == s.next then Due(r, m, u) else Count(s, m, u)
  {
    hide Known, Listed, Active, Count, Push;
    CountPush(s, l, Establish(s.next));
    CountSame(if l == BASE then s else Push(s, l, Establish(s.next)), r);
    forall m, u: Task | !u.Control?
      ensures Count(r, m, u) == if u.c == s.next then Due(r, m, u) else Count(s, m, u)
    {
      assert Count(s, m, u) == Due(s, m, u);
    }
  }

  /** Polled channels stay registered when nothing is unregistered. */
  lemma ActiveSame(s: Sys, r: Sys, c: ConnId)
    requires Inv(s) && SameBut(s, r, c) && r.active == s.active
    requires c in s.conns ==> r.home[c] == s.home[c] && (s.conns[c].registered ==> r.conns[c].registered)
    ensures forall m, i :: 0 <= i < |Active(r, m)| ==> Listed(r, m, Active(r, m)[i])
  {
    hide Known, Count, C.Inv;
    forall m, i | 0 <= i < |Active(r, m)| ensures Listed(r, m, Active(r, m)[i]) {
      assert Listed(s, m, Active(s, m)[i]);
    }
  }

  lemma AcceptKeeps(s: Sys, l: LoopId, cfg: C.Config)
    requires Inv(s)
    ensures Inv(AcceptNow(s, l, cfg))
  {
    AcceptFits(s, l, cfg);
    hide AcceptNow, C.Inv, Known, SameBut, Count, Due, Listed;
    var r := AcceptNow(s, l, cfg);
    AcceptCounts(s, l, r);
    ActiveSame(s, r, s.next);
    OneKeeps(s, r, s.next);
  }

  lemma EraseFits(s: Sys, c: ConnId)
    requires Known(s, c) && Reached(s, c) == 3
    ensures c in s.entries
    ensures var r := EraseNow(s, c);
            && Known(r, c) && SameBut(s, r, c) && r.next == s.next && r.active == s.active
            && r.queues == Push(s, s.home[c], Destroy(c)).queues
            && Reached(r, c) == 4 && r.home == s.home && r.conns == s.conns && r.entries == s.entries - {c}
  {
    hide C.Inv;
    var r := EraseNow(s, c);
    assert r.stages[c] == [Accepted, Established, Closed, Erased];
  }

  lemma DestroyFits(s: Sys, c: ConnId)
    requires Known(s, c) && Reached(s, c) == 4 && C.TopLevel(s.conns[c]) && s.conns[c].todo == []
    ensures C.EntryEnabled(s.conns[c], C.Destroy)
    ensures var r := DestroyNow(s, c);
            && Known(r, c) && SameBut(s, r, c) && r.next == s.next && r.active == s.active && r.queues == s.queues
            && Reached(r, c) == 5 && r.home == s.home && !r.conns[c].registered
            && r.entries == s.entries && r.conns == s.conns[c := C.DestroyOf(s.conns[c])]
  {
    C.EntryKeeps(s.conns[c], C.Destroy);
    C.RegisteredWhile(s.conns[c]);
    hide C.Inv;
    var r := DestroyNow(s, c);
    assert r.stages[c] == [Accepted, Established, Closed, Erased, Destroyed];
  }

  /** Taking the functor due from its queue leaves the connection's later stage with none. */
  lemma PopCounts(s: Sys, l: LoopId, r: Sys, c: ConnId)
    requires Inv(s) && Queue(s, l) != [] && Queue(s, l)[0].c == c && Due(s, l, Queue(s, l)[0]) == 1
    requires r.home == s.home && r.queues == Pop(s, l).queues
    requires Reached(r, c) == 2 || Reached(r, c) == 5
    ensures forall m, u: Task :: !u.Control? ==> Count(r, m, u) == if u.c == c then Due(r, m, u) else Count(s, m, u)
  {
    hide Known, Listed, Active, Count, Pop;
    CountPop(s, l);
    CountSame(Pop(s, l), r);
    forall m, u: Task | !u.Control?
      ensures Count(r, m, u) == if u.c == c then Due(r, m, u) else Count(s, m, u)
    {
      assert Count(s, m, u) == Due(s, m, u);
      assert Count(r, m, u) == Count(Pop(s, l), m, u);
    }
  }

  lemma EraseCounts(s: Sys, l: LoopId, r: Sys, c: ConnId)
    requires Inv(s) && Queue(s, l) != [] && Queue(s, l)[0] == Remove(c) && Due(s, l, Remove(c)) == 1
    requires c in s.home && r.home == s.home && r.queues == Push(Pop(s, l), s.home[c], Destroy(c)).queues
    requires Reached(r, c) == 4
    ensures forall m, u: Task :: !u.Control? ==> Count(r, m, u) == if u.c == c then Due(r, m, u) else Count(s, m, u)
  {
    hide Known, Listed, Active, Count, Pop, Push;
    CountPop(s, l);
    CountPush(Pop(s, l), s.home[c], Destroy(c));
    CountSame(Push(Pop(s, l), s.home[c], Destroy(c)), r);
    forall m, u: Task | !u.Control?
      ensures Count(r, m, u) == if u.c == c then Due(r, m, u) else Count(s, m, u)
    {
      assert Count(s, m, u) == Due(s, m, u);
      assert Count(r, m, u) == Count(Push(Pop(s, l), s.home[c], Destroy(c)), m, u);
    }
  }

  lemma PopSameBut(s: Sys, l: LoopId, r: Sys, c: ConnId)
    requires Queue(s, l) != [] && SameBut(Pop(s, l), r, c)
    ensures SameBut(s, r, c)
  {
  }

  lemma RunEstablishKeeps(s: Sys, l: LoopId, c: ConnId)
    requires Inv(s) && Enabled(s, RunTask(l)) && Queue(s, l)[0] == Establish(c)
    ensures Inv(EstablishNow(Pop(s, l), c))
  {
    hide EstablishNow, C.Inv, C.TopLevel, Known, Count, Due, Listed, SameBut, Quiet, Active;
    HeadStage(s, l);
    KnownSame(s, Pop(s, l), c);
    EstablishFits(Pop(s, l), c);
    var r := EstablishNow(Pop(s, l), c);
    PopSameBut(s, l, r, c);
    PopCounts(s, l, r, c);
    ActiveSame(s, r, c);
    OneKeeps(s, r, c);
  }

  lemma RunRemoveKeeps(s: Sys, l: LoopId, c: ConnId)
    requires Inv(s) && Enabled(s, RunTask(l)) && Queue(s, l)[0] == Remove(c)
    ensures Inv(EraseNow(Pop(s, l), c))
  {
    hide EraseNow, C.Inv, C.TopLevel, Known, Count, Due, Listed, SameBut, Quiet, Active;
    HeadStage(s, l);
    KnownSame(s, Pop(s, l), c);
    EraseFits(Pop(s, l), c);
    var r := EraseNow(Pop(s, l), c);
    PopSameBut(s, l, r, c);
    EraseCounts(s, l, r, c);
    ActiveSame(s, r, c);
    OneKeeps(s, r, c);
  }

  /** A channel is unregistered when its loop has dispatched all it polled. */
  lemma ActiveWithout(s: Sys, r: Sys, c: ConnId)
    requires Inv(s) && SameBut(s, r, c) && r.active == s.active
    requires c in s.home && Active(s, s.home[c]) == []
    ensures forall m, i :: 0 <= i < |Active(r, m)| ==> Listed(r, m, Active(r, m)[i])
  {
    hide Known, Count, C.Inv;
    forall m, i | 0 <= i < |Active(r, m)| ensures Listed(r, m, Active(r, m)[i]) {
      assert Listed(s, m, Active(s, m)[i]);
    }
  }

  lemma RunDestroyKeeps(s: Sys, l: LoopId, c: ConnId)
    requires Inv(s) && Enabled(s, RunTask(l)) && Queue(s, l)[0] == Destroy(c)
    ensures Inv(DestroyNow(Pop(s, l), c))
  {
    hide DestroyNow, C.Inv, C.TopLevel, Known, Count, Due, Listed, SameBut, Quiet, Active;
    HeadStage(s, l);
    KnownSame(s, Pop(s, l), c);
    DestroyFits(Pop(s, l), c);
    var r := DestroyNow(Pop(s, l), c);
    PopSameBut(s, l, r, c);
    PopCounts(s, l, r, c);
    ActiveWithout(s, r, c);
    OneKeeps(s, r, c);
  }

  lemma ClosingFits(s: Sys, c: ConnId)
    requires Known(s, c) && C.InnerEnabled(s.conns[c], C.EmitClose)
    ensures Reached(s, c) == 2
    ensures var r := Closing(s, c);
            && Known(r, c) && SameBut(s, r, c) && r.next == s.next && r.active == s.active && r.queues == s.queues
            && Reached(r, c) == 3 && r.home == s.home && (s.conns[c].registered <==> r.conns[c].registered)
            && r.entries == s.entries && r.conns == s.conns[c := C.InnerStep(s.conns[c], C.EmitClose)]
  {
    var k := s.conns[c];
    C.InnerKeeps(k, C.EmitClose);
    assert k.notes == [C.Up, C.Down] && k.st == C.Disconnected && !k.destroyed;
    var r := Closing(s, c);
    C.RegisteredWhile(k);
    C.RegisteredWhile(r.conns[c]);
    hide C.Inv;
    assert s.stages[c] == [Accepted, Established];
    assert r.stages[c] == [Accepted, Established, Closed];
  }

  lemma CloseFits(s: Sys, c: ConnId)
    requires Known(s, c) && C.InnerEnabled(s.conns[c], C.EmitClose)
    ensures Reached(s, c) == 2
    ensures var r := CloseNow(s, c);
            && Known(r, c) && SameBut(s, r, c) && r.next == s.next && r.active == s.active
            && r.home == s.home && (s.conns[c].registered <==> r.conns[c].registered)
            && r.entries == (if s.home[c] == BASE then s.entries - {c} else s.entries)
            && r.conns == s.conns[c := C.InnerStep(s.conns[c], C.EmitClose)]
            && Reached(r, c) == (if s.home[c] == BASE then 4 else 3)
            && r.queues == Push(s, BASE, if s.home[c] == BASE then Destroy(c) else Remove(c)).queues
  {
    ClosingFits(s, c);
    var t := Closing(s, c);
    if s.home[c] == BASE {
      EraseFits(t, c);
      hide EraseNow, Closing, Known, SameBut, C.Inv;
      SameButTrans(s, t, EraseNow(t, c), c);
    } else {
      KnownSame(t, Push(t, BASE, Remove(c)), c);
      hide Known, C.Inv;
    }
  }

  lemma CloseCounts(s: Sys, r: Sys, c: ConnId)
    requires Inv(s) && c in s.home && Reached(s, c) == 2 && r.home == s.home
    requires Reached(r, c) == (if s.home[c] == BASE then 4 else 3)
    requires r.queues == Push(s, BASE, if s.home[c] == BASE then Destroy(c) else Remove(c)).queues
    ensures forall m, u: Task :: !u.Control? ==> Count(r, m, u) == if u.c == c then Due(r, m, u) else Count(s, m, u)
  {
    hide Known, Listed, Active, Count, Push;
    var t := if s.home[c] == BASE then Destroy(c) else Remove(c);
    CountPush(s, BASE, t);
    CountSame(Push(s, BASE, t), r);
    forall m, u: Task | !u.Control?
      ensures Count(r, m, u) == if u.c == c then Due(r, m, u) else Count(s, m, u)
    {
      assert Count(s, m, u) == Due(s, m, u);
    }
  }

  lemma CloseKeeps(s: Sys, c: ConnId)
    requires Inv(s) && Enabled(s, Close(c))
    ensures Inv(CloseNow(s, c))
  {
    assert Known(s, c);
    CloseFits(s, c);
    hide CloseNow, C.Inv, Known, SameBut, Count, Due, Listed;
    var r := CloseNow(s, c);
    CloseCounts(s, r, c);
    ActiveSame(s, r, c);
    OneKeeps(s, r, c);
  }

  /** Changing only the list of polled channels. */
  lemma ActiveKeeps(s: Sys, r: Sys)
    requires Inv(s) && r == s.(active := r.active)
    requires forall m, i :: 0 <= i < |Active(r, m)| ==> Listed(s, m, Active(r, m)[i])
    ensures Inv(r)
  {
    hide C.Inv;
    assert forall m, i :: 0 <= i < |Active(r, m)| ==> Listed(s, m, Active(r, m)[i]) ==> Listed(r, m, Active(r, m)[i]);
    forall c | c in r.conns ensures Known(r, c) {
      KnownSame(s, r, c);
    }
    CountSame(s, r);
    hide Count, Known;
    forall m, u: Task | !u.Control? ensures Count(r, m, u) == Due(r, m, u) {
      assert Count(s, m, u) == Due(s, m, u);
    }
  }

  lemma PollKeeps(s: Sys, a: Action)
    requires Inv(s) && Enabled(s, a) && (a.Poll? || a.Dispatch?)
    ensures Inv(Step(s, a))
  {
    hide C.Inv, Known, Count, Quiet;
    match a
    case Poll(l, ready) =>
      var r := s.(active := s.active[l := ready]);
      forall m, i | 0 <= i < |Active(r, m)| ensures Listed(s, m, Active(r, m)[i]) {
        assert m != l ==> Active(r, m) == Active(s, m) && Listed(s, m, Active(s, m)[i]);
      }
      ActiveKeeps(s, r);
    case Dispatch(l, revents) =>
      var c := Active(s, l)[0];
      var t := s.(active := s.active[l := Active(s, l)[1..]]);
      assert Listed(s, l, c);
      forall m, i | 0 <= i < |Active(t, m)| ensures Listed(s, m, Active(t, m)[i]) {
        assert Listed(s, m, Active(s, m)[if m == l then i + 1 else i]);
      }
      ActiveKeeps(s, t);
      if C.EntryEnabled(s.conns[c], C.Polled(revents)) {
        ConnStepKeeps(t, SetConn(t, c, C.EntryStep(s.conns[c], C.Polled(revents))), c, C.Enter(C.Polled(revents)));
      }
  }

  /** Functors that are not of the lifecycle do not change what is due. */
  lemma QueuesKeep(s: Sys, r: Sys)
    requires Inv(s) && r == s.(queues := r.queues)
    requires forall m, u: Task :: !u.Control? ==> Count(r, m, u) == Count(s, m, u)
    ensures Inv(r)
  {
    hide C.Inv;
    forall c | c in r.conns ensures Known(r, c) {
      KnownSame(s, r, c);
    }
    forall m, i | 0 <= i < |Active(r, m)| ensures Listed(r, m, Active(r, m)[i]) {
      assert Listed(s, m, Active(s, m)[i]);
    }
    hide Count, Known, Listed;
    forall m, u: Task | !u.Control? ensures Count(r, m, u) == Due(r, m, u) {
      assert Count(s, m, u) == Due(s, m, u);
    }
  }

  lemma AskControlKeeps(s: Sys, c: ConnId, start: bool)
    requires Inv(s) && Enabled(s, AskControl(c, start))
    ensures Inv(Push(s, s.home[c], Control(c, start)))
  {
    CountPush(s, s.home[c], Control(c, start));
    hide Count, Inv;
    QueuesKeep(s, Push(s, s.home[c], Control(c, start)));
  }

  lemma PopControlKeeps(s: Sys, l: LoopId)
    requires Inv(s) && Queue(s, l) != [] && Queue(s, l)[0].Control?
    ensures Inv(Pop(s, l))
  {
    CountPop(s, l);
    hide Count, Inv;
    QueuesKeep(s, Pop(s, l));
  }

  lemma ControlNowKeeps(s: Sys, c: ConnId, start: bool)
    requires Inv(s)
    ensures Inv(ControlNow(s, c, start))
  {
    hide Inv, C.EntryStep, C.EntryEnabled;
    if c in s.conns && C.EntryEnabled(s.conns[c], ControlEntry(start)) {
      ConnStepKeeps(s, ControlNow(s, c, start), c, C.Enter(ControlEntry(start)));
    }
  }

  lemma RunTaskKeeps(s: Sys, l: LoopId)
    requires Inv(s) && Enabled(s, RunTask(l))
    ensures Inv(RunTaskNow(s, l))
  {
    hide Inv, EstablishNow, EraseNow, DestroyNow, ControlNow, Quiet;
    match Queue(s, l)[0]
    case Establish(c) => RunEstablishKeeps(s, l, c);
    case Remove(c) => RunRemoveKeeps(s, l, c);
    case Destroy(c) => RunDestroyKeeps(s, l, c);
    case Control(c, start) =>
      PopControlKeeps(s, l);
      ControlNowKeeps(Pop(s, l), c, start);
  }

  lemma StepKeeps(s: Sys, a: Action)
    requires Inv(s) && Enabled(s, a)
    ensures Inv(Step(s, a))
  {
    hide Inv, C.Step, C.Enabled, Quiet, AcceptNow, CloseNow, RunTaskNow, Push;
    match a
    case Accept(l, cfg) => AcceptKeeps(s, l, cfg);
    case Act(c, act) => ConnStepKeeps(s, Step(s, a), c, act);
    case Close(c) => CloseKeeps(s, c);
    case Poll(_, _) => PollKeeps(s, a);
    case Dispatch(_, _) => PollKeeps(s, a);
    case RunTask(l) => RunTaskKeeps(s, l);
    case AskControl(c, start) => AskControlKeeps(s, c, start);
  }

  // Whole runs

  ghost predicate Runs(s: Sys, acts: seq<Action>)
    decreases |acts|
  {
    acts != [] ==> Enabled(s, acts[0]) && Runs(Step(s, acts[0]), acts[1..])
  }

  ghost function Run(s: Sys, acts: seq<Action>): Sys
    requires Runs(s, acts)
    decreases |acts|
  {
    if acts == [] then s else Run(Step(s, acts[0]), acts[1..])
  }

  lemma {:induction false} RunKeeps(s: Sys, acts: seq<Action>)
    requires Inv(s) && Runs(s, acts)
    ensures Inv(Run(s, acts))
    decreases |acts|
  {
    hide Step, Inv, Enabled;
    if acts != [] {
      StepKeeps(s, acts[0]);
      RunKeeps(Step(s, acts[0]), acts[1..]);
    }
  }

  lemma Reachable(acts: seq<Action>)
    requires Runs(EMPTY, acts)
    ensures Inv(Run(EMPTY, acts))
  {
    assert forall l :: Queue(EMPTY, l) == [] && Active(EMPTY, l) == [];
    assert forall l, t: Task :: !t.Control? ==> Count(EMPTY, l, t) == Due(EMPTY, l, t);
    RunKeeps(EMPTY, acts);
  }

  /** Every connection is accepted, established, closed, erased and destroyed in this order, each at most once, in every
      interleaving of the loops and whichever loop it lives on. */
  lemma StagesInOrder(acts: seq<Action>, c: ConnId)
    requires Runs(EMPTY, acts) && c in Run(EMPTY, acts).stages
    ensures Run(EMPTY, acts).stages[c] <= ORDER
  {
    Reachable(acts);
    assert Known(Run(EMPTY, acts), c);
  }

  /** What a lifecycle functor asserts of its connection. */
  ghost predicate FindsWhatItAsserts(s: Sys, l: LoopId, t: Task)
    requires !t.Control?
  {
    && t.c in s.conns && t.c in s.home
    && match t
       case Establish(c) => s.home[c] == l && s.conns[c].st == C.Connecting
       case Remove(c) => l == BASE && c in s.entries
       case Destroy(c) => s.home[c] == l && s.conns[c].st == C.Disconnected && s.conns[c].registered
                          && !s.conns[c].writing && (s.conns[c].reading ==> s.conns[c].ctl.late) && c !in s.entries
  }

  lemma HeadAsserts(s: Sys, l: LoopId)
    requires Queue(s, l) != [] && !Queue(s, l)[0].Control? && Inv(s) && Enabled(s, RunTask(l))
    ensures FindsWhatItAsserts(s, l, Queue(s, l)[0])
  {
    hide Inv, Quiet, C.Inv, C.TopLevel;
    HeadStage(s, l);
    C.RegisteredWhile(s.conns[Queue(s, l)[0].c]);
  }

  /** The assertions of the lifecycle functors hold when they run: a connection is established while connecting, the
      erase finds exactly its entry, and a connection is destroyed once, disconnected and, unless StartRead came too
      late, without interest in events. */
  lemma TaskAssertionsHold(acts: seq<Action>, l: LoopId)
    requires Runs(EMPTY, acts) && Enabled(Run(EMPTY, acts), RunTask(l)) && !Queue(Run(EMPTY, acts), l)[0].Control?
    ensures FindsWhatItAsserts(Run(EMPTY, acts), l, Queue(Run(EMPTY, acts), l)[0])
  {
    hide Inv, FindsWhatItAsserts, Quiet;
    Reachable(acts);
    HeadAsserts(Run(EMPTY, acts), l);
  }

  /** Likewise when remove_connection runs at once because the connection lives on the base loop: the entry is there. */
  lemma CloseFindsEntry(acts: seq<Action>, c: ConnId)
    requires Runs(EMPTY, acts) && Enabled(Run(EMPTY, acts), Close(c))
    ensures c in Run(EMPTY, acts).entries
  {
    Reachable(acts);
    var s := Run(EMPTY, acts);
    assert Known(s, c);
    ClosingFits(s, c);
  }

  lemma QueuedIsDue(s: Sys, l: LoopId, t: Task)
    requires Inv(s) && !t.Control?
    ensures t in Queue(s, l) <==> Due(s, l, t) >= 1
  {
    hide Known, Listed, Active, Due;
    assert Count(s, l, t) == Due(s, l, t);
  }

  lemma StageIsKnown(s: Sys, c: ConnId)
    requires Inv(s) && c in s.conns
    ensures c in s.home && 1 <= Reached(s, c) <= 5 && (c in s.entries <==> Reached(s, c) <= 3)
  {
    assert Known(s, c);
  }

  /** The server owns a connection exactly until it is destroyed; after that the connection's own functors may. */
  lemma OwnedUntilDestroyed(s: Sys, c: ConnId)
    requires Inv(s) && c in s.conns
    ensures OwnedByServer(s, c) <==> Reached(s, c) <= 4
    ensures Owned(s, c) <==> Reached(s, c) <= 4 || s.conns[c].tasks != []
  {
    StageIsKnown(s, c);
    hide Inv, Reached;
    QueuedIsDue(s, s.home[c], Destroy(c));
    if Reached(s, c) == 5 {
      forall l, t | t in Queue(s, l) && t.c == c ensures t.Control? {
        if !t.Control? {
          QueuedIsDue(s, l, t);
        }
      }
    }
  }

  /** Lifetime: while the poller, a list of polled channels or a running handler holds the raw pointer to a channel, the
      server's map or a queued lifecycle functor owns the connection, unless read control came too late. */
  lemma PointersAreOwned(acts: seq<Action>, c: ConnId)
    requires Runs(EMPTY, acts) && c in Run(EMPTY, acts).conns && !Run(EMPTY, acts).conns[c].ctl.late
    ensures var s := Run(EMPTY, acts);
            s.conns[c].registered || s.conns[c].todo != [] || s.conns[c].duty != C.NoDuty
            || (exists l :: c in Active(s, l))
            ==> OwnedByServer(s, c)
  {
    Reachable(acts);
    var s := Run(EMPTY, acts);
    hide Run, Runs;
    OwnedUntilDestroyed(s, c);
    assert Known(s, c);
    C.RegisteredWhile(s.conns[c]);
    hide Owned, OwnedByServer, C.Inv, Count, Known;
    if l :| c in Active(s, l) {
      var i :| 0 <= i < |Active(s, l)| && Active(s, l)[i] == c;
      assert Listed(s, l, Active(s, l)[i]);
    }
  }

  /** Once the server has let go of a connection, and so once no owner is left, it has been destroyed, and its own
      destructor's assertion holds. */
  lemma UnownedIsDestroyed(acts: seq<Action>, c: ConnId)
    requires Runs(EMPTY, acts) && c in Run(EMPTY, acts).conns && !OwnedByServer(Run(EMPTY, acts), c)
    ensures c in Run(EMPTY, acts).stages && Run(EMPTY, acts).stages[c] == ORDER
    ensures Run(EMPTY, acts).conns[c].st == C.Disconnected && Run(EMPTY, acts).conns[c].destroyed
  {
    Reachable(acts);
    var s := Run(EMPTY, acts);
    hide Run, Runs;
    OwnedUntilDestroyed(s, c);
    assert Known(s, c);
    C.RegisteredWhile(s.conns[c]);
    hide Owned, OwnedByServer, Count, Listed;
  }

  // Read control asked for by another thread

  /** The part of a queue that a step leaves in front. */
  function Kept(s: Sys, a: Action, l: LoopId): seq<Task> {
    if a == RunTask(l) && Queue(s, l) != [] then Queue(s, l)[1..] else Queue(s, l)
  }

  lemma PushKeeps(s: Sys, l: LoopId, t: Task, m: LoopId)
    ensures Queue(s, m) <= Queue(Push(s, l, t), m)
  {
  }

  lemma RunTaskQueues(s: Sys, l: LoopId, m: LoopId)
    requires Queue(s, l) != []
    ensures Kept(s, RunTask(l), m) <= Queue(RunTaskNow(s, l), m)
  {
    hide C.EntryStep, C.EntryEnabled;
    var p := Pop(s, l);
    assert Queue(p, m) == Kept(s, RunTask(l), m);
    var t := Queue(s, l)[0];
    if t.Remove? && t.c in s.home {
      PushKeeps(p, s.home[t.c], Destroy(t.c), m);
    }
  }

  lemma CloseQueues(s: Sys, c: ConnId, m: LoopId)
    requires c in s.conns && c in s.home && C.InnerEnabled(s.conns[c], C.EmitClose)
    ensures Queue(s, m) <= Queue(CloseNow(s, c), m)
  {
    hide C.InnerStep;
    PushKeeps(s, BASE, Remove(c), m);
    PushKeeps(s, BASE, Destroy(c), m);
  }

  /** Queues are first in, first out. */
  lemma StepQueues(s: Sys, a: Action, m: LoopId)
    requires Enabled(s, a)
    ensures Kept(s, a, m) <= Queue(Step(s, a), m)
  {
    hide C.Step, C.Enabled, C.EntryStep, C.EntryEnabled, C.InnerStep, C.InnerEnabled, Quiet, RunTaskNow, CloseNow;
    match a
    case Accept(l, cfg) => PushKeeps(s, l, Establish(s.next), m);
    case Close(c) => CloseQueues(s, c, m);
    case RunTask(l) => RunTaskQueues(s, l, m);
    case AskControl(c, start) => PushKeeps(s, s.home[c], Control(c, start), m);
    case _ =>
  }

  ghost predicate RunsDestroy(s: Sys, a: Action, c: ConnId) {
    a.RunTask? && Queue(s, a.l) != [] && Queue(s, a.l)[0] == Destroy(c)
  }

  lemma PopKnown(s: Sys, l: LoopId, c: ConnId)
    requires Known(s, c) && Queue(s, l) != []
    ensures Known(Pop(s, l), c)
  {
    KnownSame(s, Pop(s, l), c);
  }

  lemma SameReached(s: Sys, r: Sys, d: ConnId, c: ConnId)
    requires Inv(s) && SameBut(s, r, d) && c in s.conns && c != d
    ensures Reached(r, c) == Reached(s, c)
  {
    hide Known, Count, Listed;
  }

  /** One connection reaches a further stage. */
  lemma OneReaches(s: Sys, r: Sys, d: ConnId, c: ConnId)
    requires Inv(s) && SameBut(s, r, d) && c in s.conns && Reached(s, d) < 5
    ensures Reached(r, c) == 5 <==> Reached(s, c) == 5 || (c == d && Reached(r, d) == 5)
  {
    hide Inv, SameBut, Reached;
    if c != d {
      SameReached(s, r, d, c);
    }
  }

  lemma PopReached(s: Sys, l: LoopId, c: ConnId)
    requires Queue(s, l) != []
    ensures Reached(Pop(s, l), c) == Reached(s, c)
  {
  }

  lemma RunTaskAdvances(s: Sys, l: LoopId)
    requires Queue(s, l) != [] && !Queue(s, l)[0].Control? && Inv(s) && Enabled(s, RunTask(l))
    ensures var t, r := Queue(s, l)[0], RunTaskNow(s, l);
            SameBut(s, r, t.c) && Reached(s, t.c) < 5 && (Reached(r, t.c) == 5 <==> t.Destroy?)
  {
    HeadStage(s, l);
    hide Inv, Quiet, Known, SameBut, Reached, EstablishNow, EraseNow, DestroyNow, Due, C.Inv, C.TopLevel, C.EntryStep;
    var t := Queue(s, l)[0];
    var p := Pop(s, l);
    PopKnown(s, l, t.c);
    PopReached(s, l, t.c);
    if t.Establish? {
      EstablishFits(p, t.c);
    } else if t.Remove? {
      EraseFits(p, t.c);
    } else {
      DestroyFits(p, t.c);
    }
    PopSameBut(s, l, RunTaskNow(s, l), t.c);
  }

  lemma ControlReaches(s: Sys, l: LoopId, c: ConnId)
    requires Queue(s, l) != [] && Queue(s, l)[0].Control?
    ensures Reached(RunTaskNow(s, l), c) == Reached(s, c)
  {
    hide C.EntryStep, C.EntryEnabled;
  }

  lemma RunTaskReaches(s: Sys, l: LoopId, c: ConnId)
    requires Queue(s, l) != [] && c in s.conns && Inv(s) && Enabled(s, RunTask(l))
    ensures Reached(RunTaskNow(s, l), c) == 5 <==> Reached(s, c) == 5 || Queue(s, l)[0] == Destroy(c)
  {
    hide Inv, Quiet, SameBut, RunTaskNow, Reached;
    var t := Queue(s, l)[0];
    if t.Control? {
      ControlReaches(s, l, c);
    } else {
      RunTaskAdvances(s, l);
      OneReaches(s, RunTaskNow(s, l), t.c, c);
    }
  }

  lemma CloseReaches(s: Sys, d: ConnId, c: ConnId)
    requires Inv(s) && Enabled(s, Close(d)) && c in s.conns
    ensures Reached(CloseNow(s, d), c) == 5 <==> Reached(s, c) == 5
  {
    assert Known(s, d);
    CloseFits(s, d);
    hide CloseNow, Known, C.Inv, Inv, SameBut;
    if c != d {
      SameReached(s, CloseNow(s, d), d, c);
    }
  }

  lemma AcceptReaches(s: Sys, l: LoopId, cfg: C.Config, c: ConnId)
    requires c != s.next
    ensures Reached(AcceptNow(s, l, cfg), c) == Reached(s, c)
  {
    hide C.EntryStep, C.EntryEnabled;
  }

  lemma RunTaskNext(s: Sys, l: LoopId)
    requires Queue(s, l) != []
    ensures RunTaskNow(s, l).next == s.next
  {
    hide C.EntryStep, C.EntryEnabled;
  }

  lemma StepCounts(s: Sys, a: Action)
    requires Enabled(s, a)
    ensures Step(s, a).next >= s.next
  {
    hide C.Step, C.Enabled, C.EntryStep, C.EntryEnabled, C.InnerStep, C.InnerEnabled, Quiet, RunTaskNow;
    if a.RunTask? {
      RunTaskNext(s, a.l);
    }
  }

  lemma BelowNext(s: Sys, c: ConnId)
    requires Inv(s)
    ensures c in s.conns <==> c < s.next
  {
    hide Known, Count, Listed;
  }

  lemma StepKeepsConn(s: Sys, a: Action, c: ConnId)
    requires Inv(s) && Enabled(s, a) && c in s.conns
    ensures c in Step(s, a).conns && c != s.next
  {
    hide Inv, Step, Enabled;
    BelowNext(s, c);
    StepKeeps(s, a);
    StepCounts(s, a);
    BelowNext(Step(s, a), c);
  }

  lemma SameStages(s: Sys, r: Sys, c: ConnId)
    requires r.stages == s.stages
    ensures Reached(r, c) == Reached(s, c)
  {
  }

  /** A connection is destroyed by its Destroy functor and by nothing else. */
  lemma OnlyDestroyDestroys(s: Sys, a: Action, c: ConnId)
    requires Inv(s) && Enabled(s, a) && c in s.conns
    ensures c in Step(s, a).conns
    ensures Reached(Step(s, a), c) == 5 <==> Reached(s, c) == 5 || RunsDestroy(s, a, c)
  {
    hide C.Step, C.Enabled, C.EntryStep, C.EntryEnabled, C.InnerStep, C.InnerEnabled, C.Inv, Inv, Quiet;
    hide RunTaskNow, CloseNow, AcceptNow, Reached;
    StepKeepsConn(s, a, c);
    match a
    case Accept(l, cfg) => AcceptReaches(s, l, cfg, c);
    case Close(d) => CloseReaches(s, d, c);
    case RunTask(l) => RunTaskReaches(s, l, c);
    case _ => SameStages(s, Step(s, a), c);
  }

  /** The functor at position p of a queue, and whether the Destroy functor of c is in front of it. */
  ghost predicate Waiting(s: Sys, l: LoopId, p: nat, t: Task) {
    p < |Queue(s, l)| && Queue(s, l)[p] == t
  }

  ghost predicate DestroyAhead(s: Sys, l: LoopId, p: nat, c: ConnId) {
    exists i :: 0 <= i < p && i < |Queue(s, l)| && Queue(s, l)[i] == Destroy(c)
  }

  function MovedUp(a: Action, l: LoopId, p: nat): int {
    if a == RunTask(l) then p - 1 else p
  }

  /** A step keeps the order of the queue, so what is in front stays in front until it runs. */
  lemma StepAhead(s: Sys, a: Action, l: LoopId, p: nat, t: Task, c: ConnId)
    requires Enabled(s, a) && Waiting(s, l, p, t) && MovedUp(a, l, p) >= 0
    ensures Waiting(Step(s, a), l, MovedUp(a, l, p), t)
    ensures DestroyAhead(s, l, p, c) <==>
              DestroyAhead(Step(s, a), l, MovedUp(a, l, p), c) || (a == RunTask(l) && Queue(s, l)[0] == Destroy(c))
  {
    StepQueues(s, a, l);
    var r, q := Step(s, a), MovedUp(a, l, p);
    hide Step, Enabled;
    assert forall i :: 0 <= i < |Kept(s, a, l)| ==> Queue(r, l)[i] == Kept(s, a, l)[i];
    if a == RunTask(l) {
      assert forall i :: 0 <= i < |Kept(s, a, l)| ==> Queue(r, l)[i] == Queue(s, l)[i + 1];
      if i :| 0 < i < p && Queue(s, l)[i] == Destroy(c) {
        assert Queue(r, l)[i - 1] == Destroy(c);
      }
    }
  }

  /** How many functors of a loop these steps run. */
  function TasksRun(acts: seq<Action>, l: LoopId): nat {
    if acts == [] then 0 else (if acts[0] == RunTask(l) then 1 else 0) + TasksRun(acts[1..], l)
  }

  lemma RunTaskHome(s: Sys, l: LoopId)
    requires Queue(s, l) != []
    ensures RunTaskNow(s, l).home == s.home
  {
    hide C.EntryStep, C.EntryEnabled;
  }

  lemma CloseHome(s: Sys, c: ConnId)
    requires c in s.conns && c in s.home && C.InnerEnabled(s.conns[c], C.EmitClose)
    ensures CloseNow(s, c).home == s.home
  {
    hide C.InnerStep, C.InnerEnabled;
  }

  lemma AcceptHome(s: Sys, l: LoopId, cfg: C.Config)
    ensures AcceptNow(s, l, cfg).home == s.home[s.next := l]
  {
    hide C.EntryStep, C.EntryEnabled;
  }

  lemma HomeStays(s: Sys, a: Action, c: ConnId)
    requires Inv(s) && Enabled(s, a) && c in s.conns && c in s.home
    ensures c in Step(s, a).home && Step(s, a).home[c] == s.home[c]
  {
    hide Inv, C.Step, C.Enabled, C.EntryStep, C.EntryEnabled, C.InnerStep, C.InnerEnabled, Quiet;
    hide RunTaskNow, CloseNow, AcceptNow;
    match a
    case Accept(l, cfg) =>
      BelowNext(s, c);
      AcceptHome(s, l, cfg);
    case Close(d) => CloseHome(s, d);
    case RunTask(l) => RunTaskHome(s, l);
    case _ =>
  }

  lemma RunsDestroyAtHome(s: Sys, a: Action, c: ConnId)
    requires Inv(s) && Enabled(s, a) && c in s.home
    ensures RunsDestroy(s, a, c) ==> a == RunTask(s.home[c])
  {
    if RunsDestroy(s, a, c) {
      HeadStage(s, a.l);
    }
  }

  /** The connection is destroyed, or will be before the functor at position p has its turn. */
  ghost predicate Doomed(s: Sys, l: LoopId, p: nat, c: ConnId) {
    Reached(s, c) == 5 || DestroyAhead(s, l, p, c)
  }

  ghost predicate LivesOn(s: Sys, c: ConnId, l: LoopId) {
    Inv(s) && c in s.conns && c in s.home && s.home[c] == l
  }

  lemma StepMeanwhile(s: Sys, a: Action, l: LoopId, p: nat, t: Task, c: ConnId)
    requires LivesOn(s, c, l) && Enabled(s, a) && Waiting(s, l, p, t) && MovedUp(a, l, p) >= 0
    ensures LivesOn(Step(s, a), c, l) && Waiting(Step(s, a), l, MovedUp(a, l, p), t)
    ensures Doomed(Step(s, a), l, MovedUp(a, l, p), c) <==> Doomed(s, l, p, c)
  {
    assert Queue(s, l) != [];
    hide Step, Enabled, Inv, Waiting, DestroyAhead, Reached;
    StepKeeps(s, a);
    StepAhead(s, a, l, p, t, c);
    OnlyDestroyDestroys(s, a, c);
    HomeStays(s, a, c);
    RunsDestroyAtHome(s, a, c);
  }

  /** While a functor waits for its turn nothing changes about that. */
  lemma {:induction false} DoomStays(s: Sys, acts: seq<Action>, l: LoopId, p: nat, t: Task, c: ConnId)
    requires LivesOn(s, c, l) && Runs(s, acts) && Waiting(s, l, p, t) && TasksRun(acts, l) <= p
    ensures LivesOn(Run(s, acts), c, l) && Waiting(Run(s, acts), l, p - TasksRun(acts, l), t)
    ensures Doomed(Run(s, acts), l, p - TasksRun(acts, l), c) <==> Doomed(s, l, p, c)
    decreases |acts|
  {
    hide Step, Enabled, LivesOn, Waiting, Doomed;
    if acts != [] {
      StepMeanwhile(s, acts[0], l, p, t, c);
      DoomStays(Step(s, acts[0]), acts[1..], l, MovedUp(acts[0], l, p), t, c);
    }
  }

  lemma DestroyQueued(s: Sys, c: ConnId, l: LoopId, t: Task)
    requires Inv(s) && c in s.conns && c in s.home && l == s.home[c] && t != Destroy(c)
    ensures var r := Push(s, l, t);
            Doomed(r, l, |Queue(s, l)|, c) <==> c !in s.entries
  {
    StageIsKnown(s, c);
    QueuedIsDue(s, l, Destroy(c));
    hide Inv;
    var r := Push(s, l, t);
    if Reached(s, c) == 4 {
      var i :| 0 <= i < |Queue(s, l)| && Queue(s, l)[i] == Destroy(c);
      assert Queue(r, l)[i] == Destroy(c);
    }
    assert forall i :: 0 <= i < |Queue(s, l)| ==> Queue(r, l)[i] == Queue(s, l)[i];
  }

  lemma AskIsPush(s: Sys, c: ConnId, start: bool)
    requires c in s.home && Enabled(s, AskControl(c, start))
    ensures Step(s, AskControl(c, start)) == Push(s, s.home[c], Control(c, start))
  {
    hide AcceptNow, CloseNow, RunTaskNow, Push, C.Step, C.Enabled, C.InnerEnabled;
  }

  lemma Asked(s: Sys, c: ConnId, start: bool)
    requires c in s.home && Enabled(s, AskControl(c, start)) && Inv(s)
    ensures var l := s.home[c];
            var q := Push(s, l, Control(c, start));
            && LivesOn(q, c, l) && Waiting(q, l, |Queue(s, l)|, Control(c, start))
            && (Doomed(q, l, |Queue(s, l)|, c) <==> c !in s.entries)
  {
    AskControlKeeps(s, c, start);
    hide Inv, Doomed, Enabled;
    DestroyQueued(s, c, s.home[c], Control(c, start));
  }

  lemma AtTurn(s: Sys, l: LoopId, t: Task, c: ConnId)
    requires LivesOn(s, c, l) && Waiting(s, l, 0, t)
    ensures Queue(s, l) != [] && Queue(s, l)[0] == t
    ensures c in s.conns && (OwnedByServer(s, c) <==> !Doomed(s, l, 0, c))
    ensures Owned(s, c) <==> OwnedByServer(s, c) || s.conns[c].tasks != []
  {
    hide Inv, OwnedByServer;
    OwnedUntilDestroyed(s, c);
    StageIsKnown(s, c);
  }

  lemma ControlTurn(s: Sys, c: ConnId, start: bool, l: LoopId, wait: seq<Action>)
    requires c in s.home && l == s.home[c] && Enabled(s, AskControl(c, start)) && Inv(s)
    requires Runs(Step(s, AskControl(c, start)), wait) && TasksRun(wait, l) == |Queue(s, l)|
    ensures var r := Run(Step(s, AskControl(c, start)), wait);
            && Queue(r, l) != [] && Queue(r, l)[0] == Control(c, start)
            && c in r.conns && (OwnedByServer(r, c) <==> c in s.entries)
            && (Owned(r, c) <==> c in s.entries || r.conns[c].tasks != [])
  {
    hide *;
    AskIsPush(s, c, start);
    Asked(s, c, start);
    var q := Step(s, AskControl(c, start));
    DoomStays(q, wait, l, |Queue(s, l)|, Control(c, start), c);
    AtTurn(Run(q, wait), l, Control(c, start), c);
  }

  /** StartRead or StopRead from another thread: when as many functors have run as were ahead of it, it is the functor's
      turn. The server owns the connection then exactly when the connection was still in the server's map at the call,
      that is, when its Destroy functor was not queued yet; otherwise only a functor of the connection still queued on
      its loop can own it. */
  lemma ControlOwnedCondition(past: seq<Action>, c: ConnId, start: bool, wait: seq<Action>)
    requires Runs(EMPTY, past) && Enabled(Run(EMPTY, past), AskControl(c, start))
    requires Runs(Step(Run(EMPTY, past), AskControl(c, start)), wait)
    requires var l := Run(EMPTY, past).home[c]; TasksRun(wait, l) == |Queue(Run(EMPTY, past), l)|
    ensures var s := Run(EMPTY, past);
            var r := Run(Step(s, AskControl(c, start)), wait);
            && Queue(r, s.home[c]) != [] && Queue(r, s.home[c])[0] == Control(c, start)
            && c in r.conns && (OwnedByServer(r, c) <==> c in s.entries)
            && (Owned(r, c) <==> c in s.entries || r.conns[c].tasks != [])
  {
    Reachable(past);
    ControlTurn(Run(EMPTY, past), c, start, Run(EMPTY, past).home[c], wait);
  }

  // The whole life of a connection does happen

  lemma {:induction false} Extend(s: Sys, acts: seq<Action>, a: Action)
    requires Runs(s, acts) && Enabled(Run(s, acts), a)
    ensures Runs(s, acts + [a]) && Run(s, acts + [a]) == Step(Run(s, acts), a)
    decreases |acts|
  {
    hide Step, Enabled;
    if acts == [] {
      assert (acts + [a])[1..] == [];
      assert Runs(Step(s, a), []) && Run(Step(s, a), []) == Step(s, a);
    } else {
      assert (acts + [a])[1..] == acts[1..] + [a];
      Extend(Step(s, acts[0]), acts[1..], a);
    }
  }

  lemma Nothing(s: Sys)
    ensures Runs(s, []) && Run(s, []) == s
  {
  }

  /** Connection 0 alone, living on loop 1, with what the two loops have queued and loop 1 has polled. */
  ghost predicate Alone(s: Sys, k: C.Conn, base: seq<Task>, io: seq<Task>, polled: seq<ConnId>, n: nat) {
    && s.conns.Keys == {0} && s.conns[0] == k && 0 in s.home && s.home[0] == 1
    && Queue(s, BASE) == base && Queue(s, 1) == io && Active(s, BASE) == [] && Active(s, 1) == polled
    && n <= 5 && 0 in s.stages && s.stages[0] == ORDER[..n]
  }

  predicate AtRest(k: C.Conn) {
    C.TopLevel(k) && k.todo == []
  }

  lemma AloneAccept(cfg: C.Config)
    ensures Alone(AcceptNow(EMPTY, 1, cfg), C.Initial(cfg), [], [Establish(0)], [], 1)
  {
    assert ORDER[..1] == [Accepted];
  }

  lemma AloneAct(s: Sys, k: C.Conn, base: seq<Task>, io: seq<Task>, polled: seq<ConnId>, n: nat, k': C.Conn)
    requires Alone(s, k, base, io, polled, n)
    ensures Alone(SetConn(s, 0, k'), k', base, io, polled, n)
  {
  }

  lemma AloneEstablish(s: Sys, k: C.Conn)
    requires Alone(s, k, [], [Establish(0)], [], 1) && AtRest(k) && C.EntryEnabled(k, C.Establish)
    ensures Enabled(s, RunTask(1))
    ensures Alone(RunTaskNow(s, 1), C.EntryStep(k, C.Establish), [], [], [], 2)
  {
    hide C.EntryStep, C.EntryEnabled, C.TopLevel;
    assert ORDER[..2] == ORDER[..1] + [Established];
  }

  lemma AlonePoll(s: Sys, k: C.Conn)
    requires Alone(s, k, [], [], [], 2) && AtRest(k) && k.registered
    ensures Enabled(s, Poll(1, [0])) && Alone(Step(s, Poll(1, [0])), k, [], [], [0], 2)
  {
    hide C.TopLevel;
  }

  lemma AloneDispatch(s: Sys, k: C.Conn, revents: C.Revents)
    requires Alone(s, k, [], [], [0], 2) && AtRest(k) && k.registered
    ensures Enabled(s, Dispatch(1, revents)) && C.EntryEnabled(k, C.Polled(revents))
    ensures Alone(Step(s, Dispatch(1, revents)), C.EntryStep(k, C.Polled(revents)), [], [], [], 2)
  {
    hide C.EntryStep, C.TopLevel;
  }

  lemma AloneClose(s: Sys, k: C.Conn)
    requires Alone(s, k, [], [], [], 2) && C.InnerEnabled(k, C.EmitClose)
    ensures Enabled(s, Close(0)) && Alone(CloseNow(s, 0), C.InnerStep(k, C.EmitClose), [Remove(0)], [], [], 3)
  {
    hide C.InnerStep, C.InnerEnabled;
    assert ORDER[..3] == ORDER[..2] + [Closed];
  }

  lemma AloneErase(s: Sys, k: C.Conn)
    requires Alone(s, k, [Remove(0)], [], [], 3)
    ensures Enabled(s, RunTask(BASE)) && Alone(RunTaskNow(s, BASE), k, [], [Destroy(0)], [], 4)
  {
    assert ORDER[..4] == ORDER[..3] + [Erased];
  }

  lemma AloneDestroy(s: Sys, k: C.Conn, behind: seq<Task>)
    requires Alone(s, k, [], [Destroy(0)] + behind, [], 4) && AtRest(k) && C.EntryEnabled(k, C.Destroy)
    ensures Enabled(s, RunTask(1)) && Alone(RunTaskNow(s, 1), C.DestroyOf(k), [], behind, [], 5)
  {
    hide C.DestroyOf, C.EntryEnabled, C.TopLevel;
    assert ORDER[..5] == ORDER[..4] + [Destroyed] && ([Destroy(0)] + behind)[1..] == behind;
  }

  lemma AloneIsDone(s: Sys, k: C.Conn, io: seq<Task>)
    requires Alone(s, k, [], io, [], 5)
    ensures 0 in s.stages && s.stages[0] == ORDER
  {
    assert ORDER[..5] == ORDER;
  }

  ghost predicate AloneAfter(acts: seq<Action>, k: C.Conn, base: seq<Task>, io: seq<Task>, polled: seq<ConnId>, n: nat)
  {
    Runs(EMPTY, acts) && Alone(Run(EMPTY, acts), k, base, io, polled, n)
  }

  lemma ThenAct(acts: seq<Action>, k: C.Conn, io: seq<Task>, n: nat, a: C.Action) returns (next: seq<Action>)
    requires AloneAfter(acts, k, [], io, [], n) && C.Enabled(k, a)
    requires !C.IsLifecycle(a) && !(a.Enter? && a.entry.Polled?)
    ensures AloneAfter(next, C.Step(k, a), [], io, [], n)
  {
    hide Runs, Run, C.Enabled, C.Step;
    Extend(EMPTY, acts, Act(0, a));
    AloneAct(Run(EMPTY, acts), k, [], io, [], n, C.Step(k, a));
    next := acts + [Act(0, a)];
  }

  lemma OpeningSteps(cfg: C.Config)
    ensures AtRest(C.Initial(cfg)) && C.EntryEnabled(C.Initial(cfg), C.Establish)
    ensures var k := C.EntryStep(C.Initial(cfg), C.Establish);
            C.Enabled(k, C.Inside(C.EstablishUp)) && C.Step(k, C.Inside(C.EstablishUp)) == C.Opened(cfg)
  {
    assert [] + [C.Up] == [C.Up];
  }

  lemma LifeOpens(cfg: C.Config) returns (acts: seq<Action>)
    ensures AloneAfter(acts, C.Opened(cfg), [], [], [], 2)
  {
    Nothing(EMPTY);
    OpeningSteps(cfg);
    hide Runs, Run, Alone, AcceptNow, RunTaskNow, Quiet, AtRest, C.EntryStep, C.EntryEnabled, C.Step, C.Enabled;
    Extend(EMPTY, [], Accept(1, cfg));
    AloneAccept(cfg);
    acts := [] + [Accept(1, cfg)];
    AloneEstablish(Run(EMPTY, acts), C.Initial(cfg));
    Extend(EMPTY, acts, RunTask(1));
    acts := acts + [RunTask(1)];
    acts := ThenAct(acts, C.EntryStep(C.Initial(cfg), C.Establish), [], 2, C.Inside(C.EstablishUp));
  }

  lemma HangUpIsPolled(k: C.Conn)
    requires C.EntryEnabled(k, C.Polled(C.HANG_UP))
    ensures C.EntryStep(k, C.Polled(C.HANG_UP)) == k.(todo := [C.OnClose])
  {
    assert C.Dispatch(C.HANG_UP) == [C.OnClose];
  }

  lemma LifeHangsUp(before: seq<Action>, k: C.Conn) returns (acts: seq<Action>)
    requires AloneAfter(before, k, [], [], [], 2) && k.registered && AtRest(k)
    ensures AloneAfter(acts, k.(todo := [C.OnClose]), [], [], [], 2)
  {
    hide Runs, Run, Alone, Step, Enabled;
    AlonePoll(Run(EMPTY, before), k);
    Extend(EMPTY, before, Poll(1, [0]));
    acts := before + [Poll(1, [0])];
    AloneDispatch(Run(EMPTY, acts), k, C.HANG_UP);
    HangUpIsPolled(k);
    Extend(EMPTY, acts, Dispatch(1, C.HANG_UP));
    acts := acts + [Dispatch(1, C.HANG_UP)];
  }

  /** What handle_close makes of an open connection, up to on_close_. */
  function Shutting(k: C.Conn): C.Conn {
    k.(st := C.Disconnected, reading := false, writing := false, duty := C.OweClose, notes := k.notes + [C.Down])
  }

  lemma ClosingSteps(k: C.Conn)
    requires C.Open(k) && AtRest(k)
    ensures var d := k.(todo := [C.OnClose]);
            && C.Enabled(d, C.Enter(C.HandleClose))
            && C.Step(d, C.Enter(C.HandleClose)) == k.(pc := C.CloseTest)
    ensures C.Step(k.(pc := C.CloseTest), C.Inside(C.TestClose)) == k.(pc := C.CloseStore)
    ensures var d := k.(st := C.Disconnected, reading := false, writing := false, duty := C.OweDown);
            && C.Step(k.(pc := C.CloseStore), C.Inside(C.StoreClose)) == d
            && C.Enabled(d, C.Inside(C.NotifyDown)) && C.Step(d, C.Inside(C.NotifyDown)) == Shutting(k)
  {
    assert [C.OnClose][1..] == [];
  }

  lemma LifeCloses(before: seq<Action>, k: C.Conn) returns (acts: seq<Action>)
    requires AloneAfter(before, k.(todo := [C.OnClose]), [], [], [], 2) && C.Open(k) && AtRest(k)
    ensures AloneAfter(acts, Shutting(k), [], [], [], 2)
  {
    ClosingSteps(k);
    assert C.Enabled(k.(pc := C.CloseTest), C.Inside(C.TestClose));
    assert C.Enabled(k.(pc := C.CloseStore), C.Inside(C.StoreClose));
    hide AloneAfter, C.Step, C.Enabled, AtRest, Shutting;
    acts := ThenAct(before, k.(todo := [C.OnClose]), [], 2, C.Enter(C.HandleClose));
    acts := ThenAct(acts, k.(pc := C.CloseTest), [], 2, C.Inside(C.TestClose));
    acts := ThenAct(acts, k.(pc := C.CloseStore), [], 2, C.Inside(C.StoreClose));
    var d := k.(st := C.Disconnected, reading := false, writing := false, duty := C.OweDown);
    acts := ThenAct(acts, d, [], 2, C.Inside(C.NotifyDown));
  }

  /** What the server does after that. */
  lemma LifeIsErased(before: seq<Action>, k: C.Conn) returns (acts: seq<Action>)
    requires AloneAfter(before, k, [], [], [], 2) && C.InnerEnabled(k, C.EmitClose)
    ensures AloneAfter(acts, C.InnerStep(k, C.EmitClose), [], [Destroy(0)], [], 4)
  {
    hide Runs, Run, Alone, CloseNow, RunTaskNow, Quiet, C.InnerStep, C.InnerEnabled;
    AloneClose(Run(EMPTY, before), k);
    Extend(EMPTY, before, Close(0));
    acts := before + [Close(0)];
    AloneErase(Run(EMPTY, acts), C.InnerStep(k, C.EmitClose));
    Extend(EMPTY, acts, RunTask(BASE));
    acts := acts + [RunTask(BASE)];
  }

  lemma ShuttingMayGo(k: C.Conn)
    requires C.Inv(k) && C.Open(k) && AtRest(k)
    ensures C.InnerEnabled(Shutting(k), C.EmitClose)
    ensures var d := C.InnerStep(Shutting(k), C.EmitClose);
            && d == Shutting(k).(duty := C.NoDuty, notes := [C.Up, C.Down, C.Close])
            && AtRest(d) && C.EntryEnabled(d, C.Destroy)
  {
    assert k.notes == [C.Up] && !k.destroyed;
    hide C.Inv;
    assert [C.Up] + [C.Down] + [C.Close] == [C.Up, C.Down, C.Close];
  }

  /** From any open connection at rest to one erased and waiting for its Destroy functor. */
  lemma LifeToErasure(before: seq<Action>, k: C.Conn) returns (acts: seq<Action>, d: C.Conn)
    requires AloneAfter(before, k, [], [], [], 2) && C.Inv(k) && C.Open(k) && k.registered && AtRest(k)
    ensures AloneAfter(acts, d, [], [Destroy(0)], [], 4)
    ensures d == Shutting(k).(duty := C.NoDuty, notes := [C.Up, C.Down, C.Close])
    ensures AtRest(d) && C.EntryEnabled(d, C.Destroy)
  {
    ShuttingMayGo(k);
    hide AloneAfter, C.Inv, AtRest, Shutting, C.InnerStep, C.InnerEnabled, C.EntryEnabled;
    acts := LifeHangsUp(before, k);
    acts := LifeCloses(acts, k);
    acts := LifeIsErased(acts, Shutting(k));
    d := C.InnerStep(Shutting(k), C.EmitClose);
  }

  lemma ThenDestroy(before: seq<Action>, k: C.Conn, behind: seq<Task>) returns (acts: seq<Action>)
    requires AloneAfter(before, k, [], [Destroy(0)] + behind, [], 4) && AtRest(k) && C.EntryEnabled(k, C.Destroy)
    ensures AloneAfter(acts, C.DestroyOf(k), [], behind, [], 5)
  {
    hide Runs, Run, Alone, RunTaskNow, Quiet, C.DestroyOf, C.EntryEnabled;
    AloneDestroy(Run(EMPTY, before), k, behind);
    Extend(EMPTY, before, RunTask(1));
    acts := before + [RunTask(1)];
  }

  lemma OpenedIsSound(cfg: C.Config)
    ensures C.Inv(C.Opened(cfg)) && AtRest(C.Opened(cfg))
  {
  }

  /** The five stages are not only the most a connection can go through: some run takes one through all of them. */
  lemma WholeLifeHappens(cfg: C.Config) returns (acts: seq<Action>)
    ensures Runs(EMPTY, acts) && 0 in Run(EMPTY, acts).stages && Run(EMPTY, acts).stages[0] == ORDER
  {
    OpenedIsSound(cfg);
    hide Runs, Run, Alone, C.Inv, AtRest;
    acts := LifeOpens(cfg);
    var k: C.Conn;
    acts, k := LifeToErasure(acts, C.Opened(cfg));
    assert [Destroy(0)] + [] == [Destroy(0)];
    acts := ThenDestroy(acts, k, []);
    AloneIsDone(Run(EMPTY, acts), C.DestroyOf(k), []);
  }

  lemma ThenAsk(before: seq<Action>, k: C.Conn) returns (acts: seq<Action>)
    requires AloneAfter(before, k, [], [Destroy(0)], [], 4) && k.st != C.Connecting
    ensures AloneAfter(acts, k, [], [Destroy(0)] + [Control(0, true)], [], 4)
  {
    hide Runs, Run;
    Extend(EMPTY, before, AskControl(0, true));
    acts := before + [AskControl(0, true)];
  }

  lemma AloneQueue(s: Sys, k: C.Conn, io: seq<Task>)
    requires Alone(s, k, [], io, [], 5)
    ensures Queue(s, 1) == io && 0 in s.conns && s.conns[0] == k && Reached(s, 0) == 5
  {
  }

  lemma LateControlRuns(s: Sys, k: C.Conn)
    requires Alone(s, k, [], [Control(0, true)], [], 5) && AtRest(k) && k.st == C.Disconnected
    ensures Enabled(s, RunTask(1))
    ensures Alone(RunTaskNow(s, 1), C.StartReadOf(k), [], [], [], 5)
  {
    hide C.StartReadOf;
  }

  /** A destroyed connection is owned exactly if one of its own functors is queued. */
  lemma LateOwned(s: Sys, k: C.Conn, io: seq<Task>)
    requires Alone(s, k, [], io, [], 5) && Inv(s)
    ensures Owned(s, 0) <==> k.tasks != []
    ensures 0 in s.conns && s.conns[0] == k && Queue(s, 1) == io && !OwnedByServer(s, 0)
  {
    hide Inv, Owned, OwnedByServer;
    AloneQueue(s, k, io);
    OwnedUntilDestroyed(s, 0);
  }

  lemma RunIsReachable(acts: seq<Action>, k: C.Conn)
    requires AloneAfter(acts, k, [], [Control(0, true)], [], 5)
    ensures Inv(Run(EMPTY, acts))
  {
    Reachable(acts);
  }

  /** From any open connection at rest: erased, read control asked for by another thread, destroyed. */
  lemma LifeWithLateControl(before: seq<Action>, k: C.Conn) returns (acts: seq<Action>, d: C.Conn)
    requires AloneAfter(before, k, [], [], [], 2) && C.Inv(k) && C.Open(k) && k.registered && AtRest(k)
    ensures AloneAfter(acts, d, [], [Control(0, true)], [], 5) && Inv(Run(EMPTY, acts))
    ensures d == Shutting(k).(duty := C.NoDuty, notes := [C.Up, C.Down, C.Close], registered := false,
                              destroyed := true)
    ensures AtRest(d)
  {
    hide AloneAfter, C.Inv, Inv;
    acts, d := LifeToErasure(before, k);
    acts := ThenAsk(acts, d);
    acts := ThenDestroy(acts, d, [Control(0, true)]);
    d := C.DestroyOf(d);
    RunIsReachable(acts, d);
  }

  /** A run in which StartRead, called on another thread while the Destroy functor is queued, finds no owner when its
      functor has its turn, and leaves the poller with the raw pointer of a connection nothing owns. */
  lemma ControlCanBeUnowned(cfg: C.Config) returns (acts: seq<Action>)
    ensures Runs(EMPTY, acts) && Enabled(Run(EMPTY, acts), RunTask(1))
    ensures var s := Run(EMPTY, acts);
            var r := Step(s, RunTask(1));
            && Queue(s, 1)[0] == Control(0, true) && !Owned(s, 0)
            && 0 in r.conns && r.conns[0].registered && !Owned(r, 0)
  {
    OpenedIsSound(cfg);
    hide Runs, Run, Owned, Inv, Alone, Enabled, C.Inv, AtRest, RunTaskNow;
    acts := LifeOpens(cfg);
    var d: C.Conn;
    acts, d := LifeWithLateControl(acts, C.Opened(cfg));
    var s := Run(EMPTY, acts);
    LateControlRuns(s, d);
    LateOwned(s, d, [Control(0, true)]);
    StepKeeps(s, RunTask(1));
    LateOwned(RunTaskNow(s, 1), C.StartReadOf(d), []);
  }

  lemma ForcedIsSound(cfg: C.Config)
    ensures C.Enabled(C.Opened(cfg), C.By(1, C.Force))
    ensures var k := C.Step(C.Opened(cfg), C.By(1, C.Force));
            && C.Inv(k) && C.Open(k) && k.registered && AtRest(k) && k.tasks == []
            && C.Api(k, 1) == C.ForceWon && C.Api(k, C.LOOP) == C.ApiIdle
  {
    OpenedIsSound(cfg);
    C.CallKeeps(C.Opened(cfg), 1, C.Force);
    hide C.Inv;
  }

  lemma ForceQueues(k: C.Conn)
    requires C.Api(k, 1) == C.ForceWon && AtRest(k) && k.tasks == []
    ensures C.Enabled(k, C.By(1, C.ForceGo))
    ensures var d := C.Step(k, C.By(1, C.ForceGo));
            d == k.(api := d.api, tasks := [C.ForceCloseTask]) && AtRest(d)
  {
  }

  /** A run in which the connection was no longer in the map at the call, and yet has an owner at the functor's turn:
      the functor of a ForceClose that had won its race before the connection was closed. */
  lemma FunctorCanOwn(cfg: C.Config) returns (acts: seq<Action>)
    ensures Runs(EMPTY, acts) && Enabled(Run(EMPTY, acts), RunTask(1))
    ensures var s := Run(EMPTY, acts); Queue(s, 1)[0] == Control(0, true) && Owned(s, 0) && !OwnedByServer(s, 0)
  {
    ForcedIsSound(cfg);
    hide Runs, Run, Owned, OwnedByServer, Inv, Alone, Enabled, C.Inv, AtRest, Step, C.Step, C.Enabled;
    acts := LifeOpens(cfg);
    acts := ThenAct(acts, C.Opened(cfg), [], 2, C.By(1, C.Force));
    var d: C.Conn;
    acts, d := LifeWithLateControl(acts, C.Step(C.Opened(cfg), C.By(1, C.Force)));
    ForceQueues(d);
    acts := ThenAct(acts, d, [Control(0, true)], 5, C.By(1, C.ForceGo));
    d := C.Step(d, C.By(1, C.ForceGo));
    RunIsReachable(acts, d);
    LateControlRuns(Run(EMPTY, acts), d);
    LateOwned(Run(EMPTY, acts), d, [Control(0, true)]);
  }

  lemma Sound(k: C.Conn)
    requires C.Inv(k)
    ensures k.notes <= [C.Up, C.Down, C.Close] && k.o.kernel <= k.o.accepted
  {
    hide C.Raced, C.Interested, C.HalfClosed;
    C.KernelIsPrefix(k.o.kernel, k.o.buf, C.InFlight(k.pc), k.o.dropped);
  }

  /** The guarantees for a single connection hold for every connection of the server in every run. */
  lemma ConnectionsAreSound(acts: seq<Action>, c: ConnId)
    requires Runs(EMPTY, acts) && c in Run(EMPTY, acts).conns
    ensures var k := Run(EMPTY, acts).conns[c];
            && C.Inv(k) && k.notes <= [C.Up, C.Down, C.Close] && k.o.kernel <= k.o.accepted
  {
    Reachable(acts);
    assert Known(Run(EMPTY, acts), c);
    Sound(Run(EMPTY, acts).conns[c]);
  }

  // What a poll reports

  lemma ActiveIsListed(s: Sys, l: LoopId)
    requires Active(s, l) != [] && Inv(s)
    ensures Listed(s, l, Active(s, l)[0])
  {
    hide Listed, Known, Count;
  }

  lemma QuietAtRest(s: Sys, l: LoopId, c: ConnId)
    requires Listed(s, l, c) && Quiet(s, l)
    ensures AtRest(s.conns[c])
  {
  }

  /** A channel that was polled is still registered and at rest when its turn comes. */
  lemma DispatchReady(s: Sys, l: LoopId, c: ConnId, revents: C.Revents)
    requires Active(s, l) != [] && Active(s, l)[0] == c && Inv(s) && Quiet(s, l)
    ensures Enabled(s, Dispatch(l, revents)) && c in s.conns && s.conns[c].registered && AtRest(s.conns[c])
  {
    ActiveIsListed(s, l);
    hide Inv, Quiet, C.Enabled, C.InnerEnabled;
    QuietAtRest(s, l, c);
  }

  /** The channel whose turn it is gets exactly the handlers of the events reported for it, in order. */
  lemma DispatchServes(past: seq<Action>, l: LoopId, r: C.Revents)
    requires Runs(EMPTY, past) && Enabled(Run(EMPTY, past), Dispatch(l, r))
    ensures var s := Run(EMPTY, past);
            var c := Active(s, l)[0];
            && c in s.conns && c in Step(s, Dispatch(l, r)).conns
            && var hs := Step(s, Dispatch(l, r)).conns[c].todo;
            && (C.OnError in hs <==> r.err)
            && (C.OnClose in hs <==> (r.hup || r.rdhup) && !r.readable)
            && (C.OnRead in hs <==> r.readable || r.pri || r.rdhup)
            && (C.OnWrite in hs <==> r.writable)
            && C.InOrder(hs)
  {
    Reachable(past);
    C.DispatchMeans(r);
    hide Run, Runs, Inv, C.Dispatch, C.InOrder, Quiet;
    var s := Run(EMPTY, past);
    DispatchReady(s, l, Active(s, l)[0], r);
  }

  /** The channels a loop comes to in these steps. */
  ghost function Visited(s: Sys, acts: seq<Action>, l: LoopId): seq<ConnId>
    requires Runs(s, acts)
    decreases |acts|
  {
    if acts == [] then []
    else
      (if acts[0].Dispatch? && acts[0].l == l then [Active(s, l)[0]] else []) + Visited(Step(s, acts[0]), acts[1..], l)
  }

  lemma RunTaskActive(s: Sys, l: LoopId)
    requires Queue(s, l) != []
    ensures RunTaskNow(s, l).active == s.active
  {
    hide C.EntryStep, C.EntryEnabled;
  }

  lemma StepVisits(s: Sys, a: Action, l: LoopId)
    requires Enabled(s, a) && !(a.Poll? && a.l == l)
    ensures Active(s, l) == (if a.Dispatch? && a.l == l then [Active(s, l)[0]] else []) + Active(Step(s, a), l)
  {
    hide Quiet, RunTaskNow, C.Step, C.Enabled, C.EntryStep, C.EntryEnabled, C.InnerStep, C.InnerEnabled;
    if a.RunTask? {
      RunTaskActive(s, a.l);
    }
  }

  lemma {:induction false} ActiveAreVisited(s: Sys, acts: seq<Action>, l: LoopId)
    requires Runs(s, acts) && forall k :: 0 <= k < |acts| ==> !(acts[k].Poll? && acts[k].l == l)
    ensures Active(s, l) == Visited(s, acts, l) + Active(Run(s, acts), l)
    decreases |acts|
  {
    hide Step, Quiet, Active, Queue;
    if acts != [] {
      StepVisits(s, acts[0], l);
      ActiveAreVisited(Step(s, acts[0]), acts[1..], l);
    }
  }

  lemma PollReports(s: Sys, l: LoopId, ready: seq<ConnId>)
    requires Enabled(s, Poll(l, ready))
    ensures Active(Step(s, Poll(l, ready)), l) == ready
  {
    hide Quiet, AcceptNow, CloseNow, RunTaskNow, C.Step, C.Enabled, C.InnerEnabled;
  }

  lemma NoneActive(s: Sys, l: LoopId)
    requires Enabled(s, RunTask(l))
    ensures Active(s, l) == []
  {
    hide Quiet, C.Enabled, C.InnerEnabled;
  }

  /** After a poll, until its next one, a loop comes to the channels reported, in order, whatever the other loops do,
      and leaves none out before it runs a functor. */
  lemma PolledAreVisited(s: Sys, l: LoopId, ready: seq<ConnId>, acts: seq<Action>)
    requires Enabled(s, Poll(l, ready)) && Runs(Step(s, Poll(l, ready)), acts)
    requires forall k :: 0 <= k < |acts| ==> !(acts[k].Poll? && acts[k].l == l)
    ensures Visited(Step(s, Poll(l, ready)), acts, l) <= ready
    ensures Enabled(Run(Step(s, Poll(l, ready)), acts), RunTask(l)) ==>
              Visited(Step(s, Poll(l, ready)), acts, l) == ready
  {
    hide Step, Enabled, Active, Run, Runs, Visited;
    var t := Step(s, Poll(l, ready));
    PollReports(s, l, ready);
    ActiveAreVisited(t, acts, l);
    if Enabled(Run(t, acts), RunTask(l)) {
      NoneActive(Run(t, acts), l);
      assert Visited(t, acts, l) + [] == Visited(t, acts, l);
    }
  }

  lemma {:induction false} HomeLasts(s: Sys, acts: seq<Action>, c: ConnId)
    requires Inv(s) && Runs(s, acts) && c in s.conns && c in s.home
    ensures c in Run(s, acts).home && Run(s, acts).home[c] == s.home[c]
    decreases |acts|
  {
    hide Step, Inv, Enabled;
    if acts != [] {
      HomeStays(s, acts[0], c);
      StepKeepsConn(s, acts[0], c);
      StepKeeps(s, acts[0]);
      HomeLasts(Step(s, acts[0]), acts[1..], c);
    }
  }

  /** A connection lives on the loop it was accepted for. */
  lemma LivesWhereAccepted(past: seq<Action>, l: LoopId, cfg: C.Config, future: seq<Action>)
    requires Runs(EMPTY, past) && Runs(Step(Run(EMPTY, past), Accept(l, cfg)), future)
    ensures var s := Run(EMPTY, past);
            var r := Run(Step(s, Accept(l, cfg)), future);
            && s.next !in s.conns && s.next in r.home && r.home[s.next] == l
  {
    Reachable(past);
    var s := Run(EMPTY, past);
    AcceptHome(s, l, cfg);
    StepKeeps(s, Accept(l, cfg));
    StepCounts(s, Accept(l, cfg));
    var t := Step(s, Accept(l, cfg));
    assert s.next < t.next;
    hide Run, Runs, Known, Count, Listed, AcceptNow;
    assert s.next in t.conns;
    HomeLasts(t, future, s.next);
  }
}
