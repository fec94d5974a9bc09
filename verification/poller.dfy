/** Channels, the poller that tracks them, and the kernel's epoll table it must agree with. */
module PollerSpec {

  /** A mask of epoll events. */
  type Mask = bv32

  const NONE: Mask := 0
  const EPOLLIN: Mask := 1
  const EPOLLPRI: Mask := 2
  const EPOLLOUT: Mask := 4
  const READ: Mask := EPOLLIN | EPOLLPRI
  const WRITE: Mask := EPOLLOUT

  /** All of these bits are set; none of them is; all the others are as they were. */
  predicate Has(events: Mask, bits: Mask) {
    events & bits == bits
  }

  predicate Lacks(events: Mask, bits: Mask) {
    events & bits == NONE
  }

  predicate SameBut(was: Mask, now: Mask, bits: Mask) {
    now & !bits == was & !bits
  }

  function With(events: Mask, bits: Mask): Mask {
    events | bits
  }

  function Without(events: Mask, bits: Mask): Mask {
    events & !bits
  }

  lemma WithMeans(events: Mask, bits: Mask)
    ensures Has(With(events, bits), bits) && SameBut(events, With(events, bits), bits)
  {
  }

  lemma WithoutMeans(events: Mask, bits: Mask)
    ensures Lacks(Without(events, bits), bits) && SameBut(events, Without(events, bits), bits)
  {
  }

  lemma OthersOnly(events: Mask, bits: Mask, others: Mask)
    requires bits & others == 0
    ensures events & others == (events & !bits) & others
  {
  }

  predicate SameOn(was: Mask, now: Mask, bits: Mask) {
    now & bits == was & bits
  }

  lemma SameOthers(was: Mask, now: Mask, bits: Mask, others: Mask)
    requires bits & others == 0 && SameBut(was, now, bits)
    ensures SameOn(was, now, others)
  {
    OthersOnly(was, bits, others);
    OthersOnly(now, bits, others);
  }

  lemma SameTests(was: Mask, now: Mask, bits: Mask)
    requires SameOn(was, now, bits)
    ensures (Has(now, bits) <==> Has(was, bits)) && (Lacks(now, bits) <==> Lacks(was, bits))
  {
  }

  lemma EmptyMask(bits: Mask)
    ensures Lacks(NONE, bits) && Without(NONE, bits) == NONE && (bits != NONE ==> With(NONE, bits) != NONE)
  {
  }

  /** The read and the write bits do not meet, and are not empty. */
  lemma ReadAndWrite()
    ensures READ & WRITE == 0 && WRITE & READ == 0 && READ != NONE && WRITE != NONE
  {
  }

  datatype Index = New | Added | Deleted

  datatype Chan = Chan(fd: int, events: Mask, index: Index)

  /** What the kernel keeps for a registered descriptor. */
  datatype Registration<Id> = Registration(mask: Mask, ptr: Id)

  datatype Ctl = CtlAdd | CtlMod | CtlDel

  /** The channels in existence, the poller's map from descriptors to channels, the kernel's table, and the number of
      epoll_ctl calls that failed. */
  datatype Poll<Id> = Poll(
    chans: map<Id, Chan>, table: map<int, Id>, kernel: map<int, Registration<Id>>, failures: nat)

  /** epoll_ctl: adding a registered descriptor and changing or deleting an absent one fail and change nothing. */
  function EpollCtl<Id>(p: Poll<Id>, op: Ctl, id: Id): Poll<Id>
    requires id in p.chans
  {
    var c := p.chans[id];
    if op.CtlAdd? == (c.fd in p.kernel) then p.(failures := p.failures + 1)
    else if op.CtlDel? then p.(kernel := p.kernel - {c.fd})
    else p.(kernel := p.kernel[c.fd := Registration(c.events, id)])
  }

  function SetIndex<Id>(p: Poll<Id>, id: Id, index: Index): Poll<Id>
    requires id in p.chans
  {
    p.(chans := p.chans[id := p.chans[id].(index := index)])
  }

  function UpdateChannel<Id>(p: Poll<Id>, id: Id): Poll<Id>
    requires id in p.chans
  {
    var c := p.chans[id];
    if c.index != Added then
      var q := if c.index == New then p.(table := p.table[c.fd := id]) else p;
      SetIndex(EpollCtl(q, CtlAdd, id), id, Added)
    else if c.events == NONE then SetIndex(EpollCtl(p, CtlDel, id), id, Deleted)
    else EpollCtl(p, CtlMod, id)
  }

  function RemoveChannel<Id>(p: Poll<Id>, id: Id): Poll<Id>
    requires id in p.chans
  {
    var c := p.chans[id];
    var q := p.(table := p.table - {c.fd});
    SetIndex(if c.index == Added then EpollCtl(q, CtlDel, id) else q, id, New)
  }

  predicate HasChannel<Id(==)>(p: Poll<Id>, id: Id)
    requires id in p.chans
  {
    p.chans[id].fd in p.table && p.table[p.chans[id].fd] == id
  }

  function SetEvents<Id>(p: Poll<Id>, id: Id, events: Mask): Poll<Id>
    requires id in p.chans
  {
    p.(chans := p.chans[id := p.chans[id].(events := events)])
  }

  datatype Op<Id> =
    | Create(id: Id, fd: int)
    | EnableRead(id: Id)
    | DisableRead(id: Id)
    | EnableWrite(id: Id)
    | DisableWrite(id: Id)
    | DisableAll(id: Id)
    | Remove(id: Id)

  function NewEvents<Id>(op: Op<Id>, events: Mask): Mask {
    match op
    case EnableRead(_) => With(events, READ)
    case DisableRead(_) => Without(events, READ)
    case EnableWrite(_) => With(events, WRITE)
    case DisableWrite(_) => Without(events, WRITE)
    case _ => NONE
  }

  /** No other channel in use has this channel's descriptor: the kernel does not give a descriptor out twice. */
  ghost predicate FdIsOurs<Id>(p: Poll<Id>, id: Id)
    requires id in p.chans
  {
    forall d :: d in p.chans && d != id && p.chans[d].index != New ==> p.chans[d].fd != p.chans[id].fd
  }

  ghost predicate Enabled<Id>(p: Poll<Id>, op: Op<Id>) {
    match op
    case Create(id, _) => id !in p.chans
    case Remove(id) => id in p.chans && FdIsOurs(p, id) && p.chans[id].events == NONE
    case _ => op.id in p.chans && FdIsOurs(p, op.id)
  }

  ghost function Step<Id>(p: Poll<Id>, op: Op<Id>): Poll<Id>
    requires Enabled(p, op)
  {
    match op
    case Create(id, fd) => p.(chans := p.chans[id := Chan(fd, NONE, New)])
    case Remove(id) => RemoveChannel(p, id)
    case _ => UpdateChannel(SetEvents(p, op.id, NewEvents(op, p.chans[op.id].events)), op.id)
  }

  /** The mask the kernel watches for a channel, none if its descriptor is not registered for it. */
  function KernelMask<Id(==)>(p: Poll<Id>, id: Id): Mask
    requires id in p.chans
  {
    var fd := p.chans[id].fd;
    if fd in p.kernel && p.kernel[fd].ptr == id then p.kernel[fd].mask else NONE
  }

  ghost predicate ChannelAgrees<Id>(p: Poll<Id>, id: Id)
    requires id in p.chans
  {
    var c := p.chans[id];
    && KernelMask(p, id) == c.events
    && (c.index == Added <==> c.fd in p.kernel && p.kernel[c.fd].ptr == id)
    && (c.index != New <==> HasChannel(p, id))
  }

  /** The channels' own view, the poller's map and the kernel's table are the same, and no epoll_ctl call has ever
      failed. */
  ghost predicate Agree<Id>(p: Poll<Id>) {
    && (forall id :: id in p.chans ==> ChannelAgrees(p, id))
    && (forall fd :: fd in p.table ==> p.table[fd] in p.chans && p.chans[p.table[fd]].fd == fd)
    && (forall fd :: fd in p.kernel ==> p.kernel[fd].ptr in p.chans && p.chans[p.kernel[fd].ptr].fd == fd)
    && p.failures == 0
  }

  /** A channel that is not registered finds its descriptor free. */
  lemma UnregisteredIsFree<Id>(p: Poll<Id>, id: Id)
    requires Agree(p) && id in p.chans && FdIsOurs(p, id)
    ensures p.chans[id].fd in p.kernel <==> p.chans[id].index == Added
    ensures p.chans[id].fd in p.table <==> p.chans[id].index != New
  {
    var fd := p.chans[id].fd;
    if fd in p.kernel {
      assert ChannelAgrees(p, p.kernel[fd].ptr);
    }
    if fd in p.table {
      assert ChannelAgrees(p, p.table[fd]);
    }
    assert ChannelAgrees(p, id);
  }

  /** To keep the agreement it is enough to see to the one channel and its descriptor. */
  lemma OneAgrees<Id>(p: Poll<Id>, q: Poll<Id>, id: Id)
    requires Agree(p) && id in p.chans && FdIsOurs(p, id) && id in q.chans
    requires q.chans.Keys == p.chans.Keys && q.failures == 0
    requires q.chans[id].fd == p.chans[id].fd
    requires forall d :: d in p.chans && d != id ==> q.chans[d] == p.chans[d]
    requires forall fd :: fd != p.chans[id].fd ==>
               (fd in q.table <==> fd in p.table) && (fd in p.table ==> q.table[fd] == p.table[fd])
    requires forall fd :: fd != p.chans[id].fd ==>
               (fd in q.kernel <==> fd in p.kernel) && (fd in p.kernel ==> q.kernel[fd] == p.kernel[fd])
    requires ChannelAgrees(q, id)
    requires q.chans[id].fd in q.table ==> q.table[q.chans[id].fd] == id
    requires q.chans[id].fd in q.kernel ==> q.kernel[q.chans[id].fd].ptr == id
    ensures Agree(q)
  {
    forall d | d in q.chans ensures ChannelAgrees(q, d) {
      if d != id {
        assert ChannelAgrees(p, d);
      }
    }
  }

  lemma UpdateAgrees<Id>(p: Poll<Id>, id: Id, events: Mask)
    requires Agree(p) && id in p.chans && FdIsOurs(p, id)
    ensures Agree(UpdateChannel(SetEvents(p, id, events), id))
  {
    UnregisteredIsFree(p, id);
    assert ChannelAgrees(p, id);
    OneAgrees(p, UpdateChannel(SetEvents(p, id, events), id), id);
  }

  lemma RemoveAgrees<Id>(p: Poll<Id>, id: Id)
    requires Agree(p) && id in p.chans && FdIsOurs(p, id) && p.chans[id].events == NONE
    ensures Agree(RemoveChannel(p, id))
  {
    UnregisteredIsFree(p, id);
    assert ChannelAgrees(p, id);
    OneAgrees(p, RemoveChannel(p, id), id);
  }

  lemma StepAgrees<Id>(p: Poll<Id>, op: Op<Id>)
    requires Agree(p) && Enabled(p, op)
    ensures Agree(Step(p, op))
  {
    match op
    case Create(id, fd) =>
      var q := Step(p, op);
      forall d | d in q.chans ensures ChannelAgrees(q, d) {
        if d != id {
          assert ChannelAgrees(p, d);
        }
      }
    case Remove(id) => RemoveAgrees(p, id);
    case _ => UpdateAgrees(p, op.id, NewEvents(op, p.chans[op.id].events));
  }

  // Whole runs

  ghost predicate Runs<Id>(p: Poll<Id>, ops: seq<Op<Id>>)
    decreases |ops|
  {
    ops != [] ==> Enabled(p, ops[0]) && Runs(Step(p, ops[0]), ops[1..])
  }

  ghost function Run<Id>(p: Poll<Id>, ops: seq<Op<Id>>): Poll<Id>
    requires Runs(p, ops)
    decreases |ops|
  {
    if ops == [] then p else Run(Step(p, ops[0]), ops[1..])
  }

  /** After any sequence of operations on any channels, with descriptors reused as channels come and go, the kernel
      watches for each channel exactly what the channel asked for, a channel is in the kernel's table exactly when its
      index says so and in the poller's map exactly when it is not new, and no epoll_ctl call failed. */
  lemma {:induction false} PollerMatchesKernel<Id>(p: Poll<Id>, ops: seq<Op<Id>>)
    requires Agree(p) && Runs(p, ops)
    ensures var q := Run(p, ops);
            && q.failures == 0
            && forall id :: id in q.chans ==>
                 && KernelMask(q, id) == q.chans[id].events
                 && (q.chans[id].index == Added <==> q.chans[id].fd in q.kernel && q.kernel[q.chans[id].fd].ptr == id)
                 && (q.chans[id].index != New <==> HasChannel(q, id))
    decreases |ops|
  {
    if ops == [] {
      assert forall id :: id in p.chans ==> ChannelAgrees(p, id);
    } else {
      StepAgrees(p, ops[0]);
      hide Step, Enabled, Agree;
      PollerMatchesKernel(Step(p, ops[0]), ops[1..]);
    }
  }

  // What the kernel is asked for

  /** The operations as bits: what an operation adds to or takes from the mask, the rest staying as it is. */
  ghost predicate MaskMeans<Id>(op: Op<Id>, was: Mask, now: Mask) {
    match op
    case EnableRead(_) => Has(now, READ) && SameBut(was, now, READ)
    case DisableRead(_) => Lacks(now, READ) && SameBut(was, now, READ)
    case EnableWrite(_) => Has(now, WRITE) && SameBut(was, now, WRITE)
    case DisableWrite(_) => Lacks(now, WRITE) && SameBut(was, now, WRITE)
    case _ => now == NONE
  }

  lemma NewEventsMean<Id>(op: Op<Id>, events: Mask)
    requires !op.Create? && !op.Remove?
    ensures MaskMeans(op, events, NewEvents(op, events))
  {
    hide Has, Lacks, SameBut, With, Without;
    match op
    case EnableRead(_) => WithMeans(events, READ);
    case DisableRead(_) => WithoutMeans(events, READ);
    case EnableWrite(_) => WithMeans(events, WRITE);
    case DisableWrite(_) => WithoutMeans(events, WRITE);
    case DisableAll(_) =>
  }

  /** An update changes no channel's wishes but one's. */
  lemma UpdateChans<Id>(p: Poll<Id>, id: Id, events: Mask)
    requires id in p.chans
    ensures var r := UpdateChannel(SetEvents(p, id, events), id);
            && r.chans.Keys == p.chans.Keys && r.chans[id].events == events
            && forall d :: d in p.chans && d != id ==> r.chans[d] == p.chans[d]
  {
  }

  /** After an operation the kernel watches for the channel what the operation says, and for every other channel what it
      did before. */
  lemma StepMask<Id>(p: Poll<Id>, op: Op<Id>)
    requires Agree(p) && Enabled(p, op) && !op.Create? && !op.Remove?
    ensures var r := Step(p, op);
            && r.chans.Keys == p.chans.Keys
            && MaskMeans(op, KernelMask(p, op.id), KernelMask(r, op.id))
            && forall d :: d in p.chans && d != op.id ==> KernelMask(r, d) == KernelMask(p, d)
  {
    StepAgrees(p, op);
    NewEventsMean(op, p.chans[op.id].events);
    UpdateChans(p, op.id, NewEvents(op, p.chans[op.id].events));
    hide NewEvents, MaskMeans, FdIsOurs, UpdateChannel, KernelMask;
    var r := Step(p, op);
    forall d | d in p.chans ensures KernelMask(p, d) == p.chans[d].events && KernelMask(r, d) == r.chans[d].events {
      assert ChannelAgrees(p, d) && ChannelAgrees(r, d);
    }
  }

  /** Creating and removing channels leaves the others' masks alone. */
  lemma OtherMask<Id>(p: Poll<Id>, op: Op<Id>, id: Id)
    requires Agree(p) && Enabled(p, op) && (op.Create? || op.Remove?) && id in p.chans
    ensures id in Step(p, op).chans && KernelMask(Step(p, op), id) == KernelMask(p, id)
  {
    StepAgrees(p, op);
    assert ChannelAgrees(p, id) && ChannelAgrees(Step(p, op), id);
  }

  function Bits(write: bool): Mask {
    if write then WRITE else READ
  }

  predicate Asks<Id(==)>(op: Op<Id>, id: Id, write: bool) {
    op == if write then EnableWrite(id) else EnableRead(id)
  }

  predicate Declines<Id(==)>(op: Op<Id>, id: Id, write: bool) {
    op == DisableAll(id) || op == if write then DisableWrite(id) else DisableRead(id)
  }

  /** Whether the last of these operations to speak of a channel's read or write events asked for them. */
  function Wanted<Id(==)>(ops: seq<Op<Id>>, id: Id, write: bool, before: bool): bool
    decreases |ops|
  {
    if ops == [] then before
    else Wanted(ops[1..], id, write, Asks(ops[0], id, write) || (before && !Declines(ops[0], id, write)))
  }

  ghost predicate Watches<Id>(p: Poll<Id>, id: Id, write: bool, wanted: bool) {
    id in p.chans && if wanted then Has(KernelMask(p, id), Bits(write)) else Lacks(KernelMask(p, id), Bits(write))
  }

  lemma MaskWatches<Id>(op: Op<Id>, id: Id, write: bool, was: Mask, now: Mask, before: bool)
    requires op.id == id && !op.Create? && !op.Remove? && MaskMeans(op, was, now)
    requires if before then Has(was, Bits(write)) else Lacks(was, Bits(write))
    ensures if Asks(op, id, write) || (before && !Declines(op, id, write)) then Has(now, Bits(write))
            else Lacks(now, Bits(write))
  {
    ReadAndWrite();
    hide Has, Lacks, SameBut, SameOn;
    EmptyMask(Bits(write));
    if SameBut(was, now, READ) {
      SameOthers(was, now, READ, WRITE);
      SameTests(was, now, WRITE);
    }
    if SameBut(was, now, WRITE) {
      SameOthers(was, now, WRITE, READ);
      SameTests(was, now, READ);
    }
  }

  lemma StepWatches<Id>(p: Poll<Id>, op: Op<Id>, id: Id, write: bool, before: bool)
    requires Agree(p) && Enabled(p, op) && Watches(p, id, write, before)
    ensures Watches(Step(p, op), id, write, Asks(op, id, write) || (before && !Declines(op, id, write)))
  {
    if op.Create? || op.Remove? {
      OtherMask(p, op, id);
    } else {
      StepMask(p, op);
      hide MaskMeans, Agree, Step, KernelMask, Has, Lacks;
      if op.id == id {
        MaskWatches(op, id, write, KernelMask(p, id), KernelMask(Step(p, op), id), before);
      }
    }
  }

  /** After any run the kernel watches a channel for reading, or for writing, exactly if the last operation to speak of
      it asked for it. */
  lemma {:induction false} KernelWatchesAsAsked<Id>(p: Poll<Id>, ops: seq<Op<Id>>, id: Id, write: bool, before: bool)
    requires Agree(p) && Runs(p, ops) && Watches(p, id, write, before)
    ensures Watches(Run(p, ops), id, write, Wanted(ops, id, write, before))
    decreases |ops|
  {
    hide Step, Enabled, Agree, Watches;
    if ops != [] {
      StepAgrees(p, ops[0]);
      StepWatches(p, ops[0], id, write, before);
      KernelWatchesAsAsked(Step(p, ops[0]), ops[1..], id, write,
                           Asks(ops[0], id, write) || (before && !Declines(ops[0], id, write)));
    }
  }

  /** RemoveChannel erases by descriptor alone: for a channel that is new already it keeps the agreement exactly when no
      other channel is using the same descriptor. */
  lemma RemoveNewCondition<Id>(p: Poll<Id>, id: Id)
    requires Agree(p) && id in p.chans && p.chans[id].index == New
    ensures Agree(RemoveChannel(p, id)) <==> FdIsOurs(p, id)
  {
    assert ChannelAgrees(p, id);
    if FdIsOurs(p, id) {
      RemoveAgrees(p, id);
    } else {
      var d :| d in p.chans && d != id && p.chans[d].index != New && p.chans[d].fd == p.chans[id].fd;
      assert ChannelAgrees(p, d);
      assert !ChannelAgrees(RemoveChannel(p, id), d);
    }
  }

  lemma {:induction false} RunSnoc<Id>(p: Poll<Id>, ops: seq<Op<Id>>, op: Op<Id>)
    requires Runs(p, ops) && Enabled(Run(p, ops), op)
    ensures Runs(p, ops + [op]) && Run(p, ops + [op]) == Step(Run(p, ops), op)
    decreases |ops|
  {
    hide Step, Enabled;
    if ops == [] {
      assert (ops + [op])[1..] == [];
      assert Runs(Step(p, op), []) && Run(Step(p, op), []) == Step(p, op);
    } else {
      assert (ops + [op])[1..] == ops[1..] + [op];
      RunSnoc(Step(p, ops[0]), ops[1..], op);
    }
  }

  const EMPTY: Poll<nat> := Poll(map[], map[], map[], 0)

  /** A channel that wants no events is not in the kernel's table, so the kernel reports nothing for it. */
  ghost predicate Idle<Id>(p: Poll<Id>) {
    forall id :: id in p.chans && p.chans[id].events == NONE ==>
      !(p.chans[id].fd in p.kernel && p.kernel[p.chans[id].fd].ptr == id)
  }

  lemma NothingYet()
    ensures Agree(EMPTY) && Idle(EMPTY) && Runs(EMPTY, []) && Run(EMPTY, []) == EMPTY
  {
  }

  /** Two channels made for one descriptor, only the first in use: removing the second makes the poller forget the
      first. */
  lemma RemoveNewCanForget()
    ensures var ops := [Create(0, 5), EnableRead(0), Create(1, 5)];
            && Runs(EMPTY, ops)
            && var p := Run(EMPTY, ops);
               && 0 in p.chans && 1 in p.chans && p.chans[1].index == New
               && HasChannel(p, 0) && !HasChannel(RemoveChannel(p, 1), 0)
  {
    NothingYet();
    hide Runs, Run;
    RunSnoc(EMPTY, [], Create(0, 5));
    RunSnoc(EMPTY, [] + [Create(0, 5)], EnableRead(0));
    RunSnoc(EMPTY, [] + [Create(0, 5)] + [EnableRead(0)], Create(1, 5));
    assert [Create(0, 5), EnableRead(0), Create(1, 5)] == [] + [Create(0, 5)] + [EnableRead(0)] + [Create(1, 5)];
  }

  // Channels that want no events

  ghost predicate AlwaysIdle<Id>(p: Poll<Id>, ops: seq<Op<Id>>)
    requires Runs(p, ops)
    decreases |ops|
  {
    Idle(p) && (ops != [] ==> AlwaysIdle(Step(p, ops[0]), ops[1..]))
  }

  predicate Disables<Id>(op: Op<Id>) {
    op.DisableRead? || op.DisableWrite? || op.DisableAll?
  }

  /** A call that takes events away from a channel that is not registered. */
  ghost predicate NeedlessDisable<Id>(p: Poll<Id>, op: Op<Id>) {
    Disables(op) && op.id in p.chans && p.chans[op.id].index != Added
  }

  ghost predicate NoneNeedless<Id>(p: Poll<Id>, ops: seq<Op<Id>>)
    requires Runs(p, ops)
    decreases |ops|
  {
    ops != [] ==> !NeedlessDisable(p, ops[0]) && NoneNeedless(Step(p, ops[0]), ops[1..])
  }

  lemma MaskOfUnregistered<Id>(op: Op<Id>)
    requires !op.Create? && !op.Remove?
    ensures NewEvents(op, NONE) == NONE <==> Disables(op)
  {
    hide With, Without;
    ReadAndWrite();
    EmptyMask(READ);
    EmptyMask(WRITE);
  }

  /** One update: what it leaves in the kernel's table for the channel, which is all it can change. */
  lemma UpdateIdle<Id>(p: Poll<Id>, id: Id, events: Mask)
    requires Agree(p) && Idle(p) && id in p.chans && FdIsOurs(p, id)
    ensures var q := UpdateChannel(SetEvents(p, id, events), id);
            Idle(q) <==> p.chans[id].index == Added || events != NONE
  {
    UnregisteredIsFree(p, id);
    assert ChannelAgrees(p, id);
    var q := UpdateChannel(SetEvents(p, id, events), id);
    assert id in q.chans;
    forall d | d in p.chans && d != id
      ensures p.chans[d].fd == p.chans[id].fd ==> p.chans[d].index == New
    {
    }
    assert q.chans[id].fd == p.chans[id].fd && q.chans[id].events == events;
  }

  lemma StepIdle<Id>(p: Poll<Id>, op: Op<Id>)
    requires Agree(p) && Idle(p) && Enabled(p, op)
    ensures Idle(Step(p, op)) <==> !NeedlessDisable(p, op)
  {
    match op
    case Create(id, fd) =>
      assert forall f :: f in p.kernel ==> p.kernel[f].ptr != id;
    case Remove(id) =>
      UnregisteredIsFree(p, id);
      assert ChannelAgrees(p, id);
    case _ =>
      assert ChannelAgrees(p, op.id);
      MaskOfUnregistered(op);
      UpdateIdle(p, op.id, NewEvents(op, p.chans[op.id].events));
  }

  /** Over any run, a channel that wants no events is never in the kernel's table exactly when no call takes events away
      from a channel that is not registered: such a call adds the descriptor with an empty mask. */
  lemma {:induction false} IdleCondition<Id>(p: Poll<Id>, ops: seq<Op<Id>>)
    requires Agree(p) && Idle(p) && Runs(p, ops)
    ensures AlwaysIdle(p, ops) <==> NoneNeedless(p, ops)
    decreases |ops|
  {
    hide Step, Enabled, Agree, Idle, NeedlessDisable;
    if ops != [] {
      StepAgrees(p, ops[0]);
      StepIdle(p, ops[0]);
      if Idle(Step(p, ops[0])) {
        IdleCondition(Step(p, ops[0]), ops[1..]);
      }
    }
  }

  /** StopRead, then the close of the connection: the second call takes nothing away and registers the descriptor
      again, so the kernel goes on reporting hang-ups for it. */
  lemma DisabledTwiceIsWatched()
    ensures var ops := [Create(0, 5), EnableRead(0), DisableRead(0), DisableAll(0)];
            && Runs(EMPTY, ops)
            && var p := Run(EMPTY, ops);
               && 0 in p.chans && p.chans[0] == Chan(5, NONE, Added)
               && 5 in p.kernel && p.kernel[5] == Registration(NONE, 0) && !Idle(p)
  {
    NothingYet();
    hide Runs, Run;
    RunSnoc(EMPTY, [], Create(0, 5));
    RunSnoc(EMPTY, [] + [Create(0, 5)], EnableRead(0));
    RunSnoc(EMPTY, [] + [Create(0, 5)] + [EnableRead(0)], DisableRead(0));
    RunSnoc(EMPTY, [] + [Create(0, 5)] + [EnableRead(0)] + [DisableRead(0)], DisableAll(0));
    assert [Create(0, 5), EnableRead(0), DisableRead(0), DisableAll(0)]
        == [] + [Create(0, 5)] + [EnableRead(0)] + [DisableRead(0)] + [DisableAll(0)];
    assert READ & !READ == NONE;
  }
}

/** The objects: channels, and the poller of one loop. */
module PollerImpl {
  import opened S = PollerSpec

  class Channel {
    const fd: int
    var events: Mask
    var index: Index

    constructor (fd: int)
      ensures this.fd == fd && events == NONE && index == New
    {
      this.fd, events, index := fd, NONE, New;
    }

    /** Ask for other events, and tell the loop. */
    method UpdateEvents(poller: EPoller, wanted: Mask)
      requires poller.Valid() && this in poller.all && FdIsOurs(poller.View(), this)
      modifies this, poller
      ensures poller.Valid() && poller.all == old(poller.all) && events == wanted
      ensures KernelMask(poller.View(), this) == events
      ensures poller.View() == UpdateChannel(SetEvents(old(poller.View()), this, wanted), this)
    {
      hide UpdateChannel;
      ghost var before := poller.View();
      UpdateAgrees(before, this, wanted);
      events := wanted;
      assert poller.View() == SetEvents(before, this, wanted);
      poller.UpdateChannel(this);
      assert ChannelAgrees(poller.View(), this);
    }

    method EnableReadEvent(poller: EPoller)
      requires poller.Valid() && Enabled(poller.View(), EnableRead(this))
      modifies this, poller
      ensures poller.Valid() && poller.all == old(poller.all)
      ensures poller.View() == Step(old(poller.View()), EnableRead(this))
      ensures KernelMask(poller.View(), this) == events
      ensures Has(events, READ) && SameBut(old(events), events, READ)
    {
      hide Agree, UpdateChannel, FdIsOurs, Has, Lacks, SameBut, With, Without;
      WithMeans(events, READ);
      UpdateEvents(poller, With(events, READ));
    }

    method DisableReadEvent(poller: EPoller)
      requires poller.Valid() && Enabled(poller.View(), DisableRead(this))
      modifies this, poller
      ensures poller.Valid() && poller.all == old(poller.all)
      ensures poller.View() == Step(old(poller.View()), DisableRead(this))
      ensures KernelMask(poller.View(), this) == events
      ensures Lacks(events, READ) && SameBut(old(events), events, READ)
    {
      hide Agree, UpdateChannel, FdIsOurs, Has, Lacks, SameBut, With, Without;
      WithoutMeans(events, READ);
      UpdateEvents(poller, Without(events, READ));
    }

    method EnableWriteEvent(poller: EPoller)
      requires poller.Valid() && Enabled(poller.View(), EnableWrite(this))
      modifies this, poller
      ensures poller.Valid() && poller.all == old(poller.all)
      ensures poller.View() == Step(old(poller.View()), EnableWrite(this))
      ensures KernelMask(poller.View(), this) == events
      ensures Has(events, WRITE) && SameBut(old(events), events, WRITE)
    {
      hide Agree, UpdateChannel, FdIsOurs, Has, Lacks, SameBut, With, Without;
      WithMeans(events, WRITE);
      UpdateEvents(poller, With(events, WRITE));
    }

    method DisableWriteEvent(poller: EPoller)
      requires poller.Valid() && Enabled(poller.View(), DisableWrite(this))
      modifies this, poller
      ensures poller.Valid() && poller.all == old(poller.all)
      ensures poller.View() == Step(old(poller.View()), DisableWrite(this))
      ensures KernelMask(poller.View(), this) == events
      ensures Lacks(events, WRITE) && SameBut(old(events), events, WRITE)
    {
      hide Agree, UpdateChannel, FdIsOurs, Has, Lacks, SameBut, With, Without;
      WithoutMeans(events, WRITE);
      UpdateEvents(poller, Without(events, WRITE));
    }

    method DisableAllEvent(poller: EPoller)
      requires poller.Valid() && Enabled(poller.View(), DisableAll(this))
      modifies this, poller
      ensures poller.Valid() && poller.all == old(poller.all)
      ensures poller.View() == Step(old(poller.View()), DisableAll(this))
      ensures KernelMask(poller.View(), this) == events && events == NONE
    {
      hide Agree, UpdateChannel, FdIsOurs;
      UpdateEvents(poller, NONE);
    }

    method RemoveFromLoop(poller: EPoller)
      requires poller.Valid() && Enabled(poller.View(), Remove(this))
      modifies this, poller
      ensures poller.Valid() && poller.all == old(poller.all)
      ensures poller.View() == Step(old(poller.View()), Remove(this))
    {
      hide Agree, S.RemoveChannel, FdIsOurs;
      RemoveAgrees(poller.View(), this);
      poller.RemoveChannel(this);
    }
  }

  class EPoller {
    var channels: map<int, Channel>
    var kernel: map<int, Registration<Channel>>
    var failures: nat
    ghost var all: set<Channel>  // every channel of the loop

    ghost function View(): Poll<Channel>
      reads this, all
    {
      Poll(map c | c in all :: Chan(c.fd, c.events, c.index), channels, kernel, failures)
    }

    ghost predicate Valid()
      reads this, all
    {
      Agree(View())
    }

    constructor ()
      ensures Valid() && all == {} && View() == Poll(map[], map[], map[], 0)
    {
      channels, kernel, failures, all := map[], map[], 0, {};
    }

    /** Enter a channel just constructed into the loop's account. */
    ghost method Adopt(c: Channel)
      requires Valid() && c !in all && c.events == NONE && c.index == New
      modifies this`all
      ensures Valid() && all == old(all) + {c} && View() == Step(old(View()), Create(c, c.fd))
    {
      StepAgrees(View(), Create(c, c.fd));
      all := all + {c};
      assert View() == Step(old(View()), Create(c, c.fd));
    }

    /** epoll_ctl through the kernel's eyes. */
    method UpdateEpollOperation(op: Ctl, c: Channel)
      requires c in all
      modifies this`kernel, this`failures
      ensures View() == EpollCtl(old(View()), op, c)
      ensures failures == old(failures) + (if op.CtlAdd? <==> c.fd in old(kernel) then 1 else 0)
      ensures failures > old(failures) ==> kernel == old(kernel)
      ensures failures == old(failures) ==>
                kernel == if op.CtlDel? then old(kernel) - {c.fd} else old(kernel)[c.fd := Registration(c.events, c)]
    {
      if op.CtlAdd? == (c.fd in kernel) {
        failures := failures + 1;
      } else if op.CtlDel? {
        kernel := kernel - {c.fd};
      } else {
        kernel := kernel[c.fd := Registration(c.events, c)];
      }
    }

    method MarkIndex(c: Channel, index: Index)
      requires c in all
      modifies c`index
      ensures View() == SetIndex(old(View()), c, index)
    {
      c.index := index;
    }

    method UpdateChannel(c: Channel)
      requires c in all
      modifies this`channels, this`kernel, this`failures, c`index
      ensures View() == S.UpdateChannel(old(View()), c)
    {
      hide EpollCtl, SetIndex;
      ghost var before := View();
      if c.index == New || c.index == Deleted {
        if c.index == New {
          channels := channels[c.fd := c];
          assert View() == before.(table := before.table[c.fd := c]);
        }
        UpdateEpollOperation(CtlAdd, c);
        MarkIndex(c, Added);
      } else if c.events == NONE {
        UpdateEpollOperation(CtlDel, c);
        MarkIndex(c, Deleted);
      } else {
        UpdateEpollOperation(CtlMod, c);
      }
    }

    method RemoveChannel(c: Channel)
      requires c in all
      modifies this`channels, this`kernel, this`failures, c`index
      ensures View() == S.RemoveChannel(old(View()), c)
    {
      hide EpollCtl, SetIndex;
      ghost var before := View();
      channels := channels - {c.fd};
      assert View() == before.(table := before.table - {c.fd});
      if c.index == Added {
        UpdateEpollOperation(CtlDel, c);
      }
      MarkIndex(c, New);
    }

    method HasChannel(c: Channel) returns (has: bool)
      requires Valid() && c in all
      ensures has <==> c.index != New
    {
      assert ChannelAgrees(View(), c);
      has := c.fd in channels && channels[c.fd] == c;
    }
  }
}
