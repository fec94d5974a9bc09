/** The three-region byte buffer as a value: what each member function does to the array and its two indices, and why
    the readable region behaves as a plain byte sequence. */
module BufferSpec {
  import opened ByteCodec

  const CHEAP_PREPEND: nat := 8
  const EXTRA_BUF_SIZE: nat := 65536

  /** data[..reader] is prependable, data[reader..writer] readable, data[writer..] writable. */
  datatype Buf = Buf(data: seq<Byte>, reader: nat, writer: nat)

  predicate Valid(b: Buf) {
    b.reader <= b.writer <= |b.data| && CHEAP_PREPEND <= |b.data|
  }

  function Readable(b: Buf): int { b.writer - b.reader }

  function Writable(b: Buf): int { |b.data| - b.writer }

  function Content(b: Buf): (s: seq<Byte>)
    requires Valid(b)
    ensures |s| == Readable(b)
  {
    b.data[b.reader..b.writer]
  }

  lemma ContentFront(b: Buf, n: nat)
    requires Valid(b) && n <= Readable(b)
    ensures Content(b)[..n] == b.data[b.reader..b.reader + n]
  {
  }

  function Zeros(n: nat): (s: seq<Byte>) { seq(n, _ => 0) }

  function Initial(size: nat): Buf {
    Buf(Zeros(CHEAP_PREPEND + size), CHEAP_PREPEND, CHEAP_PREPEND)
  }

  /** Write bytes into data from position at. */
  function Overwrite(data: seq<Byte>, at: nat, bytes: seq<Byte>): (d: seq<Byte>)
    requires at + |bytes| <= |data|
    ensures |d| == |data|
  {
    data[..at] + bytes + data[at + |bytes|..]
  }

  lemma OverwriteByParts(before: seq<Byte>, after: seq<Byte>, at: nat, bytes: seq<Byte>)
    requires at + |bytes| <= |before| == |after|
    requires forall k :: 0 <= k < |before| ==>
               after[k] == if at <= k < at + |bytes| then bytes[k - at] else before[k]
    ensures after == Overwrite(before, at, bytes)
  {
  }

  predicate GrowsOutside(b: Buf, len: nat) {
    Writable(b) + b.reader < len + CHEAP_PREPEND
  }

  /** Reached from EnsureWritable only, when len exceeds the writable region. */
  function MakeSpace(b: Buf, len: nat): Buf
    requires Valid(b) && len > Writable(b)
  {
    if GrowsOutside(b, len) then
      b.(data := b.data + Zeros(b.writer + len - |b.data|))
    else
      Buf(Overwrite(b.data, CHEAP_PREPEND, Content(b)), CHEAP_PREPEND, CHEAP_PREPEND + Readable(b))
  }

  function EnsureWritable(b: Buf, len: nat): Buf
    requires Valid(b)
  {
    if len > Writable(b) then MakeSpace(b, len) else b
  }

  /** Compaction never runs unless it moves the contents strictly left, and either way of making room leaves a valid
      buffer with the same contents and at least len writable bytes. */
  lemma SpaceSuffices(b: Buf, len: nat)
    requires Valid(b)
    ensures len > Writable(b) && !GrowsOutside(b, len) ==> b.reader > CHEAP_PREPEND
    ensures Valid(EnsureWritable(b, len))
    ensures Content(EnsureWritable(b, len)) == Content(b)
    ensures Writable(EnsureWritable(b, len)) >= len
  {
    if len > Writable(b) {
      var c := MakeSpace(b, len);
      assert Content(c) == Content(b);
    }
  }

  function Append(b: Buf, bytes: seq<Byte>): Buf
    requires Valid(b)
  {
    SpaceSuffices(b, |bytes|);
    var c := EnsureWritable(b, |bytes|);
    c.(data := Overwrite(c.data, c.writer, bytes), writer := c.writer + |bytes|)
  }

  function Prepend(b: Buf, bytes: seq<Byte>): Buf
    requires Valid(b) && |bytes| <= b.reader
  {
    b.(data := Overwrite(b.data, b.reader - |bytes|, bytes), reader := b.reader - |bytes|)
  }

  function Retrieve(b: Buf, len: nat): Buf
    requires Valid(b) && len <= Readable(b)
  {
    b.(reader := b.reader + len)
  }

  function RetrieveAll(b: Buf): Buf {
    b.(reader := CHEAP_PREPEND, writer := CHEAP_PREPEND)
  }

  /** What readv may report: an error, or the bytes it placed in the vector, in order. */
  datatype ReadResult = ReadError | ReadBytes(bytes: seq<Byte>)

  /** The room of the I/O vector: the writable region, and the stack buffer when that region is small. */
  function VectorRoom(b: Buf): int {
    Writable(b) + if Writable(b) < EXTRA_BUF_SIZE then EXTRA_BUF_SIZE else 0
  }

  predicate ReadPossible(b: Buf, r: ReadResult) {
    r.ReadBytes? ==> |r.bytes| <= VectorRoom(b)
  }

  function ReadFd(b: Buf, r: ReadResult): Buf
    requires Valid(b) && ReadPossible(b, r)
  {
    match r
    case ReadError => b
    case ReadBytes(bytes) =>
      var w := Writable(b);
      if |bytes| <= w then
        b.(data := Overwrite(b.data, b.writer, bytes), writer := b.writer + |bytes|)
      else
        Append(b.(data := Overwrite(b.data, b.writer, bytes[..w]), writer := |b.data|), bytes[w..])
  }

  lemma AppendAppends(b: Buf, bytes: seq<Byte>)
    requires Valid(b)
    ensures Valid(Append(b, bytes)) && Content(Append(b, bytes)) == Content(b) + bytes
  {
    SpaceSuffices(b, |bytes|);
    var c := EnsureWritable(b, |bytes|);
    assert Content(Append(b, bytes)) == Content(c) + bytes;
  }

  lemma PrependPrepends(b: Buf, bytes: seq<Byte>)
    requires Valid(b) && |bytes| <= b.reader
    ensures Valid(Prepend(b, bytes)) && Content(Prepend(b, bytes)) == bytes + Content(b)
  {
    var c := Prepend(b, bytes);
    assert Content(c) == bytes + Content(b);
  }

  /** A read appends exactly the bytes readv delivered, joining the in-place part and the stack part; an error leaves
      the contents alone. */
  lemma ReadFdAppends(b: Buf, r: ReadResult)
    requires Valid(b) && ReadPossible(b, r)
    ensures Valid(ReadFd(b, r))
    ensures Content(ReadFd(b, r)) == Content(b) + if r.ReadBytes? then r.bytes else []
  {
    if r.ReadBytes? {
      var w := Writable(b);
      if |r.bytes| <= w {
        assert Content(ReadFd(b, r)) == Content(b) + r.bytes;
      } else {
        var full := b.(data := Overwrite(b.data, b.writer, r.bytes[..w]), writer := |b.data|);
        assert Content(full) == Content(b) + r.bytes[..w];
        AppendAppends(full, r.bytes[w..]);
        assert r.bytes[..w] + r.bytes[w..] == r.bytes;
      }
    }
  }

  /** Growth is bounded by the contents it makes room for. */
  lemma AppendSize(b: Buf, bytes: seq<Byte>)
    requires Valid(b)
    ensures |b.data| <= |Append(b, bytes).data|
    ensures |Append(b, bytes).data| <= |b.data| || |Append(b, bytes).data| < 2 * (Readable(b) + |bytes|) + CHEAP_PREPEND
  {
    SpaceSuffices(b, |bytes|);
  }

  // Whole runs

  datatype Op =
    | OpAppend(bytes: seq<Byte>)
    | OpPrepend(bytes: seq<Byte>)
    | OpRetrieve(len: nat)
    | OpRetrieveAll
    | OpEnsure(len: nat)
    | OpReadFd(result: ReadResult)

  /** The asserts the member functions make, and the kernel's promise about readv. */
  predicate Enabled(b: Buf, op: Op) {
    match op
    case OpPrepend(bytes) => |bytes| <= b.reader
    case OpRetrieve(len) => len <= Readable(b)
    case OpReadFd(r) => ReadPossible(b, r)
    case _ => true
  }

  /** The abstract meaning of an operation on a plain byte sequence. */
  function Effect(s: seq<Byte>, op: Op): seq<Byte> {
    match op
    case OpAppend(bytes) => s + bytes
    case OpPrepend(bytes) => bytes + s
    case OpRetrieve(len) => if len <= |s| then s[len..] else []
    case OpRetrieveAll => []
    case OpEnsure(_) => s
    case OpReadFd(r) => if r.ReadBytes? then s + r.bytes else s
  }

  function Apply(b: Buf, op: Op): (c: Buf)
    requires Valid(b) && Enabled(b, op)
    ensures Valid(c) && Content(c) == Effect(Content(b), op)
  {
    match op
    case OpAppend(bytes) => AppendAppends(b, bytes); Append(b, bytes)
    case OpPrepend(bytes) => PrependPrepends(b, bytes); Prepend(b, bytes)
    case OpRetrieve(len) => Retrieve(b, len)
    case OpRetrieveAll => RetrieveAll(b)
    case OpEnsure(len) => SpaceSuffices(b, len); EnsureWritable(b, len)
    case OpReadFd(r) => ReadFdAppends(b, r); ReadFd(b, r)
  }

  ghost predicate Runs(b: Buf, ops: seq<Op>)
    requires Valid(b)
    decreases |ops|
  {
    ops != [] ==> Enabled(b, ops[0]) && Runs(Apply(b, ops[0]), ops[1..])
  }

  function Run(b: Buf, ops: seq<Op>): (c: Buf)
    requires Valid(b) && Runs(b, ops)
    ensures Valid(c)
    decreases |ops|
  {
    if ops == [] then b else Run(Apply(b, ops[0]), ops[1..])
  }

  function Effects(s: seq<Byte>, ops: seq<Op>): seq<Byte>
    decreases |ops|
  {
    if ops == [] then s else Effects(Effect(s, ops[0]), ops[1..])
  }

  /** Every run of valid calls, whatever compaction and growth it causes, acts on the contents as on a sequence. */
  lemma {:induction false} RunRefinesSequence(b: Buf, ops: seq<Op>)
    requires Valid(b) && Runs(b, ops)
    ensures Content(Run(b, ops)) == Effects(Content(b), ops)
    decreases |ops|
  {
    if ops != [] {
      RunRefinesSequence(Apply(b, ops[0]), ops[1..]);
    }
  }

  function Max(a: int, b: int): int { if a < b then b else a }

  /** The largest readable region seen during a run. */
  function Peak(b: Buf, ops: seq<Op>): (p: int)
    requires Valid(b) && Runs(b, ops)
    ensures p >= Readable(b)
    decreases |ops|
  {
    if ops == [] then Readable(b) else Max(Readable(b), Peak(Apply(b, ops[0]), ops[1..]))
  }

  lemma ApplySize(b: Buf, op: Op)
    requires Valid(b) && Enabled(b, op) && !op.OpEnsure?
    ensures |Apply(b, op).data| <= |b.data| || |Apply(b, op).data| < 2 * Readable(Apply(b, op)) + CHEAP_PREPEND
  {
    match op
    case OpAppend(bytes) => AppendSize(b, bytes);
    case OpReadFd(ReadBytes(bytes)) =>
      var w := Writable(b);
      if |bytes| > w {
        AppendSize(b.(data := Overwrite(b.data, b.writer, bytes[..w]), writer := |b.data|), bytes[w..]);
      }
    case _ =>
  }

  /** With growth only through Append and ReadFd the array stays below twice the peak contents plus the prepend
      reserve, or at its initial size. */
  lemma {:induction false} RunSizeBound(b: Buf, ops: seq<Op>)
    requires Valid(b) && Runs(b, ops)
    requires forall k :: 0 <= k < |ops| ==> !ops[k].OpEnsure?
    ensures |Run(b, ops).data| <= Max(|b.data|, 2 * Peak(b, ops) + CHEAP_PREPEND)
    decreases |ops|
  {
    hide Apply, Content, Effect, Enabled;
    if ops != [] {
      ApplySize(b, ops[0]);
      RunSizeBound(Apply(b, ops[0]), ops[1..]);
    }
  }

  lemma ApplyReserve(b: Buf, op: Op)
    requires Valid(b) && Enabled(b, op) && !op.OpPrepend? && b.reader >= CHEAP_PREPEND
    ensures Apply(b, op).reader >= CHEAP_PREPEND
  {
  }

  /** Whatever else happens to the buffer, as long as nothing is prepended there is room in front for the headers it is
      meant for, and emptying it makes all the rest writable. */
  lemma {:induction false} ReserveStays(b: Buf, ops: seq<Op>)
    requires Valid(b) && Runs(b, ops) && b.reader >= CHEAP_PREPEND
    requires forall k :: 0 <= k < |ops| ==> !ops[k].OpPrepend?
    ensures var c := Run(b, ops);
            c.reader >= CHEAP_PREPEND && RetrieveAll(c).reader == CHEAP_PREPEND
            && Writable(RetrieveAll(c)) == |c.data| - CHEAP_PREPEND
    decreases |ops|
  {
    if ops != [] {
      ApplyReserve(b, ops[0]);
      hide Apply;
      ReserveStays(Apply(b, ops[0]), ops[1..]);
    }
  }

  /** Up to 64 KiB can be read in one go, however full the buffer is. */
  lemma ReadIsAmple(b: Buf, bytes: seq<Byte>)
    requires Valid(b) && |bytes| <= 65536
    ensures ReadPossible(b, ReadBytes(bytes))
  {
  }

  // Typed contents

  /** Something written with one call: an integer of some type, or raw bytes. */
  datatype Item = IntItem(t: IntType, x: int) | RawItem(bytes: seq<Byte>)

  predicate ItemOk(i: Item) {
    i.IntItem? ==> i.t.size > 0 && InRange(i.t, i.x)
  }

  function ItemBytes(host: Host, i: Item): seq<Byte>
    requires ItemOk(i)
  {
    match i
    case IntItem(t, x) => EncodeInt(host, t, x)
    case RawItem(bytes) => bytes
  }

  predicate ItemsOk(q: seq<Item>) {
    forall k :: 0 <= k < |q| ==> ItemOk(q[k])
  }

  function Wire(host: Host, q: seq<Item>): seq<Byte>
    requires ItemsOk(q)
  {
    if q == [] then [] else ItemBytes(host, q[0]) + Wire(host, q[1..])
  }

  lemma Associate<T>(a: seq<T>, b: seq<T>, c: seq<T>)
    ensures a + b + c == a + (b + c)
  {
  }

  lemma WireCons(host: Host, i: Item, q: seq<Item>)
    requires ItemOk(i) && ItemsOk(q)
    ensures ItemsOk([i] + q) && Wire(host, [i] + q) == ItemBytes(host, i) + Wire(host, q)
  {
    assert ([i] + q)[1..] == q;
  }

  lemma {:induction false} WireAppend(host: Host, q: seq<Item>, i: Item)
    requires ItemsOk(q) && ItemOk(i)
    ensures ItemsOk(q + [i]) && Wire(host, q + [i]) == Wire(host, q) + ItemBytes(host, i)
    decreases |q|
  {
    if q == [] {
      assert q + [i] == [i] + [];
      WireCons(host, i, []);
    } else {
      var first, rest := q[0], q[1..];
      WireAppend(host, rest, i);
      hide Wire, ItemBytes;
      WireCons(host, first, rest);
      WireCons(host, first, rest + [i]);
      assert q == [first] + rest && q + [i] == [first] + (rest + [i]);
      Associate(ItemBytes(host, first), Wire(host, rest), ItemBytes(host, i));
    }
  }

  /** A reader that knows the format takes the first item: RetrieveAsInt of its type, or RetrieveAsString. */
  function ReadItem(host: Host, b: Buf, format: Item): (r: (Item, Buf))
    requires Valid(b) && ItemOk(format) && |ItemBytes(host, format)| <= Readable(b)
  {
    match format
    case IntItem(t, _) => (IntItem(t, DecodeInt(host, t, Content(b)[..t.size])), Retrieve(b, t.size))
    case RawItem(bytes) => (RawItem(Content(b)[..|bytes|]), Retrieve(b, |bytes|))
  }

  /** One end of a conversation through the buffer: write an item, read the next one, or make room. */
  datatype ItemOp = Write(item: Item) | Read | Reserve(len: nat)

  /** The buffer, what was written to it and not read yet, and what reads have returned so far. */
  datatype Session = Session(buf: Buf, pending: seq<Item>, got: seq<Item>)

  ghost predicate SessionInv(host: Host, s: Session) {
    Valid(s.buf) && ItemsOk(s.pending) && Content(s.buf) == Wire(host, s.pending)
  }

  predicate SessionEnabled(s: Session, op: ItemOp) {
    match op
    case Write(i) => ItemOk(i)
    case Read => s.pending != []
    case Reserve(_) => true
  }

  /** A read never comes up short and returns the very item written. */
  lemma ReadReturnsWritten(host: Host, b: Buf, q: seq<Item>)
    requires Valid(b) && ItemsOk(q) && q != [] && Content(b) == Wire(host, q)
    ensures |ItemBytes(host, q[0])| <= Readable(b)
    ensures ReadItem(host, b, q[0]).0 == q[0]
    ensures Valid(ReadItem(host, b, q[0]).1) && Content(ReadItem(host, b, q[0]).1) == Wire(host, q[1..])
  {
    var bytes := ItemBytes(host, q[0]);
    assert Content(b) == bytes + Wire(host, q[1..]);
    assert Content(b)[..|bytes|] == bytes;
    if q[0].IntItem? {
      IntRoundTrip(host, host, q[0].t, q[0].x);
    }
    assert Content(ReadItem(host, b, q[0]).1) == Content(b)[|bytes|..];
  }

  function WrittenBy(ops: seq<ItemOp>): seq<Item> {
    if ops == [] then []
    else (if ops[0].Write? then [ops[0].item] else []) + WrittenBy(ops[1..])
  }

  function ReadsIn(ops: seq<ItemOp>): nat {
    if ops == [] then 0 else (if ops[0].Read? then 1 else 0) + ReadsIn(ops[1..])
  }

  lemma OneOp(op: ItemOp, got: seq<Item>, pending: seq<Item>)
    ensures WrittenBy([op]) == (if op.Write? then [op.item] else []) && ReadsIn([op]) == if op.Read? then 1 else 0
    ensures op.Write? ==> got + (pending + [op.item]) == got + pending + [op.item]
    ensures pending != [] ==> got + [pending[0]] + pending[1..] == got + pending
    ensures got + pending + [] == got + pending
  {
  }

  function WriteItem(host: Host, s: Session, i: Item): (t: Session)
    requires SessionInv(host, s) && ItemOk(i)
    ensures SessionInv(host, t) && t.pending == s.pending + [i] && t.got == s.got
  {
    AppendAppends(s.buf, ItemBytes(host, i));
    WireAppend(host, s.pending, i);
    s.(buf := Append(s.buf, ItemBytes(host, i)), pending := s.pending + [i])
  }

  function TakeItem(host: Host, s: Session): (t: Session)
    requires SessionInv(host, s) && s.pending != []
    ensures SessionInv(host, t) && t.pending == s.pending[1..] && t.got == s.got + [s.pending[0]]
  {
    ReadReturnsWritten(host, s.buf, s.pending);
    var (i, b) := ReadItem(host, s.buf, s.pending[0]);
    Session(b, s.pending[1..], s.got + [i])
  }

  function SessionStep(host: Host, s: Session, op: ItemOp): (t: Session)
    requires SessionInv(host, s) && SessionEnabled(s, op)
    ensures SessionInv(host, t)
    ensures t.got + t.pending == s.got + s.pending + WrittenBy([op])
    ensures |t.got| == |s.got| + ReadsIn([op])
  {
    OneOp(op, s.got, s.pending);
    match op
    case Write(i) => WriteItem(host, s, i)
    case Reserve(len) =>
      SpaceSuffices(s.buf, len);
      s.(buf := EnsureWritable(s.buf, len))
    case Read => TakeItem(host, s)
  }

  ghost predicate SessionRuns(host: Host, s: Session, ops: seq<ItemOp>)
    requires SessionInv(host, s)
    decreases |ops|
  {
    ops != [] ==> SessionEnabled(s, ops[0]) && SessionRuns(host, SessionStep(host, s, ops[0]), ops[1..])
  }

  function SessionRun(host: Host, s: Session, ops: seq<ItemOp>): (t: Session)
    requires SessionInv(host, s) && SessionRuns(host, s, ops)
    ensures SessionInv(host, t)
    decreases |ops|
  {
    if ops == [] then s else SessionRun(host, SessionStep(host, s, ops[0]), ops[1..])
  }

  lemma WrittenByFirst(ops: seq<ItemOp>, before: seq<Item>)
    requires ops != []
    ensures before + WrittenBy([ops[0]]) + WrittenBy(ops[1..]) == before + WrittenBy(ops)
    ensures ReadsIn([ops[0]]) + ReadsIn(ops[1..]) == ReadsIn(ops)
  {
    OneOp(ops[0], [], []);
    Associate(before, WrittenBy([ops[0]]), WrittenBy(ops[1..]));
  }

  /** However writes, reads and reservations interleave, the reads return the written items one for one, in order,
      and the buffer holds exactly the encoding of the rest. */
  lemma {:induction false} SessionIsFifo(host: Host, s: Session, ops: seq<ItemOp>)
    requires SessionInv(host, s) && SessionRuns(host, s, ops)
    ensures var t := SessionRun(host, s, ops);
            && t.got + t.pending == s.got + s.pending + WrittenBy(ops)
            && |t.got| == |s.got| + ReadsIn(ops)
            && Content(t.buf) == Wire(host, t.pending)
    decreases |ops|
  {
    hide SessionStep, Wire, Content, ItemsOk;
    if ops != [] {
      SessionIsFifo(host, SessionStep(host, s, ops[0]), ops[1..]);
      WrittenByFirst(ops, s.got + s.pending);
    }
  }

  /** A length header written after its body is read back first. */
  lemma PrependIntThenPeek(host: Host, b: Buf, t: IntType, x: int)
    requires Valid(b) && 0 < t.size <= b.reader && InRange(t, x)
    ensures var c := Prepend(b, EncodeInt(host, t, x));
            && Valid(c) && Readable(c) >= t.size
            && DecodeInt(host, t, Content(c)[..t.size]) == x
            && Content(Retrieve(c, t.size)) == Content(b)
  {
    var bytes := EncodeInt(host, t, x);
    PrependPrepends(b, bytes);
    IntRoundTrip(host, host, t, x);
    assert Content(Prepend(b, bytes))[..t.size] == bytes;
  }
}

/** The buffer itself: an array, replaced when it grows and compacted in place otherwise. */
module BufferImpl {
  import opened ByteCodec
  import S = BufferSpec

  class Buffer {
    var data: array<Byte>
    var reader: nat
    var writer: nat

    ghost function View(): S.Buf
      reads this, data
    {
      S.Buf(data[..], reader, writer)
    }

    ghost predicate Valid()
      reads this, data
    {
      S.Valid(View())
    }

    constructor (size: nat)
      ensures Valid() && fresh(data)
      ensures View() == S.Initial(size) && S.Content(View()) == [] && reader == 8 && S.Writable(View()) == size
    {
      data := new Byte[S.CHEAP_PREPEND + size](_ => 0);
      reader, writer := S.CHEAP_PREPEND, S.CHEAP_PREPEND;
    }

    /** std::copy within the array: ascending, so it is right for overlapping ranges only when it moves left. */
    method CopyDown(from: nat, to: nat, len: nat)
      requires to <= from && from + len <= data.Length
      modifies data
      ensures data[..] == S.Overwrite(old(data[..]), to, old(data[from..from + len]))
    {
      ghost var before := data[..];
      for i := 0 to len
        invariant forall k :: to <= k < to + i ==> data[k] == before[k + (from - to)]
        invariant forall k :: 0 <= k < to || to + i <= k < data.Length ==> data[k] == before[k]
      {
        data[to + i] := data[from + i];
      }
      S.OverwriteByParts(before, data[..], to, before[from..from + len]);
    }

    /** std::copy from the caller's memory. */
    method CopyIn(at: nat, bytes: seq<Byte>)
      requires at + |bytes| <= data.Length
      modifies data
      ensures data[..] == S.Overwrite(old(data[..]), at, bytes)
    {
      ghost var before := data[..];
      for i := 0 to |bytes|
        invariant forall k :: 0 <= k < i ==> data[at + k] == bytes[k]
        invariant forall k :: 0 <= k < at || at + i <= k < data.Length ==> data[k] == before[k]
      {
        data[at + i] := bytes[i];
      }
      S.OverwriteByParts(before, data[..], at, bytes);
    }

    method MakeSpace(len: nat)
      requires Valid() && len > S.Writable(View())
      modifies this, data
      ensures Valid() && View() == S.MakeSpace(old(View()), len)
      ensures fresh(data) || data == old(data)
    {
      S.SpaceSuffices(View(), len);
      if data.Length - writer + reader < len + S.CHEAP_PREPEND {
        var was := data;
        data := new Byte[writer + len](_ => 0);
        forall i | 0 <= i < was.Length {
          data[i] := was[i];
        }
        assert data[..] == was[..] + S.Zeros(writer + len - was.Length);
      } else {
        var readable := writer - reader;
        assert data[reader..reader + readable] == S.Content(View());
        CopyDown(reader, S.CHEAP_PREPEND, readable);
        reader := S.CHEAP_PREPEND;
        writer := reader + readable;
      }
    }

    method EnsureWritable(len: nat)
      requires Valid()
      modifies this, data
      ensures Valid() && View() == S.EnsureWritable(old(View()), len)
      ensures S.Content(View()) == old(S.Content(View())) && S.Writable(View()) >= len
      ensures fresh(data) || data == old(data)
    {
      S.SpaceSuffices(View(), len);
      if len > data.Length - writer {
        MakeSpace(len);
      }
    }

    method Append(bytes: seq<Byte>)
      requires Valid()
      modifies this, data
      ensures Valid() && View() == S.Append(old(View()), bytes)
      ensures S.Content(View()) == old(S.Content(View())) + bytes
      ensures fresh(data) || data == old(data)
    {
      S.AppendAppends(View(), bytes);
      EnsureWritable(|bytes|);
      CopyIn(writer, bytes);
      writer := writer + |bytes|;
    }

    method Prepend(bytes: seq<Byte>)
      requires Valid() && |bytes| <= reader
      modifies this`reader, data
      ensures Valid() && View() == S.Prepend(old(View()), bytes)
      ensures S.Content(View()) == bytes + old(S.Content(View()))
    {
      S.PrependPrepends(View(), bytes);
      CopyIn(reader - |bytes|, bytes);
      reader := reader - |bytes|;
    }

    method Retrieve(len: nat)
      requires Valid() && len <= S.Readable(View())
      modifies this`reader
      ensures Valid() && View() == S.Retrieve(old(View()), len)
      ensures S.Content(View()) == old(S.Content(View()))[len..]
    {
      reader := reader + len;
    }

    method RetrieveAll()
      requires Valid()
      modifies this`reader, this`writer
      ensures Valid() && View() == S.RetrieveAll(old(View()))
      ensures S.Content(View()) == [] && reader == 8 && S.Writable(View()) == data.Length - 8
    {
      reader, writer := S.CHEAP_PREPEND, S.CHEAP_PREPEND;
    }

    method RetrieveAsString(len: nat) returns (result: seq<Byte>)
      requires Valid() && len <= S.Readable(View())
      modifies this`reader
      ensures Valid() && View() == S.Retrieve(old(View()), len)
      ensures old(S.Content(View())) == result + S.Content(View()) && |result| == len
    {
      result := data[reader..reader + len];
      Retrieve(len);
    }

    /** Reads only: the big-endian integer at the front. */
    method PeekInt(host: Host, t: IntType) returns (x: int)
      requires Valid() && 0 < t.size <= S.Readable(View())
      ensures x == FromUnsigned(t, BigEndianValue(S.Content(View())[..t.size]))
    {
      var front := data[reader..reader + t.size];
      S.ContentFront(View(), t.size);
      assert front == data[..][reader..reader + t.size];
      DecodeIsNetworkOrder(host, t, front);
      x := DecodeInt(host, t, front);
    }

    method RetrieveAsInt(host: Host, t: IntType) returns (x: int)
      requires Valid() && 0 < t.size <= S.Readable(View())
      modifies this`reader
      ensures Valid() && View() == S.Retrieve(old(View()), t.size)
      ensures x == FromUnsigned(t, BigEndianValue(old(S.Content(View()))[..t.size]))
    {
      x := PeekInt(host, t);
      Retrieve(t.size);
    }

    method AppendInt(host: Host, t: IntType, x: int)
      requires Valid() && t.size > 0 && InRange(t, x)
      modifies this, data
      ensures Valid() && View() == S.Append(old(View()), EncodeInt(host, t, x))
      ensures S.Content(View()) == old(S.Content(View())) + BigEndian(ToUnsigned(t, x), t.size)
      ensures fresh(data) || data == old(data)
    {
      EncodeIsNetworkOrder(host, t, x);
      Append(EncodeInt(host, t, x));
    }

    method PrependInt(host: Host, t: IntType, x: int)
      requires Valid() && 0 < t.size <= reader && InRange(t, x)
      modifies this`reader, data
      ensures Valid() && View() == S.Prepend(old(View()), EncodeInt(host, t, x))
      ensures S.Content(View()) == BigEndian(ToUnsigned(t, x), t.size) + old(S.Content(View()))
    {
      EncodeIsNetworkOrder(host, t, x);
      Prepend(EncodeInt(host, t, x));
    }

    /** The kernel's choice r says what readv reported and which bytes it put in the vector. */
    method ReadFd(r: S.ReadResult) returns (n: int)
      requires Valid() && S.ReadPossible(View(), r)
      modifies this, data
      ensures Valid() && View() == S.ReadFd(old(View()), r)
      ensures n == if r.ReadError? then -1 else |r.bytes|
      ensures S.Content(View()) == old(S.Content(View())) + if r.ReadBytes? then r.bytes else []
      ensures fresh(data) || data == old(data)
    {
      S.ReadFdAppends(View(), r);
      hide S.Append, S.Overwrite, S.Content;
      var writable := data.Length - writer;
      match r
      case ReadError => n := -1;
      case ReadBytes(bytes) =>
        n := |bytes|;
        if n <= writable {
          CopyIn(writer, bytes);
          writer := writer + n;
        } else {
          CopyIn(writer, bytes[..writable]);
          writer := data.Length;
          Append(bytes[writable..]);
        }
    }
  }
}
