/** The pool of I/O loops and its round-robin choice. */
module ThreadPoolSpec {

  type LoopId = nat

  /** The loop chosen when the counter stands at next. */
  function Chosen(base: LoopId, loops: seq<LoopId>, next: nat): LoopId {
    if loops == [] then base else loops[next % |loops|]
  }

  /** How many of k choices fall on position j of n loops, when the counter starts at start and has moved on by stride
      from one choice to the next. */
  function Hits(n: nat, stride: nat, start: nat, k: nat, j: nat): nat
    requires n > 0
    decreases k
  {
    if k == 0 then 0 else (if start % n == j then 1 else 0) + Hits(n, stride, start + stride, k - 1, j)
  }

  /** No loop is ever chosen twice more often than another. */
  ghost predicate Fair(n: nat, stride: nat)
    requires n > 0
  {
    forall start: nat, k: nat, i: nat, j: nat | i < n && j < n ::
      Hits(n, stride, start, k, i) <= Hits(n, stride, start, k, j) + 1
  }

  // Residues

  lemma ModUnique(x: int, n: int, q: int, r: int)
    requires n > 0 && x == q * n + r && 0 <= r < n
    ensures x % n == r
  {
    var d := x / n - q;
    assert d * n == r - x % n;
    assert d >= 1 ==> d * n >= n;
    assert d <= -1 ==> d * n <= -n;
  }

  predicate Congruent(a: int, b: int, n: int)
    requires n > 0
  {
    (a - b) % n == 0
  }

  lemma CongruentIffSameResidue(a: int, b: int, n: int)
    requires n > 0
    ensures Congruent(a, b, n) <==> a % n == b % n
  {
    if Congruent(a, b, n) {
      ModUnique(a, n, (a - b) / n + b / n, b % n);
    }
    if a % n == b % n {
      ModUnique(a - b, n, a / n - b / n, 0);
    }
  }

  lemma CongruentCombine(a: int, b: int, c: int, a': int, b': int, n: int)
    requires n > 0 && Congruent(a, b, n) && Congruent(a', b', n)
    ensures Congruent(a * c + a', b * c + b', n)
  {
    var q, q' := (a - b) / n, (a' - b') / n;
    assert a * c - b * c == (a - b) * c == q * n * c == q * c * n;
    ModUnique(a * c + a' - (b * c + b'), n, q * c + q', 0);
  }

  // One pool alone

  /** How many choices until position j comes up. */
  function Wait(n: nat, start: nat, j: nat): (w: nat)
    requires j < n
    ensures w < n
  {
    if start % n <= j then j - start % n else j - start % n + n
  }

  lemma NextMod(x: nat, n: nat)
    requires n > 0
    ensures (x + 1) % n == if x % n == n - 1 then 0 else x % n + 1
  {
    var q, r := x / n, x % n;
    if r == n - 1 {
      ModUnique(x + 1, n, q + 1, 0);
    } else {
      ModUnique(x + 1, n, q, r + 1);
    }
  }

  /** Within one round a position comes up exactly once, after its wait. */
  lemma {:induction false} OneRound(n: nat, start: nat, k: nat, j: nat)
    requires j < n && k <= n
    ensures Hits(n, 1, start, k, j) == if Wait(n, start, j) < k then 1 else 0
    decreases k
  {
    if k > 0 {
      NextMod(start, n);
      OneRound(n, start + 1, k - 1, j);
    }
  }

  lemma {:induction false} HitsSplit(n: nat, start: nat, a: nat, b: nat, j: nat)
    requires n > 0
    ensures Hits(n, 1, start, a + b, j) == Hits(n, 1, start, a, j) + Hits(n, 1, start + a, b, j)
    decreases a
  {
    if a > 0 {
      HitsSplit(n, start + 1, a - 1, b, j);
    }
  }

  lemma {:induction false} HitsAfterRounds(n: nat, start: nat, rounds: nat, extra: nat, j: nat)
    requires j < n && extra < n
    ensures rounds <= Hits(n, 1, start, rounds * n + extra, j) <= rounds + 1
    decreases rounds
  {
    if rounds == 0 {
      OneRound(n, start, extra, j);
    } else {
      var rest := (rounds - 1) * n + extra;
      assert rounds * n + extra == n + rest;
      HitsSplit(n, start, n, rest, j);
      OneRound(n, start, n, j);
      HitsAfterRounds(n, start + n, rounds - 1, extra, j);
    }
  }

  lemma HitsBounds(n: nat, start: nat, k: nat, j: nat)
    requires j < n
    ensures k / n <= Hits(n, 1, start, k, j) <= k / n + 1
  {
    hide Hits;
    HitsAfterRounds(n, start, k / n, k % n, j);
    assert k == k / n * n + k % n;
  }

  /** A pool that has the counter to itself spreads any number of choices evenly, wherever the counter stands. */
  lemma RoundRobinIsFair(n: nat)
    requires n > 0
    ensures Fair(n, 1)
  {
    hide Hits;
    forall start: nat, k: nat, i: nat, j: nat | i < n && j < n
      ensures Hits(n, 1, start, k, i) <= Hits(n, 1, start, k, j) + 1
    {
      HitsBounds(n, start, k, i);
      HitsBounds(n, start, k, j);
    }
  }

  // Several pools on the one counter of the process

  function Gcd(a: nat, b: nat): (g: nat)
    requires a > 0 || b > 0
    ensures g > 0
    decreases b
  {
    if b == 0 then a else Gcd(b, a % b)
  }

  lemma MultipleSum(m: int, b: int, r: int, g: int)
    requires g > 0 && b % g == 0 && r % g == 0
    ensures (m * b + r) % g == 0
  {
    var p, q := b / g, r / g;
    assert m * (p * g) == m * p * g;
    ModUnique(m * b + r, g, m * p + q, 0);
  }

  lemma {:induction false} GcdDivides(a: nat, b: nat)
    requires a > 0 || b > 0
    ensures a % Gcd(a, b) == 0 && b % Gcd(a, b) == 0
    decreases b
  {
    var g := Gcd(a, b);
    if b == 0 {
      ModUnique(a, g, 1, 0);
    } else {
      var m, r := a / b, a % b;
      GcdDivides(b, r);
      MultipleSum(m, b, r, g);
      assert a == m * b + r;
    }
  }

  lemma BezoutStep(a: int, b: int, q: int, r: int, s: int, t: int)
    requires a == q * b + r
    ensures t * a + (s - t * q) * b == s * b + t * r
  {
    assert t * a == t * (q * b) + t * r;
    assert (s - t * q) * b == s * b - t * q * b;
    assert t * (q * b) == t * q * b;
  }

  lemma {:induction false} Bezout(a: nat, b: nat) returns (u: int, v: int)
    requires a > 0 || b > 0
    ensures u * a + v * b == Gcd(a, b)
    decreases b
  {
    if b == 0 {
      u, v := 1, 0;
    } else {
      var s, t := Bezout(b, a % b);
      u, v := t, s - t * (a / b);
      BezoutStep(a, b, a / b, a % b, s, t);
    }
  }

  lemma Unscale(n: nat, stride: nat, u: int, v: int, s: int, t: int, j: nat)
    requires j < n && v * n + u * stride == 1 && Congruent(t, s * u, n) && Congruent(t, j * u, n)
    ensures Congruent(s, j, n)
  {
    var p, q := (t - s * u) / n, (t - j * u) / n;
    assert (s - j) * u == (q - p) * n;
    assert (s - j) * u * stride == (q - p) * n * stride;
    assert s - j == (s - j) * (v * n + u * stride) == ((s - j) * v + (q - p) * stride) * n;
    ModUnique(s - j, n, (s - j) * v + (q - p) * stride, 0);
  }

  /** Multiplying by u undoes multiplying by the stride, so it tells the same positions apart. */
  lemma ScaledResidue(n: nat, stride: nat, u: int, v: int, s: int, t: int, j: nat)
    requires j < n && v * n + u * stride == 1 && Congruent(t, s * u, n)
    ensures s % n == j <==> t % n == (j * u) % n
  {
    ModUnique(j, n, 0, j);
    CongruentIffSameResidue(s, j, n);
    CongruentIffSameResidue(t, j * u, n);
    ModUnique(0, n, 0, 0);
    if s % n == j {
      CongruentCombine(s, j, u, t - s * u, 0, n);
    }
    if t % n == (j * u) % n {
      Unscale(n, stride, u, v, s, t, j);
    }
  }

  /** Choices that step by an invertible stride are those of a counter stepping by one, the positions renamed. */
  lemma {:induction false} HitsScaled(n: nat, stride: nat, u: int, v: int, s: nat, t: nat, k: nat, j: nat)
    requires j < n && v * n + u * stride == 1 && Congruent(t, s * u, n)
    ensures Hits(n, stride, s, k, j) == Hits(n, 1, t, k, (j * u) % n)
    decreases k
  {
    if k > 0 {
      ScaledResidue(n, stride, u, v, s, t, j);
      assert Congruent(t + 1, (s + stride) * u, n) by {
        ModUnique(1 - stride * u, n, v, 0);
        CongruentCombine(t, s * u, 1, 1, stride * u, n);
        assert (s + stride) * u == s * u + stride * u;
      }
      HitsScaled(n, stride, u, v, s + stride, t + 1, k - 1, j);
    }
  }

  lemma CoprimeIsFair(n: nat, stride: nat)
    requires n > 0 && Gcd(n, stride) == 1
    ensures Fair(n, stride)
  {
    var v, u := Bezout(n, stride);
    RoundRobinIsFair(n);
    forall start: nat, k: nat, i: nat, j: nat | i < n && j < n
      ensures Hits(n, stride, start, k, i) <= Hits(n, stride, start, k, j) + 1
    {
      var t := (start * u) % n;
      ModUnique(t, n, 0, t);
      CongruentIffSameResidue(t, start * u, n);
      HitsScaled(n, stride, u, v, start, t, k, i);
      HitsScaled(n, stride, u, v, start, t, k, j);
    }
  }

  lemma ResidueOfMultiple(x: int, m: int, g: int)
    requires g > 0 && (x - m) % g == 0
    ensures x % g == m % g
  {
    CongruentIffSameResidue(x, m, g);
  }

  lemma ResidueOfChoice(n: nat, g: nat, start: nat)
    requires n > 0 && g > 0 && n % g == 0
    ensures start % n % g == start % g
  {
    var q, r := start / n, start % n;
    assert start == q * n + r;
    ModUnique(0, g, 0, 0);
    MultipleSum(q, n, 0, g);
    ResidueOfMultiple(start, r, g);
  }

  /** A divisor shared by stride and pool keeps the choices on the residue they began with. */
  lemma {:induction false} ResidueIsKept(n: nat, stride: nat, g: nat, start: nat, k: nat, j: nat)
    requires n > 0 && g > 0 && n % g == 0 && stride % g == 0 && j % g != start % g
    ensures Hits(n, stride, start, k, j) == 0
    decreases k
  {
    if k > 0 {
      ResidueOfChoice(n, g, start);
      ResidueOfMultiple(start + stride, start, g);
      ResidueIsKept(n, stride, g, start + stride, k - 1, j);
    }
  }

  lemma {:induction false} HitsGrow(n: nat, stride: nat, start: nat, skip: nat, k: nat, j: nat)
    requires n > 0
    ensures Hits(n, stride, start, skip + k, j) >= Hits(n, stride, start + skip * stride, k, j)
    decreases skip
  {
    if skip > 0 {
      assert start + stride + (skip - 1) * stride == start + skip * stride;
      HitsGrow(n, stride, start + stride, skip - 1, k, j);
    }
  }

  /** The first position comes up again after as many choices as there are loops, if not before. */
  lemma FirstComesAgain(n: nat, stride: nat)
    requires n > 0
    ensures Hits(n, stride, 0, n + 1, 0) >= 2
  {
    var last := stride + (n - 1) * stride;
    HitsGrow(n, stride, stride, n - 1, 1, 0);
    ModUnique(last, n, stride, 0);
    ModUnique(0, n, 0, 0);
    assert Hits(n, stride, last, 1, 0) == 1;
  }

  lemma CommonDivisorIsUnfair(n: nat, stride: nat)
    requires n > 0 && Gcd(n, stride) > 1
    ensures !Fair(n, stride)
  {
    var g := Gcd(n, stride);
    GcdDivides(n, stride);
    ModUnique(0, g, 0, 0);
    ModUnique(1, g, 0, 1);
    ResidueIsKept(n, stride, g, 0, n + 1, 1);
    FirstComesAgain(n, stride);
    assert n > 1 by { if n == 1 { ModUnique(1, g, 0, 1); } }
  }

  /** The counter is one for the whole process. When several pools are asked in turn, a pool of n loops still
      spreads its choices evenly exactly when the two numbers have no common divisor. */
  lemma SharedCounterFairness(n: nat, pools: nat)
    requires n > 0
    ensures Fair(n, pools) <==> Gcd(n, pools) == 1
  {
    if Gcd(n, pools) == 1 {
      CoprimeIsFair(n, pools);
    } else {
      CommonDivisorIsUnfair(n, pools);
    }
  }

  // The loops handed out

  ghost predicate Distinct(loops: seq<LoopId>) {
    forall i, j :: 0 <= i < j < |loops| ==> loops[i] != loops[j]
  }

  /** What a pool hands out when it finds the counter at these values. */
  function Answers(base: LoopId, loops: seq<LoopId>, seen: seq<nat>): (given: seq<LoopId>)
    ensures |given| == |seen|
  {
    seq(|seen|, k requires 0 <= k < |seen| => Chosen(base, loops, seen[k]))
  }

  lemma AnswersMean(base: LoopId, loops: seq<LoopId>, seen: seq<nat>)
    ensures forall k :: 0 <= k < |seen| && loops != [] ==> Answers(base, loops, seen)[k] == loops[seen[k] % |loops|]
    ensures forall k :: 0 <= k < |seen| && loops == [] ==> Answers(base, loops, seen)[k] == base
  {
  }

  /** The counter at k choices, when it starts at start and moves on by stride from one to the next. */
  function Counts(start: nat, stride: nat, k: nat): (seen: seq<nat>)
    ensures |seen| == k
    decreases k
  {
    if k == 0 then [] else [start] + Counts(start + stride, stride, k - 1)
  }

  lemma {:induction false} CountsInSteps(start: nat, stride: nat, k: nat)
    ensures k > 0 ==> Counts(start, stride, k)[0] == start
    ensures forall i :: 0 <= i < k - 1 ==> Counts(start, stride, k)[i + 1] == Counts(start, stride, k)[i] + stride
    decreases k
  {
    if k > 0 {
      CountsInSteps(start + stride, stride, k - 1);
    }
  }

  ghost predicate InSteps(seen: seq<nat>, stride: nat) {
    forall i :: 0 <= i < |seen| - 1 ==> seen[i + 1] == seen[i] + stride
  }

  predicate Position(next: nat, n: nat, p: nat)
    requires n > 0
  {
    p == next % n
  }

  lemma FirstAnswer(base: LoopId, loops: seq<LoopId>, seen: seq<nat>, p: nat)
    requires seen != [] && p < |loops| && Position(seen[0], |loops|, p)
    ensures multiset(Answers(base, loops, seen)) == multiset{loops[p]} + multiset(Answers(base, loops, seen[1..]))
  {
    assert Answers(base, loops, seen) == [loops[p]] + Answers(base, loops, seen[1..]);
  }

  lemma HitsFirst(n: nat, stride: nat, start: nat, k: nat, j: nat, p: nat)
    requires n > 0 && k > 0 && Position(start, n, p)
    ensures Hits(n, stride, start, k, j) == (if p == j then 1 else 0) + Hits(n, stride, start + stride, k - 1, j)
  {
  }

  lemma NoHits(n: nat, stride: nat, start: nat, j: nat)
    requires n > 0
    ensures Hits(n, stride, start, 0, j) == 0
  {
  }

  /** One more answer, one more hit. */
  lemma OneAnswer(base: LoopId, loops: seq<LoopId>, seen: seq<nat>, stride: nat, j: nat, p: nat)
    requires Distinct(loops) && j < |loops| && seen != [] && p < |loops| && Position(seen[0], |loops|, p)
    ensures multiset(Answers(base, loops, seen))[loops[j]] + Hits(|loops|, stride, seen[0] + stride, |seen| - 1, j)
         == multiset(Answers(base, loops, seen[1..]))[loops[j]] + Hits(|loops|, stride, seen[0], |seen|, j)
  {
    hide Answers, Hits, Position;
    assert loops[p] == loops[j] <==> p == j;
    FirstAnswer(base, loops, seen, p);
    HitsFirst(|loops|, stride, seen[0], |seen|, j, p);
  }

  /** However often a loop is handed out, so often does the counter come to its position. */
  lemma {:induction false} AnswersAreHits(base: LoopId, loops: seq<LoopId>, seen: seq<nat>, stride: nat, j: nat)
    requires Distinct(loops) && j < |loops| && InSteps(seen, stride)
    ensures multiset(Answers(base, loops, seen))[loops[j]]
         == if seen == [] then 0 else Hits(|loops|, stride, seen[0], |seen|, j)
    decreases |seen|
  {
    hide Answers, Distinct, Hits;
    if seen != [] {
      AnswersAreHits(base, loops, seen[1..], stride, j);
      OneAnswer(base, loops, seen, stride, j, seen[0] % |loops|);
      if |seen| > 1 {
        assert seen[1..][0] == seen[0] + stride;
      } else {
        NoHits(|loops|, stride, seen[0] + stride, j);
      }
    }
  }

  /** No loop is ever handed out twice more often than another. */
  ghost predicate SharesFairly(base: LoopId, loops: seq<LoopId>, stride: nat) {
    forall seen, i, j | InSteps(seen, stride) && 0 <= i < |loops| && 0 <= j < |loops| ::
      multiset(Answers(base, loops, seen))[loops[i]] <= multiset(Answers(base, loops, seen))[loops[j]] + 1
  }

  lemma FairIsShared(base: LoopId, loops: seq<LoopId>, stride: nat)
    requires loops != [] && Distinct(loops) && Fair(|loops|, stride)
    ensures SharesFairly(base, loops, stride)
  {
    hide Hits;
    forall seen, i, j | InSteps(seen, stride) && 0 <= i < |loops| && 0 <= j < |loops|
      ensures multiset(Answers(base, loops, seen))[loops[i]] <= multiset(Answers(base, loops, seen))[loops[j]] + 1
    {
      AnswersAreHits(base, loops, seen, stride, i);
      AnswersAreHits(base, loops, seen, stride, j);
      if seen != [] {
        assert Hits(|loops|, stride, seen[0], |seen|, i) <= Hits(|loops|, stride, seen[0], |seen|, j) + 1;
      }
    }
  }

  lemma SharedIsFair(base: LoopId, loops: seq<LoopId>, stride: nat)
    requires loops != [] && Distinct(loops) && SharesFairly(base, loops, stride)
    ensures Fair(|loops|, stride)
  {
    forall start: nat, k: nat, i: nat, j: nat | i < |loops| && j < |loops|
      ensures Hits(|loops|, stride, start, k, i) <= Hits(|loops|, stride, start, k, j) + 1
    {
      var seen := Counts(start, stride, k);
      CountsInSteps(start, stride, k);
      AnswersAreHits(base, loops, seen, stride, i);
      AnswersAreHits(base, loops, seen, stride, j);
      assert multiset(Answers(base, loops, seen))[loops[i]] <= multiset(Answers(base, loops, seen))[loops[j]] + 1;
    }
  }

  /** The loops a pool hands out, when so many pools take turns on the counter, are spread evenly over connections
      exactly when the number of its loops and that of the pools have no common divisor. */
  lemma SharedFairly(base: LoopId, loops: seq<LoopId>, pools: nat)
    requires loops != [] && Distinct(loops)
    ensures SharesFairly(base, loops, pools) <==> Gcd(|loops|, pools) == 1
  {
    hide SharesFairly, Fair, Gcd;
    SharedCounterFairness(|loops|, pools);
    if Fair(|loops|, pools) {
      FairIsShared(base, loops, pools);
    }
    if SharesFairly(base, loops, pools) {
      SharedIsFair(base, loops, pools);
    }
  }
}

module ThreadPoolImpl {
  import opened ThreadPoolSpec

  /** The counter, which all pools of the process share. */
  class NextIndex {
    var value: nat

    constructor ()
      ensures value == 0
    {
      value := 0;
    }
  }

  class EventLoopThreadPool {
    const base: LoopId
    const next: NextIndex
    var threads: int
    var started: bool
    var loops: seq<LoopId>
    ghost var seen: seq<nat>      // the counter at each choice this pool has made
    ghost var given: seq<LoopId>  // the loops it has handed out

    ghost predicate Valid()
      reads this
    {
      && (!started ==> loops == [])
      && (started ==> |loops| == if threads < 0 then 0 else threads)
      && (!started || loops == [] ==> seen == [])
      && (!started ==> given == [])
      && (loops == [] ==> forall k :: 0 <= k < |given| ==> given[k] == base)
      && (loops != [] ==> given == Answers(base, loops, seen))
    }

    constructor (base: LoopId, next: NextIndex)
      ensures Valid() && !started && threads == 0 && given == [] && this.base == base && this.next == next
    {
      this.base, this.next := base, next;
      threads, started, loops, seen, given := 0, false, [], [], [];
    }

    method InitThreadsNumber(n: int)
      requires Valid() && !started
      modifies this`threads
      ensures Valid() && threads == n
    {
      threads := n;
    }

    /** Start one thread after the other; spawn says which loop each runs. */
    method Start(spawn: nat -> LoopId)
      requires Valid() && !started
      modifies this`started, this`loops
      ensures Valid() && started
      ensures forall i :: 0 <= i < |loops| ==> loops[i] == spawn(i)
    {
      started := true;
      var i := 0;
      while i < threads
        invariant started && |loops| == i && (i <= threads || i == 0)
        invariant forall k :: 0 <= k < i ==> loops[k] == spawn(k)
      {
        loops := loops + [spawn(i)];
        i := i + 1;
      }
    }

    method GetNextLoop() returns (loop: LoopId)
      requires Valid() && started
      modifies next`value, this`seen, this`given
      ensures Valid() && given == old(given) + [loop]
      ensures loops == [] ==> loop == base && next.value == old(next.value) && seen == old(seen)
      ensures loops != [] ==>
                && loop == loops[old(next.value) % |loops|]
                && next.value == old(next.value) + 1 && seen == old(seen) + [old(next.value)]
    {
      loop := base;
      if |loops| > 0 {
        loop := loops[next.value % |loops|];
        seen := seen + [next.value];
        next.value := next.value + 1;
      }
      given := given + [loop];
    }
  }

  /** The loops a pool has handed out so far are spread as evenly as can be, if it was the only one to use the counter
      or took turns with so many others that the number of pools has no divisor in common with that of its loops. */
  lemma PoolIsFair(pool: EventLoopThreadPool, pools: nat, i: nat, j: nat)
    requires pool.Valid() && i < |pool.loops| && j < |pool.loops|
    requires Distinct(pool.loops) && InSteps(pool.seen, pools) && Gcd(|pool.loops|, pools) == 1
    ensures multiset(pool.given)[pool.loops[i]] <= multiset(pool.given)[pool.loops[j]] + 1
  {
    hide Gcd;
    SharedFairly(pool.base, pool.loops, pools);
  }
}
