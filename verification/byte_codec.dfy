/** Bytes and the integer encoding used by the buffer's integer accessors. The host's own byte order is a parameter:
    the encoding swaps bytes on a little-endian host and leaves them alone on a big-endian one, and both hosts must
    put the same bytes on the wire. */
module ByteCodec {

  type Byte = b: int | 0 <= b < 256

  datatype Host = LittleHost | BigHost

  /** An integral C++ type: its size in bytes and whether it is signed. */
  datatype IntType = IntType(size: nat, signed: bool)

  function Pow256(n: nat): (p: nat)
    ensures p > 0
    ensures n > 0 ==> p % 2 == 0
  {
    if n == 0 then 1 else 256 * Pow256(n - 1)
  }

  /** The n bytes of u, most significant first. */
  function BigEndian(u: nat, n: nat): (s: seq<Byte>)
    requires u < Pow256(n)
    ensures |s| == n
  {
    if n == 0 then [] else BigEndian(u / 256, n - 1) + [u % 256]
  }

  function BigEndianValue(s: seq<Byte>): (u: nat)
    ensures u < Pow256(|s|)
  {
    if s == [] then 0 else 256 * BigEndianValue(s[..|s| - 1]) + s[|s| - 1]
  }

  /** The n bytes of u, least significant first. */
  function LittleEndian(u: nat, n: nat): (s: seq<Byte>)
    requires u < Pow256(n)
    ensures |s| == n
  {
    if n == 0 then [] else [u % 256] + LittleEndian(u / 256, n - 1)
  }

  function LittleEndianValue(s: seq<Byte>): (u: nat)
    ensures u < Pow256(|s|)
  {
    if s == [] then 0 else s[0] + 256 * LittleEndianValue(s[1..])
  }

  /** What memcpy sees of an n-byte unsigned integer held by the given host. */
  function ToMemory(host: Host, u: nat, n: nat): (s: seq<Byte>)
    requires u < Pow256(n)
    ensures |s| == n
  {
    if host.LittleHost? then LittleEndian(u, n) else BigEndian(u, n)
  }

  function FromMemory(host: Host, s: seq<Byte>): (u: nat)
    ensures u < Pow256(|s|)
  {
    if host.LittleHost? then LittleEndianValue(s) else BigEndianValue(s)
  }

  /** htobe16/32/64 and be16/32/64toh: a byte swap on a little-endian host, the identity on a big-endian one.
      One-byte integers are never converted. */
  function ConvertOrder(host: Host, u: nat, n: nat): (v: nat)
    requires u < Pow256(n)
    ensures v < Pow256(n)
  {
    if n == 1 || host.BigHost? then u else BigEndianValue(LittleEndian(u, n))
  }

  predicate InRange(t: IntType, x: int) {
    if t.signed then 0 - Pow256(t.size) / 2 <= x < Pow256(t.size) / 2 else 0 <= x < Pow256(t.size)
  }

  /** The two's complement bit pattern of x. */
  function ToUnsigned(t: IntType, x: int): (u: nat)
    requires t.size > 0 && InRange(t, x)
    ensures u < Pow256(t.size)
  {
    if x < 0 then x + Pow256(t.size) else x
  }

  function FromUnsigned(t: IntType, u: nat): int {
    if t.signed && u >= Pow256(t.size) / 2 then u - Pow256(t.size) else u
  }

  lemma SelfMod(p: int)
    requires p > 0
    ensures p % p == 0 && 0 % p == 0
  {
  }

  /** Two's complement: the pattern differs from the value by a multiple of 256^size, so a value that is not negative is
      its own pattern; and reading a pattern gives the one value in range that differs from it so. */
  lemma TwosComplement(t: IntType, x: int, u: nat)
    requires t.size > 0 && InRange(t, x) && u < Pow256(t.size)
    ensures (ToUnsigned(t, x) - x) % Pow256(t.size) == 0 && (x >= 0 ==> ToUnsigned(t, x) == x)
    ensures InRange(t, FromUnsigned(t, u)) && (u - FromUnsigned(t, u)) % Pow256(t.size) == 0
  {
    var p := Pow256(t.size);
    hide Pow256;
    SelfMod(p);
    assert ToUnsigned(t, x) - x == 0 || ToUnsigned(t, x) - x == p;
    assert u - FromUnsigned(t, u) == 0 || u - FromUnsigned(t, u) == p;
  }

  /** The bytes AppendInt and PrependInt copy into the buffer. */
  function EncodeInt(host: Host, t: IntType, x: int): (s: seq<Byte>)
    requires t.size > 0 && InRange(t, x)
    ensures |s| == t.size
  {
    ToMemory(host, ConvertOrder(host, ToUnsigned(t, x), t.size), t.size)
  }

  /** The value PeekInt computes from the first bytes of the readable region. */
  function DecodeInt(host: Host, t: IntType, s: seq<Byte>): int
    requires |s| == t.size
  {
    FromUnsigned(t, ConvertOrder(host, FromMemory(host, s), t.size))
  }

  lemma JoinSplit(high: nat, low: Byte)
    ensures (256 * high + low) / 256 == high && (256 * high + low) % 256 == low
  {
  }

  lemma {:induction false} BigEndianRoundTrip(u: nat, n: nat)
    requires u < Pow256(n)
    ensures BigEndianValue(BigEndian(u, n)) == u
  {
    if n > 0 {
      BigEndianRoundTrip(u / 256, n - 1);
      var s := BigEndian(u, n);
      assert s[..n - 1] == BigEndian(u / 256, n - 1);
    }
  }

  lemma {:induction false} BigEndianOfValue(s: seq<Byte>)
    ensures BigEndian(BigEndianValue(s), |s|) == s
  {
    if s != [] {
      BigEndianOfValue(s[..|s| - 1]);
      JoinSplit(BigEndianValue(s[..|s| - 1]), s[|s| - 1]);
      assert s == s[..|s| - 1] + [s[|s| - 1]];
    }
  }

  lemma {:induction false} LittleEndianRoundTrip(u: nat, n: nat)
    requires u < Pow256(n)
    ensures LittleEndianValue(LittleEndian(u, n)) == u
  {
    if n > 0 {
      LittleEndianRoundTrip(u / 256, n - 1);
    }
  }

  lemma {:induction false} LittleEndianOfValue(s: seq<Byte>)
    ensures LittleEndian(LittleEndianValue(s), |s|) == s
  {
    if s != [] {
      LittleEndianOfValue(s[1..]);
      JoinSplit(LittleEndianValue(s[1..]), s[0]);
      assert s == [s[0]] + s[1..];
    }
  }

  /** The two orders are mirror images. */
  lemma {:induction false} LittleEndianMirrors(u: nat, n: nat)
    requires u < Pow256(n)
    ensures forall k {:trigger LittleEndian(u, n)[k]} :: 0 <= k < n ==>
              LittleEndian(u, n)[k] == BigEndian(u, n)[n - 1 - k]
  {
    if n > 0 {
      LittleEndianMirrors(u / 256, n - 1);
      forall k | 0 <= k < n
        ensures LittleEndian(u, n)[k] == BigEndian(u, n)[n - 1 - k]
      {
        if k > 0 {
          assert LittleEndian(u, n)[k] == LittleEndian(u / 256, n - 1)[k - 1];
        }
      }
    }
  }

  /** Swapping the bytes and storing little-endian is storing big-endian. */
  lemma SwapThenStore(u: nat, n: nat)
    requires u < Pow256(n)
    ensures LittleEndian(BigEndianValue(LittleEndian(u, n)), n) == BigEndian(u, n)
  {
    hide LittleEndian, BigEndian, BigEndianValue;
    var v := BigEndianValue(LittleEndian(u, n));
    BigEndianOfValue(LittleEndian(u, n));
    forall k | 0 <= k < n ensures LittleEndian(v, n)[k] == BigEndian(u, n)[k] {
      LittleEndianMirrors(u, n);
      LittleEndianMirrors(v, n);
    }
  }

  /** Network byte order (Appendix B of RFC 791) on every host, for every integral type. */
  lemma EncodeIsNetworkOrder(host: Host, t: IntType, x: int)
    requires t.size > 0 && InRange(t, x)
    ensures EncodeInt(host, t, x) == BigEndian(ToUnsigned(t, x), t.size)
  {
    var u := ToUnsigned(t, x);
    SwapThenStore(u, t.size);
    if t.size == 1 {
      assert BigEndian(u, 1) == [u % 256] == LittleEndian(u, 1);
    }
  }

  lemma DecodeIsNetworkOrder(host: Host, t: IntType, s: seq<Byte>)
    requires |s| == t.size > 0
    ensures DecodeInt(host, t, s) == FromUnsigned(t, BigEndianValue(s))
  {
    LittleEndianOfValue(s);
    if t.size == 1 {
      assert s[..0] == [] && s[1..] == [];
      assert LittleEndianValue(s) == s[0] == BigEndianValue(s);
    }
  }

  /** Every value written by one host is read back by every other. */
  lemma IntRoundTrip(writer: Host, reader: Host, t: IntType, x: int)
    requires t.size > 0 && InRange(t, x)
    ensures DecodeInt(reader, t, EncodeInt(writer, t, x)) == x
  {
    EncodeIsNetworkOrder(writer, t, x);
    DecodeIsNetworkOrder(reader, t, EncodeInt(writer, t, x));
    BigEndianRoundTrip(ToUnsigned(t, x), t.size);
  }
}
