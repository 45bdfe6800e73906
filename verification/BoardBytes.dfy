/** Byte-level arithmetic the board protocol is built on. */
module BoardBytes {
  type byte = b: int | 0 <= b < 256

  const TWO_31: int := 0x8000_0000
  const TWO_32: int := 0x1_0000_0000
  const TWO_64: int := 0x1_0000_0000_0000_0000

  /** The sum a checksum accumulates, before it is cut to eight bits. */
  function Sum(s: seq<byte>): nat {
    if s == [] then 0 else Sum(s[..|s| - 1]) + s[|s| - 1]
  }

  /** Two's-complement reading of an unbounded integer in 32 bits. */
  function Wrap32(x: int): (r: int)
    ensures -TWO_31 <= r < TWO_31 && (x - r) % TWO_32 == 0
    ensures -TWO_31 <= x < TWO_31 ==> r == x
  {
    (x + TWO_31) % TWO_32 - TWO_31
  }

  /** One step of a 64-bit unsigned counter. */
  function Next64(n: nat): (r: nat)
    ensures r < TWO_64
  {
    (n + 1) % TWO_64
  }

  lemma Next64Adds(n: nat, k: nat)
    ensures (Next64(n) + k) % TWO_64 == (n + 1 + k) % TWO_64
  {}

  function ReadI16(s: seq<byte>): (r: int)
    requires |s| >= 2
    ensures -0x8000 <= r < 0x8000
  {
    var u := s[0] as int + s[1] as int * 0x100;
    if u < 0x8000 then u else u - 0x1_0000
  }

  function ReadI32(s: seq<byte>): (r: int)
    requires |s| >= 4
    ensures -TWO_31 <= r < TWO_31
  {
    var u := s[0] as int + s[1] as int * 0x100 + s[2] as int * 0x1_0000 + s[3] as int * 0x100_0000;
    if u < TWO_31 then u else u - TWO_32
  }

  function WriteI16(v: int): (s: seq<byte>)
    ensures |s| == 2
  {
    var u := v % 0x1_0000;
    [u % 0x100, u / 0x100]
  }

  function WriteI32(v: int): (s: seq<byte>)
    ensures |s| == 4
  {
    var u := v % TWO_32;
    [u % 0x100, u / 0x100 % 0x100, u / 0x1_0000 % 0x100, u / 0x100_0000]
  }

  lemma I16RoundTrip(v: int)
    requires -0x8000 <= v < 0x8000
    ensures ReadI16(WriteI16(v)) == v
  {
    var u := v % 0x1_0000;
    assert u == u % 0x100 + u / 0x100 * 0x100;
  }

  /** Sending an unbounded count in four bytes and reading it back wraps it to 32 bits. */
  lemma I32RoundTrip(v: int)
    ensures ReadI32(WriteI32(v)) == Wrap32(v)
  {
    var u := v % TWO_32;
    assert u / 0x100 / 0x100 == u / 0x1_0000;
    assert u / 0x1_0000 / 0x100 == u / 0x100_0000;
    assert u == u % 0x100 + u / 0x100 % 0x100 * 0x100 + u / 0x1_0000 % 0x100 * 0x1_0000 + u / 0x100_0000 * 0x100_0000;
  }

  lemma SumOfOne(b: byte)
    ensures Sum([b]) == b
  {
    assert [b][..|[b]| - 1] == [];
  }

  lemma {:induction false} SumAppend(a: seq<byte>, b: seq<byte>)
    ensures Sum(a + b) == Sum(a) + Sum(b)
    decreases |b|
  {
    if b == [] {
      assert a + b == a;
    } else {
      assert (a + b)[..|a + b| - 1] == a + b[..|b| - 1];
      SumAppend(a, b[..|b| - 1]);
    }
  }
}
