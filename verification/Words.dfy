/** Machine words, bytes and the big-endian encoding shared by the VM, the compiler and the codecs. */
module Words {

  const TWO63: int := 0x8000_0000_0000_0000
  const TWO64: int := 0x1_0000_0000_0000_0000

  type byte = x: int | 0 <= x < 256
  type u64 = x: int | 0 <= x < 0x1_0000_0000_0000_0000

  datatype Option<+T> = None | Some(value: T)

  /** Unsigned 64-bit wrap-around. */
  function Wrap(x: int): (r: u64)
    ensures 0 <= x < TWO64 ==> r == x
  {
    x % TWO64
  }

  function B2U(b: bool): (r: u64)
  {
    if b then 1 else 0
  }

  function Pow256(n: nat): (r: nat)
    ensures r > 0
  {
    if n == 0 then 1 else 256 * Pow256(n - 1)
  }

  /** The `n` low-order bytes of `v`, most significant first. */
  function BigEndian(v: nat, n: nat): (s: seq<byte>)
    ensures |s| == n
  {
    if n == 0 then [] else BigEndian(v / 256, n - 1) + [v % 256]
  }

  /** The number a byte string denotes, most significant byte first. */
  function FromBigEndian(s: seq<byte>): (v: nat)
    ensures v < Pow256(|s|)
  {
    if |s| == 0 then 0
    else
      var hi := FromBigEndian(s[..|s| - 1]);
      256 * hi + s[|s| - 1]
  }

  lemma {:induction false} BigEndianRoundTrip(v: nat, n: nat)
    requires v < Pow256(n)
    ensures FromBigEndian(BigEndian(v, n)) == v
  {
    if n > 0 {
      BigEndianRoundTrip(v / 256, n - 1);
      assert BigEndian(v, n)[..n - 1] == BigEndian(v / 256, n - 1);
    }
  }

  lemma {:induction false} FromBigEndianRoundTrip(s: seq<byte>)
    ensures BigEndian(FromBigEndian(s), |s|) == s
  {
    if |s| > 0 {
      FromBigEndianRoundTrip(s[..|s| - 1]);
    }
  }

  lemma Pow256Of8()
    ensures Pow256(8) == TWO64
  {
    assert Pow256(2) == 65536;
    assert Pow256(4) == 65536 * 65536;
    assert Pow256(6) == 65536 * 65536 * 65536;
  }

  function U64Bytes(v: u64): (s: seq<byte>)
    ensures |s| == 8
  {
    BigEndian(v, 8)
  }

  function BytesU64(s: seq<byte>): (v: u64)
    requires |s| == 8
  {
    Pow256Of8();
    FromBigEndian(s)
  }

  lemma U64RoundTrip(v: u64)
    ensures BytesU64(U64Bytes(v)) == v
  {
    Pow256Of8();
    BigEndianRoundTrip(v, 8);
  }

  lemma BytesRoundTrip(s: seq<byte>)
    requires |s| == 8
    ensures U64Bytes(BytesU64(s)) == s
  {
    FromBigEndianRoundTrip(s);
  }

  /** Bitwise AND and OR, one binary digit at a time. */
  function BitAnd(a: nat, b: nat): (r: nat)
    ensures r <= a && r <= b
  {
    if a == 0 || b == 0 then 0
    else 2 * BitAnd(a / 2, b / 2) + (if a % 2 == 1 && b % 2 == 1 then 1 else 0)
  }

  function BitOr(a: nat, b: nat): (r: nat)
    ensures a <= r && b <= r
  {
    if a == 0 then b
    else if b == 0 then a
    else 2 * BitOr(a / 2, b / 2) + (if a % 2 == 1 || b % 2 == 1 then 1 else 0)
  }

  function Pow2(n: nat): (r: nat)
    ensures r > 0
  {
    if n == 0 then 1 else 2 * Pow2(n - 1)
  }

  lemma {:induction false} BitOrBounded(a: nat, b: nat, n: nat)
    requires a < Pow2(n) && b < Pow2(n)
    ensures BitOr(a, b) < Pow2(n)
  {
    if a != 0 && b != 0 {
      BitOrBounded(a / 2, b / 2, n - 1);
    }
  }

  lemma Pow2Of64()
    ensures Pow2(64) == TWO64
  {
    assert Pow2(8) == 256;
    assert Pow2(16) == 256 * 256;
    assert Pow2(24) == 256 * 256 * 256;
    assert Pow2(32) == 256 * 256 * 256 * 256;
    assert Pow2(40) == 256 * 256 * 256 * 256 * 256;
    assert Pow2(48) == 256 * 256 * 256 * 256 * 256 * 256;
    assert Pow2(56) == 256 * 256 * 256 * 256 * 256 * 256 * 256;
  }

  function Or64(a: u64, b: u64): (r: u64)
  {
    Pow2Of64();
    BitOrBounded(a, b, 64);
    BitOr(a, b)
  }

  function And64(a: u64, b: u64): (r: u64)
  {
    BitAnd(a, b)
  }
}
