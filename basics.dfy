/** Small shared vocabulary: optional values, results, bytes and Java's 32-bit integers. */
module Basics {

  datatype Option<+T> = None | Some(value: T) {
    function GetOr(default: T): T {
      match this
      case Some(v) => v
      case None => default
    }
  }

  datatype Result<+T, +E> = Success(value: T) | Failure(error: E)

  /** An unsigned byte as Netty's ByteBuf stores it. */
  type uint8 = x: int | 0 <= x < 0x100

  const INT32_MIN: int := -0x8000_0000
  const INT32_MAX: int := 0x7fff_ffff

  predicate IsInt32(x: int) {
    INT32_MIN <= x <= INT32_MAX
  }

  /** Java's `int`. */
  type int32 = x: int | INT32_MIN <= x <= INT32_MAX

  /** A Java `byte[]`: its length is an `int`. */
  type ByteArray = s: seq<uint8> | |s| <= INT32_MAX

  function Min(a: int, b: int): int {
    if a <= b then a else b
  }

  /** Java's `x & 0x00000000ffffffffL` for an `int` x. */
  function UnsignedInt32(x: int): (u: int)
    requires IsInt32(x)
    ensures 0 <= u < 0x1_0000_0000
    ensures u % 0x1_0000_0000 == x % 0x1_0000_0000
  {
    if x < 0 then x + 0x1_0000_0000 else x
  }

  /** The four bytes `ByteBuf.writeInt(x)` appends (big-endian, two's complement). */
  function Int32Bytes(x: int): (s: seq<uint8>)
    requires IsInt32(x)
    ensures |s| == 4
  {
    var u := UnsignedInt32(x);
    var q1 := u / 0x100;
    var q2 := q1 / 0x100;
    [q2 / 0x100, q2 % 0x100, q1 % 0x100, u % 0x100]
  }

  /** The `int` that `ByteBuf.getInt(i)` reads from the four bytes at absolute index i. */
  function Int32At(s: seq<uint8>, i: nat): (v: int)
    requires i + 4 <= |s|
    ensures IsInt32(v)
  {
    var u := (s[i] as int) * 0x100_0000 + (s[i + 1] as int) * 0x1_0000 + (s[i + 2] as int) * 0x100 + (s[i + 3] as int);
    if u >= 0x8000_0000 then u - 0x1_0000_0000 else u
  }

  /** Reading back what writeInt wrote gives the same int. */
  lemma Int32RoundTrip(x: int, s: seq<uint8>, i: nat)
    requires IsInt32(x)
    requires i + 4 <= |s| && s[i..i + 4] == Int32Bytes(x)
    ensures Int32At(s, i) == x
  {
    var u := UnsignedInt32(x);
    var q1 := u / 0x100;
    var q2 := q1 / 0x100;
    assert s[i] == q2 / 0x100 && s[i + 1] == q2 % 0x100 && s[i + 2] == q1 % 0x100 && s[i + 3] == u % 0x100 by {
      assert s[i..i + 4][0] == s[i] && s[i..i + 4][1] == s[i + 1];
      assert s[i..i + 4][2] == s[i + 2] && s[i..i + 4][3] == s[i + 3];
    }
    assert u == q1 * 0x100 + u % 0x100 && q1 == q2 * 0x100 + q1 % 0x100 && q2 == (q2 / 0x100) * 0x100 + q2 % 0x100;
    assert (s[i] as int) * 0x100_0000 + (s[i + 1] as int) * 0x1_0000 + (s[i + 2] as int) * 0x100 + (s[i + 3] as int) == u;
  }

  /** The decimal digit character for d. */
  function DigitChar(d: nat): (c: char)
    requires d < 10
    ensures '0' <= c <= '9'
  {
    "0123456789"[d]
  }

  /** Decimal text of a natural number, without leading zeros. */
  function NatToString(n: nat): (s: string)
    ensures 1 <= |s| && (forall k | 0 <= k < |s| :: '0' <= s[k] <= '9')
    ensures s[0] == '0' ==> n == 0
    decreases n
  {
    if n < 10 then [DigitChar(n)] else NatToString(n / 10) + [DigitChar(n % 10)]
  }

  /** `String.format("%d", x)`: decimal text with a leading '-' for a negative number. */
  function IntToString(x: int): (s: string)
    ensures 1 <= |s| && (s[0] == '-' <==> x < 0)
  {
    if x < 0 then "-" + NatToString(-x) else NatToString(x)
  }
}
