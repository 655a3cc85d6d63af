/** Foundation's `UUID`: sixteen bytes, written by `uuidString` as 32
    upper-case hexadecimal digits in groups of 8-4-4-4-12 separated by hyphens,
    and read back by `UUID(uuidString:)`, which also accepts lower-case digits. */
module Uuids {
  import opened Wrappers

  type Byte = b: int | 0 <= b < 256

  type Uuid = s: seq<Byte> | |s| == 16
    witness [0, 0, 0, 0, 0, 0, 0, 0, 0, 0, 0, 0, 0, 0, 0, 0]

  /** The upper-case hexadecimal digit for a value below 16. */
  function HexDigit(n: int): char
    requires 0 <= n < 16
  {
    if n < 10 then ('0' as int + n) as char else ('A' as int + n - 10) as char
  }

  /** The value of a hexadecimal digit of either case. */
  function HexValue(c: char): (r: Option<int>)
    ensures r.Some? ==> 0 <= r.value < 16
  {
    if '0' <= c <= '9' then Some(c as int - '0' as int)
    else if 'A' <= c <= 'F' then Some(c as int - 'A' as int + 10)
    else if 'a' <= c <= 'f' then Some(c as int - 'a' as int + 10)
    else None
  }

  /** Two digits per byte, high nibble first. */
  function Hex(bytes: seq<Byte>): (r: string)
    ensures |r| == 2 * |bytes|
  {
    if bytes == [] then []
    else [HexDigit(bytes[0] / 16), HexDigit(bytes[0] % 16)] + Hex(bytes[1..])
  }

  /** Read pairs of hexadecimal digits as bytes. */
  function ParseHex(h: string): Option<seq<Byte>>
    decreases |h|
  {
    if h == [] then Some([])
    else if |h| == 1 then None
    else match (HexValue(h[0]), HexValue(h[1]), ParseHex(h[2..]))
      case (Some(hi), Some(lo), Some(rest)) => Some([(hi * 16 + lo) as Byte] + rest)
      case _ => None
  }

  lemma {:induction false} HexOfConcat(a: seq<Byte>, b: seq<Byte>)
    ensures Hex(a + b) == Hex(a) + Hex(b)
  {
    if a == [] {
      assert a + b == b;
    } else {
      assert (a + b)[0] == a[0];
      assert (a + b)[1..] == a[1..] + b;
      HexOfConcat(a[1..], b);
    }
  }

  lemma HexValueOfDigit(n: int)
    requires 0 <= n < 16
    ensures HexValue(HexDigit(n)) == Some(n)
  {
  }

  lemma {:induction false} ParseHexOfHex(bytes: seq<Byte>)
    ensures ParseHex(Hex(bytes)) == Some(bytes)
  {
    if bytes != [] {
      var h := Hex(bytes);
      var b := bytes[0];
      HexValueOfDigit(b / 16);
      HexValueOfDigit(b % 16);
      assert h[0] == HexDigit(b / 16) && h[1] == HexDigit(b % 16);
      assert (b / 16) * 16 + b % 16 == b;
      assert h[2..] == Hex(bytes[1..]);
      ParseHexOfHex(bytes[1..]);
      assert [bytes[0]] + bytes[1..] == bytes;
    }
  }

  /** `uuid.uuidString`. */
  function UuidString(u: Uuid): (r: string)
    ensures |r| == 36
  {
    Hex(u[..4]) + "-" + Hex(u[4..6]) + "-" + Hex(u[6..8]) + "-" + Hex(u[8..10]) + "-" + Hex(u[10..])
  }

  /** `UUID(uuidString: s)`: hyphens at offsets 8, 13, 18 and 23 and
      hexadecimal digits everywhere else, 36 characters in all. */
  function ParseUuid(s: string): Option<Uuid>
  {
    if |s| == 36 && s[8] == '-' && s[13] == '-' && s[18] == '-' && s[23] == '-' then
      match ParseHex(s[..8] + s[9..13] + s[14..18] + s[19..23] + s[24..])
      case Some(bytes) =>
        if |bytes| == 16 then var u: Uuid := bytes; Some(u) else None
      case None => None
    else None
  }

  /** Reading back the string of a UUID gives the same UUID. */
  lemma ParseUuidString(u: Uuid)
    ensures ParseUuid(UuidString(u)) == Some(u)
  {
    var s := UuidString(u);
    var digits := s[..8] + s[9..13] + s[14..18] + s[19..23] + s[24..];
    assert s[..8] == Hex(u[..4]);
    assert s[9..13] == Hex(u[4..6]);
    assert s[14..18] == Hex(u[6..8]);
    assert s[19..23] == Hex(u[8..10]);
    assert s[24..] == Hex(u[10..]);
    calc {
      digits;
      Hex(u[..4]) + Hex(u[4..6]) + Hex(u[6..8]) + Hex(u[8..10]) + Hex(u[10..]);
      { HexOfConcat(u[..4], u[4..6]); assert u[..4] + u[4..6] == u[..6]; }
      Hex(u[..6]) + Hex(u[6..8]) + Hex(u[8..10]) + Hex(u[10..]);
      { HexOfConcat(u[..6], u[6..8]); assert u[..6] + u[6..8] == u[..8]; }
      Hex(u[..8]) + Hex(u[8..10]) + Hex(u[10..]);
      { HexOfConcat(u[..8], u[8..10]); assert u[..8] + u[8..10] == u[..10]; }
      Hex(u[..10]) + Hex(u[10..]);
      { HexOfConcat(u[..10], u[10..]); assert u[..10] + u[10..] == u; }
      Hex(u);
    }
    ParseHexOfHex(u);
  }
}
