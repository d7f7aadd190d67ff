/** Bytes, object identifiers and the few string operations the handlers use:
    `ObjectId.Hex()`, `strings.Trim(s, " ")` and `strconv.Itoa`. */
module Text {
  import opened Wrappers

  type byte = b: int | 0 <= b < 256

  /** A BSON object identifier: the raw bytes (twelve of them when generated). */
  type ObjectId = seq<byte>

  const HexDigits: string := "0123456789abcdef"

  /** The value of a lower-case hexadecimal digit, or -1. */
  function DigitValue(c: char): (v: int)
    ensures -1 <= v < 16
    ensures v >= 0 ==> HexDigits[v] == c
  {
    if '0' <= c <= '9' then c as int - '0' as int
    else if 'a' <= c <= 'f' then c as int - 'a' as int + 10
    else -1
  }

  function HexByte(b: byte): string {
    [HexDigits[b / 16], HexDigits[b % 16]]
  }

  /** `ObjectId.Hex()`: two lower-case hexadecimal digits per byte. */
  function Hex(bs: seq<byte>): (r: string)
    ensures |r| == 2 * |bs|
    ensures forall k :: 0 <= k < |r| ==> DigitValue(r[k]) >= 0
  {
    if bs == [] then "" else HexByte(bs[0]) + Hex(bs[1..])
  }

  /** The left inverse of `Hex`: decodes pairs of lower-case hexadecimal digits, of any even
      length. It reads the ids back out of links and out of the runner's answer. */
  function Unhex(s: string): Option<seq<byte>>
    decreases |s|
  {
    if s == [] then Some([])
    else if |s| == 1 then None
    else
      var hi, lo := DigitValue(s[0]), DigitValue(s[1]);
      if hi < 0 || lo < 0 then None
      else match Unhex(s[2..])
        case None => None
        case Some(rest) => Some([(hi * 16 + lo) as byte] + rest)
  }

  lemma DigitValueOfDigit(d: int)
    requires 0 <= d < 16
    ensures DigitValue(HexDigits[d]) == d
  {
  }

  lemma HexByteDecodes(b: byte)
    ensures DigitValue(HexByte(b)[0]) == b / 16 && DigitValue(HexByte(b)[1]) == b % 16
  {
    DigitValueOfDigit(b / 16);
    DigitValueOfDigit(b % 16);
  }

  /** `bson.ObjectIdHex(id.Hex()) == id`. */
  lemma {:induction false} UnhexHex(bs: seq<byte>)
    ensures Unhex(Hex(bs)) == Some(bs)
  {
    if bs != [] {
      var h := Hex(bs);
      var hb := HexByte(bs[0]);
      assert h == hb + Hex(bs[1..]);
      assert h[0] == hb[0] && h[1] == hb[1];
      assert h[2..] == Hex(bs[1..]);
      HexByteDecodes(bs[0]);
      UnhexHex(bs[1..]);
      assert [bs[0]] + bs[1..] == bs;
    }
  }

  /** Equal hexadecimal renderings come from equal identifiers. */
  lemma HexInjective(a: seq<byte>, b: seq<byte>)
    requires Hex(a) == Hex(b)
    ensures a == b
  {
    UnhexHex(a);
    UnhexHex(b);
  }

  /** The bytes of a text whose characters are all below 128 (Go's string-to-bytes view of
      ASCII text; every use is an ASCII literal). */
  function Bytes(s: string): (r: seq<byte>)
    ensures |r| == |s|
    ensures forall i :: 0 <= i < |s| ==> r[i] == (s[i] as int) % 256
  {
    seq(|s|, i requires 0 <= i < |s| => (s[i] as int) % 256)
  }

  /** Drops the leading spaces. */
  function TrimLeft(s: string): (r: string)
    ensures |r| <= |s| && r == s[|s| - |r|..]
    ensures forall k :: 0 <= k < |s| - |r| ==> s[k] == ' '
    ensures r == [] || r[0] != ' '
  {
    if s != [] && s[0] == ' ' then TrimLeft(s[1..]) else s
  }

  /** Drops the trailing spaces. */
  function TrimRight(s: string): (r: string)
    ensures |r| <= |s| && r == s[..|r|]
    ensures forall k :: |r| <= k < |s| ==> s[k] == ' '
    ensures r == [] || r[|r| - 1] != ' '
  {
    if s != [] && s[|s| - 1] == ' ' then TrimRight(s[..|s| - 1]) else s
  }

  /** `r` is `s` with the first `i` characters and some suffix cut, all of them spaces. */
  ghost predicate SpaceFramed(s: string, i: int, r: string) {
    && 0 <= i <= |s| - |r|
    && r == s[i..i + |r|]
    && (forall k :: 0 <= k < i ==> s[k] == ' ')
    && (forall k :: i + |r| <= k < |s| ==> s[k] == ' ')
  }

  /** `strings.Trim(s, " ")`: only the space character is cut, from both ends. */
  function Trim(s: string): (r: string)
    ensures r == [] || (r[0] != ' ' && r[|r| - 1] != ' ')
    ensures exists i :: SpaceFramed(s, i, r)
  {
    var l := TrimLeft(s);
    var r := TrimRight(l);
    assert r != [] ==> r[0] == l[0];
    var i := |s| - |l|;
    assert SpaceFramed(s, i, r);
    r
  }

  /** Trimming twice is trimming once. */
  lemma TrimIdempotent(s: string)
    ensures Trim(Trim(s)) == Trim(s)
  {
    var t := Trim(s);
    assert TrimLeft(t) == t;
    assert TrimRight(t) == t;
  }

  /** A string of decimal digits only. */
  predicate Decimal(s: string) {
    forall k :: 0 <= k < |s| ==> '0' <= s[k] <= '9'
  }

  /** The number a string of decimal digits denotes, most significant digit first. */
  function DecimalValue(s: string): nat
    requires Decimal(s)
    decreases |s|
  {
    if s == [] then 0 else DecimalValue(s[..|s| - 1]) * 10 + DigitValue(s[|s| - 1])
  }

  function NatToString(n: nat): (r: string)
    ensures |r| >= 1 && Decimal(r)
  {
    if n < 10 then [HexDigits[n]] else NatToString(n / 10) + [HexDigits[n % 10]]
  }

  /** `strconv.Itoa`. */
  function IntToString(i: int): string {
    if i < 0 then "-" + NatToString(-i) else NatToString(i)
  }

  /** The decimal text of a natural number reads back as that number. */
  lemma {:induction false} NatToStringValue(n: nat)
    ensures DecimalValue(NatToString(n)) == n
  {
    var r := NatToString(n);
    if n >= 10 {
      NatToStringValue(n / 10);
      assert r[..|r| - 1] == NatToString(n / 10);
    }
  }

  /** The decimal text of a natural number starts with a zero only when it is zero. */
  lemma {:induction false} NatToStringCanonical(n: nat)
    ensures NatToString(n)[0] != '0' || n == 0
  {
    if n >= 10 {
      NatToStringCanonical(n / 10);
    }
  }

  /** `strconv.Itoa` writes a minus sign exactly for a negative number, followed by the
      decimal digits of its magnitude, without leading zeros. */
  lemma IntToStringValue(i: int)
    ensures var r := IntToString(i);
      && |r| >= 1 && (r[0] == '-' <==> i < 0)
      && (i < 0 ==> Decimal(r[1..]) && DecimalValue(r[1..]) == -i)
      && (i >= 0 ==> Decimal(r) && DecimalValue(r) == i)
    ensures var r := IntToString(i);
      var digits := if i < 0 then r[1..] else r;
      |digits| >= 1 && (digits[0] == '0' ==> i == 0)
  {
    if i < 0 {
      NegativeToString(-i);
      NatToStringCanonical(-i);
    } else {
      NatToStringValue(i);
      NatToStringCanonical(i);
    }
  }

  lemma NegativeToString(n: nat)
    requires n > 0
    ensures var r := IntToString(-(n as int));
      && |r| >= 1 && r[0] == '-' && r[1..] == NatToString(n) && DecimalValue(r[1..]) == n
  {
    NatToStringValue(n);
    var r := IntToString(-(n as int));
    assert r[1..] == NatToString(n);
  }
}
