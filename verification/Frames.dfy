/** The warning frames from the controller to the simulator: their checksum, their layout, and the
    identifier text on its way through bytes. */
module Frames {
  import opened Basics
  import opened AircraftDbSpec
  import T = TrackerSpec

  // ---- exclusive or ----------------------------------------------------------------

  /** Bitwise exclusive or, from the low bit up. */
  function Xor(a: nat, b: nat): nat
    decreases a + b
  {
    if a == 0 && b == 0 then 0 else 2 * Xor(a / 2, b / 2) + (a + b) % 2
  }

  lemma XorZero(a: nat)
    ensures Xor(a, 0) == a && Xor(0, a) == a
  {
  }

  lemma XorSelf(a: nat)
    ensures Xor(a, a) == 0
  {
  }

  lemma XorComm(a: nat, b: nat)
    ensures Xor(a, b) == Xor(b, a)
    decreases a + b
  {
  }

  lemma {:induction false} XorAssoc(a: nat, b: nat, c: nat)
    ensures Xor(Xor(a, b), c) == Xor(a, Xor(b, c))
    decreases a + b + c
  {
    hide Xor;
    XorZero(0);
    if a != 0 || b != 0 || c != 0 {
      XorAssoc(a / 2, b / 2, c / 2);
      XorHalf(a, b);
      XorHalf(b, c);
      XorHalf(Xor(a, b), c);
      XorHalf(a, Xor(b, c));
      Parity(Xor(a, b), a + b, c);
      Parity(Xor(b, c), b + c, a);
      SameHalves(Xor(Xor(a, b), c), Xor(a, Xor(b, c)));
    }
  }

  lemma Parity(x: nat, y: nat, z: nat)
    requires x % 2 == y % 2
    ensures (x + z) % 2 == (y + z) % 2
  {
  }

  lemma SameHalves(x: nat, y: nat)
    requires x / 2 == y / 2 && x % 2 == y % 2
    ensures x == y
  {
  }

  lemma XorHalf(a: nat, b: nat)
    ensures Xor(a, b) / 2 == Xor(a / 2, b / 2) && Xor(a, b) % 2 == (a + b) % 2
    ensures Xor(a, b) == 2 * Xor(a / 2, b / 2) + (a + b) % 2
  {
    if a == 0 && b == 0 {
      assert Xor(0, 0) == 0;
    }
  }

  lemma XorCancel(a: nat, b: nat, c: nat)
    ensures Xor(a, b) == Xor(a, c) ==> b == c
    ensures Xor(a, b) == 0 <==> a == b
  {
    XorAssoc(a, a, b);
    XorAssoc(a, a, c);
    XorSelf(a);
    XorZero(a);
    XorZero(b);
    XorZero(c);
  }

  function Pow2(k: nat): nat { if k == 0 then 1 else 2 * Pow2(k - 1) }

  lemma {:induction false} XorBelow(a: nat, b: nat, k: nat)
    requires a < Pow2(k) && b < Pow2(k)
    ensures Xor(a, b) < Pow2(k)
  {
    if k > 0 {
      XorBelow(a / 2, b / 2, k - 1);
      XorHalf(a, b);
    }
  }

  function XorByte(a: byte, b: byte): byte {
    assert Xor(a, b) < 256 by {
      assert Pow2(8) == 256 by { assert Pow2(4) == 16; }
      XorBelow(a, b, 8);
    }
    Xor(a, b)
  }

  // ---- the checksum ----------------------------------------------------------------

  function XorAll(s: seq<byte>): byte {
    if s == [] then 0 else XorByte(XorAll(s[..|s| - 1]), s[|s| - 1])
  }

  /** The accumulating loop over everything but the last byte, on either side of the link. */
  method Checksum(b: array<byte>) returns (c: byte)
    requires b.Length > 0
    ensures c == XorAll(b[..b.Length - 1])
  {
    c := 0;
    for i := 0 to b.Length - 1
      invariant c == XorAll(b[..i])
    {
      assert b[..i + 1][..i] == b[..i];
      c := XorByte(c, b[i]);
    }
  }

  /** Of nothing it is zero, and of one byte that byte. */
  lemma XorAllFew(x: byte)
    ensures XorAll([]) == 0 && XorAll([x]) == x
  {
    assert [x][..0] == [];
    XorZero(x);
  }

  /** Replacing one byte shifts the checksum by the difference. */
  lemma {:induction false} XorAllUpdate(s: seq<byte>, i: nat, x: byte)
    requires i < |s|
    ensures XorAll(s[i := x]) == Xor(XorAll(s), Xor(s[i], x))
  {
    hide Xor;
    var m := |s| - 1;
    var t := s[i := x];
    var head := XorAll(s[..m]);
    if i == m {
      assert t[..m] == s[..m];
      XorAssoc(head, s[m], Xor(s[m], x));
      XorAssoc(s[m], s[m], x);
      XorSelf(s[m]);
      XorZero(x);
    } else {
      assert t[..m] == s[..m][i := x];
      XorAllUpdate(s[..m], i, x);
      var d := Xor(s[i], x);
      XorAssoc(head, d, s[m]);
      XorComm(d, s[m]);
      XorAssoc(head, s[m], d);
    }
  }

  ghost predicate Checked(s: seq<byte>) { |s| > 0 && XorAll(s[..|s| - 1]) == s[|s| - 1] }

  lemma CheckedIsZero(s: seq<byte>)
    requires |s| > 0
    ensures Checked(s) <==> XorAll(s) == 0
  {
    XorCancel(XorAll(s[..|s| - 1]), s[|s| - 1], 0);
  }

  /** A frame that passes the check fails it after any change of a single byte, the checksum itself
      included. */
  lemma OneByteCaught(s: seq<byte>, i: nat, x: byte)
    requires Checked(s) && i < |s| && x != s[i]
    ensures !Checked(s[i := x])
  {
    CheckedIsZero(s);
    CheckedIsZero(s[i := x]);
    XorAllUpdate(s, i, x);
    XorZero(Xor(s[i], x));
    XorCancel(s[i], x, 0);
  }

  // ---- hexadecimal text ------------------------------------------------------------

  function Digit(n: nat): char
    requires n < 16
  {
    "0123456789abcdef"[n]
  }

  function HexValue(c: char): Option<nat> {
    if '0' <= c <= '9' then Some(c as nat - '0' as nat)
    else if 'a' <= c <= 'f' then Some(c as nat - 'a' as nat + 10)
    else if 'A' <= c <= 'F' then Some(c as nat - 'A' as nat + 10)
    else None
  }

  lemma DigitValue(n: nat)
    requires n < 16
    ensures HexValue(Digit(n)) == Some(n) && LowerHex(Digit(n))
  {
  }

  predicate LowerHex(c: char) { '0' <= c <= '9' || 'a' <= c <= 'f' }

  lemma ValueDigit(c: char)
    requires LowerHex(c)
    ensures HexValue(c).Some? && HexValue(c).value < 16 && Digit(HexValue(c).value) == c
  {
  }

  predicate Space(c: char) { c in " \t\n\r" || c == '\U{0b}' || c == '\U{0c}' }

  /** `(uint8_t)strtoul(buf, NULL, 16)` of a two-character buffer: leading white space, a sign, a
      bare `0x` prefix and everything from the first non-digit on are skipped as the library does. */
  function ParseTwo(a: char, b: char): byte {
    var low: nat := if HexValue(b).Some? then HexValue(b).value else 0;
    if HexValue(a).Some? then
      if HexValue(b).Some? then (HexValue(a).value * 16 + low) % 256 else HexValue(a).value % 256
    else if a == '-' then (256 - low) % 256
    else if a == '+' || Space(a) then low % 256
    else 0
  }

  /** A hexadecimal digit counts as its place in either row of sixteen, and nothing else counts. */
  lemma HexMeans(c: char, v: nat)
    requires v < 16
    ensures HexValue(c) == Some(v) <==> c == "0123456789abcdef"[v] || c == "0123456789ABCDEF"[v]
    ensures HexValue(c).Some? ==> HexValue(c).value < 16
  {
  }

  /** What two characters are read as: two digits as sixteen times the first and the second, of either
      case; one digit alone, or after a plus or white space, as itself; after a minus as its negative in
      eight bits; anything else as zero. */
  lemma ParseMeans(a: char, b: char, i: nat, j: nat)
    ensures HexValue(a) == Some(i) && HexValue(b) == Some(j) ==> ParseTwo(a, b) == 16 * i + j
    ensures HexValue(a) == Some(i) && HexValue(b).None? ==> ParseTwo(a, b) == i
    ensures HexValue(a).None? && HexValue(b) == Some(j) ==>
              ParseTwo(a, b) == if a == '-' then (if j == 0 then 0 else 256 - j)
                                else if a in "+ \t\n\r" || a as nat == 11 || a as nat == 12 then j else 0
    ensures HexValue(a).None? && HexValue(b).None? ==> ParseTwo(a, b) == 0
  {
  }

  function PrintByte(n: byte): string { [Digit(n / 16), Digit(n % 16)] }

  lemma ParsePrint(n: byte)
    ensures ParseTwo(Digit(n / 16), Digit(n % 16)) == n
  {
    DigitValue(n / 16);
    DigitValue(n % 16);
  }

  lemma PrintParse(a: char, b: char)
    requires LowerHex(a) && LowerHex(b)
    ensures PrintByte(ParseTwo(a, b)) == [a, b]
  {
    hide HexValue, Digit, LowerHex, Space, PrintByte;
    ValueDigit(a);
    ValueDigit(b);
    PrintParts(HexValue(a).value, HexValue(b).value);
  }

  lemma PrintParts(high: nat, low: nat)
    requires high < 16 && low < 16
    ensures PrintByte((high * 16 + low) % 256) == [Digit(high), Digit(low)]
  {
    hide Digit;
    TwoParts(high, low);
  }

  lemma TwoParts(high: nat, low: nat)
    ensures low < 16 ==> (high * 16 + low) / 16 == high && (high * 16 + low) % 16 == low
    ensures low < 256 ==> (high * 256 + low) / 256 == high && (high * 256 + low) % 256 == low
  {
  }

  // ---- the identifier on its way ---------------------------------------------------

  /** The identifier buffer is padded with NULs. */
  function CharAt(icao: Icao, k: nat): char { if k < |icao| then icao[k] else '\0' }

  function Pack(icao: Icao): (b: seq<byte>)
    ensures |b| == 3
  {
    [ParseTwo(CharAt(icao, 0), CharAt(icao, 1)), ParseTwo(CharAt(icao, 2), CharAt(icao, 3)),
     ParseTwo(CharAt(icao, 4), CharAt(icao, 5))]
  }

  /** `pack_icao24_bytes`. */
  method PackIcao(icao: Icao, out: array<byte>)
    requires out.Length == 3
    modifies out
    ensures out[..] == Pack(icao)
  {
    hide ParseTwo, CharAt;
    for i := 0 to 3
      invariant out[..i] == Pack(icao)[..i]
    {
      out[i] := ParseTwo(CharAt(icao, i * 2), CharAt(icao, i * 2 + 1));
    }
  }

  /** `%02x%02x%02x`, as the simulator prints an identifier. */
  function PrintIcao(b: seq<byte>): (s: string)
    requires |b| == 3
    ensures |s| == 6
  {
    PrintByte(b[0]) + PrintByte(b[1]) + PrintByte(b[2])
  }

  predicate SixLowerHex(s: string) { |s| == 6 && forall i :: 0 <= i < 6 ==> LowerHex(s[i]) }

  lemma PrintIsHex(b: seq<byte>)
    requires |b| == 3
    ensures SixLowerHex(PrintIcao(b))
  {
    DigitValue(b[0] / 16);
    DigitValue(b[0] % 16);
    DigitValue(b[1] / 16);
    DigitValue(b[1] % 16);
    DigitValue(b[2] / 16);
    DigitValue(b[2] % 16);
  }

  /** The simulator shows the identifier the controller meant if and only if that identifier is six
      lower-case hexadecimal digits. */
  lemma ShownIffHex(icao: Icao)
    ensures PrintIcao(Pack(icao)) == icao <==> SixLowerHex(icao)
  {
    hide ParseTwo, PrintByte;
    PrintIsHex(Pack(icao));
    if SixLowerHex(icao) {
      PrintParse(icao[0], icao[1]);
      PrintParse(icao[2], icao[3]);
      PrintParse(icao[4], icao[5]);
      assert icao == [icao[0], icao[1]] + [icao[2], icao[3]] + [icao[4], icao[5]];
    }
  }

  /** The controller's own two test aircraft are not. */
  lemma TestAircraftMisshown()
    ensures PrintIcao(Pack(T.GHOST)) == "000500" && PrintIcao(Pack(T.MISSILE)) == "000001"
  {
    assert Pack(T.GHOST) == [0, 5, 0] && Pack(T.MISSILE) == [0, 0, 1];
    hide Pack;
  }

  /** The low `width` hexadecimal digits of n, as `%0*x` prints a number that fits. */
  function HexDigits(n: nat, width: nat): (s: string)
    ensures |s| == width
  {
    if width == 0 then "" else HexDigits(n / 16, width - 1) + [Digit(n % 16)]
  }

  const ICAO_LIMIT := 0x100_0000

  function Join(b: seq<byte>): nat
    requires |b| == 3
  {
    var high: nat, mid: nat, low: nat := b[0], b[1], b[2];
    high * 65536 + mid * 256 + low
  }

  lemma TwoDigits(n: nat, width: nat)
    requires width >= 2
    ensures HexDigits(n, width) == HexDigits(n / 256, width - 2) + PrintByte(n % 256)
  {
    assert n / 16 / 16 == n / 256;
    assert n / 16 % 16 == n % 256 / 16;
    assert n % 16 == n % 256 % 16;
    assert HexDigits(n / 16, width - 1) == HexDigits(n / 16 / 16, width - 2) + [Digit(n / 16 % 16)];
  }

  lemma HexIsPrint(b: seq<byte>)
    requires |b| == 3
    ensures HexDigits(Join(b), 6) == PrintIcao(b)
  {
    hide PrintByte, HexDigits;
    var high: nat, mid: nat, low: nat := b[0], b[1], b[2];
    var n := Join(b);
    TwoParts(high * 256 + mid, low);
    TwoParts(high, mid);
    TwoParts(0, high);
    TwoDigits(n, 6);
    TwoDigits(n / 256, 4);
    TwoDigits(high, 2);
    assert |HexDigits(high / 256, 0)| == 0;
  }
}
