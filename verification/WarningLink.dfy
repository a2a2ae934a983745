/** Both ends of the warning link: what the controller writes and what the simulator makes of it. */
module WarningLink {
  import opened Basics
  import opened AircraftDbSpec
  import opened Frames
  import T = TrackerSpec

  const FRAME_SIZE := 16
  const TEXT_FRAME_SIZE := 31

  // ---- the controller's side -------------------------------------------------------

  datatype Message =
    | CollisionMsg(other: Icao)
    | DiversionMsg(other: Icao, d: T.Diversion)
    | CrashMsg(other: Icao)

  function Type(m: Message): byte {
    match m
    case CollisionMsg(_) => 2
    case DiversionMsg(_, _) => 3
    case CrashMsg(_) => 5
  }

  function Severity(m: Message): byte {
    match m
    case CollisionMsg(_) => 1
    case DiversionMsg(_, _) => 0
    case CrashMsg(_) => 2
  }

  /** Heading change in degrees; plus and minus 127 stand for return-to-base and hold. */
  function HdgDelta(m: Message): int {
    if !m.DiversionMsg? then 0
    else match m.d
      case Left => -30
      case Right => 30
      case Rtb => 127
      case Hold => -127
      case _ => 0
  }

  function AltDelta(m: Message): int {
    if m.DiversionMsg? && m.d == T.Climb then 1000
    else if m.DiversionMsg? && m.d == T.Descend then -1000
    else 0
  }

  type uint16 = n: nat | n < 65536

  /** The first fifteen bytes; altitude is little-endian, latitude and longitude are zero. */
  function Layout(kind: byte, icao: seq<byte>, alt: uint16, severity: byte, hdg: byte, ts: byte): (b: seq<byte>)
    requires |icao| == 3
    ensures |b| == FRAME_SIZE - 1
  {
    [kind, icao[0], icao[1], icao[2], 0, 0, 0, 0, 0, 0, alt % 256, alt / 256, severity, hdg, ts]
  }

  /** The frame without its checksum. */
  function Payload(m: Message, now: nat): (b: seq<byte>)
    ensures |b| == FRAME_SIZE - 1
  {
    Layout(Type(m), Pack(m.other), AltDelta(m) % 65536, Severity(m), HdgDelta(m) % 256, now % 256)
  }

  function Encode(m: Message, now: nat): (b: seq<byte>)
    ensures |b| == FRAME_SIZE
  {
    Payload(m, now) + [XorAll(Payload(m, now))]
  }

  /** Fill in a zeroed frame field by field. */
  method FillFields(f: array<byte>, kind: byte, icao: array<byte>, alt: uint16, severity: byte, hdg: byte, ts: byte)
    requires f.Length == FRAME_SIZE && icao.Length == 3 && forall i :: 0 <= i < FRAME_SIZE ==> f[i] == 0
    modifies f
    ensures f[..FRAME_SIZE - 1] == Layout(kind, old(icao[..]), alt, severity, hdg, ts)
  {
    f[0], f[1], f[2], f[3] := kind, icao[0], icao[1], icao[2];
    f[10], f[11] := alt % 256, alt / 256;
    f[12], f[13], f[14] := severity, hdg, ts;
  }

  /** `send_ble_warning`, `send_ble_diversion` and `send_ble_crash`: filled in, then stamped. */
  method BuildFrame(m: Message, now: nat) returns (f: array<byte>)
    ensures fresh(f) && f[..] == Encode(m, now)
  {
    hide XorAll, Pack, Type, Severity, HdgDelta, AltDelta, Layout;
    f := new byte[FRAME_SIZE](_ => 0);
    var icao := new byte[3];
    PackIcao(m.other, icao);
    FillFields(f, Type(m), icao, AltDelta(m) % 65536, Severity(m), HdgDelta(m) % 256, now % 256);
    var crc := Checksum(f);
    f[FRAME_SIZE - 1] := crc;
    assert f[..] == f[..FRAME_SIZE - 1] + [crc];
  }

  // ---- the simulator's side --------------------------------------------------------

  /** What a write to the warning characteristic comes to. */
  datatype Reading =
    | BadLength
    | BadCrc
    | FreeText
    | CollisionNote(icao: string, severity: byte)
    | DiversionNote(icao: string, hdg: int, alt: int)
    | CrashNote
    | Ignored

  function Signed(n: nat, bits: nat): int { if 2 * n < Pow2(bits) then n else n - Pow2(bits) }

  function ReadNote(b: seq<byte>): Reading
    requires |b| == FRAME_SIZE
  {
    if b[0] == 2 then CollisionNote(PrintIcao(b[1..4]), b[12])
    else if b[0] == 3 then
      var low: nat, high: nat := b[10], b[11];
      DiversionNote(PrintIcao(b[1..4]), Signed(b[13], 8), Signed(low + 256 * high, 16))
    else if b[0] == 5 then CrashNote
    else Ignored
  }

  function Read(b: seq<byte>): Reading {
    if |b| < 2 then BadLength
    else if b[0] == 4 then
      if |b| != TEXT_FRAME_SIZE then BadLength
      else if XorAll(b[..|b| - 1]) != b[|b| - 1] then BadCrc
      else FreeText
    else if |b| != FRAME_SIZE then BadLength
    else if XorAll(b[..|b| - 1]) != b[|b| - 1] then BadCrc
    else ReadNote(b)
  }

  /** `warn_write`. */
  method WarnWrite(buf: array<byte>) returns (r: Reading)
    ensures r == Read(buf[..])
  {
    hide XorAll, ReadNote;
    if buf.Length < 2 { return BadLength; }
    assert buf[..][..buf.Length - 1] == buf[..buf.Length - 1];
    if buf[0] == 4 {
      if buf.Length != TEXT_FRAME_SIZE { return BadLength; }
      var crc := Checksum(buf);
      return if crc != buf[buf.Length - 1] then BadCrc else FreeText;
    }
    if buf.Length != FRAME_SIZE { return BadLength; }
    var crc := Checksum(buf);
    if crc != buf[buf.Length - 1] { return BadCrc; }
    r := ReadNote(buf[..]);
  }

  // ---- the two together ------------------------------------------------------------

  /** What the controller meant by a message. */
  function Meaning(m: Message): Reading {
    match m
    case CollisionMsg(other) => CollisionNote(PrintIcao(Pack(other)), 1)
    case DiversionMsg(other, d) => DiversionNote(PrintIcao(Pack(other)), HdgDelta(m), AltDelta(m))
    case CrashMsg(_) => CrashNote
  }

  lemma SignedBack(n: int)
    ensures -128 <= n < 128 ==> Signed(n % 256, 8) == n
    ensures -32768 <= n < 32768 ==> Signed(n % 65536 % 256 + 256 * (n % 65536 / 256), 16) == n
  {
    assert Pow2(8) == 256 by { assert Pow2(4) == 16; }
    assert Pow2(16) == 65536 by { assert Pow2(12) == 4096 by { assert Pow2(8) == 256; } }
  }

  /** Every message the controller sends is accepted by the simulator and read as it was meant:
      signs of the two deltas and byte order included. */
  lemma Delivered(m: Message, now: nat)
    ensures Read(Encode(m, now)) == Meaning(m)
  {
    hide XorAll, Pack, PrintIcao, Signed;
    var b := Encode(m, now);
    assert b[..15] == Payload(m, now);
    assert b[1..4] == Pack(m.other);
    SignedBack(HdgDelta(m));
    SignedBack(AltDelta(m));
  }

  /** The identifier the simulator prints is the threat's own if and only if that is six lower-case
      hexadecimal digits. */
  lemma ThreatNamed(m: Message, now: nat)
    requires !m.CrashMsg?
    ensures Read(Encode(m, now)).CollisionNote? || Read(Encode(m, now)).DiversionNote?
    ensures Read(Encode(m, now)).icao == m.other <==> SixLowerHex(m.other)
  {
    hide Encode, Read, Pack, PrintIcao;
    Delivered(m, now);
    ShownIffHex(m.other);
  }

  /** Each diversion as the simulator reads it, in degrees and feet: a turn of 30 degrees left or right, a
      thousand feet up or down, and plus and minus 127 degrees for home and hold. */
  lemma DiversionsRead(other: Icao, now: nat)
    ensures var read := (d: T.Diversion) => Read(Encode(DiversionMsg(other, d), now));
            var name := PrintIcao(Pack(other));
            && read(T.Left) == DiversionNote(name, -30, 0) && read(T.Right) == DiversionNote(name, 30, 0)
            && read(T.Climb) == DiversionNote(name, 0, 1000) && read(T.Descend) == DiversionNote(name, 0, -1000)
            && read(T.Rtb) == DiversionNote(name, 127, 0) && read(T.Hold) == DiversionNote(name, -127, 0)
  {
    hide Encode, Read, Pack, PrintIcao;
    Delivered(DiversionMsg(other, T.Left), now);
    Delivered(DiversionMsg(other, T.Right), now);
    Delivered(DiversionMsg(other, T.Climb), now);
    Delivered(DiversionMsg(other, T.Descend), now);
    Delivered(DiversionMsg(other, T.Rtb), now);
    Delivered(DiversionMsg(other, T.Hold), now);
  }

  /** The frame byte by byte: type, identifier, fields no message fills, altitude low byte first,
      severity (advisory for a diversion, warning for a collision, urgent for a crash), heading, time. */
  lemma FrameBytes(m: Message, now: nat)
    ensures var b := Encode(m, now);
            && |b| == 16 && b[0] == (match m case CollisionMsg(_) => 2 case DiversionMsg(_, _) => 3 case CrashMsg(_) => 5)
            && b[1..4] == Pack(m.other) && b[4..10] == [0, 0, 0, 0, 0, 0]
            && b[12] == (match m case DiversionMsg(_, _) => 0 case CollisionMsg(_) => 1 case CrashMsg(_) => 2)
            && (!m.DiversionMsg? ==> b[10] == b[11] == b[13] == 0)
            && b[14] == now % 256 && Checked(b)
  {
    hide XorAll, Pack;
    assert Encode(m, now)[..15] == Payload(m, now);
  }

  /** No two diversions are read alike. */
  lemma DiversionsDistinct(m: Message, m2: Message, now: nat, now2: nat)
    requires m.DiversionMsg? && m2.DiversionMsg?
    requires Read(Encode(m, now)) == Read(Encode(m2, now2))
    ensures m.d == m2.d
  {
    hide Encode, Read;
    Delivered(m, now);
    Delivered(m2, now2);
  }

  predicate Accepted(r: Reading) { r != BadLength && r != BadCrc }

  lemma AcceptedChecked(b: seq<byte>)
    ensures Accepted(Read(b)) <==> Checked(b) && |b| == (if b != [] && b[0] == 4 then TEXT_FRAME_SIZE else FRAME_SIZE)
  {
    hide XorAll;
  }

  /** Any accepted frame, of either size, is refused after any change confined to one byte. */
  lemma TamperedRefused(b: seq<byte>, i: nat, x: byte)
    requires Accepted(Read(b)) && i < |b| && x != b[i]
    ensures !Accepted(Read(b[i := x]))
  {
    hide Read, Checked;
    AcceptedChecked(b);
    AcceptedChecked(b[i := x]);
    OneByteCaught(b, i, x);
  }
}
