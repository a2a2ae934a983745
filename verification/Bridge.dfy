/** Position frames from the simulator, validated and turned into table records. */
module Bridge {
  import opened Basics
  import opened AircraftDbSpec
  import opened Frames
  import opened WarningLink
  import T = TrackerSpec

  datatype PositionFrame = PositionFrame(
    source: byte, flags: byte, icao24: uint32, lat: real, lon: real, altFt: int, velKt: int, hdgDeg: int, tsMs: uint32)

  datatype Rejected = BadSource | BadIcao | BadPosition

  datatype Converted = Record(ac: Aircraft) | Refused(why: Rejected)

  /** A flag bit, given as a power of two. */
  predicate Flag(flags: byte, bit: nat)
    requires bit > 0
  {
    flags / bit % 2 == 1
  }

  predicate OnEarth(lat: real, lon: real) { -90.0 <= lat <= 90.0 && -180.0 <= lon <= 180.0 }

  lemma HexShape(n: nat, width: nat)
    ensures forall i :: 0 <= i < width ==> LowerHex(HexDigits(n, width)[i])
  {
    if width > 0 {
      HexShape(n / 16, width - 1);
      DigitValue(n % 16);
    }
  }

  /** The lower-case text of a 24-bit identifier. */
  function IcaoText(n: nat): (icao: Icao)
    ensures SixLowerHex(icao)
  {
    HexShape(n, 6);
    HexDigits(n, 6)
  }

  function Convert(f: PositionFrame): Converted {
    if f.source != 0 && f.source != 1 then Refused(BadSource)
    else if f.icao24 >= ICAO_LIMIT then Refused(BadIcao)
    else if !OnEarth(f.lat, f.lon) then Refused(BadPosition)
    else
      var alt, vel, hdg := Flag(f.flags, 2), Flag(f.flags, 4), Flag(f.flags, 8);
      Record(NO_AIRCRAFT.(
        icao := IcaoText(f.icao24), lat := f.lat, lon := f.lon, ts := f.tsMs as real / 1000.0,
        source := if f.source == 1 then BleSim else AdsB,
        altValid := alt, altFt := if alt then f.altFt else 0,
        velValid := vel, velKt := if vel then f.velKt as real else 0.0,
        hdgValid := hdg, hdgDeg := if hdg then f.hdgDeg as real else 0.0))
  }

  /** `bridge_convert` and the rejection counters. */
  class Bridge {
    var rejSource: uint32
    var rejIcao: uint32
    var rejLatLon: uint32

    method BridgeConvert(f: PositionFrame) returns (out: Option<Aircraft>)
      modifies this
      ensures out == match Convert(f) case Record(ac) => Some(ac) case Refused(_) => None
      ensures rejSource == if Convert(f) == Refused(BadSource) then Inc32(old(rejSource)) else old(rejSource)
      ensures rejIcao == if Convert(f) == Refused(BadIcao) then Inc32(old(rejIcao)) else old(rejIcao)
      ensures rejLatLon == if Convert(f) == Refused(BadPosition) then Inc32(old(rejLatLon)) else old(rejLatLon)
    {
      hide IcaoText, Flag;
      if f.source != 0 && f.source != 1 {
        rejSource := Inc32(rejSource);
        return None;
      }
      if f.icao24 > 0xFFFFFF {
        rejIcao := Inc32(rejIcao);
        return None;
      }
      if f.lat < -90.0 || f.lat > 90.0 || f.lon < -180.0 || f.lon > 180.0 {
        rejLatLon := Inc32(rejLatLon);
        return None;
      }
      var ac := NO_AIRCRAFT.(
        icao := IcaoText(f.icao24), lat := f.lat, lon := f.lon, ts := f.tsMs as real / 1000.0,
        source := if f.source == 1 then BleSim else AdsB);
      if Flag(f.flags, 2) { ac := ac.(altValid := true, altFt := f.altFt); }
      if Flag(f.flags, 4) { ac := ac.(velValid := true, velKt := f.velKt as real); }
      if Flag(f.flags, 8) { ac := ac.(hdgValid := true, hdgDeg := f.hdgDeg as real); }
      return Some(ac);
    }
  }

  lemma SplitIcao(n: nat) returns (b: seq<byte>)
    requires n < ICAO_LIMIT
    ensures |b| == 3 && Join(b) == n
  {
    b := [n / 65536, n / 256 % 256, n % 256];
  }

  lemma PackPrint(b: seq<byte>)
    requires |b| == 3
    ensures Pack(IcaoText(Join(b))) == b
  {
    hide ParseTwo, Join;
    HexIsPrint(b);
    ParsePrint(b[0]);
    ParsePrint(b[1]);
    ParsePrint(b[2]);
  }

  /** Every 24-bit identifier survives the whole circle: written out by the bridge, packed by the
      controller, printed by the simulator. */
  lemma IcaoRoundTrip(n: nat)
    requires n < ICAO_LIMIT
    ensures Join(Pack(IcaoText(n))) == n
    ensures PrintIcao(Pack(IcaoText(n))) == IcaoText(n)
  {
    hide IcaoText, Pack, PrintIcao;
    var b := SplitIcao(n);
    PackPrint(b);
    ShownIffHex(IcaoText(n));
  }

  /** A frame is converted exactly when source, identifier and position are in range. An aircraft
      that came over the bridge, named as the threat in a warning, is shown by the simulator under
      the very identifier of its frame; and distinct frames stay distinct aircraft. */
  lemma ConvertedNamed(f: PositionFrame, g: PositionFrame, now: nat)
    ensures Convert(f).Record? <==> f.source <= 1 && f.icao24 < ICAO_LIMIT && OnEarth(f.lat, f.lon)
    ensures Convert(f).Record? ==>
              Read(Encode(CollisionMsg(Convert(f).ac.icao), now)) == CollisionNote(Convert(f).ac.icao, 1)
              && Join(Pack(Convert(f).ac.icao)) == f.icao24
    ensures Convert(f).Record? && Convert(g).Record? && Convert(f).ac.icao == Convert(g).ac.icao ==> f.icao24 == g.icao24
  {
    hide IcaoText, Pack, PrintIcao, Read, Encode, Join, OnEarth, Flag;
    if Convert(f).Record? {
      IcaoRoundTrip(f.icao24);
      Delivered(CollisionMsg(Convert(f).ac.icao), now);
    }
    if Convert(g).Record? {
      IcaoRoundTrip(g.icao24);
    }
  }

  /** Each way a frame can fail, in the order they are looked for. */
  lemma RefusedWhy(f: PositionFrame)
    ensures var here := -90.0 <= f.lat && f.lat <= 90.0 && -180.0 <= f.lon && f.lon <= 180.0;
            && (Convert(f) == Refused(BadSource) <==> f.source > 1)
            && (Convert(f) == Refused(BadIcao) <==> f.source <= 1 && f.icao24 > 0xFFFFFF)
            && (Convert(f) == Refused(BadPosition) <==> f.source <= 1 && f.icao24 <= 0xFFFFFF && !here)
            && (Convert(f).Record? <==> f.source <= 1 && f.icao24 <= 0xFFFFFF && here)
  {
    hide IcaoText, Flag;
  }

  /** A converted record is the frame: its position, its source, its clock in seconds, and each of the three
      optional fields exactly if its own flag bit is set, a zero otherwise; it carries no prediction. */
  lemma ConvertedIs(f: PositionFrame)
    requires Convert(f).Record?
    ensures var ac := Convert(f).ac;
            && ac.lat == f.lat && ac.lon == f.lon && ac.ts * 1000.0 == f.tsMs as real
            && (ac.source == BleSim <==> f.source == 1) && (ac.source == AdsB <==> f.source == 0)
            && (ac.altValid <==> f.flags / 2 % 2 == 1) && ac.altFt == (if ac.altValid then f.altFt else 0)
            && (ac.velValid <==> f.flags / 4 % 2 == 1) && ac.velKt == (if ac.velValid then f.velKt as real else 0.0)
            && (ac.hdgValid <==> f.flags / 8 % 2 == 1) && ac.hdgDeg == (if ac.hdgValid then f.hdgDeg as real else 0.0)
            && !ac.predValid
  {
    hide IcaoText;
  }
}
