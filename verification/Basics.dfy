/** Shared vocabulary: optional values, 32-bit counters and the geographic scales. */
module Basics {

  datatype Option<+T> = None | Some(value: T)

  /** The firmware's counters are `uint32_t`: they wrap. */
  const TWO_32 := 0x1_0000_0000

  type uint32 = n: nat | n < TWO_32

  type byte = n: nat | n < 256

  function Inc32(n: uint32): uint32 {
    (n + 1) % TWO_32
  }

  function Add32(n: uint32, k: nat): uint32 {
    (n + k) % TWO_32
  }

  /** Counting one step and then k more is counting k + 1 steps. */
  lemma IncThenAdd(n: uint32, k: nat)
    ensures Add32(Inc32(n), k) == Add32(n, k + 1)
  {
  }

  /** Degrees of latitude per metre. */
  const DEG_PER_M_LAT: real := 1.0 / 111000.0

  /** Degrees of longitude per metre as a function of latitude; the cosine behind it is not
      modelled, only that the scale is never zero. */
  type LonScale = f: real -> real | forall lat :: f(lat) != 0.0
    witness lat => 1.0

  /** `deg_per_m_lon_at`. */
  function DegPerMLon(scale: LonScale, lat: real): (d: real)
    ensures d != 0.0
  {
    scale(lat)
  }

  /** Process-noise (q) and measurement-noise (r) standard deviations; the shell admits only
      positive values. */
  type Positive = r: real | r > 0.0 witness 1.0
}
