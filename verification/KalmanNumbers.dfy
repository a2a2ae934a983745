/** The filter in metres and seconds: what its first fix and its predictions do, entry by entry. */
module KalmanNumbers {
  import opened Algebra
  import opened Basics
  import opened Matrices
  import opened KalmanSpec

  // ---- the first fix ----------------------------------------------------------------

  function Product(x: real, y: real): real { x * y }

  /** m metres as a variance on an axis of k degrees a metre. */
  function Spread(m: real, k: real): real { Product(m * k, m * k) }

  /** A new filter stands where it was put, at rest, sure of that to 100 m and 50 m/s. */
  lemma StartsAt(lat: real, lon: real)
    ensures var s := InitState(lat, lon);
            && s.initialised && s.updates == 0 && s.x == [lat, lon, 0.0, 0.0]
            && s.P[0] == s.P[5] == Spread(100.0, 1.0 / 111000.0) && s.P[10] == s.P[15] == Spread(50.0, 1.0 / 111000.0)
            && forall k :: 0 <= k < 16 && k % 5 != 0 ==> s.P[k] == 0.0
  {
  }

  /** How far towards a fix of noise r metres the first update goes, on an axis of k degrees a metre: all
      the way against no noise, half the way when the noise is the 100 m of latitude it started with. */
  function Share(r: Positive, k: real): (g: real)
    requires k != 0.0
    ensures 0.0 < g < 1.0
  {
    var p, R := Spread(100.0, 1.0 / 111000.0), Spread(r, k);
    SpreadSign(100.0, 1.0 / 111000.0);
    SpreadSign(r, k);
    GainSplit(p, R);
    p / (p + R)
  }

  lemma SpreadSign(m: real, k: real)
    requires m != 0.0 && k != 0.0
    ensures Spread(m, k) > 0.0
  {
    SquareSign(m * k, Spread(m, k));
  }

  /** In latitude that is 10000/(10000 + r^2), wherever on earth. */
  lemma LatShare(r: Positive)
    ensures Share(r, 1.0 / 111000.0) == 10000.0 / (10000.0 + r * r)
  {
    var k := 1.0 / 111000.0;
    SpreadSign(100.0, k);
    SpreadSign(r, k);
    SquareSign(r, r * r);
    var p, R, g := Spread(100.0, k), Spread(r, k), 10000.0 / (10000.0 + r * r);
    Quotient(p, p + R);
    Quotient(10000.0, 10000.0 + r * r);
    GainIs(r, k, p, R, g);
    Cancel(p / (p + R), g, p + R);
  }

  lemma GainIs(r: real, k: real, p: real, R: real, g: real)
    requires p == Spread(100.0, k) && R == Spread(r, k) && g * (10000.0 + r * r) == 10000.0
    ensures g * (p + R) == p
  {
    var k2 := k * k;
    assert p == 10000.0 * k2 && R == (r * r) * k2;
    assert p + R == (10000.0 + r * r) * k2;
    assert g * ((10000.0 + r * r) * k2) == (g * (10000.0 + r * r)) * k2;
  }

  function Toward(a: real, z: real, g: real): real { a + (z - a) * g }

  /** The first fix, of noise r metres: each position goes its share of the way, no velocity is inferred,
      and what is left of the position variances is that share of the noise. */
  lemma FirstFix(a: real, b: real, z: real, w: real, r: Positive, scale: LonScale)
    ensures var s, g, h := UpdateState(InitState(a, b), z, w, r, scale), Share(r, 1.0 / 111000.0), Share(r, scale(a));
            && g == 10000.0 / (10000.0 + r * r)
            && s.initialised && s.updates == 1 && s.x == [Toward(a, z, g), Toward(b, w, h), 0.0, 0.0]
            && s.P[0] == Product(g, Spread(r, 1.0 / 111000.0)) && s.P[5] == Product(h, Spread(r, scale(a)))
            && s.P[10] == s.P[15] == Spread(50.0, 1.0 / 111000.0)
  {
    InitRefines(a, b);
    UpdateRefines(InitPair(a, b), 0, z, w, r, scale);
    LatShare(r);
    FixPair(a, b, z, w, r, scale);
    FixEntries(InitPair(a, b).Update(z, w, r, scale));
    hide UpdateState, InitState, LatVar, LonVar, Cov.Sound, Embed, Axis.Update, Pair.Update, Share, Spread, Product, Toward;
  }

  lemma FixPair(a: real, b: real, z: real, w: real, r: Positive, scale: LonScale)
    requires InitPair(a, b).Sound()
    ensures var f, k := InitPair(a, b).Update(z, w, r, scale), 1.0 / 111000.0;
            && FixedBy(f.lat, a, z, Share(r, k), Spread(r, k)) && FixedBy(f.lon, b, w, Share(r, scale(a)), Spread(r, scale(a)))
  {
    NoiseVar(r, scale, a);
    SpreadSign(r, 1.0 / 111000.0);
    SpreadSign(r, scale(a));
    StartIs();
    hide LatVar, LonVar, Spread, Product, Toward, Axis.Update, Cov.Sound, FixedBy, InitPair;
    FixPairParts(a, b, z, w, r, scale);
    FixAxis(a, z, r, 1.0 / 111000.0);
    FixAxis(b, w, r, scale(a));
  }

  lemma FixPairParts(a: real, b: real, z: real, w: real, r: Positive, scale: LonScale)
    requires InitPair(a, b).Sound() && LatVar(r) > 0.0 && LonVar(r, scale, a) > 0.0
    ensures P0.p + LatVar(r) != 0.0 && P0.p + LonVar(r, scale, a) != 0.0
    ensures InitPair(a, b).Update(z, w, r, scale)
         == Pair(Axis(a, 0.0, P0).Update(z, LatVar(r)), Axis(b, 0.0, P0).Update(w, LonVar(r, scale, a)))
  {
  }

  predicate FixedBy(f: Axis, x: real, z: real, g: real, R: real) {
    && f.pos == Toward(x, z, g) && f.vel == 0.0
    && f.cov.p == Product(g, R) && f.cov.v == Spread(50.0, 1.0 / 111000.0)
  }

  lemma FixEntries(f: Pair)
    ensures var s := Embed(f, Inc32(0));
            && s.initialised && s.updates == 1 && s.x == [f.lat.pos, f.lon.pos, f.lat.vel, f.lon.vel]
            && s.P[0] == f.lat.cov.p && s.P[10] == f.lat.cov.v && s.P[5] == f.lon.cov.p && s.P[15] == f.lon.cov.v
  {
  }

  lemma StartIs()
    ensures P0 == Cov(Spread(100.0, 1.0 / 111000.0), 0.0, Spread(50.0, 1.0 / 111000.0))
  {
  }

  /** One axis of an update from rest. */
  lemma FixAxis(x: real, z: real, r: Positive, k: real)
    requires k != 0.0
    ensures Spread(r, k) > 0.0 && P0.p > 0.0
    ensures FixedBy(Axis(x, 0.0, P0).Update(z, Spread(r, k)), x, z, Share(r, k), Spread(r, k))
  {
    StartIs();
    SpreadSign(100.0, 1.0 / 111000.0);
    SpreadSign(r, k);
    hide Spread;
    var p, R := P0.p, Spread(r, k);
    GainSplit(p, R);
    var g := p / (p + R);
    assert g * (p + R) == g * p + g * R;
    Quotient(0.0, p + R);
    Cancel(0.0 / (p + R), 0.0, p + R);
  }

  /** A filter never started stays as it is and extrapolates to nothing. */
  lemma BlankStays(s: KState, dt: real, q: real, z: real, w: real, r: Positive, scale: LonScale)
    requires !s.initialised
    ensures PredictState(s, dt, q, scale) == s && UpdateState(s, z, w, r, scale) == s && PredictAhead(s, dt) == (0.0, 0.0)
  {
  }

  // ---- the gain, for any covariance --------------------------------------------------

  /** Whatever the covariance, the closed form solves K S = P H' for the innovation S = H P H' + R: entry by
      entry, with the cross terms of S. */
  lemma GainSolves(P: Mat4, R00: real, R11: real, i: nat)
    requires Det(P, R00, R11) != 0.0 && i < 4
    ensures var k, l := KalmanSpec.Gain(P, R00, R11)[2 * i], KalmanSpec.Gain(P, R00, R11)[2 * i + 1];
            && k * (P[0] + R00) + l * P[4] == P[4 * i]
            && k * P[1] + l * (P[5] + R11) == P[4 * i + 1]
  {
    var a, b, c, d, det := P[0] + R00, P[1], P[4], P[5] + R11, Det(P, R00, R11);
    Quotient(1.0, det);
    assert det == a * d - b * c;
    GainEntries(P, R00, R11, i);
    hide Det, KalmanSpec.Gain;
    InverseSolves(P[4 * i], P[4 * i + 1], a, b, c, d, 1.0 / det);
  }

  lemma GainEntries(P: Mat4, R00: real, R11: real, i: nat)
    requires Det(P, R00, R11) != 0.0 && i < 4
    ensures var inv := 1.0 / Det(P, R00, R11);
            && KalmanSpec.Gain(P, R00, R11)[2 * i] == P[4 * i] * ((P[5] + R11) * inv) + P[4 * i + 1] * (-P[4] * inv)
            && KalmanSpec.Gain(P, R00, R11)[2 * i + 1] == P[4 * i] * (-P[1] * inv) + P[4 * i + 1] * ((P[0] + R00) * inv)
  {
    hide Det;
  }

  lemma InverseSolves(p: real, q: real, a: real, b: real, c: real, d: real, inv: real)
    requires inv * (a * d - b * c) == 1.0
    ensures var k, l := p * (d * inv) + q * (-c * inv), p * (-b * inv) + q * (a * inv);
            k * a + l * c == p && k * b + l * d == q
  {
    var k, l := p * (d * inv) + q * (-c * inv), p * (-b * inv) + q * (a * inv);
    assert k * a + l * c == p * (inv * (a * d - b * c));
    assert k * b + l * d == q * (inv * (a * d - b * c));
  }

  // ---- a prediction -----------------------------------------------------------------

  /** What an acceleration of q m/s^2 held for dt moves, and speeds up, on an axis of k degrees a metre. */
  function Shift(q: real, k: real, dt: real): real { (dt * dt / 2.0) * (q * k) }

  function SpeedUp(q: real, k: real, dt: real): real { dt * (q * k) }

  /** A block [p c; d v] of any covariance and the block [p' c'; d' v'] a prediction makes of it: position
      carried along by velocity, and the unknown acceleration added. */
  predicate Grows(p: real, c: real, d: real, v: real, p': real, c': real, d': real, v': real, dt: real, q: real, k: real) {
    && p' == p + dt * (c + d) + dt * dt * v + Product(Shift(q, k, dt), Shift(q, k, dt))
    && c' == c + dt * v + Product(Shift(q, k, dt), SpeedUp(q, k, dt))
    && d' == d + dt * v + Product(Shift(q, k, dt), SpeedUp(q, k, dt))
    && v' == v + Product(SpeedUp(q, k, dt), SpeedUp(q, k, dt))
  }

  /** A prediction over dt, entry by entry, from any state: positions move at the velocities, and each
      axis' covariance grows by its own motion and the acceleration noise, in degrees of that axis at the
      latitude reached. */
  lemma PredictEntries(s: KState, dt: real, q: real, scale: LonScale)
    requires s.initialised
    ensures var s' := PredictState(s, dt, q, scale);
            && s'.x == [s.x[0] + s.x[2] * dt, s.x[1] + s.x[3] * dt, s.x[2], s.x[3]]
            && s'.initialised && s'.updates == s.updates
            && Grows(s.P[0], s.P[2], s.P[8], s.P[10], s'.P[0], s'.P[2], s'.P[8], s'.P[10], dt, q, 1.0 / 111000.0)
            && Grows(s.P[5], s.P[7], s.P[13], s.P[15], s'.P[5], s'.P[7], s'.P[13], s'.P[15], dt, q,
                     scale(s.x[0] + s.x[2] * dt))
  {
    var s' := PredictState(s, dt, q, scale);
    PredictParts(s, dt, q, scale);
    hide *;
    PredictCovariance(s.P, s'.P, dt, q, scale, s'.x[0]);
  }

  lemma PredictCovariance(P: Mat4, P': Mat4, dt: real, q: real, scale: LonScale, lat: real)
    requires P' == Add(Mul(Mul(Transition(dt), P), Transpose(Transition(dt))),
                       Weave(NoiseBlock(dt, LatVar(q)), NoiseBlock(dt, LonVar(q, scale, lat))))
    ensures Grows(P[0], P[2], P[8], P[10], P'[0], P'[2], P'[8], P'[10], dt, q, 1.0 / 111000.0)
    ensures Grows(P[5], P[7], P[13], P[15], P'[5], P'[7], P'[13], P'[15], dt, q, scale(lat))
  {
    hide *;
    NoiseVar(q, scale, lat);
    CarriedEntries(P, dt);
    GrowsTwice(P, Mul(Mul(Transition(dt), P), Transpose(Transition(dt))), dt, q, 1.0 / 111000.0, scale(lat));
  }

  lemma GrowsTwice(P: Mat4, C: Mat4, dt: real, q: real, k: real, l: real)
    requires CarriedBy(P[0], P[2], P[8], P[10], C[0], C[2], C[8], C[10], dt)
    requires CarriedBy(P[5], P[7], P[13], P[15], C[5], C[7], C[13], C[15], dt)
    ensures var P' := Add(C, Weave(NoiseBlock(dt, Spread(q, k)), NoiseBlock(dt, Spread(q, l))));
            && Grows(P[0], P[2], P[8], P[10], P'[0], P'[2], P'[8], P'[10], dt, q, k)
            && Grows(P[5], P[7], P[13], P[15], P'[5], P'[7], P'[13], P'[15], dt, q, l)
  {
    SumEntries(C, NoiseBlock(dt, Spread(q, k)), NoiseBlock(dt, Spread(q, l)));
    hide Add, Weave, NoiseBlock, Grows, CarriedBy, Spread;
    GrowsNoisy(P[0], P[2], P[8], P[10], C[0], C[2], C[8], C[10], dt, q, k);
    GrowsNoisy(P[5], P[7], P[13], P[15], C[5], C[7], C[13], C[15], dt, q, l);
  }

  lemma GrowsNoisy(p: real, c: real, d: real, v: real, p1: real, c1: real, d1: real, v1: real, dt: real, q: real, k: real)
    requires CarriedBy(p, c, d, v, p1, c1, d1, v1, dt)
    ensures var n := NoiseBlock(dt, Spread(q, k)); Grows(p, c, d, v, p1 + n.a, c1 + n.b, d1 + n.c, v1 + n.d, dt, q, k)
  {
    NoiseEntries(dt, q, k, Spread(q, k));
    hide NoiseBlock, Spread, Grows, CarriedBy;
    GrowsBy(p, c, d, v, p1, c1, d1, v1, NoiseBlock(dt, Spread(q, k)), dt, q, k);
  }

  lemma GrowsBy(p: real, c: real, d: real, v: real, p1: real, c1: real, d1: real, v1: real, n: Block, dt: real, q: real, k: real)
    requires CarriedBy(p, c, d, v, p1, c1, d1, v1, dt)
    requires n == Block(Product(Shift(q, k, dt), Shift(q, k, dt)), Product(Shift(q, k, dt), SpeedUp(q, k, dt)),
                        Product(Shift(q, k, dt), SpeedUp(q, k, dt)), Product(SpeedUp(q, k, dt), SpeedUp(q, k, dt)))
    ensures Grows(p, c, d, v, p1 + n.a, c1 + n.b, d1 + n.c, v1 + n.d, dt, q, k)
  {
    hide Product, Shift, SpeedUp;
  }

  predicate CarriedBy(p: real, c: real, d: real, v: real, p1: real, c1: real, d1: real, v1: real, dt: real) {
    p1 == p + dt * (c + d) + dt * dt * v && c1 == c + dt * v && d1 == d + dt * v && v1 == v
  }

  lemma PredictParts(s: KState, dt: real, q: real, scale: LonScale)
    requires s.initialised
    ensures var s' := PredictState(s, dt, q, scale);
            && s' == s.(x := s'.x, P := s'.P)
            && s'.x == [s.x[0] + s.x[2] * dt, s.x[1] + s.x[3] * dt, s.x[2], s.x[3]]
            && s'.P == Add(Mul(Mul(Transition(dt), s.P), Transpose(Transition(dt))),
                           Weave(NoiseBlock(dt, LatVar(q)), NoiseBlock(dt, LonVar(q, scale, s'.x[0]))))
  {
    PredictPosition(s, dt);
    hide MulVec, Mul, Transpose, Transition, LatVar, LonVar, NoiseBlock, Add, Weave;
  }

  lemma PredictSteps(s: KState, dt: real, q: real, scale: LonScale)
    requires s.initialised
    ensures var s' := PredictState(s, dt, q, scale); s'.x[0] == Step(s.x[0], s.x[2], dt) && s'.x[1] == Step(s.x[1], s.x[3], dt)
  {
    PredictPosition(s, dt);
    hide MulVec, Mul, Transpose, Transition, LatVar, LonVar, NoiseBlock, Add, Weave;
  }

  lemma PredictPosition(s: KState, dt: real)
    ensures MulVec(Transition(dt), s.x) == [s.x[0] + s.x[2] * dt, s.x[1] + s.x[3] * dt, s.x[2], s.x[3]]
  {
    hide MulVec, Transition;
    assert s.x == WeaveVec((s.x[0], s.x[2]), (s.x[1], s.x[3]));
    PredictVec((s.x[0], s.x[2]), (s.x[1], s.x[3]), dt);
  }

  lemma SumEntries(C: Mat4, m: Block, n: Block)
    ensures var S := Add(C, Weave(m, n));
            && S[0] == C[0] + m.a && S[2] == C[2] + m.b && S[8] == C[8] + m.c && S[10] == C[10] + m.d
            && S[5] == C[5] + n.a && S[7] == C[7] + n.b && S[13] == C[13] + n.c && S[15] == C[15] + n.d
  {
  }

  lemma NoiseVar(q: real, scale: LonScale, lat: real)
    ensures LatVar(q) == Spread(q, 1.0 / 111000.0) && LonVar(q, scale, lat) == Spread(q, scale(lat))
  {
  }

  /** q m/s^2 for dt on an axis of k degrees a metre. */
  lemma NoiseEntries(dt: real, q: real, k: real, q2: real)
    requires q2 == Spread(q, k)
    ensures NoiseBlock(dt, q2) == Block(Product(Shift(q, k, dt), Shift(q, k, dt)), Product(Shift(q, k, dt), SpeedUp(q, k, dt)),
                                        Product(Shift(q, k, dt), SpeedUp(q, k, dt)), Product(SpeedUp(q, k, dt), SpeedUp(q, k, dt)))
  {
    NoiseRankOne(dt, q2);
    hide PosNoise, CrossNoise, VelNoise;
    FactorOut(q * k, dt * dt / 2.0, dt);
  }

  lemma FactorOut(u: real, w: real, dt: real)
    ensures (u * u) * (w * w) == (w * u) * (w * u) && (u * u) * (w * dt) == (w * u) * (dt * u)
    ensures (u * u) * (dt * dt) == (dt * u) * (dt * u)
  {
  }

  /** F P: the upper rows move by dt times the lower ones. */
  function Sheared(P: Mat4, dt: real, i: nat, j: nat): real
    requires i < 4 && j < 4
  {
    if i < 2 then Step(P[4 * i + j], P[4 * i + 8 + j], dt) else P[4 * i + j]
  }

  lemma MovedEntry(P: Mat4, dt: real, i: nat, j: nat)
    requires i < 4 && j < 4
    ensures Mul(Transition(dt), P)[4 * i + j] == Sheared(P, dt, i, j)
  {
    TransitionRow(dt, i);
    MulEntry(Transition(dt), P, i, j);
    hide Mul, Transition;
  }

  lemma TransitionRow(dt: real, i: nat)
    requires i < 4
    ensures var F := Transition(dt);
            && F[4 * i] == Unity(0, i, dt) && F[4 * i + 1] == Unity(1, i, dt)
            && F[4 * i + 2] == Unity(2, i, dt) && F[4 * i + 3] == Unity(3, i, dt)
  {
  }

  lemma MulEntry(a: Mat4, b: Mat4, i: nat, j: nat)
    requires i < 4 && j < 4
    ensures Mul(a, b)[4 * i + j]
         == a[4 * i] * b[j] + a[4 * i + 1] * b[4 + j] + a[4 * i + 2] * b[8 + j] + a[4 * i + 3] * b[12 + j]
  {
  }

  /** F P F', entry by entry. */
  lemma CarriedEntry(P: Mat4, dt: real, i: nat, j: nat)
    requires i < 4 && j < 4
    ensures Mul(Mul(Transition(dt), P), Transpose(Transition(dt)))[4 * i + j]
         == if j < 2 then Step(Sheared(P, dt, i, j), Sheared(P, dt, i, j + 2), dt) else Sheared(P, dt, i, j)
  {
    hide Mul, Transition, Transpose, Sheared;
    var A, B := Mul(Transition(dt), P), Transpose(Transition(dt));
    MovedEntry(P, dt, i, 0);
    MovedEntry(P, dt, i, 1);
    MovedEntry(P, dt, i, 2);
    MovedEntry(P, dt, i, 3);
    TransposeColumn(dt, j);
    MulEntry(A, B, i, j);
    ColumnTimes(A[4 * i], A[4 * i + 1], A[4 * i + 2], A[4 * i + 3], B[j], B[4 + j], B[8 + j], B[12 + j], dt, j);
  }

  function Unity(k: nat, j: nat, dt: real): real { if k == j then 1.0 else if k == j + 2 then dt else 0.0 }

  lemma ColumnTimes(a0: real, a1: real, a2: real, a3: real, b0: real, b1: real, b2: real, b3: real, dt: real, j: nat)
    requires j < 4 && b0 == Unity(0, j, dt) && b1 == Unity(1, j, dt) && b2 == Unity(2, j, dt) && b3 == Unity(3, j, dt)
    ensures a0 * b0 + a1 * b1 + a2 * b2 + a3 * b3
         == if j == 0 then Step(a0, a2, dt) else if j == 1 then Step(a1, a3, dt) else if j == 2 then a2 else a3
  {
  }

  lemma TransposeColumn(dt: real, j: nat)
    requires j < 4
    ensures var B := Transpose(Transition(dt));
            && B[j] == Unity(0, j, dt) && B[4 + j] == Unity(1, j, dt)
            && B[8 + j] == Unity(2, j, dt) && B[12 + j] == Unity(3, j, dt)
  {
    TransitionRow(dt, j);
    hide Transition;
  }

  lemma CarriedEntries(P: Mat4, dt: real)
    ensures var C := Mul(Mul(Transition(dt), P), Transpose(Transition(dt)));
            && CarriedBy(P[0], P[2], P[8], P[10], C[0], C[2], C[8], C[10], dt)
            && CarriedBy(P[5], P[7], P[13], P[15], C[5], C[7], C[13], C[15], dt)
  {
    hide Mul, Transition, Transpose;
    CarriedEntry(P, dt, 0, 0);
    CarriedEntry(P, dt, 0, 2);
    CarriedEntry(P, dt, 2, 0);
    CarriedEntry(P, dt, 2, 2);
    CarriedEntry(P, dt, 1, 1);
    CarriedEntry(P, dt, 1, 3);
    CarriedEntry(P, dt, 3, 1);
    CarriedEntry(P, dt, 3, 3);
  }
}
