/** What the 4x4 array filter computes, and the pair of two-state filters it amounts to. */
module KalmanSpec {
  import opened Algebra
  import opened Basics
  import opened Matrices

  /** x = [lat, lon, v_lat, v_lon]; P its row-major covariance. */
  datatype KState = KState(x: Vec4, P: Mat4, updates: uint32, initialised: bool)

  const BLANK := KState([0.0, 0.0, 0.0, 0.0], seq(16, _ => 0.0), 0, false)

  /** A metre-based standard deviation as a variance in degrees squared, for each axis. */
  function LatVar(m: real): real {
    (m * DEG_PER_M_LAT) * (m * DEG_PER_M_LAT)
  }

  function LonVar(m: real, scale: LonScale, lat: real): real {
    (m * DegPerMLon(scale, lat)) * (m * DegPerMLon(scale, lat))
  }

  lemma VarSign(m: real, scale: LonScale, lat: real)
    ensures LatVar(m) >= 0.0 && LonVar(m, scale, lat) >= 0.0
    ensures m > 0.0 ==> LatVar(m) > 0.0 && LonVar(m, scale, lat) > 0.0
  {
    var d := DegPerMLon(scale, lat);
    var x, y := m * DEG_PER_M_LAT, m * d;
    SquareSign(x, LatVar(m));
    SquareSign(y, LonVar(m, scale, lat));
    if m > 0.0 && y == 0.0 {
      Cancel(m, 0.0, d);
    }
  }

  /** x advanced by k units at rate v. */
  function Step(x: real, v: real, k: real): real { x + v * k }

  // ---- the code's own algebra, for any covariance -----------------------------------

  /** Position and velocity variance of a new filter, from 100 m and 50 m/s one-sigma. */
  const P0_POS: real := (100.0 * DEG_PER_M_LAT) * (100.0 * DEG_PER_M_LAT)
  const P0_VEL: real := (50.0 * DEG_PER_M_LAT) * (50.0 * DEG_PER_M_LAT)

  function InitState(lat: real, lon: real): KState {
    KState([lat, lon, 0.0, 0.0],
           Weave(Block(P0_POS, 0.0, 0.0, P0_VEL), Block(P0_POS, 0.0, 0.0, P0_VEL)), 0, true)
  }

  function TransitionBlock(dt: real): Block { Block(1.0, dt, 0.0, 1.0) }

  function Transition(dt: real): Mat4 {
    Weave(TransitionBlock(dt), TransitionBlock(dt))
  }

  /** White-noise acceleration of variance q2 held for dt: its share of position variance,
      covariance and velocity variance. */
  function PosNoise(dt: real, q2: real): real {
    var dt4 := dt * dt * dt * dt;
    (dt4 / 4.0) * q2
  }

  function CrossNoise(dt: real, q2: real): real {
    var dt3 := dt * dt * dt;
    (dt3 / 2.0) * q2
  }

  function VelNoise(dt: real, q2: real): real {
    var dt2 := dt * dt;
    dt2 * q2
  }

  function NoiseBlock(dt: real, q2: real): Block {
    Block(PosNoise(dt, q2), CrossNoise(dt, q2), CrossNoise(dt, q2), VelNoise(dt, q2))
  }

  function PredictState(s: KState, dt: real, q: real, scale: LonScale): KState {
    if !s.initialised then s
    else
      var F := Transition(dt);
      var x := MulVec(F, s.x);
      var Q := Weave(NoiseBlock(dt, LatVar(q)), NoiseBlock(dt, LonVar(q, scale, x[0])));
      s.(x := x, P := Add(Mul(Mul(F, s.P), Transpose(F)), Q))
  }

  /** The innovation determinant, whose being zero makes the update return early. */
  function Det(P: Mat4, R00: real, R11: real): real {
    (P[0] + R00) * (P[5] + R11) - P[1] * P[4]
  }

  /** The 4x2 gain, row-major: the first two columns of P times the inverse of S. */
  function Gain(P: Mat4, R00: real, R11: real): (K: seq<real>)
    requires Det(P, R00, R11) != 0.0
    ensures |K| == 8
  {
    var inv := 1.0 / Det(P, R00, R11);
    seq(8, k requires 0 <= k < 8 =>
      if k % 2 == 0 then P[4 * (k / 2)] * ((P[5] + R11) * inv) + P[4 * (k / 2) + 1] * (-P[4] * inv)
      else P[4 * (k / 2)] * (-P[1] * inv) + P[4 * (k / 2) + 1] * ((P[0] + R00) * inv))
  }

  /** I - K H: the identity less the gain in the first two columns. */
  function Residual(K: seq<real>): Mat4
    requires |K| == 8
  {
    seq(16, k requires 0 <= k < 16 =>
      (if k % 5 == 0 then 1.0 else 0.0) - (if k % 4 < 2 then K[2 * (k / 4) + k % 4] else 0.0))
  }

  /** x + K y, as the code's loop writes it. */
  function Correct(x: Vec4, K: seq<real>, y0: real, y1: real): Vec4
    requires |K| == 8
  {
    seq(4, i requires 0 <= i < 4 => CorrectEntry(x[i], K[2 * i], K[2 * i + 1], y0, y1))
  }

  function CorrectEntry(x: real, k: real, l: real, y0: real, y1: real): real {
    x + (k * y0 + l * y1)
  }

  function UpdateState(s: KState, lat: real, lon: real, r: real, scale: LonScale): KState {
    var R00, R11 := LatVar(r), LonVar(r, scale, s.x[0]);
    if !s.initialised || Det(s.P, R00, R11) == 0.0 then s
    else
      var K := Gain(s.P, R00, R11);
      var y0, y1 := lat - s.x[0], lon - s.x[1];
      s.(x := Correct(s.x, K, y0, y1),
         P := Mul(Residual(K), s.P),
         updates := Inc32(s.updates))
  }

  function PredictAhead(s: KState, dt: real): (real, real) {
    if !s.initialised then (0.0, 0.0)
    else (Step(s.x[0], s.x[2], dt), Step(s.x[1], s.x[3], dt))
  }

  // ---- the textbook two-state filter, one per axis ----------------------------------

  /** Covariance [p c; c v] of one axis: position and velocity variance, and their covariance. */
  datatype Cov = Cov(p: real, c: real, v: real) {
    function Matrix(): Block { Block(p, c, c, v) }

    function Det(): real { p * v - c * c }

    ghost predicate Sound() { p > 0.0 && Det() > 0.0 }

    /** The quadratic form at (a, b). */
    function Quad(a: real, b: real): real { p * a * a + 2.0 * c * a * b + v * b * b }

    /** F P F' for F = [1 dt; 0 1]. */
    function Transport(dt: real): Cov {
      Cov(p + 2.0 * dt * c + dt * dt * v, c + dt * v, v)
    }

    function Predict(dt: real, q2: real): Cov {
      var t := Transport(dt);
      Cov(t.p + PosNoise(dt, q2), t.c + CrossNoise(dt, q2), t.v + VelNoise(dt, q2))
    }

    /** Gains on position and velocity for a position fix of variance R. */
    function PosGain(R: real): real
      requires p + R != 0.0
    {
      p / (p + R)
    }

    function VelGain(R: real): real
      requires p + R != 0.0
    {
      c / (p + R)
    }

    function Update(R: real): Cov
      requires p + R != 0.0
    {
      Cov(p - PosGain(R) * p, c - PosGain(R) * c, v - VelGain(R) * c)
    }
  }

  datatype Axis = Axis(pos: real, vel: real, cov: Cov) {
    ghost predicate Sound() { cov.Sound() }

    function Predict(dt: real, q2: real): Axis {
      Axis(Step(pos, vel, dt), vel, cov.Predict(dt, q2))
    }

    function Update(z: real, R: real): Axis
      requires cov.p + R != 0.0
    {
      Axis(Step(pos, cov.PosGain(R), z - pos), Step(vel, cov.VelGain(R), z - pos), cov.Update(R))
    }
  }

  /** The two axes; they meet only in the longitude scale, which depends on the latitude. */
  datatype Pair = Pair(lat: Axis, lon: Axis) {
    ghost predicate Sound() { lat.Sound() && lon.Sound() }

    function Predict(dt: real, q: real, scale: LonScale): Pair {
      var lat' := lat.Predict(dt, LatVar(q));
      Pair(lat', lon.Predict(dt, LonVar(q, scale, lat'.pos)))
    }

    function Update(z: real, w: real, r: Positive, scale: LonScale): Pair
      requires lat.cov.p > 0.0 && lon.cov.p > 0.0
    {
      VarSign(r, scale, lat.pos);
      Pair(lat.Update(z, LatVar(r)), lon.Update(w, LonVar(r, scale, lat.pos)))
    }
  }

  function Embed(f: Pair, n: uint32): KState {
    KState(WeaveVec((f.lat.pos, f.lat.vel), (f.lon.pos, f.lon.vel)),
           Weave(f.lat.cov.Matrix(), f.lon.cov.Matrix()), n, true)
  }

  const P0 := Cov(P0_POS, 0.0, P0_VEL)

  function InitPair(lat: real, lon: real): Pair {
    Pair(Axis(lat, 0.0, P0), Axis(lon, 0.0, P0))
  }

  lemma InitRefines(lat: real, lon: real)
    ensures InitState(lat, lon) == Embed(InitPair(lat, lon), 0)
    ensures InitPair(lat, lon).Sound()
  {
    SquareSign(100.0 * DEG_PER_M_LAT, P0_POS);
    SquareSign(50.0 * DEG_PER_M_LAT, P0_VEL);
    ProductSign(P0_POS, P0_VEL, P0_POS * P0_VEL);
  }

  // ---- predict ----------------------------------------------------------------------

  lemma TransportBlock(m: Cov, dt: real)
    ensures TransitionBlock(dt).Times(m.Matrix()).Times(TransitionBlock(dt).Flip()) == m.Transport(dt).Matrix()
  {
    var c := m.c + dt * m.v;
    assert TransitionBlock(dt).Times(m.Matrix()) == Block(m.p + dt * m.c, c, m.c, m.v);
  }

  lemma PredictBlock(m: Cov, dt: real, q2: real)
    ensures TransitionBlock(dt).Times(m.Matrix()).Times(TransitionBlock(dt).Flip()).Plus(NoiseBlock(dt, q2))
         == m.Predict(dt, q2).Matrix()
  {
    hide PosNoise, CrossNoise, VelNoise, TransitionBlock, Block.Times, Block.Flip, Cov.Transport;
    TransportBlock(m, dt);
  }

  /** F P F' + Q on woven covariances. */
  lemma PredictCov(m: Cov, n: Cov, dt: real, q0: real, q1: real)
    ensures Add(Mul(Mul(Transition(dt), Weave(m.Matrix(), n.Matrix())), Transpose(Transition(dt))),
                Weave(NoiseBlock(dt, q0), NoiseBlock(dt, q1)))
         == Weave(m.Predict(dt, q0).Matrix(), n.Predict(dt, q1).Matrix())
  {
    var T, M, N := TransitionBlock(dt), m.Matrix(), n.Matrix();
    WeaveMul(T, T, M, N);
    WeaveTranspose(T, T);
    WeaveMul(T.Times(M), T.Times(N), T.Flip(), T.Flip());
    WeaveAdd(T.Times(M).Times(T.Flip()), T.Times(N).Times(T.Flip()), NoiseBlock(dt, q0), NoiseBlock(dt, q1));
    PredictBlock(m, dt, q0);
    PredictBlock(n, dt, q1);
  }

  lemma PredictVec(a: (real, real), b: (real, real), dt: real)
    ensures MulVec(Transition(dt), WeaveVec(a, b)) == WeaveVec((Step(a.0, a.1, dt), a.1), (Step(b.0, b.1, dt), b.1))
  {
    var T := TransitionBlock(dt);
    UnitStep(a.0, a.1, dt, T, Step(a.0, a.1, dt));
    UnitStep(b.0, b.1, dt, T, Step(b.0, b.1, dt));
    WeaveMulVec(T, T, a, b, (Step(a.0, a.1, dt), a.1), (Step(b.0, b.1, dt), b.1));
  }

  lemma UnitStep(x: real, v: real, dt: real, T: Block, x': real)
    requires T == Block(1.0, dt, 0.0, 1.0) && x' == x + v * dt
    ensures x' == T.a * x + T.b * v
    ensures v == T.c * x + T.d * v
  {
  }

  /** The array code's predict is the two axes' predict: F P F' + Q never mixes them. */
  lemma PredictRefines(f: Pair, n: uint32, dt: real, q: real, scale: LonScale)
    ensures PredictState(Embed(f, n), dt, q, scale) == Embed(f.Predict(dt, q, scale), n)
  {
    hide Cov.Predict, Step, LatVar, LonVar, NoiseBlock, Transition, TransitionBlock, Mul, MulVec, Add, Transpose, Weave, Cov.Matrix;
    var f' := f.Predict(dt, q, scale);
    PredictVec((f.lat.pos, f.lat.vel), (f.lon.pos, f.lon.vel), dt);
    PredictCov(f.lat.cov, f.lon.cov, dt, LatVar(q), LonVar(q, scale, f'.lat.pos));
  }

  /** A symmetric positive-definite block gives a positive quadratic form. */
  lemma QuadPositive(m: Cov, a: real, b: real)
    requires m.Sound()
    ensures m.Quad(a, b) >= 0.0
    ensures a != 0.0 || b != 0.0 ==> m.Quad(a, b) > 0.0
  {
    var u, d, b2 := m.p * a + m.c * b, m.Det(), b * b;
    CompleteSquare(m, a, b);
    var u2, e := u * u, d * b2;
    SquareSign(u, u2);
    SquareSign(b, b2);
    ProductSign(d, b2, e);
    if b == 0.0 && a != 0.0 {
      assert m.c * b == 0.0;
      if u == 0.0 { Cancel(a, 0.0, m.p); }
    }
    FactorSign(m.p, m.Quad(a, b), u2 + e);
  }

  lemma CompleteSquare(m: Cov, a: real, b: real)
    ensures m.p * m.Quad(a, b) == (m.p * a + m.c * b) * (m.p * a + m.c * b) + m.Det() * (b * b)
  {
  }

  /** Moving by the constant-velocity model keeps the determinant. */
  lemma TransportDet(m: Cov, dt: real)
    requires m.Sound()
    ensures m.Transport(dt).Det() == m.Det() && m.Transport(dt).Sound()
  {
    QuadPositive(m, 1.0, dt);
    var t := m.Transport(dt);
    assert m.Quad(1.0, dt) == t.p;
    ShearDet(m.p, m.c, m.v, dt, t.p, t.c);
  }

  lemma ShearDet(p: real, c: real, v: real, t: real, p1: real, c1: real)
    requires p1 == p + 2.0 * t * c + t * t * v && c1 == c + t * v
    ensures p1 * v - c1 * c1 == p * v - c * c
  {
  }

  /** Adding k w w' with k >= 0 grows the determinant by k times a nonnegative quadratic form. */
  lemma RankOneGrows(m: Cov, w0: real, w1: real, k: real, m': Cov)
    requires m.Sound() && k >= 0.0
    requires m'.p == m.p + k * (w0 * w0) && m'.c == m.c + k * (w0 * w1) && m'.v == m.v + k * (w1 * w1)
    ensures m'.Det() >= m.Det() && m'.Sound()
  {
    var g, w2 := m.Quad(w1, -w0), w0 * w0;
    var e := k * g;
    QuadPositive(m, w1, -w0);
    RankOneDet(m, w0, w1, k, m', g, e);
    ProductSign(k, g, e);
    SquareSign(w0, w2);
    ProductSign(k, w2, k * w2);
  }

  lemma RankOneDet(m: Cov, w0: real, w1: real, k: real, m': Cov, g: real, e: real)
    requires m'.p == m.p + k * (w0 * w0) && m'.c == m.c + k * (w0 * w1) && m'.v == m.v + k * (w1 * w1)
    requires g == m.Quad(w1, -w0) && e == k * g
    ensures m'.Det() == m.Det() + e
  {
  }

  /** Predict adds the rank-one term q2 w w', w = (dt^2/2, dt), to the transported covariance. */
  lemma PredictRankOne(m: Cov, dt: real, q2: real)
    ensures var w, t, m' := dt * dt / 2.0, m.Transport(dt), m.Predict(dt, q2);
            m'.p == t.p + q2 * (w * w) && m'.c == t.c + q2 * (w * dt) && m'.v == t.v + q2 * (dt * dt)
  {
    NoiseRankOne(dt, q2);
  }

  lemma NoiseRankOne(dt: real, q2: real)
    ensures var w := dt * dt / 2.0;
            PosNoise(dt, q2) == q2 * (w * w) && CrossNoise(dt, q2) == q2 * (w * dt) && VelNoise(dt, q2) == q2 * (dt * dt)
  {
  }

  /** So the determinant never falls, and the covariance stays positive definite. */
  lemma PredictDet(m: Cov, dt: real, q2: real)
    requires m.Sound() && q2 >= 0.0
    ensures m.Predict(dt, q2).Det() >= m.Det()
    ensures m.Predict(dt, q2).Sound()
  {
    hide Cov.Predict, Cov.Transport, Cov.Det;
    TransportDet(m, dt);
    PredictRankOne(m, dt, q2);
    RankOneGrows(m.Transport(dt), dt * dt / 2.0, dt, q2, m.Predict(dt, q2));
  }

  lemma PairPredictSound(f: Pair, dt: real, q: real, scale: LonScale)
    requires f.Sound()
    ensures f.Predict(dt, q, scale).Sound()
  {
    hide Cov.Predict, Cov.Sound, LatVar, LonVar;
    var lat' := f.lat.Predict(dt, LatVar(q));
    VarSign(q, scale, lat'.pos);
    PredictDet(f.lat.cov, dt, LatVar(q));
    PredictDet(f.lon.cov, dt, LonVar(q, scale, lat'.pos));
  }

  // ---- update -----------------------------------------------------------------------

  /** For a diagonal innovation the closed-form inverse divides each column by its own entry. */
  lemma GainEntry(p: real, S: real, T: real)
    requires S > 0.0 && T > 0.0
    ensures S * T > 0.0
    ensures p * (T * (1.0 / (S * T))) == p / S
  {
    ProductSign(S, T, S * T);
    var i := 1.0 / (S * T);
    Quotient(1.0, S * T);
    assert i * (S * T) == 1.0;
    var k := p * (T * i);
    assert k * S == p * (i * (S * T));
    Quotient(p, S);
    Cancel(k, p / S, S);
  }

  lemma GainRow(P: Mat4, R00: real, R11: real, i: nat)
    requires i < 4
    requires P[0] + R00 > 0.0 && P[5] + R11 > 0.0 && P[1] == 0.0 && P[4] == 0.0
    requires if i % 2 == 0 then P[4 * i + 1] == 0.0 else P[4 * i] == 0.0
    ensures Det(P, R00, R11) > 0.0
    ensures Gain(P, R00, R11)[2 * i] == (if i % 2 == 0 then P[4 * i] / (P[0] + R00) else 0.0)
    ensures Gain(P, R00, R11)[2 * i + 1] == (if i % 2 == 0 then 0.0 else P[4 * i + 1] / (P[5] + R11))
  {
    var S, T := P[0] + R00, P[5] + R11;
    ProductSign(S, T, S * T);
    assert Det(P, R00, R11) == S * T;
    var inv := 1.0 / (S * T);
    assert -P[1] * inv == 0.0 && -P[4] * inv == 0.0;
    if i % 2 == 0 {
      GainEntry(P[4 * i], S, T);
      assert P[4 * i + 1] * (-P[4] * inv) == 0.0 && P[4 * i] * (-P[1] * inv) == 0.0;
      assert P[4 * i + 1] * (S * inv) == 0.0;
    } else {
      assert T * S == S * T;
      GainEntry(P[4 * i + 1], T, S);
      assert P[4 * i + 1] * (-P[4] * inv) == 0.0 && P[4 * i] * (-P[1] * inv) == 0.0;
      assert P[4 * i] * (T * inv) == 0.0;
    }
  }

  /** The gain of two independent axes: p/(p+R) and c/(p+R) for each, zero across. */
  function AxisGain(m: Cov, n: Cov, R00: real, R11: real): seq<real>
    requires m.p + R00 != 0.0 && n.p + R11 != 0.0
  {
    [m.PosGain(R00), 0.0, 0.0, n.PosGain(R11), m.VelGain(R00), 0.0, 0.0, n.VelGain(R11)]
  }

  lemma UpdateGain(m: Cov, n: Cov, R00: real, R11: real)
    requires m.Sound() && n.Sound() && R00 > 0.0 && R11 > 0.0
    ensures Det(Weave(m.Matrix(), n.Matrix()), R00, R11) > 0.0
    ensures Gain(Weave(m.Matrix(), n.Matrix()), R00, R11) == AxisGain(m, n, R00, R11)
  {
    var P := Weave(m.Matrix(), n.Matrix());
    GainRow(P, R00, R11, 0);
    GainRow(P, R00, R11, 1);
    GainRow(P, R00, R11, 2);
    GainRow(P, R00, R11, 3);
  }

  function ResidualBlock(m: Cov, R: real): Block
    requires m.p + R != 0.0
  {
    Block(1.0 - m.PosGain(R), 0.0, 0.0 - m.VelGain(R), 1.0)
  }

  /** (I - K H) P is symmetric again, and is the two-state posterior. */
  lemma UpdateBlock(m: Cov, R: real)
    requires m.p + R != 0.0
    ensures ResidualBlock(m, R).Times(m.Matrix()) == m.Update(R).Matrix()
  {
    var S := m.p + R;
    var k0, k1 := m.p / S, m.c / S;
    assert k0 * S == m.p && k1 * S == m.c;
    assert k1 * m.p == k1 * (k0 * S) == k0 * (k1 * S) == k0 * m.c;
  }

  lemma ResidualWeave(m: Cov, n: Cov, R00: real, R11: real)
    requires m.p + R00 != 0.0 && n.p + R11 != 0.0
    ensures Residual(AxisGain(m, n, R00, R11)) == Weave(ResidualBlock(m, R00), ResidualBlock(n, R11))
  {
  }

  /** (I - K H) P on woven covariances. */
  lemma UpdateCov(m: Cov, n: Cov, R00: real, R11: real)
    requires m.p + R00 != 0.0 && n.p + R11 != 0.0
    ensures Mul(Residual(AxisGain(m, n, R00, R11)), Weave(m.Matrix(), n.Matrix()))
         == Weave(m.Update(R00).Matrix(), n.Update(R11).Matrix())
  {
    ResidualWeave(m, n, R00, R11);
    WeaveMul(ResidualBlock(m, R00), ResidualBlock(n, R11), m.Matrix(), n.Matrix());
    UpdateBlock(m, R00);
    UpdateBlock(n, R11);
  }

  lemma OneGain(x: real, k: real, l: real, y0: real, y1: real)
    ensures l == 0.0 ==> CorrectEntry(x, k, l, y0, y1) == Step(x, k, y0)
    ensures k == 0.0 ==> CorrectEntry(x, k, l, y0, y1) == Step(x, l, y1)
  {
  }

  lemma UpdateVec(a: (real, real), b: (real, real), K: seq<real>, y0: real, y1: real)
    requires |K| == 8 && K[1] == 0.0 && K[2] == 0.0 && K[5] == 0.0 && K[6] == 0.0
    ensures Correct(WeaveVec(a, b), K, y0, y1)
         == WeaveVec((Step(a.0, K[0], y0), Step(a.1, K[4], y0)), (Step(b.0, K[3], y1), Step(b.1, K[7], y1)))
  {
    hide CorrectEntry, Step;
    OneGain(a.0, K[0], K[1], y0, y1);
    OneGain(b.0, K[2], K[3], y0, y1);
    OneGain(a.1, K[4], K[5], y0, y1);
    OneGain(b.1, K[6], K[7], y0, y1);
  }

  /** With sound axes the determinant guard never fires, and the 4x4 update is the two axes' update. */
  lemma UpdateRefines(f: Pair, n: uint32, z: real, w: real, r: Positive, scale: LonScale)
    requires f.Sound()
    ensures Det(Embed(f, n).P, LatVar(r), LonVar(r, scale, f.lat.pos)) > 0.0
    ensures UpdateState(Embed(f, n), z, w, r, scale) == Embed(f.Update(z, w, r, scale), Inc32(n))
  {
    VarSign(r, scale, f.lat.pos);
    hide Cov.Update, Cov.PosGain, Cov.VelGain, Step, LatVar, LonVar, Gain, Residual, Mul, Cov.Det, Weave, Cov.Matrix, Det, Correct;
    var R00, R11 := LatVar(r), LonVar(r, scale, f.lat.pos);
    UpdateGain(f.lat.cov, f.lon.cov, R00, R11);
    UpdateCov(f.lat.cov, f.lon.cov, R00, R11);
    UpdateVec((f.lat.pos, f.lat.vel), (f.lon.pos, f.lon.vel), AxisGain(f.lat.cov, f.lon.cov, R00, R11),
              z - f.lat.pos, w - f.lon.pos);
  }

  /** The posterior entry by entry, in terms of its gains. */
  lemma Posterior(m: Cov, R: real)
    requires m.Sound() && R > 0.0
    ensures var m', k0, k1, S := m.Update(R), m.PosGain(R), m.VelGain(R), m.p + R;
            && k0 * S == m.p && k1 * S == m.c && k0 > 0.0
            && m'.p == m.p - k0 * m.p && m'.c == m.c - k0 * m.c && m'.v == m.v - k1 * m.c
            && m'.p == k0 * R && m'.c == k1 * R
            && 0.0 < m'.p < m.p && m'.p < R && m'.v <= m.v
            && m'.Det() == m.Det() * (R / S) && m'.Det() > 0.0
  {
    GainSplit(m.p, R);
    Quotient(m.c, m.p + R);
    PosteriorAlgebra(m, R, m.PosGain(R), m.VelGain(R), R / (m.p + R), m.Update(R));
  }

  /** Update scales the determinant by R/(p+R); no variance grows, and the posterior position
      variance is below both the prior's and the measurement's. */
  lemma UpdateDet(m: Cov, R: real)
    requires m.Sound() && R > 0.0
    ensures m.Update(R).Det() == m.Det() * (R / (m.p + R))
    ensures m.Update(R).Sound()
    ensures m.Update(R).p < m.p && m.Update(R).p < R && m.Update(R).v <= m.v
  {
    hide Cov.Update, Cov.PosGain, Cov.VelGain, Cov.Det;
    Posterior(m, R);
  }

  /** p/(p+R) and R/(p+R) are positive and sum to one. */
  lemma GainSplit(p: real, R: real)
    requires p > 0.0 && R > 0.0
    ensures var S := p + R; p / S > 0.0 && R / S > 0.0 && p / S + R / S == 1.0
    ensures var S := p + R; (p / S) * S == p && (R / S) * S == R
  {
    var S := p + R;
    var k0, k := p / S, R / S;
    Quotient(p, S);
    Quotient(R, S);
    FactorSign(S, k0, p);
    FactorSign(S, k, R);
    assert (k0 + k) * S == k0 * S + k * S;
    Cancel(k0 + k, 1.0, S);
  }

  /** The posterior in terms of the gains k0 = p/S, k1 = c/S and k = R/S. */
  lemma PosteriorAlgebra(m: Cov, R: real, k0: real, k1: real, k: real, m': Cov)
    requires m.Sound() && R > 0.0 && k0 > 0.0 && k > 0.0 && k0 + k == 1.0
    requires k0 * (m.p + R) == m.p && k1 * (m.p + R) == m.c && k * (m.p + R) == R
    requires m'.p == m.p - k0 * m.p && m'.c == m.c - k0 * m.c && m'.v == m.v - k1 * m.c
    ensures m'.p == k0 * R && m'.c == k1 * R && 0.0 < m'.p < m.p && m'.p < R && m'.v <= m.v
    ensures m'.Det() == m.Det() * k && m'.Det() > 0.0
  {
    var S, k12, d := m.p + R, k1 * k1, m.Det();
    assert m'.p == k * m.p by { assert m.p - k0 * m.p == (1.0 - k0) * m.p; }
    assert m'.c == k * m.c by { assert m.c - k0 * m.c == (1.0 - k0) * m.c; }
    assert k * m.p == k * (k0 * S) == k0 * (k * S);
    assert k * m.c == k * (k1 * S) == k1 * (k * S);
    var x, y := k0 * m.p, k * R;
    ProductSign(k0, m.p, x);
    ProductSign(k, R, y);
    ProductSign(k0, R, m'.p);
    assert y == R - m'.p by { assert k * R == (1.0 - k0) * R; }
    assert k1 * m.c == k1 * (k1 * S) == S * k12;
    SquareSign(k1, k12);
    ProductSign(S, k12, S * k12);
    ProductSign(d, k, d * k);
    PosteriorDet(m, S, k0, k1, k, m');
  }

  lemma PosteriorDet(m: Cov, S: real, k0: real, k1: real, k: real, m': Cov)
    requires k0 * S == m.p && k1 * S == m.c && k0 + k == 1.0
    requires m'.p == k * m.p && m'.c == k * m.c && m'.v == m.v - k1 * m.c
    ensures m'.Det() == m.Det() * k
  {
    var p, c, v := m.p, m.c, m.v;
    assert p * (k1 * c) == k0 * S * (k1 * c) == k0 * c * (k1 * S) == k0 * (c * c);
    assert k0 * (c * c) + k * (c * c) == (k0 + k) * (c * c);
    assert (k * p) * (v - k1 * c) == k * (p * v) - k * (p * (k1 * c));
    assert (k * c) * (k * c) == k * (k * (c * c));
  }

  /** The posterior position lies between the prior and the measurement, strictly if they differ. */
  lemma UpdateBetween(a: Axis, z: real, R: real)
    requires a.Sound() && R > 0.0
    ensures a.pos <= z ==> a.pos <= a.Update(z, R).pos <= z
    ensures z <= a.pos ==> z <= a.Update(z, R).pos <= a.pos
    ensures a.pos != z ==> a.Update(z, R).pos != a.pos && a.Update(z, R).pos != z
  {
    hide Cov.Update;
    GainSplit(a.cov.p, R);
    Between(a.cov.p / (a.cov.p + R), R / (a.cov.p + R), z - a.pos);
  }

  lemma Between(k0: real, k: real, y: real)
    requires k0 > 0.0 && k > 0.0 && k0 + k == 1.0
    ensures y >= 0.0 ==> 0.0 <= k0 * y <= y
    ensures y <= 0.0 ==> y <= k0 * y <= 0.0
    ensures y != 0.0 ==> k0 * y != 0.0 && k0 * y != y
  {
    var d, e := k0 * y, k * y;
    assert y - d == e;
    ProductSign(k0, y, d);
    ProductSign(k, y, e);
    ProductSign(k0, -y, -d);
    ProductSign(k, -y, -e);
  }

  lemma PairUpdateSound(f: Pair, z: real, w: real, r: Positive, scale: LonScale)
    requires f.Sound()
    ensures f.Update(z, w, r, scale).Sound()
  {
    VarSign(r, scale, f.lat.pos);
    hide Cov.Det, Cov.Update, LatVar, LonVar;
    UpdateDet(f.lat.cov, LatVar(r));
    UpdateDet(f.lon.cov, LonVar(r, scale, f.lat.pos));
  }
}
