/** Every run of the filter: initialise, then any mix of predictions and updates. */
module KalmanRuns {
  import opened Algebra
  import opened Basics
  import opened Matrices
  import opened KalmanSpec

  /** The tuning values travel with each step, since the shell may change them between steps. */
  datatype Op =
    | Predict(dt: real, q: real)
    | Update(lat: real, lon: real, r: Positive)

  function Apply(s: KState, op: Op, scale: LonScale): KState {
    match op
    case Predict(dt, q) => PredictState(s, dt, q, scale)
    case Update(lat, lon, r) => UpdateState(s, lat, lon, r, scale)
  }

  function Run(s: KState, ops: seq<Op>, scale: LonScale): KState
    decreases |ops|
  {
    if ops == [] then s else Run(Apply(s, ops[0], scale), ops[1..], scale)
  }

  function Updates(ops: seq<Op>): nat {
    if ops == [] then 0 else (if ops[0].Update? then 1 else 0) + Updates(ops[1..])
  }

  lemma {:induction false} RunAppend(s: KState, ops: seq<Op>, op: Op, scale: LonScale)
    ensures Run(s, ops + [op], scale) == Apply(Run(s, ops, scale), op, scale)
    ensures Updates(ops + [op]) == Updates(ops) + if op.Update? then 1 else 0
    decreases |ops|
  {
    hide Apply;
    if ops == [] {
      assert [op][1..] == [];
    } else {
      assert (ops + [op])[1..] == ops[1..] + [op];
      RunAppend(Apply(s, ops[0], scale), ops[1..], op, scale);
    }
  }

  ghost function ApplyPair(f: Pair, op: Op, scale: LonScale): (f': Pair)
    requires f.Sound()
    ensures f'.Sound()
  {
    match op
    case Predict(dt, q) =>
      PairPredictSound(f, dt, q, scale);
      f.Predict(dt, q, scale)
    case Update(lat, lon, r) =>
      PairUpdateSound(f, lat, lon, r, scale);
      f.Update(lat, lon, r, scale)
  }

  ghost function RunPair(f: Pair, ops: seq<Op>, scale: LonScale): (f': Pair)
    requires f.Sound()
    ensures f'.Sound()
    decreases |ops|
  {
    if ops == [] then f else RunPair(ApplyPair(f, ops[0], scale), ops[1..], scale)
  }

  /** Refinement over whole runs: the 4x4 array filter is two independent two-state filters, and
      it counts every update it is given. */
  lemma {:induction false} RunRefines(f: Pair, n: uint32, ops: seq<Op>, scale: LonScale)
    requires f.Sound()
    ensures Run(Embed(f, n), ops, scale) == Embed(RunPair(f, ops, scale), Add32(n, Updates(ops)))
    decreases |ops|
  {
    hide Embed, Pair.Predict, Pair.Update, PredictState, UpdateState, Inc32, Det, Cov.Sound;
    if ops != [] {
      var f' := ApplyPair(f, ops[0], scale);
      match ops[0] {
        case Predict(dt, q) =>
          PredictRefines(f, n, dt, q, scale);
          RunRefines(f', n, ops[1..], scale);
        case Update(lat, lon, r) =>
          UpdateRefines(f, n, lat, lon, r, scale);
          RunRefines(f', Inc32(n), ops[1..], scale);
          IncThenAdd(n, Updates(ops[1..]));
      }
    }
  }

  lemma QuadraticWeave(m: Cov, n: Cov, u: Vec4)
    ensures Quadratic(Weave(m.Matrix(), n.Matrix()), u) == m.Quad(u[0], u[2]) + n.Quad(u[1], u[3])
  {
    var P := Weave(m.Matrix(), n.Matrix());
    assert RowDot(P, u, 0, 4) == m.p * u[0] + m.c * u[2];
    assert RowDot(P, u, 1, 4) == n.p * u[1] + n.c * u[3];
    assert RowDot(P, u, 2, 4) == m.c * u[0] + m.v * u[2];
    assert RowDot(P, u, 3, 4) == n.c * u[1] + n.v * u[3];
  }

  lemma WeaveSound(m: Cov, n: Cov)
    requires m.Sound() && n.Sound()
    ensures Symmetric(Weave(m.Matrix(), n.Matrix()))
    ensures PositiveDefinite(Weave(m.Matrix(), n.Matrix()))
  {
    hide Cov.Quad, Quadratic, Cov.Det;
    var P := Weave(m.Matrix(), n.Matrix());
    forall u: Vec4 | u != [0.0, 0.0, 0.0, 0.0]
      ensures Quadratic(P, u) > 0.0
    {
      QuadraticWeave(m, n, u);
      QuadPositive(m, u[0], u[2]);
      QuadPositive(n, u[1], u[3]);
    }
  }

  ghost predicate CrossAxisZero(P: Mat4) {
    P[1] == P[3] == P[4] == P[6] == P[9] == P[11] == P[12] == P[14] == 0.0
  }

  ghost predicate Healthy(s: KState, r: Positive, scale: LonScale) {
    && s.initialised
    && Symmetric(s.P) && PositiveDefinite(s.P) && CrossAxisZero(s.P)
    && Det(s.P, LatVar(r), LonVar(r, scale, s.x[0])) > 0.0
  }

  lemma EmbedHealthy(f: Pair, n: uint32, r: Positive, scale: LonScale)
    requires f.Sound()
    ensures Healthy(Embed(f, n), r, scale)
  {
    hide LatVar, LonVar, Det, PositiveDefinite, Symmetric, UpdateState, Pair.Update, Cov.Sound;
    WeaveSound(f.lat.cov, f.lon.cov);
    UpdateRefines(f, n, 0.0, 0.0, r, scale);
  }

  /** The filter's main guarantee. After any run from initialisation the covariance is symmetric
      and positive definite, every cross-axis entry is zero, the innovation determinant is
      positive for every measurement noise (so the early return never fires), and the counter
      equals the number of updates, as a 32-bit value. */
  lemma CovarianceSound(lat: real, lon: real, ops: seq<Op>, r: Positive, scale: LonScale)
    ensures var s := Run(InitState(lat, lon), ops, scale);
            Healthy(s, r, scale) && s.updates == Add32(0, Updates(ops))
  {
    hide InitState, InitPair, Healthy, Pair.Sound;
    InitRefines(lat, lon);
    RunRefines(InitPair(lat, lon), 0, ops, scale);
    EmbedHealthy(RunPair(InitPair(lat, lon), ops, scale), Add32(0, Updates(ops)), r, scale);
  }

  // ---- the update's other forms -----------------------------------------------------

  /** K [a b; c d] K' for a 4x2 gain K. */
  function Sandwich(K: seq<real>, m: Block): Mat4
    requires |K| == 8
  {
    seq(16, k requires 0 <= k < 16 =>
      SandwichEntry(K[2 * (k / 4)], K[2 * (k / 4) + 1], K[2 * (k % 4)], K[2 * (k % 4) + 1], m))
  }

  function SandwichEntry(a: real, b: real, c: real, d: real, m: Block): real {
    (a * m.a + b * m.c) * c + (a * m.b + b * m.d) * d
  }

  function Negate(m: Mat4): Mat4 {
    seq(16, k requires 0 <= k < 16 => -m[k])
  }

  /** S = H P H' + R: the top-left corner of P plus the measurement noise. */
  function Innovation(P: Mat4, R00: real, R11: real): Block {
    Block(P[0] + R00, P[1], P[4], P[5] + R11)
  }

  function Joseph(P: Mat4, K: seq<real>, R00: real, R11: real): Mat4
    requires |K| == 8
  {
    Add(Mul(Mul(Residual(K), P), Transpose(Residual(K))), Sandwich(K, Block(R00, 0.0, 0.0, R11)))
  }

  function Triple(x: real, y: real, z: real): real { x * y * z }

  /** [k0; k1] S [k0 k1] for one axis. */
  function Outer(k0: real, k1: real, S: real): Block {
    Block(Triple(k0, S, k0), Triple(k0, S, k1), Triple(k1, S, k0), Triple(k1, S, k1))
  }

  /** A gain that keeps the axes apart, sandwiching a diagonal matrix. */
  lemma SandwichWeave(k0: real, k1: real, l0: real, l1: real, m: Block)
    requires m.b == 0.0 && m.c == 0.0
    ensures Sandwich([k0, 0.0, 0.0, l0, k1, 0.0, 0.0, l1], m) == Weave(Outer(k0, k1, m.a), Outer(l0, l1, m.d))
  {
    hide SandwichEntry, Triple;
    Diagonal(k0, k0, l0, m);
    Diagonal(k0, k1, l0, m);
    Diagonal(k1, k0, l1, m);
    Diagonal(k1, k1, l1, m);
    Diagonal(k0, k0, l1, m);
    Diagonal(l0, l0, k0, m);
    Diagonal(l0, l1, k0, m);
    Diagonal(l1, l0, k1, m);
    Diagonal(l1, l1, k1, m);
    Diagonal(k1, k0, l0, m);
    Diagonal(l0, l0, k1, m);
    Diagonal(l1, l0, k0, m);
  }

  lemma Diagonal(a: real, c: real, d: real, m: Block)
    requires m.b == 0.0 && m.c == 0.0
    ensures SandwichEntry(a, 0.0, c, 0.0, m) == Triple(a, m.a, c)
    ensures SandwichEntry(0.0, a, 0.0, c, m) == Triple(a, m.d, c)
    ensures SandwichEntry(a, 0.0, 0.0, d, m) == 0.0
    ensures SandwichEntry(0.0, a, d, 0.0, m) == 0.0
  {
  }

  /** One axis of the two identities below. */
  lemma AxisForms(m: Cov, R: real)
    requires m.Sound() && R > 0.0
    ensures var A, m' := ResidualBlock(m, R), m.Update(R);
            A.Times(m.Matrix()).Times(A.Flip()).Plus(Outer(m.PosGain(R), m.VelGain(R), R)) == m'.Matrix()
    ensures m.Update(R).Matrix() == m.Matrix().Plus(Minus(Outer(m.PosGain(R), m.VelGain(R), m.p + R)))
  {
    UpdateBlock(m, R);
    Posterior(m, R);
    hide Cov.Update, Cov.PosGain, Cov.VelGain;
    JosephAxis(m, m.Update(R), R, m.PosGain(R), m.VelGain(R));
    DownDate(m, m.Update(R), m.p + R, m.PosGain(R), m.VelGain(R));
  }

  lemma JosephAxis(m: Cov, m': Cov, R: real, k0: real, k1: real)
    requires m'.p == k0 * R && m'.c == k1 * R
    ensures var A := Block(1.0 - k0, 0.0, 0.0 - k1, 1.0);
            m'.Matrix().Times(A.Flip()).Plus(Outer(k0, k1, R)) == m'.Matrix()
  {
    assert m'.p * (1.0 - k0) == m'.p - k0 * R * k0;
    assert m'.p * (0.0 - k1) == 0.0 - k0 * R * k1;
    assert m'.c * (1.0 - k0) == m'.c - k1 * R * k0;
    assert m'.c * (0.0 - k1) == 0.0 - k1 * R * k1;
  }

  lemma DownDate(m: Cov, m': Cov, S: real, k0: real, k1: real)
    requires k0 * S == m.p && k1 * S == m.c
    requires m'.p == m.p - k0 * m.p && m'.c == m.c - k0 * m.c && m'.v == m.v - k1 * m.c
    ensures m'.Matrix() == m.Matrix().Plus(Minus(Outer(k0, k1, S)))
  {
    assert k0 * m.p == k0 * (k0 * S) && k0 * m.c == k0 * (k1 * S) && k1 * m.c == k1 * (k1 * S);
  }

  /** In every reachable state the code's (I - K H) P equals the Joseph form
      (I - K H) P (I - K H)' + K R K' and also P - K S K'. */
  lemma UpdateForms(f: Pair, n: uint32, lat: real, lon: real, r: Positive, scale: LonScale)
    requires f.Sound()
    ensures var s := Embed(f, n);
            var R00, R11 := LatVar(r), LonVar(r, scale, s.x[0]);
            && Det(s.P, R00, R11) != 0.0
            && var K := Gain(s.P, R00, R11);
            && UpdateState(s, lat, lon, r, scale).P == Joseph(s.P, K, R00, R11)
            && UpdateState(s, lat, lon, r, scale).P
               == Add(s.P, Negate(Sandwich(K, Innovation(s.P, R00, R11))))
  {
    var m, n := f.lat.cov, f.lon.cov;
    var R00, R11 := LatVar(r), LonVar(r, scale, f.lat.pos);
    VarSign(r, scale, f.lat.pos);
    hide LatVar, LonVar, Gain, Det;
    UpdateRefines(f, 0, lat, lon, r, scale);
    UpdateGain(m, n, R00, R11);
    FormsWoven(m, n, R00, R11);
  }

  lemma FormsWoven(m: Cov, n: Cov, R00: real, R11: real)
    requires m.Sound() && n.Sound() && R00 > 0.0 && R11 > 0.0
    ensures var P, K := Weave(m.Matrix(), n.Matrix()), AxisGain(m, n, R00, R11);
            var P' := Weave(m.Update(R00).Matrix(), n.Update(R11).Matrix());
            P' == Joseph(P, K, R00, R11) && P' == Add(P, Negate(Sandwich(K, Innovation(P, R00, R11))))
  {
    hide Cov.PosGain, Cov.VelGain, Cov.Update, Cov.Det, Mul, Transpose, Add, Residual, Sandwich, Outer, Negate, Minus, ResidualBlock;
    hide Block.Times, Block.Plus, Block.Flip;
    AxisForms(m, R00);
    AxisForms(n, R11);
    var A, B, M, N := ResidualBlock(m, R00), ResidualBlock(n, R11), m.Matrix(), n.Matrix();
    ResidualWeave(m, n, R00, R11);
    WeaveMul(A, B, M, N);
    WeaveTranspose(A, B);
    WeaveMul(A.Times(M), B.Times(N), A.Flip(), B.Flip());
    var k0, k1, l0, l1 := m.PosGain(R00), m.VelGain(R00), n.PosGain(R11), n.VelGain(R11);
    SandwichWeave(k0, k1, l0, l1, Block(R00, 0.0, 0.0, R11));
    SandwichWeave(k0, k1, l0, l1, Innovation(Weave(M, N), R00, R11));
    WeaveAdd(A.Times(M).Times(A.Flip()), B.Times(N).Times(B.Flip()), Outer(k0, k1, R00), Outer(l0, l1, R11));
    NegateWeave(Outer(k0, k1, m.p + R00), Outer(l0, l1, n.p + R11));
    WeaveAdd(M, N, Minus(Outer(k0, k1, m.p + R00)), Minus(Outer(l0, l1, n.p + R11)));
  }

  function Minus(m: Block): Block { Block(-m.a, -m.b, -m.c, -m.d) }

  lemma NegateWeave(m: Block, n: Block)
    ensures Negate(Weave(m, n)) == Weave(Minus(m), Minus(n))
  {
  }

  /** What one measurement does in any reachable state: both position variances drop below the
      prior's and the measurement's, no velocity variance grows, and each position lands between
      prior and measurement. */
  lemma MeasurementHelps(f: Pair, n: uint32, lat: real, lon: real, r: Positive, scale: LonScale)
    requires f.Sound()
    ensures var s, s' := Embed(f, n), UpdateState(Embed(f, n), lat, lon, r, scale);
            var R00, R11 := LatVar(r), LonVar(r, scale, s.x[0]);
            && s'.P[0] < s.P[0] && s'.P[0] < R00 && s'.P[10] <= s.P[10]
            && s'.P[5] < s.P[5] && s'.P[5] < R11 && s'.P[15] <= s.P[15]
            && (s.x[0] <= lat ==> s.x[0] <= s'.x[0] <= lat) && (lat <= s.x[0] ==> lat <= s'.x[0] <= s.x[0])
            && (s.x[1] <= lon ==> s.x[1] <= s'.x[1] <= lon) && (lon <= s.x[1] ==> lon <= s'.x[1] <= s.x[1])
  {
    VarSign(r, scale, f.lat.pos);
    hide LatVar, LonVar, Cov.Update, Cov.Det, Cov.PosGain, Cov.VelGain, Step, UpdateState, Det;
    UpdateRefines(f, n, lat, lon, r, scale);
    UpdateDet(f.lat.cov, LatVar(r));
    UpdateDet(f.lon.cov, LonVar(r, scale, f.lat.pos));
    UpdateBetween(f.lat, lat, LatVar(r));
    UpdateBetween(f.lon, lon, LonVar(r, scale, f.lat.pos));
  }

  /** The published extrapolation is the position `predict` itself would move to. */
  lemma AheadIsPredict(s: KState, dt: real, q: real, scale: LonScale)
    requires s.initialised
    ensures var s' := PredictState(s, dt, q, scale); PredictAhead(s, dt) == (s'.x[0], s'.x[1])
  {
    PredictVec((s.x[0], s.x[2]), (s.x[1], s.x[3]), dt);
    assert s.x == WeaveVec((s.x[0], s.x[2]), (s.x[1], s.x[3]));
    hide MulVec, Transition, Step;
  }

  // ---- one step from any reachable state ----------------------------------------------

  /** Determinants of the latitude and longitude blocks of the covariance. */
  function LatDet(P: Mat4): real { P[0] * P[10] - P[2] * P[8] }

  function LonDet(P: Mat4): real { P[5] * P[15] - P[7] * P[13] }

  lemma Reachable(lat0: real, lon0: real, ops: seq<Op>, scale: LonScale) returns (f: Pair, n: uint32)
    ensures f.Sound() && Run(InitState(lat0, lon0), ops, scale) == Embed(f, n)
    ensures n == Add32(0, Updates(ops))
  {
    InitRefines(lat0, lon0);
    f, n := RunPair(InitPair(lat0, lon0), ops, scale), Add32(0, Updates(ops));
    hide InitState, InitPair, Pair.Sound, Embed;
    RunRefines(InitPair(lat0, lon0), 0, ops, scale);
  }

  /** A measurement at the end of any run: the guard does not fire, and the posterior covariance is
      both its Joseph form and its downdate form. */
  lemma UpdateAfterRun(lat0: real, lon0: real, ops: seq<Op>, lat: real, lon: real, r: Positive, scale: LonScale)
    ensures var s := Run(InitState(lat0, lon0), ops, scale);
            var s' := UpdateState(s, lat, lon, r, scale);
            var R00, R11 := LatVar(r), LonVar(r, scale, s.x[0]);
            && Det(s.P, R00, R11) != 0.0
            && var K := Gain(s.P, R00, R11);
            && s'.P == Joseph(s.P, K, R00, R11)
            && s'.P == Add(s.P, Negate(Sandwich(K, Innovation(s.P, R00, R11))))
  {
    hide *;
    var f, n := Reachable(lat0, lon0, ops, scale);
    UpdateForms(f, n, lat, lon, r, scale);
  }

  /** Its effect: every variance no larger, position variances below the measurement's, positions
      between prior and measurement, and each block determinant scaled by R/(p + R). */
  lemma MeasurementAfterRun(lat0: real, lon0: real, ops: seq<Op>, lat: real, lon: real, r: Positive, scale: LonScale)
    ensures var s := Run(InitState(lat0, lon0), ops, scale);
            var s' := UpdateState(s, lat, lon, r, scale);
            var R00, R11 := LatVar(r), LonVar(r, scale, s.x[0]);
            && s'.P[0] < s.P[0] && s'.P[0] < R00 && s'.P[10] <= s.P[10]
            && s'.P[5] < s.P[5] && s'.P[5] < R11 && s'.P[15] <= s.P[15]
            && (s.x[0] <= lat ==> s.x[0] <= s'.x[0] <= lat) && (lat <= s.x[0] ==> lat <= s'.x[0] <= s.x[0])
            && (s.x[1] <= lon ==> s.x[1] <= s'.x[1] <= lon) && (lon <= s.x[1] ==> lon <= s'.x[1] <= s.x[1])
            && Shrunk(LatDet(s.P), s.P[0], R00, LatDet(s'.P)) && Shrunk(LonDet(s.P), s.P[5], R11, LonDet(s'.P))
  {
    hide *;
    var f, n := Reachable(lat0, lon0, ops, scale);
    MeasurementHelps(f, n, lat, lon, r, scale);
    UpdateDets(f, n, lat, lon, r, scale);
  }

  /** d' is d scaled by R/(p + R). */
  predicate Shrunk(d: real, p: real, R: real, d': real) {
    p + R != 0.0 && d' == d * (R / (p + R))
  }

  lemma EmbedDet(f: Pair, n: uint32)
    ensures var P := Embed(f, n).P;
            LatDet(P) == f.lat.cov.Det() && LonDet(P) == f.lon.cov.Det() && P[0] == f.lat.cov.p && P[5] == f.lon.cov.p
  {
  }

  lemma UpdateDets(f: Pair, n: uint32, lat: real, lon: real, r: Positive, scale: LonScale)
    requires f.Sound()
    ensures var s, s' := Embed(f, n), UpdateState(Embed(f, n), lat, lon, r, scale);
            && Shrunk(LatDet(s.P), s.P[0], LatVar(r), LatDet(s'.P))
            && Shrunk(LonDet(s.P), s.P[5], LonVar(r, scale, s.x[0]), LonDet(s'.P))
  {
    VarSign(r, scale, f.lat.pos);
    hide LatVar, LonVar, Cov.Update, Cov.Det, UpdateState, Det, LatDet, LonDet, Shrunk;
    UpdateRefines(f, n, lat, lon, r, scale);
    EmbedDet(f, n);
    EmbedDet(f.Update(lat, lon, r, scale), Inc32(n));
    AxisShrinks(f.lat.cov, LatVar(r));
    AxisShrinks(f.lon.cov, LonVar(r, scale, f.lat.pos));
  }

  lemma AxisShrinks(m: Cov, R: real)
    requires m.Sound() && R > 0.0
    ensures m.p + R > 0.0 && Shrunk(m.Det(), m.p, R, m.Update(R).Det())
  {
    hide Cov.Update, Cov.Det;
    UpdateDet(m, R);
  }

  /** A prediction at the end of any run, whatever its time step: F P F' plus, on each axis, the
      rank-one term q2 w w' with w = (dt^2/2, dt); so neither block determinant ever falls. */
  lemma PredictAfterRun(lat0: real, lon0: real, ops: seq<Op>, dt: real, q: real, scale: LonScale)
    ensures var s := Run(InitState(lat0, lon0), ops, scale);
            var s' := PredictState(s, dt, q, scale);
            && s'.P == Add(Mul(Mul(Transition(dt), s.P), Transpose(Transition(dt))),
                           Weave(RankOne(dt, LatVar(q)), RankOne(dt, LonVar(q, scale, s'.x[0]))))
            && LatDet(s'.P) >= LatDet(s.P) && LonDet(s'.P) >= LonDet(s.P)
  {
    var f, n := Reachable(lat0, lon0, ops, scale);
    hide Run, InitState, Mul, Transpose, Transition, Weave, NoiseBlock, RankOne, LatVar, LonVar, MulVec, Add, LatDet, LonDet;
    var s' := PredictState(Embed(f, n), dt, q, scale);
    NoiseIsRankOne(dt, LatVar(q));
    NoiseIsRankOne(dt, LonVar(q, scale, s'.x[0]));
    PredictDets(f, n, dt, q, scale);
  }

  /** q2 w w' for w = (dt^2/2, dt). */
  function RankOne(dt: real, q2: real): Block {
    var w := dt * dt / 2.0;
    Block(q2 * (w * w), q2 * (w * dt), q2 * (w * dt), q2 * (dt * dt))
  }

  lemma NoiseIsRankOne(dt: real, q2: real)
    ensures NoiseBlock(dt, q2) == RankOne(dt, q2)
  {
    NoiseRankOne(dt, q2);
  }

  lemma PredictDets(f: Pair, n: uint32, dt: real, q: real, scale: LonScale)
    requires f.Sound()
    ensures var s, s' := Embed(f, n), PredictState(Embed(f, n), dt, q, scale);
            LatDet(s'.P) >= LatDet(s.P) && LonDet(s'.P) >= LonDet(s.P)
  {
    var lat' := f.lat.Predict(dt, LatVar(q));
    VarSign(q, scale, lat'.pos);
    hide LatVar, LonVar, Cov.Predict, Cov.Det, PredictState, LatDet, LonDet;
    PredictRefines(f, n, dt, q, scale);
    EmbedDet(f, n);
    EmbedDet(f.Predict(dt, q, scale), n);
    PredictDet(f.lat.cov, dt, LatVar(q));
    PredictDet(f.lon.cov, dt, LonVar(q, scale, lat'.pos));
  }
}
