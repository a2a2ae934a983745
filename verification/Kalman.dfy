/** The filter as the firmware holds it: two flat arrays updated in place. */
module Kalman {
  import opened Basics
  import opened Matrices
  import opened KalmanSpec

  class KalmanState {
    const x: array<real>
    const P: array<real>
    var updateCount: uint32
    var initialised: bool

    ghost predicate Valid() {
      x.Length == 4 && P.Length == 16
    }

    ghost function State(): KState
      requires Valid()
      reads this, x, P
    {
      KState(x[..], P[..], updateCount, initialised)
    }

    constructor ()
      ensures Valid() && fresh(x) && fresh(P) && State() == BLANK
    {
      x := new real[4](_ => 0.0);
      P := new real[16](_ => 0.0);
      updateCount, initialised := 0, false;
    }

    /** `memset` of the whole record. */
    method Reset()
      requires Valid()
      modifies this, x, P
      ensures State() == BLANK
    {
      forall i | 0 <= i < x.Length { x[i] := 0.0; }
      forall i | 0 <= i < P.Length { P[i] := 0.0; }
      updateCount, initialised := 0, false;
    }

    method Init(lat0: real, lon0: real)
      requires Valid()
      modifies this, x, P
      ensures State() == InitState(lat0, lon0)
    {
      Reset();
      x[0] := lat0;
      x[1] := lon0;
      var sigmaPos, sigmaVel := 100.0 * DEG_PER_M_LAT, 50.0 * DEG_PER_M_LAT;
      P[0 * 4 + 0] := sigmaPos * sigmaPos;
      P[1 * 4 + 1] := sigmaPos * sigmaPos;
      P[2 * 4 + 2] := sigmaVel * sigmaVel;
      P[3 * 4 + 3] := sigmaVel * sigmaVel;
      updateCount := 0;
      initialised := true;
      assert x[..] == [lat0, lon0, 0.0, 0.0];
      assert P[..] == InitState(lat0, lon0).P;
    }

    /** Fill `F` with the constant-velocity transition. */
    method FillTransition(F: array<real>, dt: real)
      requires F.Length == 16
      modifies F
      ensures F[..] == Transition(dt)
    {
      F[0], F[1], F[2], F[3] := 1.0, 0.0, dt, 0.0;
      F[4], F[5], F[6], F[7] := 0.0, 1.0, 0.0, dt;
      F[8], F[9], F[10], F[11] := 0.0, 0.0, 1.0, 0.0;
      F[12], F[13], F[14], F[15] := 0.0, 0.0, 0.0, 1.0;
      assert F[..] == Transition(dt);
    }

    /** Fill `Q` with white-noise-acceleration noise of variances qLat2, qLon2. */
    method FillNoise(Q: array<real>, dt: real, qLat2: real, qLon2: real)
      requires Q.Length == 16
      modifies Q
      ensures Q[..] == Weave(NoiseBlock(dt, qLat2), NoiseBlock(dt, qLon2))
    {
      hide PosNoise, CrossNoise, VelNoise;
      forall i | 0 <= i < 16 { Q[i] := 0.0; }
      Q[0 * 4 + 0] := PosNoise(dt, qLat2);
      Q[1 * 4 + 1] := PosNoise(dt, qLon2);
      Q[0 * 4 + 2] := CrossNoise(dt, qLat2);
      Q[2 * 4 + 0] := CrossNoise(dt, qLat2);
      Q[1 * 4 + 3] := CrossNoise(dt, qLon2);
      Q[3 * 4 + 1] := CrossNoise(dt, qLon2);
      Q[2 * 4 + 2] := VelNoise(dt, qLat2);
      Q[3 * 4 + 3] := VelNoise(dt, qLon2);
      assert Q[..] == Weave(NoiseBlock(dt, qLat2), NoiseBlock(dt, qLon2));
    }

    method Predict(dt: real, q: real, scale: LonScale)
      requires Valid()
      modifies this, x, P
      ensures State() == PredictState(old(State()), dt, q, scale)
    {
      hide Mul, MulVec, Add, Transpose, Transition, NoiseBlock, LatVar, LonVar, Weave;
      if !initialised {
        return;
      }
      var F, FP, Ft, FPFt, Q := new real[16], new real[16], new real[16], new real[16], new real[16];
      FillTransition(F, dt);
      var xNew := new real[4];
      MulVecInto(F, x, xNew);
      Copy(xNew, x);
      MulInto(F, P, FP);
      TransposeInto(F, Ft);
      MulInto(FP, Ft, FPFt);
      FillNoise(Q, dt, LatVar(q), LonVar(q, scale, x[0]));
      AddInto(FPFt, Q, P);
    }

    /** The 4x2 gain, row by row, from the closed-form inverse of the innovation. */
    method FillGain(K: array<real>, R00: real, R11: real)
      requires Valid() && K.Length == 8 && K != P
      requires Det(P[..], R00, R11) != 0.0
      modifies K
      ensures K[..] == Gain(P[..], R00, R11)
    {
      var S00, S01, S10, S11 := P[0] + R00, P[1], P[4], P[5] + R11;
      var det := S00 * S11 - S01 * S10;
      ghost var M := P[..];
      assert det == Det(M, R00, R11);
      var inv := 1.0 / det;
      var Si00, Si01, Si10, Si11 := S11 * inv, -S01 * inv, -S10 * inv, S00 * inv;
      for i := 0 to 4
        invariant P[..] == M
        invariant forall k :: 0 <= k < 2 * i ==> K[k] == Gain(M, R00, R11)[k]
      {
        var p0, p1 := P[i * 4 + 0], P[i * 4 + 1];
        assert p0 == M[4 * i] && p1 == M[4 * i + 1];
        K[i * 2 + 0] := p0 * Si00 + p1 * Si10;
        K[i * 2 + 1] := p0 * Si01 + p1 * Si11;
      }
    }

    /** I - K H, built in place. */
    method FillResidual(K: array<real>, IKH: array<real>)
      requires K.Length == 8 && IKH.Length == 16
      modifies IKH
      ensures IKH[..] == Residual(old(K[..]))
    {
      ghost var k := K[..];
      for i := 0 to 16
        invariant K[..] == k
        invariant forall j :: 0 <= j < i ==> IKH[j] == if j % 5 == 0 then 1.0 else 0.0
      {
        IKH[i] := if i % 5 == 0 then 1.0 else 0.0;
      }
      for i := 0 to 4
        invariant K[..] == k
        invariant forall j :: 0 <= j < 4 * i ==> IKH[j] == Residual(k)[j]
        invariant forall j :: 4 * i <= j < 16 ==> IKH[j] == if j % 5 == 0 then 1.0 else 0.0
      {
        assert K[i * 2 + 0] == k[2 * i] && K[i * 2 + 1] == k[2 * i + 1];
        IKH[i * 4 + 0] := IKH[i * 4 + 0] - K[i * 2 + 0];
        IKH[i * 4 + 1] := IKH[i * 4 + 1] - K[i * 2 + 1];
      }
    }

    /** x += K y. */
    method AddGain(K: array<real>, y0: real, y1: real)
      requires Valid() && K.Length == 8
      modifies x
      ensures x[..] == Correct(old(x[..]), K[..], y0, y1)
    {
      hide CorrectEntry;
      for i := 0 to 4
        invariant K[..] == old(K[..])
        invariant forall j :: 0 <= j < i ==> x[j] == Correct(old(x[..]), K[..], y0, y1)[j]
        invariant forall j :: i <= j < 4 ==> x[j] == old(x[j])
      {
        x[i] := CorrectEntry(x[i], K[i * 2 + 0], K[i * 2 + 1], y0, y1);
      }
    }

    method Update(measLat: real, measLon: real, r: real, scale: LonScale)
      requires Valid()
      modifies this, x, P
      ensures State() == UpdateState(old(State()), measLat, measLon, r, scale)
    {
      hide Gain, Residual, Correct, Mul, LatVar, LonVar, Det;
      if !initialised {
        return;
      }
      var R00, R11 := LatVar(r), LonVar(r, scale, x[0]);
      if Det(P[..], R00, R11) == 0.0 {
        return;
      }
      ApplyGain(R00, R11, measLat - x[0], measLon - x[1]);
      updateCount := Inc32(updateCount);
    }

    /** Compute the gain, move the state by K y and shrink the covariance to (I - K H) P. */
    method ApplyGain(R00: real, R11: real, y0: real, y1: real)
      requires Valid() && Det(P[..], R00, R11) != 0.0
      modifies x, P
      ensures var K := Gain(old(P[..]), R00, R11);
              x[..] == Correct(old(x[..]), K, y0, y1) && P[..] == Mul(Residual(K), old(P[..]))
    {
      hide Gain, Residual, Correct, Mul, Det;
      var K := new real[8];
      FillGain(K, R00, R11);
      ghost var g := K[..];
      AddGain(K, y0, y1);
      assert K[..] == g;
      ApplyResidual(K);
    }

    /** P = (I - K H) P. */
    method ApplyResidual(K: array<real>)
      requires Valid() && K.Length == 8 && K != P && K != x
      modifies P
      ensures P[..] == Mul(Residual(old(K[..])), old(P[..]))
    {
      hide Residual, Mul;
      var IKH, Pnew := new real[16], new real[16];
      FillResidual(K, IKH);
      MulInto(IKH, P, Pnew);
      Copy(Pnew, P);
    }

    method Ahead(dt: real) returns (lat: real, lon: real)
      requires Valid()
      ensures (lat, lon) == PredictAhead(State(), dt)
    {
      if !initialised {
        return 0.0, 0.0;
      }
      lat := Step(x[0], x[2], dt);
      lon := Step(x[1], x[3], dt);
    }
  }
}
