/** 4x4 row-major matrices over flat arrays: the loops of the filter and what they compute. */
module Matrices {

  type Vec4 = v: seq<real> | |v| == 4 witness [0.0, 0.0, 0.0, 0.0]
  type Mat4 = m: seq<real> | |m| == 16 witness seq(16, _ => 0.0)

  /** The first `n` terms of the inner product of row `i` of `a` with column `j` of `b`. */
  function Dot(a: Mat4, b: Mat4, i: nat, j: nat, n: nat): real
    requires i < 4 && j < 4 && n <= 4
  {
    (if n > 0 then a[4 * i] * b[j] else 0.0)
    + (if n > 1 then a[4 * i + 1] * b[4 + j] else 0.0)
    + (if n > 2 then a[4 * i + 2] * b[8 + j] else 0.0)
    + (if n > 3 then a[4 * i + 3] * b[12 + j] else 0.0)
  }

  function Mul(a: Mat4, b: Mat4): Mat4 {
    seq(16, k requires 0 <= k < 16 => Dot(a, b, k / 4, k % 4, 4))
  }

  function Transpose(m: Mat4): Mat4 {
    seq(16, k requires 0 <= k < 16 => m[(k % 4) * 4 + k / 4])
  }

  function Add(a: Mat4, b: Mat4): Mat4 {
    seq(16, k requires 0 <= k < 16 => a[k] + b[k])
  }

  function RowDot(m: Mat4, v: Vec4, i: nat, n: nat): real
    requires i < 4 && n <= 4
  {
    (if n > 0 then m[4 * i] * v[0] else 0.0)
    + (if n > 1 then m[4 * i + 1] * v[1] else 0.0)
    + (if n > 2 then m[4 * i + 2] * v[2] else 0.0)
    + (if n > 3 then m[4 * i + 3] * v[3] else 0.0)
  }

  function MulVec(m: Mat4, v: Vec4): Vec4 {
    [RowDot(m, v, 0, 4), RowDot(m, v, 1, 4), RowDot(m, v, 2, 4), RowDot(m, v, 3, 4)]
  }

  ghost predicate Symmetric(m: Mat4) {
    forall i, j :: 0 <= i < 4 && 0 <= j < 4 ==> m[4 * i + j] == m[4 * j + i]
  }

  /** The quadratic form u' M u. */
  function Quadratic(m: Mat4, u: Vec4): real {
    u[0] * RowDot(m, u, 0, 4) + u[1] * RowDot(m, u, 1, 4)
    + u[2] * RowDot(m, u, 2, 4) + u[3] * RowDot(m, u, 3, 4)
  }

  ghost predicate PositiveDefinite(m: Mat4) {
    forall u: Vec4 :: u != [0.0, 0.0, 0.0, 0.0] ==> Quadratic(m, u) > 0.0
  }

  // ---- the array loops --------------------------------------------------------------

  method MulInto(a: array<real>, b: array<real>, out: array<real>)
    requires a.Length == b.Length == out.Length == 16
    requires out != a && out != b
    modifies out
    ensures out[..] == Mul(a[..], b[..])
  {
    ghost var sa, sb := a[..], b[..];
    for i := 0 to 4
      invariant a[..] == sa && b[..] == sb
      invariant forall p :: 0 <= p < 4 * i ==> out[p] == Mul(sa, sb)[p]
    {
      for j := 0 to 4
        invariant a[..] == sa && b[..] == sb
        invariant forall p :: 0 <= p < 4 * i + j ==> out[p] == Mul(sa, sb)[p]
      {
        var s := 0.0;
        for k := 0 to 4
          invariant s == Dot(sa, sb, i, j, k)
        {
          assert a[i * 4 + k] == sa[i * 4 + k] && b[k * 4 + j] == sb[k * 4 + j];
          s := s + a[i * 4 + k] * b[k * 4 + j];
        }
        out[i * 4 + j] := s;
      }
    }
  }

  method TransposeInto(m: array<real>, out: array<real>)
    requires m.Length == out.Length == 16
    requires out != m
    modifies out
    ensures out[..] == Transpose(m[..])
  {
    ghost var sm := m[..];
    for i := 0 to 4
      invariant m[..] == sm
      invariant forall r, c :: 0 <= r < 4 && 0 <= c < i ==> out[4 * r + c] == sm[4 * c + r]
    {
      for j := 0 to 4
        invariant m[..] == sm
        invariant forall r, c :: 0 <= r < 4 && 0 <= c < i ==> out[4 * r + c] == sm[4 * c + r]
        invariant forall r :: 0 <= r < j ==> out[4 * r + i] == sm[4 * i + r]
      {
        out[j * 4 + i] := m[i * 4 + j];
      }
    }
    forall p | 0 <= p < 16
      ensures out[p] == Transpose(sm)[p]
    {
      assert out[4 * (p / 4) + p % 4] == sm[4 * (p % 4) + p / 4];
    }
  }

  method AddInto(a: array<real>, b: array<real>, out: array<real>)
    requires a.Length == b.Length == out.Length == 16
    requires out != a && out != b
    modifies out
    ensures out[..] == Add(a[..], b[..])
  {
    for i := 0 to 16
      invariant a[..] == old(a[..]) && b[..] == old(b[..])
      invariant forall p :: 0 <= p < i ==> out[p] == a[p] + b[p]
    {
      out[i] := a[i] + b[i];
    }
  }

  method MulVecInto(m: array<real>, v: array<real>, out: array<real>)
    requires m.Length == 16 && v.Length == out.Length == 4
    requires out != v
    modifies out
    ensures out[..] == MulVec(m[..], v[..])
  {
    ghost var sm, sv := m[..], v[..];
    for i := 0 to 4
      invariant m[..] == sm && v[..] == sv
      invariant forall p :: 0 <= p < i ==> out[p] == RowDot(sm, sv, p, 4)
    {
      var s := 0.0;
      for j := 0 to 4
        invariant s == RowDot(sm, sv, i, j)
      {
        assert m[i * 4 + j] == sm[i * 4 + j] && v[j] == sv[j];
        s := s + m[i * 4 + j] * v[j];
      }
      out[i] := s;
    }
  }

  /** `memcpy` of a whole buffer. */
  method Copy(src: array<real>, dst: array<real>)
    requires src.Length == dst.Length
    modifies dst
    ensures dst[..] == old(src[..])
  {
    forall i | 0 <= i < dst.Length {
      dst[i] := src[i];
    }
  }

  // ---- two interleaved 2x2 blocks ---------------------------------------------------

  /** A sum of two products. */
  function Two(x: real, y: real, z: real, w: real): real { x * y + z * w }

  /** A 2x2 matrix [a b; c d]. */
  datatype Block = Block(a: real, b: real, c: real, d: real) {
    function Times(o: Block): Block {
      Block(Two(a, o.a, b, o.c), Two(a, o.b, b, o.d), Two(c, o.a, d, o.c), Two(c, o.b, d, o.d))
    }

    function Plus(o: Block): Block {
      Block(a + o.a, b + o.b, c + o.c, d + o.d)
    }

    function Flip(): Block {
      Block(a, c, b, d)
    }
  }

  /** The 4x4 matrix acting as `m` on components 0, 2 and as `n` on components 1, 3: every
      cross entry is zero. */
  function Weave(m: Block, n: Block): Mat4 {
    [m.a, 0.0, m.b, 0.0,
     0.0, n.a, 0.0, n.b,
     m.c, 0.0, m.d, 0.0,
     0.0, n.c, 0.0, n.d]
  }

  function WeaveVec(p: (real, real), q: (real, real)): Vec4 {
    [p.0, q.0, p.1, q.1]
  }

  /** An inner product two of whose terms have a zero factor. */
  lemma DotEven(a: Mat4, b: Mat4, i: nat, j: nat)
    requires i < 4 && j < 4
    requires (a[4 * i + 1] == 0.0 || b[4 + j] == 0.0) && (a[4 * i + 3] == 0.0 || b[12 + j] == 0.0)
    ensures Dot(a, b, i, j, 4) == Two(a[4 * i], b[j], a[4 * i + 2], b[8 + j])
  {
  }

  lemma DotOdd(a: Mat4, b: Mat4, i: nat, j: nat)
    requires i < 4 && j < 4
    requires (a[4 * i] == 0.0 || b[j] == 0.0) && (a[4 * i + 2] == 0.0 || b[8 + j] == 0.0)
    ensures Dot(a, b, i, j, 4) == Two(a[4 * i + 1], b[4 + j], a[4 * i + 3], b[12 + j])
  {
  }

  /** One entry of a product of woven matrices. */
  lemma WeaveEntry(m: Block, n: Block, m': Block, n': Block, i: nat, j: nat)
    requires i < 4 && j < 4
    ensures Dot(Weave(m, n), Weave(m', n'), i, j, 4) == Weave(m.Times(m'), n.Times(n'))[4 * i + j]
  {
    ZeroProducts(m, n);
    ZeroProducts(m', n');
    hide Dot, Two;
    if i % 2 == 0 {
      DotEven(Weave(m, n), Weave(m', n'), i, j);
    } else {
      DotOdd(Weave(m, n), Weave(m', n'), i, j);
    }
  }

  lemma ZeroProducts(m: Block, n: Block)
    ensures Two(m.a, 0.0, m.b, 0.0) == Two(m.c, 0.0, m.d, 0.0) == Two(n.a, 0.0, n.b, 0.0) == Two(n.c, 0.0, n.d, 0.0) == 0.0
  {
  }

  /** Block-wise multiplication: the 4x4 product of woven matrices never mixes the two axes. */
  lemma WeaveMul(m: Block, n: Block, m': Block, n': Block)
    ensures Mul(Weave(m, n), Weave(m', n')) == Weave(m.Times(m'), n.Times(n'))
  {
    hide Dot, Block.Times, Weave;
    forall k | 0 <= k < 16
      ensures Mul(Weave(m, n), Weave(m', n'))[k] == Weave(m.Times(m'), n.Times(n'))[k]
    {
      WeaveEntry(m, n, m', n', k / 4, k % 4);
    }
  }

  lemma WeaveAdd(m: Block, n: Block, m': Block, n': Block)
    ensures Add(Weave(m, n), Weave(m', n')) == Weave(m.Plus(m'), n.Plus(n'))
  {
  }

  lemma WeaveFlip(m: Block, n: Block, i: nat, j: nat)
    requires i < 4 && j < 4
    ensures Weave(m, n)[4 * j + i] == Weave(m.Flip(), n.Flip())[4 * i + j]
  {
    assert i == 0 || i == 1 || i == 2 || i == 3;
    assert j == 0 || j == 1 || j == 2 || j == 3;
  }

  lemma WeaveTranspose(m: Block, n: Block)
    ensures Transpose(Weave(m, n)) == Weave(m.Flip(), n.Flip())
  {
    hide Weave, Block.Flip;
    forall k | 0 <= k < 16
      ensures Transpose(Weave(m, n))[k] == Weave(m.Flip(), n.Flip())[k]
    {
      WeaveFlip(m, n, k / 4, k % 4);
    }
  }

  lemma WeaveMulVec(m: Block, n: Block, p: (real, real), q: (real, real), p': (real, real), q': (real, real))
    requires p'.0 == m.a * p.0 + m.b * p.1 && p'.1 == m.c * p.0 + m.d * p.1
    requires q'.0 == n.a * q.0 + n.b * q.1 && q'.1 == n.c * q.0 + n.d * q.1
    ensures MulVec(Weave(m, n), WeaveVec(p, q)) == WeaveVec(p', q')
  {
    var w, v := Weave(m, n), WeaveVec(p, q);
    assert RowDot(w, v, 0, 4) == m.a * p.0 + m.b * p.1;
    assert RowDot(w, v, 1, 4) == n.a * q.0 + n.b * q.1;
    assert RowDot(w, v, 2, 4) == m.c * p.0 + m.d * p.1;
    assert RowDot(w, v, 3, 4) == n.c * q.0 + n.d * q.1;
  }
}
