/**
 * Exact real-valued stand-ins for Eigen's `Vector3f` and `Matrix3f`, and the
 * sum of the columns of a buffer over a set of column indices (the
 * `for (auto j : adj_new[i]) x += M.col(j)` loops of smoothing.cpp).
 */
module Vectors {

  datatype Vec3 = Vec3(x: real, y: real, z: real)

  /** A 3x3 matrix, row by row. */
  datatype Mat3 = Mat3(r0: Vec3, r1: Vec3, r2: Vec3)

  const Zero: Vec3 := Vec3(0.0, 0.0, 0.0)
  const ZeroMat: Mat3 := Mat3(Zero, Zero, Zero)

  function Add(a: Vec3, b: Vec3): Vec3 { Vec3(a.x + b.x, a.y + b.y, a.z + b.z) }
  function Sub(a: Vec3, b: Vec3): Vec3 { Vec3(a.x - b.x, a.y - b.y, a.z - b.z) }
  function Neg(a: Vec3): Vec3 { Vec3(-a.x, -a.y, -a.z) }
  function Scale(s: real, a: Vec3): Vec3 { Vec3(s * a.x, s * a.y, s * a.z) }
  function Div(a: Vec3, d: real): Vec3 requires d != 0.0 { Vec3(a.x / d, a.y / d, a.z / d) }
  /** Scaling by d and then dividing by d is the identity. */
  lemma DivScale(d: real, a: Vec3)
    requires d != 0.0
    ensures Div(Scale(d, a), d) == a
  {
  }

  function Dot(a: Vec3, b: Vec3): real { a.x * b.x + a.y * b.y + a.z * b.z }

  function MAdd(a: Mat3, b: Mat3): Mat3 { Mat3(Add(a.r0, b.r0), Add(a.r1, b.r1), Add(a.r2, b.r2)) }

  /** The outer product `d * d.transpose()`: row k is `d[k] * d`. */
  function Outer(d: Vec3): Mat3 { Mat3(Scale(d.x, d), Scale(d.y, d), Scale(d.z, d)) }

  /**
   * Column j of a buffer, or Zero for an index past its end. An untracked
   * normal buffer is empty, so reading it this way gives Zero.
   */
  function Col(P: seq<Vec3>, j: nat): Vec3 { if j < |P| then P[j] else Zero }

  /** The sum of the columns of P whose indices are in s, in no particular order. */
  ghost function SumCols(P: seq<Vec3>, s: set<nat>): Vec3
    decreases s
  {
    if s == {} then Zero else var j :| j in s; Add(Col(P, j), SumCols(P, s - {j}))
  }

  /**
   * Any element may be taken out of the sum first: the sum does not depend on
   * the order in which a loop visits the set.
   */
  lemma {:induction false} SumColsPeel(P: seq<Vec3>, s: set<nat>, j: nat)
    requires j in s
    ensures SumCols(P, s) == Add(Col(P, j), SumCols(P, s - {j}))
    decreases s
  {
    var k :| k in s && SumCols(P, s) == Add(Col(P, k), SumCols(P, s - {k}));
    if k != j {
      var rest := s - {k} - {j};
      assert s - {j} - {k} == rest;
      SumColsPeel(P, s - {k}, j);
      SumColsPeel(P, s - {j}, k);
      calc {
        SumCols(P, s);
        Add(Col(P, k), SumCols(P, s - {k}));
        Add(Col(P, k), Add(Col(P, j), SumCols(P, rest)));
        Add(Col(P, j), Add(Col(P, k), SumCols(P, rest)));
        Add(Col(P, j), SumCols(P, s - {j}));
      }
    }
  }

  /** The sum reads only the columns whose indices are in s. */
  lemma {:induction false} SumColsLocal(P: seq<Vec3>, Q: seq<Vec3>, s: set<nat>)
    requires forall j :: j in s ==> Col(P, j) == Col(Q, j)
    ensures SumCols(P, s) == SumCols(Q, s)
    decreases s
  {
    if s != {} {
      var j :| j in s;
      SumColsPeel(P, s, j);
      SumColsPeel(Q, s, j);
      SumColsLocal(P, Q, s - {j});
    }
  }

  /** Summing |s| copies of the same point p gives |s| * p. */
  lemma {:induction false} SumColsConstant(P: seq<Vec3>, s: set<nat>, p: Vec3)
    requires forall j :: j in s ==> Col(P, j) == p
    ensures SumCols(P, s) == Scale(|s| as real, p)
    decreases s
  {
    if s != {} {
      var j :| j in s;
      SumColsPeel(P, s, j);
      SumColsConstant(P, s - {j}, p);
    }
  }
}
