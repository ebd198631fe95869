/**
 * The relaxation phase of `smoothing` (lib/src/smoothing.cpp, lines 63-116)
 * and the routine as a whole.  Each of `smooth_iterations` passes computes a
 * fresh pair of buffers O', N' from the frozen O, N and then swaps them in.
 *
 * Vertices are processed in an arbitrary order and neighbours are visited in
 * an arbitrary order; the proofs show that the result does not depend on
 * either.  Arithmetic is exact: Float is modelled by real.
 */
module Smoothing {
  import opened Outcomes
  import opened Vectors
  import opened Adjacency
  import opened Reprojection

  /**
   * The numerical steps left uninterpreted: the least-squares plane normal of a
   * covariance matrix (`cov.jacobiSvd(...).matrixU().col(2).normalized()`) and
   * `signum`, whose definition is not part of this model.
   */
  datatype Numerics = Numerics(planeNormal: Mat3 -> Vec3, signum: real -> real)

  /** The arguments that stay fixed across passes. */
  datatype Settings = Settings(crease: set<nat>, scale: real, bvh: Option<Bvh>, num: Numerics)

  /** The position buffer O and the normal buffer N, column by column; N is empty when normals are not tracked. */
  datatype Buffers = Buffers(O: seq<Vec3>, N: seq<Vec3>)

  /** One vertex's new position and normal. */
  datatype Column = Column(pos: Vec3, normal: Vec3)

  /**
   * The buffers match the adjacency: one neighbour set per column of O, every
   * neighbour a column of O, and N either empty or as wide as O.
   */
  ghost predicate Fits(b: Buffers, adj: seq<set<nat>>) {
    && |adj| == |b.O|
    && (|b.N| == 0 || |b.N| == |b.O|)
    && (forall i, j :: 0 <= i < |adj| && j in adj[i] ==> j < |b.O|)
  }

  /** Row k of the outer product (O[j] - c)(O[j] - c)^T, for every column j. */
  ghost function OuterRows(O: seq<Vec3>, c: Vec3, k: nat): (R: seq<Vec3>)
    requires k < 3
    ensures |R| == |O|
  {
    seq(|O|, j requires 0 <= j < |O| =>
      var m := Outer(Sub(O[j], c)); if k == 0 then m.r0 else if k == 1 then m.r1 else m.r2)
  }

  /** The covariance matrix of the neighbour positions about c (lines 85-87). */
  ghost function Covariance(O: seq<Vec3>, s: set<nat>, c: Vec3): Mat3 {
    Mat3(SumCols(OuterRows(O, c, 0), s), SumCols(OuterRows(O, c, 1), s), SumCols(OuterRows(O, c, 2), s))
  }

  /** The fitted normal, multiplied by the sign of its dot product with avgNormal (lines 88-89). */
  function OrientedNormal(num: Numerics, cov: Mat3, avgNormal: Vec3): Vec3 {
    var n := num.planeNormal(cov);
    Scale(num.signum(Dot(avgNormal, n)), n)
  }

  /** Whether vertex i is relaxed: it has a neighbour and is not a crease vertex (line 75). */
  predicate Movable(adj: seq<set<nat>>, st: Settings, i: nat)
    requires i < |adj|
  {
    |adj[i]| > 0 && i !in st.crease
  }

  /** The neighbour centroid of vertex i in buffer O (lines 76-84). */
  ghost function Centroid(O: seq<Vec3>, s: set<nat>): Vec3
    requires s != {}
  {
    Div(SumCols(O, s), |s| as real)
  }

  /**
   * The sum of the neighbours' normals plus the vertex's own (lines 79-83);
   * zero when normals are not tracked.
   */
  ghost function AverageNormal(N: seq<Vec3>, s: set<nat>, i: nat): Vec3 {
    if |N| > 0 then Add(SumCols(N, s), Col(N, i)) else Zero
  }

  /** The column that a pass writes for vertex i, computed from the frozen buffers b. */
  ghost function NewColumn(b: Buffers, adj: seq<set<nat>>, st: Settings, i: nat): Column
    requires Fits(b, adj) && i < |b.O|
  {
    if Movable(adj, st, i) then
      var s := adj[i];
      var centroid := Centroid(b.O, s);
      var n := OrientedNormal(st.num, Covariance(b.O, s, centroid), AverageNormal(b.N, s, i));
      Column(Reproject(centroid, n, st.scale, st.bvh), n)
    else
      Column(b.O[i], Col(b.N, i))
  }

  /**
   * One pass: every column of O' and, when normals are tracked, of N' is the
   * vertex's new column; an untracked (empty) N is left as it is.
   */
  ghost function Pass(b: Buffers, adj: seq<set<nat>>, st: Settings): (b': Buffers)
    requires Fits(b, adj)
    ensures |b'.O| == |b.O| && |b'.N| == |b.N|
    ensures Fits(b', adj)
  {
    Buffers(
      seq(|b.O|, i requires 0 <= i < |b.O| => NewColumn(b, adj, st, i).pos),
      if |b.N| > 0 then seq(|b.N|, i requires 0 <= i < |b.N| => NewColumn(b, adj, st, i).normal) else b.N)
  }

  /** The buffers after k passes; no pass at all when k <= 0. */
  ghost function Relax(k: int, b: Buffers, adj: seq<set<nat>>, st: Settings): (b': Buffers)
    requires Fits(b, adj)
    ensures |b'.O| == |b.O| && |b'.N| == |b.N|
    ensures Fits(b', adj)
    decreases k
  {
    if k <= 0 then b else Pass(Relax(k - 1, b, adj, st), adj, st)
  }

  /**
   * Shapes are preserved, so an empty N stays empty; and a crease vertex or a
   * vertex without neighbours keeps its O column, and its N column when normals
   * are tracked, through any number of passes.
   */
  lemma {:induction false} KeptVertexUnchanged(k: int, b: Buffers, adj: seq<set<nat>>, st: Settings, i: nat)
    requires Fits(b, adj) && i < |b.O|
    requires i in st.crease || adj[i] == {}
    ensures Relax(k, b, adj, st).O[i] == b.O[i]
    ensures |b.N| > 0 ==> Relax(k, b, adj, st).N[i] == b.N[i]
    decreases k
  {
    if k > 0 {
      KeptVertexUnchanged(k - 1, b, adj, st, i);
    }
  }

  /**
   * A vertex's new column depends only on the previous buffers' columns at the
   * vertex itself and at its neighbours: never on any other column, and so never
   * on what the pass has already written for other vertices.
   */
  lemma NewColumnLocal(b1: Buffers, b2: Buffers, adj: seq<set<nat>>, st: Settings, i: nat)
    requires Fits(b1, adj) && Fits(b2, adj) && i < |adj|
    requires (|b1.N| > 0) == (|b2.N| > 0)
    requires b1.O[i] == b2.O[i] && Col(b1.N, i) == Col(b2.N, i)
    requires forall j :: j in adj[i] ==> b1.O[j] == b2.O[j] && Col(b1.N, j) == Col(b2.N, j)
    ensures NewColumn(b1, adj, st, i) == NewColumn(b2, adj, st, i)
  {
    if Movable(adj, st, i) {
      var s := adj[i];
      SumColsLocal(b1.O, b2.O, s);
      SumColsLocal(b1.N, b2.N, s);
      var c := Centroid(b1.O, s);
      assert c == Centroid(b2.O, s);
      forall k | 0 <= k < 3
        ensures SumCols(OuterRows(b1.O, c, k), s) == SumCols(OuterRows(b2.O, c, k), s)
      {
        SumColsLocal(OuterRows(b1.O, c, k), OuterRows(b2.O, c, k), s);
      }
      assert Covariance(b1.O, s, c) == Covariance(b2.O, s, c);
    }
  }

  /**
   * Without reprojection, a relaxed vertex moves to the mean of its
   * neighbours' old positions (lines 77-84).
   */
  lemma RelaxedToMean(b: Buffers, adj: seq<set<nat>>, st: Settings, i: nat)
    requires Fits(b, adj) && i < |b.O| && Movable(adj, st, i) && !Enabled(st.bvh)
    ensures adj[i] != {}
    ensures NewColumn(b, adj, st, i).pos == Div(SumCols(b.O, adj[i]), |adj[i]| as real)
  {
  }

  /**
   * Without reprojection, a relaxed vertex whose neighbours all sit at p moves
   * to p.
   */
  lemma CoincidentNeighbours(b: Buffers, adj: seq<set<nat>>, st: Settings, i: nat, p: Vec3)
    requires Fits(b, adj) && i < |b.O| && Movable(adj, st, i) && !Enabled(st.bvh)
    requires forall j :: j in adj[i] ==> b.O[j] == p
    ensures NewColumn(b, adj, st, i).pos == p
  {
    var s := adj[i];
    SumColsConstant(b.O, s, p);
    DivScale(|s| as real, p);
  }

  /**
   * Without reprojection, a relaxed vertex with exactly two neighbours moves to
   * the midpoint of their old positions.
   */
  lemma TwoNeighbours(b: Buffers, adj: seq<set<nat>>, st: Settings, i: nat, u: nat, v: nat)
    requires Fits(b, adj) && i < |b.O| && i !in st.crease && !Enabled(st.bvh)
    requires adj[i] == {u, v} && u != v
    ensures NewColumn(b, adj, st, i).pos == Scale(0.5, Add(b.O[u], b.O[v]))
  {
    var s := adj[i];
    SumColsPeel(b.O, s, u);
    assert s - {u} == {v};
    SumColsPeel(b.O, {v}, v);
    assert {v} - {v} == {};
    assert SumCols(b.O, s) == Add(b.O[u], b.O[v]);
  }

  /**
   * The neighbour loop of lines 77-81: the sum of the neighbours' positions
   * and, when normals are tracked, of their normals, visiting s in any order.
   */
  method SumNeighbours(O: array<Vec3>, N: array<Vec3>, s: set<nat>)
    returns (posSum: Vec3, normalSum: Vec3)
    ensures posSum == SumCols(O[..], s)
    ensures normalSum == if N.Length > 0 then SumCols(N[..], s) else Zero
  {
    var withNormals := N.Length > 0;
    posSum, normalSum := Zero, Zero;
    var todo, done := s, {};
    while todo != {}
      invariant todo + done == s && todo !! done
      invariant posSum == SumCols(O[..], done)
      invariant normalSum == if withNormals then SumCols(N[..], done) else Zero
      decreases |todo|
    {
      var j :| j in todo;
      posSum := Add(posSum, Col(O[..], j));
      if withNormals {
        normalSum := Add(normalSum, Col(N[..], j));
      }
      SumColsPeel(O[..], done + {j}, j);
      SumColsPeel(N[..], done + {j}, j);
      assert done + {j} - {j} == done;
      todo, done := todo - {j}, done + {j};
    }
  }

  /** Adding one neighbour to the set adds its outer product to the covariance sum. */
  lemma CovarianceStep(P: seq<Vec3>, s: set<nat>, c: Vec3, j: nat)
    requires j < |P| && j !in s
    ensures Covariance(P, s + {j}, c) == MAdd(Covariance(P, s, c), Outer(Sub(P[j], c)))
  {
    assert s + {j} - {j} == s;
    SumColsPeel(OuterRows(P, c, 0), s + {j}, j);
    SumColsPeel(OuterRows(P, c, 1), s + {j}, j);
    SumColsPeel(OuterRows(P, c, 2), s + {j}, j);
  }

  /** The covariance loop of lines 85-87, visiting s in any order. */
  method CovarianceAbout(O: array<Vec3>, s: set<nat>, centroid: Vec3) returns (cov: Mat3)
    requires forall j :: j in s ==> j < O.Length
    ensures cov == Covariance(O[..], s, centroid)
  {
    cov := ZeroMat;
    var todo, done := s, {};
    while todo != {}
      invariant todo + done == s && todo !! done
      invariant cov == Covariance(O[..], done, centroid)
      decreases |todo|
    {
      var j :| j in todo;
      cov := MAdd(cov, Outer(Sub(O[j], centroid)));
      CovarianceStep(O[..], done, centroid, j);
      todo, done := todo - {j}, done + {j};
    }
  }

  /** The column indices 0 .. n-1. */
  function Indices(n: nat): (r: set<nat>)
    ensures forall i: nat :: i in r <==> i < n
  {
    if n == 0 then {} else Indices(n - 1) + {n - 1}
  }

  /** Lines 74-109 for one vertex: reads the frozen buffers O and N only. */
  method RelaxVertex(O: array<Vec3>, N: array<Vec3>, adj: seq<set<nat>>, st: Settings, i: nat)
    returns (p: Vec3, n: Vec3)
    requires Fits(Buffers(O[..], N[..]), adj) && i < O.Length
    ensures Column(p, n) == NewColumn(Buffers(O[..], N[..]), adj, st, i)
  {
    var withNormals := N.Length > 0;
    var isCrease := i in st.crease;
    if |adj[i]| > 0 && !isCrease {
      var centroid, avgNormal := SumNeighbours(O, N, adj[i]);
      if withNormals {
        avgNormal := Add(avgNormal, N[i]);
      }
      centroid := Div(centroid, |adj[i]| as real);
      var cov := CovarianceAbout(O, adj[i], centroid);
      n := OrientedNormal(st.num, cov, avgNormal);
      p := Reproject(centroid, n, st.scale, st.bvh);
    } else {
      p := O[i];
      n := if withNormals then N[i] else Zero;
    }
  }

  /**
   * One pass (lines 64-112): a fresh O' and N' of the shapes of O and N, each
   * column written once from the frozen O and N, the vertices taken in any order.
   */
  method RelaxPass(O: array<Vec3>, N: array<Vec3>, adj: seq<set<nat>>, st: Settings)
    returns (O': array<Vec3>, N': array<Vec3>)
    requires Fits(Buffers(O[..], N[..]), adj)
    ensures fresh(O') && fresh(N')
    ensures Buffers(O'[..], N'[..]) == Pass(Buffers(O[..], N[..]), adj, st)
  {
    ghost var b := Buffers(O[..], N[..]);
    ghost var next := Pass(b, adj, st);
    var withNormals := N.Length > 0;
    O' := new Vec3[O.Length];
    N' := new Vec3[N.Length];
    var todo: set<nat> := Indices(O.Length);
    while todo != {}
      invariant O[..] == b.O && N[..] == b.N
      invariant forall i :: i in todo ==> i < O.Length
      invariant forall i :: 0 <= i < O.Length && i !in todo ==> O'[i] == next.O[i]
      invariant withNormals ==> forall i :: 0 <= i < N.Length && i !in todo ==> N'[i] == next.N[i]
      decreases |todo|
    {
      var i :| i in todo;
      var p, n := RelaxVertex(O, N, adj, st, i);
      O'[i] := p;
      if withNormals {
        N'[i] := n;
      }
      todo := todo - {i};
    }
    assert O'[..] == next.O;
    assert N'[..] == next.N;
  }

  /** `M_prime.swap(M)`: the fresh buffer's columns become the caller's. */
  method SwapIn(next: array<Vec3>, current: array<Vec3>)
    requires next.Length == current.Length && next != current
    modifies current
    ensures current[..] == next[..]
  {
    forall k | 0 <= k < current.Length {
      current[k] := next[k];
    }
  }

  /**
   * The pass loop of lines 63-116: smoothIterations passes, each computing
   * fresh buffers from O and N and swapping them in.
   */
  method RunPasses(smoothIterations: int, O: array<Vec3>, N: array<Vec3>, adj: seq<set<nat>>, st: Settings)
    requires Fits(Buffers(O[..], N[..]), adj)
    requires O != N
    modifies O, N
    ensures Buffers(O[..], N[..]) == Relax(smoothIterations, Buffers(old(O[..]), old(N[..])), adj, st)
  {
    ghost var b0 := Buffers(O[..], N[..]);
    var it := 0;
    while it < smoothIterations
      invariant 0 <= it && (it <= smoothIterations || it == 0)
      invariant Fits(Buffers(O[..], N[..]), adj)
      invariant Buffers(O[..], N[..]) == Relax(it, b0, adj, st)
    {
      ghost var b := Buffers(O[..], N[..]);
      var O', N' := RelaxPass(O, N, adj, st);
      SwapIn(O', O);
      if N.Length > 0 {
        SwapIn(N', N);
      }
      assert Buffers(O[..], N[..]) == Pass(b, adj, st);
      it := it + 1;
    }
  }

  /**
   * The routine `smoothing`: builds the adjacency from the first nF faces, then
   * runs smoothIterations passes, each swapping the fresh buffers into O and N.
   * An irregular face in pure-quad mode aborts before any pass, leaving O and N
   * as they were.
   */
  method Smoothing(smoothIterations: int, F: FaceMatrix, O: array<Vec3>, N: array<Vec3>,
                   crease: set<nat>, nV: nat, nF: nat, scale: real, bvh: Option<Bvh>,
                   posy: int, pureQuad: bool, num: Numerics)
    returns (r: Outcome)
    requires FacesFit(F, nV, nF, posy)
    requires O.Length == nV
    requires N.Length == 0 || N.Length == O.Length
    requires O != N
    modifies O, N
    ensures r.Failed? <==> pureQuad && HasIrregularFace(F, nF, posy)
    ensures r.Failed? ==> r.msg == ExtractionError && O[..] == old(O[..]) && N[..] == old(N[..])
    ensures r.Completed? ==>
      Buffers(O[..], N[..]) == Relax(smoothIterations, Buffers(old(O[..]), old(N[..])), AdjacencyOf(F, nV, nF, posy), Settings(crease, scale, bvh, num))
    ensures smoothIterations <= 0 ==> O[..] == old(O[..]) && N[..] == old(N[..])
  {
    var built := BuildAdjacency(F, nV, nF, posy, pureQuad);
    if built.Err? {
      return Failed(built.msg);
    }
    RunPasses(smoothIterations, O, N, built.value, Settings(crease, scale, bvh, num));
    return Completed;
  }
}
