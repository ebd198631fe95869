/**
 * The first phase of `smoothing` (lib/src/smoothing.cpp, lines 26-61): the
 * face matrix is turned into one neighbour set per vertex.  The parallel loop
 * over faces and its per-vertex spin locks are modelled as a sequential loop;
 * since the only writes are set insertions, the order does not matter.
 */
module Adjacency {
  import opened Outcomes

  /**
   * An Eigen `MatrixXu` face matrix: one column per face, `rows` corners per
   * column.  `F(j, f)` is `cols[f][j]`.
   */
  datatype FaceMatrix = FaceMatrix(rows: nat, cols: seq<seq<nat>>)

  /**
   * What the routine demands of its caller: the matrix has `nF` columns of
   * `rows` corners each, every corner indexes one of the `nV` neighbour sets,
   * and a quad run reads rows 2 and 3.
   */
  ghost predicate FacesFit(F: FaceMatrix, nV: nat, nF: nat, posy: int) {
    && Shaped(F, nF, posy)
    && (forall f, j :: 0 <= f < nF && 0 <= j < F.rows ==> F.cols[f][j] < nV)
  }

  ghost predicate Shaped(F: FaceMatrix, nF: nat, posy: int) {
    && nF <= |F.cols|
    && (forall f :: 0 <= f < |F.cols| ==> |F.cols[f]| == F.rows)
    && (nF > 0 && posy == 4 ==> F.rows >= 4)
  }

  /** A quad whose last two corners coincide: a triangle stored in quad width. */
  predicate IsIrregular(face: seq<nat>, posy: int)
    requires posy == 4 ==> |face| >= 4
  {
    posy == 4 && face[2] == face[3]
  }

  ghost predicate HasIrregularFace(F: FaceMatrix, nF: nat, posy: int)
    requires Shaped(F, nF, posy)
  {
    exists f :: 0 <= f < nF && IsIrregular(F.cols[f], posy)
  }

  /** The candidate edge a-b joins v and u, in either direction. */
  predicate Joins(a: nat, b: nat, v: nat, u: nat) {
    (v == a && u == b) || (v == b && u == a)
  }

  /**
   * Face `face` offers the edge v-u: an irregular quad offers only its corners
   * 0-1; any other face offers each corner with its cyclic successor.  (Whether
   * the edge is kept, that is whether v != u, is decided by the caller.)
   */
  ghost predicate Offers(face: seq<nat>, posy: int, v: nat, u: nat)
    requires posy == 4 ==> |face| >= 4
  {
    if IsIrregular(face, posy) then Joins(face[0], face[1], v, u)
    else exists j :: 0 <= j < |face| && RingEdge(face, j, v, u)
  }

  /** Corner j of the face and its cyclic successor join v and u. */
  predicate RingEdge(face: seq<nat>, j: nat, v: nat, u: nat)
    requires j < |face|
  {
    Joins(face[j], face[(j + 1) % |face|], v, u)
  }

  /** v and u are distinct and one of the first `k` faces offers the edge v-u. */
  ghost predicate LinkedBy(F: FaceMatrix, k: nat, posy: int, v: nat, u: nat)
    requires Shaped(F, k, posy)
  {
    v != u && exists f :: 0 <= f < k && Offers(F.cols[f], posy, v, u)
  }

  /** The neighbour sets the first phase is meant to build: `adj_new`. */
  ghost function AdjacencyOf(F: FaceMatrix, nV: nat, nF: nat, posy: int): seq<set<nat>>
    requires FacesFit(F, nV, nF, posy)
  {
    seq(nV, v requires 0 <= v => Neighbours(F, nF, nV, posy, v))
  }

  ghost function Neighbours(F: FaceMatrix, nF: nat, nV: nat, posy: int, v: nat): set<nat>
    requires FacesFit(F, nV, nF, posy)
  {
    set u: nat | u < nV && LinkedBy(F, nF, posy, v, u)
  }

  /** No vertex is its own neighbour. */
  ghost predicate LoopFree(adj: seq<set<nat>>) {
    forall v :: 0 <= v < |adj| ==> v !in adj[v]
  }

  /** Every neighbour is a vertex, and u is a neighbour of v exactly when v is one of u. */
  ghost predicate Symmetric(adj: seq<set<nat>>) {
    forall v, u :: 0 <= v < |adj| && u in adj[v] ==> u < |adj| && v in adj[u]
  }

  /** Face f adds exactly the edges it offers to those of the faces before it. */
  lemma LinkedByStep(F: FaceMatrix, f: nat, posy: int, v: nat, u: nat)
    requires Shaped(F, f + 1, posy)
    ensures LinkedBy(F, f + 1, posy, v, u) <==>
            LinkedBy(F, f, posy, v, u) || (v != u && Offers(F.cols[f], posy, v, u))
  {
  }

  /** The adjacency holds no self-edge. */
  lemma AdjacencyLoopFree(F: FaceMatrix, nV: nat, nF: nat, posy: int)
    requires FacesFit(F, nV, nF, posy)
    ensures LoopFree(AdjacencyOf(F, nV, nF, posy))
  {
  }

  /** Every edge is recorded at both of its ends. */
  lemma AdjacencySymmetric(F: FaceMatrix, nV: nat, nF: nat, posy: int)
    requires FacesFit(F, nV, nF, posy)
    ensures Symmetric(AdjacencyOf(F, nV, nF, posy))
  {
    var adj := AdjacencyOf(F, nV, nF, posy);
    forall v, u | 0 <= v < nV && u in adj[v]
      ensures u < nV && v in adj[u]
    {
      var f :| 0 <= f < nF && Offers(F.cols[f], posy, v, u);
      if !IsIrregular(F.cols[f], posy) {
        var j :| 0 <= j < |F.cols[f]| && RingEdge(F.cols[f], j, v, u);
        assert RingEdge(F.cols[f], j, u, v);
      }
      assert Offers(F.cols[f], posy, u, v);
    }
  }

  /** A regular face links each corner with its cyclic successor, last to first included, unless they coincide. */
  lemma RegularFaceEdge(F: FaceMatrix, nV: nat, nF: nat, posy: int, f: nat, j: nat)
    requires FacesFit(F, nV, nF, posy)
    requires f < nF && j < F.rows && !IsIrregular(F.cols[f], posy)
    requires F.cols[f][j] != F.cols[f][(j + 1) % F.rows]
    ensures var a, b := F.cols[f][j], F.cols[f][(j + 1) % F.rows];
      b in AdjacencyOf(F, nV, nF, posy)[a] && a in AdjacencyOf(F, nV, nF, posy)[b]
  {
    var face := F.cols[f];
    var a, b := face[j], face[(j + 1) % F.rows];
    assert RingEdge(face, j, a, b) && RingEdge(face, j, b, a);
    assert LinkedBy(F, nF, posy, a, b) && LinkedBy(F, nF, posy, b, a);
  }

  /** An irregular quad (outside pure-quad mode) links its corners 0 and 1, unless they coincide. */
  lemma IrregularFaceEdge(F: FaceMatrix, nV: nat, nF: nat, posy: int, f: nat)
    requires FacesFit(F, nV, nF, posy)
    requires f < nF && IsIrregular(F.cols[f], posy)
    requires F.cols[f][0] != F.cols[f][1]
    ensures var a, b := F.cols[f][0], F.cols[f][1];
      b in AdjacencyOf(F, nV, nF, posy)[a] && a in AdjacencyOf(F, nV, nF, posy)[b]
  {
  }

  /** A single quad 0-1-2-3 yields the 4-cycle. */
  lemma QuadExample()
    ensures AdjacencyOf(FaceMatrix(4, [[0, 1, 2, 3]]), 4, 1, 4) == [{1, 3}, {0, 2}, {1, 3}, {0, 2}]
  {
    var F := FaceMatrix(4, [[0, 1, 2, 3]]);
    var face := F.cols[0];
    var adj := AdjacencyOf(F, 4, 1, 4);
    var expected := [{1, 3}, {0, 2}, {1, 3}, {0, 2}];
    forall v: nat | v < 4
      ensures adj[v] == expected[v]
    {
      forall u: nat
        ensures u in adj[v] <==> u in expected[v]
      {
        assert Offers(face, 4, v, u) <==> RingEdge(face, 0, v, u) || RingEdge(face, 1, v, u) || RingEdge(face, 2, v, u) || RingEdge(face, 3, v, u);
      }
    }
  }

  /**
   * The quad column 0-1-2-2 is irregular: it contributes only the edge 0-1,
   * so vertex 2 gets no neighbour at all.
   */
  lemma IrregularQuadExample()
    ensures AdjacencyOf(FaceMatrix(4, [[0, 1, 2, 2]]), 3, 1, 4) == [{1}, {0}, {}]
  {
    var F := FaceMatrix(4, [[0, 1, 2, 2]]);
    var adj := AdjacencyOf(F, 3, 1, 4);
    var expected := [{1}, {0}, {}];
    forall v: nat | v < 3
      ensures adj[v] == expected[v]
    {
      forall u: nat
        ensures u in adj[v] <==> u in expected[v]
      {
      }
    }
  }

  /**
   * The same column 0-1-2-2 in a triangle run (posy 3) is read as a ring of
   * four corners: edges 0-1, 1-2 and 2-0, the self-edge 2-2 skipped.
   */
  lemma TriangleRingExample()
    ensures AdjacencyOf(FaceMatrix(4, [[0, 1, 2, 2]]), 3, 1, 3) == [{1, 2}, {0, 2}, {0, 1}]
  {
    var F := FaceMatrix(4, [[0, 1, 2, 2]]);
    var face := F.cols[0];
    var adj := AdjacencyOf(F, 3, 1, 3);
    var expected := [{1, 2}, {0, 2}, {0, 1}];
    forall v: nat | v < 3
      ensures adj[v] == expected[v]
    {
      forall u: nat
        ensures u in adj[v] <==> u in expected[v]
      {
        assert Offers(face, 3, v, u) <==> RingEdge(face, 0, v, u) || RingEdge(face, 1, v, u) || RingEdge(face, 2, v, u) || RingEdge(face, 3, v, u);
      }
    }
  }

  /**
   * One candidate edge (lines 36-44 and 48-56): the endpoints are ordered
   * larger first (the lock order), a self-edge is skipped, and otherwise each
   * endpoint is inserted into the other's set.
   */
  method Link(adj: array<set<nat>>, a: nat, b: nat)
    requires a < adj.Length && b < adj.Length
    modifies adj
    ensures forall v, u :: 0 <= v < adj.Length ==>
      (u in adj[v] <==> u in old(adj[v]) || (v != u && Joins(a, b, v, u)))
  {
    var i0, i1 := a, b;
    if i0 < i1 {
      i0, i1 := i1, i0;
    }
    if i0 == i1 {
      return;
    }
    adj[i0] := adj[i0] + {i1};
    adj[i1] := adj[i1] + {i0};
  }

  /**
   * The face loop of `smoothing`: fills `adj_new` from the first nF faces, or
   * throws when an irregular face appears in pure-quad mode.
   */
  method BuildAdjacency(F: FaceMatrix, nV: nat, nF: nat, posy: int, pureQuad: bool)
    returns (r: Result<seq<set<nat>>>)
    requires FacesFit(F, nV, nF, posy)
    ensures r.Err? <==> pureQuad && HasIrregularFace(F, nF, posy)
    ensures r.Err? ==> r.msg == ExtractionError
    ensures r.Ok? ==> r.value == AdjacencyOf(F, nV, nF, posy)
    ensures r.Ok? ==> LoopFree(r.value) && Symmetric(r.value)
  {
    var adj := new set<nat>[nV](_ => {});
    var f := 0;
    while f < nF
      invariant f <= nF
      invariant pureQuad ==> forall g :: 0 <= g < f ==> !IsIrregular(F.cols[g], posy)
      invariant forall v, u :: 0 <= v < nV ==> (u in adj[v] <==> LinkedBy(F, f, posy, v, u))
    {
      var face := F.cols[f];
      ghost var before := adj[..];
      if posy == 4 && face[2] == face[3] {
        if pureQuad {
          return Err(ExtractionError);
        }
        Link(adj, face[0], face[1]);
        forall v, u | 0 <= v < nV
          ensures u in adj[v] <==> LinkedBy(F, f + 1, posy, v, u)
        {
          LinkedByStep(F, f, posy, v, u);
        }
      } else {
        var j := 0;
        while j < F.rows
          invariant j <= F.rows
          invariant forall v, u :: 0 <= v < nV ==>
            (u in adj[v] <==> u in before[v] || (v != u && exists k :: 0 <= k < j && RingEdge(face, k, v, u)))
        {
          Link(adj, face[j], face[(j + 1) % F.rows]);
          forall v, u | 0 <= v < nV
            ensures u in adj[v] <==> u in before[v] || (v != u && exists k :: 0 <= k < j + 1 && RingEdge(face, k, v, u))
          {
            if RingEdge(face, j, v, u) && v != u {
              assert u in adj[v];
            }
          }
          j := j + 1;
        }
        forall v, u | 0 <= v < nV
          ensures u in adj[v] <==> LinkedBy(F, f + 1, posy, v, u)
        {
          LinkedByStep(F, f, posy, v, u);
        }
      }
      f := f + 1;
    }
    forall v | 0 <= v < nV
      ensures adj[v] == AdjacencyOf(F, nV, nF, posy)[v]
    {
    }
    r := Ok(adj[..]);
    AdjacencyLoopFree(F, nV, nF, posy);
    AdjacencySymmetric(F, nV, nF, posy);
  }
}
