# Smoothing and reprojection of an extracted mesh

A Dafny model of `smoothing` from Instant Field-Aligned Meshes
(lib/src/smoothing.cpp). This is the last regularisation stage of the remeshing
pipeline. It runs in two phases:

1. **Adjacency build.** The face matrix `F` (one column per face, `F.rows()`
   corners each) becomes one neighbour set per vertex (`adj_new`).
   - A regular face links each corner to its cyclic successor.
   - In a quad run (`posy == 4`), a face with `F(2,f) == F(3,f)` is an
     irregular quad. It links only corners 0 and 1.
   - If `pure_quad` is set, an irregular quad instead throws
     "Internal error in extraction".
   - Self-edges are skipped, and every edge is stored at both ends.
2. **Relaxation.** There are `smooth_iterations` double-buffered passes. Each
   pass writes fresh buffers `O'` and `N'` from the frozen `O` and `N`, then
   swaps them in.
   - A crease vertex, or a vertex without neighbours, is copied through.
   - Every other vertex moves to the centroid of its neighbours, possibly
     snapped onto the reference surface by two capped ray casts.
   - Its oriented plane-fit normal is written only when normals are tracked,
     that is when `N` is not empty.

Files and modules:

- `outcomes.dfy` (`Outcomes`): `Option`, `Result`, `Outcome` and the
  exception message.
- `vectors.dfy` (`Vectors`): real 3-vectors and 3×3 matrices, and `SumCols`,
  the sum of a buffer's columns over a set of indices. `SumCols` is defined
  by an arbitrary choice of element, and `SumColsPeel` proves that any element
  may be taken first.
- `adjacency.dfy` (`Adjacency`): the face matrix and a declarative neighbour
  relation (`Offers`, `LinkedBy`, `AdjacencyOf`). `BuildAdjacency` fills an
  `array<set<nat>>` face by face and corner by corner, and is proved equal to
  that relation.
- `reprojection.dfy` (`Reprojection`): rays, the BVH as a capability, the
  decision `ChooseHit` and the snapped position `Reproject`.
- `smoothing.dfy` (`Smoothing`): the specification of one vertex's new
  column (`NewColumn`), of one pass (`Pass`) and of k passes (`Relax`). It also
  holds the imperative code on arrays:
  - `SumNeighbours` and `CovarianceAbout` (the neighbour loops);
  - `RelaxVertex` and `RelaxPass` (vertices taken in an arbitrary order, each
    written to a fresh buffer);
  - `RunPasses` and `Smoothing`, which copy each pass's buffers back into
    the caller's `O` and `N`.

The parallel loops are modelled as sequential loops that take faces in order
and vertices and neighbours in an arbitrary order. Two proofs show that order
does not matter:

- `RelaxPass` meets its specification whatever order it picks.
- `NewColumnLocal` shows that a vertex's new column reads only the previous
  buffers, at the vertex and at its neighbours.

Three points of the code's behaviour are easy to misread, and the model follows the code on each:

- On an exact tie `t1 == t2`, line 99 takes `ray2`, the −n ray. One might
  expect the +n ray to win a tie; the code gives it to −n.
- The swaps at lines 37-38 and 49-50 order each pair with the larger index
  first, not the smaller. Locks are not modelled; the swap is kept, and it has
  no effect on the result.
- An irregular quad links exactly its corners 0 and 1 (line 36). It does not
  link the third corner `F(2,f)`.

## Model

| member | source | states |
|---|---|---|
| Adjacency.BuildAdjacency | lib/src/smoothing.cpp:26-61 | It fails with "Internal error in extraction" exactly when `pure_quad` holds and one of the first nF faces is an irregular quad. Otherwise it returns, for every vertex, exactly the vertices linked to it by an edge some face offers. The result is loop-free and symmetric. |
| Adjacency.Link | lib/src/smoothing.cpp:48-56 | One candidate edge a-b: afterwards u is in v's set exactly when it was before, or when v and u are distinct and are the two ends of a-b. A self-edge changes nothing (lines 51-52). The same code handles the irregular quad at lines 36-44. |
| Adjacency.AdjacencyLoopFree | lib/src/smoothing.cpp:39-40 | No vertex is its own neighbour, because an edge with `i0 == i1` is skipped (also lines 51-52). |
| Adjacency.AdjacencySymmetric | lib/src/smoothing.cpp:43-44 | u is a neighbour of v exactly when v is a neighbour of u, and every neighbour is a vertex index below nV (also lines 55-56). |
| Adjacency.RegularFaceEdge | lib/src/smoothing.cpp:46-57 | In a regular face, every corner and its cyclic successor, last to first included, are neighbours of each other when they differ. |
| Adjacency.IrregularFaceEdge | lib/src/smoothing.cpp:32-44 | Outside pure-quad mode, an irregular quad makes its corners 0 and 1 neighbours of each other when they differ. |
| Adjacency.QuadExample | lib/src/smoothing.cpp:47-56 | The single quad 0-1-2-3 gives the 4-cycle: {1,3}, {0,2}, {1,3}, {0,2}. |
| Adjacency.IrregularQuadExample | lib/src/smoothing.cpp:32-44 | The irregular quad column 0-1-2-2 contributes only the edge 0-1. Vertex 2 is left with no neighbours. |
| Adjacency.TriangleRingExample | lib/src/smoothing.cpp:46-57 | With `posy == 3`, the same column 0-1-2-2 is read as a ring. It gives the triangle 0-1-2, and the self-edge 2-2 is skipped. |
| Reprojection.ChooseHit | lib/src/smoothing.cpp:98-99 | It snaps along +n exactly when `t1 < t2` and `t1 < scale*0.5`. It snaps along −n exactly when `t2 <= t1` and `t2 < scale*0.5`, so a tie goes to −n. It keeps the centroid exactly when both distances are at least `scale*0.5`. |
| Reprojection.Min | lib/src/smoothing.cpp:98 | `std::min` of the two hit distances: the result is at most either argument and equals one of them. |
| Reprojection.Reproject | lib/src/smoothing.cpp:91-100 | Without a BVH, or with a BVH holding no faces, the centroid is kept. Otherwise the result is the centroid, `centroid + t1*n` or `centroid - t2*n`, following the rule above. |
| Reprojection.ReprojectStaysNear | lib/src/smoothing.cpp:92-99 | If the BVH reports no negative distance, the new position is the centroid or a point on the normal line less than scale/2 from it. |
| Vectors.SumColsPeel | lib/src/smoothing.cpp:77-81 | A sum over a neighbour set does not depend on the order in which the set is visited: any element may be taken first. |
| Smoothing.SumNeighbours | lib/src/smoothing.cpp:77-81 | The neighbour loop returns the sum of the neighbours' old positions, and also of their old normals when normals are tracked (zero otherwise). This holds whatever order it takes. |
| Smoothing.CovarianceAbout | lib/src/smoothing.cpp:85-87 | The covariance loop returns the sum of the outer products (O[j] − c)(O[j] − c)ᵀ over the neighbours, whatever order it takes. |
| Smoothing.RelaxVertex | lib/src/smoothing.cpp:74-109 | The new position and normal of vertex i are the column `NewColumn` gives for the frozen buffers. |
| Smoothing.RelaxPass | lib/src/smoothing.cpp:64-112 | It returns fresh buffers of the shapes of O and N. Whatever order the vertices are processed in, they are exactly one pass (`Pass`) applied to the frozen O and N. |
| Smoothing.SwapIn | lib/src/smoothing.cpp:113-115 | The swap of a fresh buffer into the caller's: afterwards the caller's buffer holds exactly the fresh buffer's columns. Only the caller's buffer may change, so the fresh buffer is left as it was. |
| Smoothing.RunPasses | lib/src/smoothing.cpp:63-116 | After the loop, O and N are `Relax` of their old values: each pass computes fresh buffers from the current ones and swaps them in. |
| Smoothing.Pass | lib/src/smoothing.cpp:101-109 | A pass keeps the widths of O and N, so an empty N stays empty. The buffers still fit the adjacency. |
| Smoothing.Relax | lib/src/smoothing.cpp:63-65 | After any number of passes, O and N keep their widths, so an empty N stays empty. A negative count means no pass. |
| Smoothing.KeptVertexUnchanged | lib/src/smoothing.cpp:74-75 | A crease vertex, or one without neighbours, keeps its O column after any number of passes. It also keeps its N column when normals are tracked (the copy-through is at lines 105-109). |
| Smoothing.NewColumnLocal | lib/src/smoothing.cpp:76-87 | A vertex's new column depends only on the previous buffers' columns at the vertex and at its neighbours, never on columns written in the current pass. |
| Smoothing.CoincidentNeighbours | lib/src/smoothing.cpp:76-84 | Without reprojection, a relaxed vertex whose neighbours all sit at p moves to p. |
| Smoothing.RelaxedToMean | lib/src/smoothing.cpp:76-84 | Without reprojection, a relaxed vertex has at least one neighbour, and its new position is the sum of its neighbours' old positions divided by their number. |
| Smoothing.TwoNeighbours | lib/src/smoothing.cpp:76-84 | Without reprojection, a relaxed vertex with exactly two neighbours moves to the midpoint of their old positions. |
| Smoothing.Smoothing | lib/src/smoothing.cpp:18-116 | An irregular face in pure-quad mode makes the call fail with "Internal error in extraction", before any pass and with O and N untouched. Otherwise O and N end as `Relax` of their old values over `AdjacencyOf(F)`. Zero or fewer iterations leave O and N unchanged. |

## Left out

- Parallelism: the TBB `parallel_for` loops, the per-vertex `spin_mutex` locks and their lock order are left out (lines 27-61 and 69-112). Both phases are modelled sequentially. Set insertion commutes, and each vertex writes its own slot of the fresh buffer.
- The exception's timing under parallelism: when one worker throws, the others may already have inserted edges. `adj_new` is local and is discarded, so the model simply returns the error.
- Progress output: the `cout` dots at lines 66-67.
- Floating point: `Float` is modelled by `real`, so rounding, NaN and infinities are not captured. In floating point, a sum's value depends on the order the neighbour set is visited (ascending, for a `std::set`). In the model, any order gives the same sum.
- The plane fit: `jacobiSvd(...).matrixU().col(2).normalized()` is a parameter (`Numerics.planeNormal`) applied to the exactly computed covariance matrix.
- `signum`: it is defined in a header that is not part of this model, so it is a parameter (`Numerics.signum`). When normals are untracked, `avgNormal` is zero and the orientation depends on `signum(0)`.
- The BVH: its ray intersection is a parameter (`Bvh.hitDistance`), giving the value `rayIntersect` leaves in `t`. Whether `t` is overwritten on a miss cannot be seen, so no contract is assumed about it. The hit index `idx` is ignored, as in the source.
- Hit points: `ray(t)` is taken as `o + t*d`. The `Ray` class lives in bvh.h, which is not part of this model.
- Integer widths: vertex and face indices are `nat`, so `uint32_t` wrap-around and the `(uint32_t)O.cols()` cast are not modelled. Out-of-range indices are excluded by preconditions: every corner of the first nF faces must be below nV, nV must equal the number of columns of O, N must be empty or as wide as O, and in a quad run (`posy == 4`) with at least one face the matrix must have at least 4 rows, so that lines 32 and 36 read inside the column.
- Aliasing: `Smoothing` requires that O and N are distinct arrays, because the routine treats them as two separate matrices.
- Matrix rows: O and N are modelled as arrays of 3-vectors, so their row count is fixed at 3.
- Default arguments: the defaults of lib/include/smoothing.h (`scale = 1.0`, no BVH, `posy = 4`, `pure_quad = true`) are not modelled; callers pass every argument.
- Other files: the pipeline driver src/batch.cpp and the prototype resources/im.py are not part of this model.
