/**
 * vec_to_tri of gpflow/misc.py: each length-M vector of a batch is scattered
 * into the lower triangle of an N x N matrix, at the positions
 * np.tril_indices(N) lists in row-major order, with zeros elsewhere.
 *
 * tf.scatter_nd and tf.map_fn are modelled over integer sequences; the
 * element type of the tensors does not matter to where entries land.
 */
module Triangular {
  import opened Wrappers

  type Index = (nat, nat)
  type Matrix = seq<seq<int>>

  /** The number of positions in the lower triangle (with diagonal) of an n x n matrix. */
  function TriangleNumber(n: nat): nat
  {
    if n == 0 then 0 else TriangleNumber(n - 1) + n
  }

  lemma {:induction false} TriangleNumberClosedForm(n: nat)
    ensures 2 * TriangleNumber(n) == n * (n + 1)
  {
    if n > 0 { TriangleNumberClosedForm(n - 1); }
  }

  /** Where position (i, j) of the lower triangle sits in row-major order: i(i+1)/2 + j. */
  function TriIndex(i: nat, j: nat): nat
  {
    TriangleNumber(i) + j
  }

  lemma TriIndexClosedForm(i: nat, j: nat)
    ensures TriIndex(i, j) == i * (i + 1) / 2 + j
  {
    TriangleNumberClosedForm(i);
  }

  /** The positions (i, 0), ..., (i, i) of row i of the lower triangle. */
  function RowIndices(i: nat): seq<Index>
  {
    seq(i + 1, j requires 0 <= j <= i => (i, j))
  }

  /** list(zip(*np.tril_indices(n))): the lower-triangle positions, row by row. */
  function TrilIndices(n: nat): (r: seq<Index>)
    ensures |r| == TriangleNumber(n)
  {
    if n == 0 then [] else TrilIndices(n - 1) + RowIndices(n - 1)
  }

  /** Position (i, j) of the lower triangle is listed at index i(i+1)/2 + j. */
  lemma {:induction false} TrilIndicesAt(n: nat, i: nat, j: nat)
    requires j <= i < n
    ensures TriIndex(i, j) < TriangleNumber(n)
    ensures TrilIndices(n)[TriIndex(i, j)] == (i, j)
  {
    if i < n - 1 {
      TrilIndicesAt(n - 1, i, j);
    }
  }

  /** Every listed position lies in the lower triangle, at index i(i+1)/2 + j. */
  lemma {:induction false} TrilIndicesInverse(n: nat, k: nat)
    requires k < TriangleNumber(n)
    ensures TrilIndices(n)[k].1 <= TrilIndices(n)[k].0 < n
    ensures k == TriIndex(TrilIndices(n)[k].0, TrilIndices(n)[k].1)
  {
    if k < TriangleNumber(n - 1) {
      TrilIndicesInverse(n - 1, k);
    } else {
      assert TrilIndices(n)[k] == RowIndices(n - 1)[k - TriangleNumber(n - 1)];
    }
  }

  predicate Distinct(indices: seq<Index>)
  {
    forall k1, k2 :: 0 <= k1 < k2 < |indices| ==> indices[k1] != indices[k2]
  }

  /** No position is listed twice. */
  lemma TrilIndicesDistinct(n: nat)
    ensures Distinct(TrilIndices(n))
  {
    forall k1, k2 | 0 <= k1 < k2 < |TrilIndices(n)|
      ensures TrilIndices(n)[k1] != TrilIndices(n)[k2]
    {
      TrilIndicesInverse(n, k1);
      TrilIndicesInverse(n, k2);
    }
  }

  /**
   * The index tensor tf.constant builds from a list of pairs: a K x 2 tensor,
   * except that the empty list gives a rank-1 tensor of shape (0,), whose
   * index depth is 0.
   */
  datatype IndexTensor = Pairs(rows: seq<Index>) | EmptyRank1

  function IndexConstant(pairs: seq<Index>): IndexTensor
  {
    if |pairs| == 0 then EmptyRank1 else Pairs(pairs)
  }

  /** The index tensor vec_to_tri builds once from np.tril_indices(n). */
  function TrilIndexTensor(n: nat): IndexTensor
  {
    IndexConstant(TrilIndices(n))
  }

  /** Only n = 0 gives the rank-1 index tensor. */
  lemma TrilIndexTensorShape(n: nat)
    ensures TrilIndexTensor(n) == if n == 0 then EmptyRank1 else Pairs(TrilIndices(n))
  {
  }

  /** The errors tf.scatter_nd raises. */
  datatype ScatterError =
    | UpdatesRankMismatch   // index depth 0 wants updates of shape [n, n], not a vector
    | UpdatesShapeMismatch(indexCount: nat, updateCount: nat)
    | IndexOutOfBounds

  /** The sum of the updates scattered to position (r, c): scatter_nd adds duplicates. */
  function SumAt(indices: seq<Index>, updates: seq<int>, r: nat, c: nat): int
    requires |indices| == |updates|
  {
    if |indices| == 0 then 0
    else (if indices[0] == (r, c) then updates[0] else 0) + SumAt(indices[1..], updates[1..], r, c)
  }

  predicate InBounds(indices: seq<Index>, n: nat)
  {
    forall k :: 0 <= k < |indices| ==> indices[k].0 < n && indices[k].1 < n
  }

  predicate IsSquare(m: Matrix, n: nat)
  {
    |m| == n && forall i :: 0 <= i < n ==> |m[i]| == n
  }

  /**
   * The shape check of tf.scatter_nd for a vector of updateCount updates:
   * the updates must have the shape of the indices without their last
   * dimension, followed by the shape after the index depth.
   */
  function ScatterShapeError(indices: IndexTensor, updateCount: nat): Option<ScatterError>
  {
    match indices
    case EmptyRank1 => Some(UpdatesRankMismatch)
    case Pairs(rows) =>
      if updateCount != |rows| then Some(UpdatesShapeMismatch(|rows|, updateCount)) else None
  }

  /**
   * tf.scatter_nd(indices, updates, shape=[n, n]): a zero matrix to which
   * each update is added at its position.
   */
  function ScatterNd(indices: IndexTensor, updates: seq<int>, n: nat): Result<Matrix, ScatterError>
  {
    match ScatterShapeError(indices, |updates|)
    case Some(e) => Err(e)
    case None =>
      var rows := indices.rows;
      if !InBounds(rows, n) then Err(IndexOutOfBounds)
      else Ok(seq(n, r requires 0 <= r < n => seq(n, c requires 0 <= c < n => SumAt(rows, updates, r, c))))
  }

  /** At a position listed once, the scatter holds exactly that update. */
  lemma {:induction false} SumAtListed(indices: seq<Index>, updates: seq<int>, k: nat)
    requires |indices| == |updates| && Distinct(indices) && k < |indices|
    ensures SumAt(indices, updates, indices[k].0, indices[k].1) == updates[k]
  {
    var p := indices[k];
    if k == 0 {
      SumAtUnlisted(indices[1..], updates[1..], p.0, p.1);
    } else {
      assert indices[0] != p;
      assert indices[1..][k - 1] == p;
      SumAtListed(indices[1..], updates[1..], k - 1);
    }
  }

  /** At a position never listed, the scatter holds zero. */
  lemma {:induction false} SumAtUnlisted(indices: seq<Index>, updates: seq<int>, r: nat, c: nat)
    requires |indices| == |updates|
    requires forall k :: 0 <= k < |indices| ==> indices[k] != (r, c)
    ensures SumAt(indices, updates, r, c) == 0
  {
    if |indices| > 0 {
      assert forall k :: 1 <= k < |indices| ==> indices[1..][k - 1] == indices[k];
      SumAtUnlisted(indices[1..], updates[1..], r, c);
    }
  }

  /** vec_to_tri_vector: scatter one vector over the shared index list. */
  function VecToTriVector(indices: IndexTensor, n: nat, vector: seq<int>): Result<Matrix, ScatterError>
  {
    ScatterNd(indices, vector, n)
  }

  /**
   * tf.map_fn(vec_to_tri_vector, vectors): the matrices in batch order, or
   * the first error raised.
   */
  function MapVecToTri(indices: IndexTensor, n: nat, vectors: seq<seq<int>>): (r: Result<seq<Matrix>, ScatterError>)
    ensures r.Ok? <==> forall d :: 0 <= d < |vectors| ==> VecToTriVector(indices, n, vectors[d]).Ok?
    ensures r.Ok? ==> |r.value| == |vectors| &&
                      forall d :: 0 <= d < |vectors| ==> VecToTriVector(indices, n, vectors[d]) == Ok(r.value[d])
  {
    if |vectors| == 0 then Ok([])
    else
      match VecToTriVector(indices, n, vectors[0])
      case Err(e) => Err(e)
      case Ok(m) =>
        match MapVecToTri(indices, n, vectors[1..])
        case Err(e) =>
          assert forall d :: 1 <= d < |vectors| ==> vectors[1..][d - 1] == vectors[d];
          Err(e)
        case Ok(ms) =>
          assert forall d :: 1 <= d < |vectors| ==> vectors[1..][d - 1] == vectors[d];
          Ok([m] + ms)
  }

  /** True when every vector of the batch has width entries: a D x width tensor. */
  predicate IsBatch(vectors: seq<seq<int>>, width: nat)
  {
    forall d :: 0 <= d < |vectors| ==> |vectors[d]| == width
  }

  /**
   * vec_to_tri on a D x width batch: the index tensor is built once and
   * shared by every vector. tf.map_fn traces vec_to_tri_vector on one
   * vector of the batch's shape, so the shape check of tf.scatter_nd
   * applies even to an empty batch.
   */
  function VecToTri(vectors: seq<seq<int>>, width: nat, n: nat): Result<seq<Matrix>, ScatterError>
    requires IsBatch(vectors, width)
  {
    var indices := TrilIndexTensor(n);
    match ScatterShapeError(indices, width)
    case Some(e) => Err(e)
    case None => MapVecToTri(indices, n, vectors)
  }

  /**
   * Unpacking succeeds exactly when n > 0 and the vector has n(n+1)/2
   * entries; for n = 0 the empty index tensor makes tf.scatter_nd raise.
   */
  lemma VecToTriVectorDefined(n: nat, vector: seq<int>)
    ensures VecToTriVector(TrilIndexTensor(n), n, vector).Ok? <==> n > 0 && |vector| == TriangleNumber(n)
    ensures n == 0 ==> VecToTriVector(TrilIndexTensor(n), n, vector) == Err(UpdatesRankMismatch)
  {
    TrilIndexTensorShape(n);
    forall k | 0 <= k < TriangleNumber(n)
      ensures TrilIndices(n)[k].0 < n && TrilIndices(n)[k].1 < n
    {
      TrilIndicesInverse(n, k);
    }
  }

  /**
   * m is the unpacking of vector: an n x n matrix holding
   * vector[i(i+1)/2 + j] at each (i, j) with j <= i, and zero above the
   * diagonal.
   */
  predicate Unpacks(m: Matrix, n: nat, vector: seq<int>)
  {
    && IsSquare(m, n)
    && (forall i, j :: 0 <= j <= i < n ==>
          TriIndex(i, j) < |vector| && m[i][j] == vector[TriIndex(i, j)])
    && (forall i, j :: 0 <= i < j < n ==> m[i][j] == 0)
  }

  lemma VecToTriVectorEntries(n: nat, vector: seq<int>)
    requires n > 0 && |vector| == TriangleNumber(n)
    ensures VecToTriVector(TrilIndexTensor(n), n, vector).Ok?
    ensures Unpacks(VecToTriVector(TrilIndexTensor(n), n, vector).value, n, vector)
  {
    var indices := TrilIndices(n);
    VecToTriVectorDefined(n, vector);
    TrilIndexTensorShape(n);
    TrilIndicesDistinct(n);
    var m := VecToTriVector(TrilIndexTensor(n), n, vector).value;
    forall i, j | 0 <= j <= i < n
      ensures TriIndex(i, j) < |vector|
    {
      TrilIndicesAt(n, i, j);
    }
    forall i, j | 0 <= j <= i < n
      ensures m[i][j] == vector[TriIndex(i, j)]
    {
      TrilIndicesAt(n, i, j);
      SumAtListed(indices, vector, TriIndex(i, j));
    }
    forall i, j | 0 <= i < j < n
      ensures m[i][j] == 0
    {
      forall k | 0 <= k < |indices|
        ensures indices[k] != (i, j)
      {
        TrilIndicesInverse(n, k);
      }
      SumAtUnlisted(indices, vector, i, j);
    }
    assert Unpacks(m, n, vector);
  }

  predicate IsLowerTriangular(m: Matrix, n: nat)
  {
    IsSquare(m, n) && forall i, j :: 0 <= i < j < n ==> m[i][j] == 0
  }

  /**
   * The lower triangle of m read row by row, left to right: the reference
   * order, written without the index list.
   */
  function ReadLowerTriangle(m: Matrix, rows: nat): (r: seq<int>)
    requires rows <= |m| && forall i :: 0 <= i < rows ==> |m[i]| > i
    ensures |r| == TriangleNumber(rows)
  {
    if rows == 0 then [] else ReadLowerTriangle(m, rows - 1) + m[rows - 1][..rows]
  }

  lemma {:induction false} ReadLowerTriangleAt(m: Matrix, rows: nat, i: nat, j: nat)
    requires rows <= |m| && forall i :: 0 <= i < rows ==> |m[i]| > i
    requires j <= i < rows
    ensures TriIndex(i, j) < TriangleNumber(rows)
    ensures ReadLowerTriangle(m, rows)[TriIndex(i, j)] == m[i][j]
  {
    if i < rows - 1 {
      ReadLowerTriangleAt(m, rows - 1, i, j);
    }
  }

  /** Round trip: reading the lower triangle back gives the original vector. */
  lemma VecToTriVectorRoundTrip(n: nat, vector: seq<int>)
    requires n > 0 && |vector| == TriangleNumber(n)
    ensures VecToTriVector(TrilIndexTensor(n), n, vector).Ok?
    ensures ReadLowerTriangle(VecToTriVector(TrilIndexTensor(n), n, vector).value, n) == vector
  {
    VecToTriVectorEntries(n, vector);
    var m := VecToTriVector(TrilIndexTensor(n), n, vector).value;
    var back := ReadLowerTriangle(m, n);
    forall k | 0 <= k < |vector|
      ensures back[k] == vector[k]
    {
      TrilIndicesInverse(n, k);
      var p := TrilIndices(n)[k];
      ReadLowerTriangleAt(m, n, p.0, p.1);
    }
  }

  /**
   * The converse: a lower-triangular matrix is rebuilt from its lower
   * triangle, so unpacking is a bijection onto lower-triangular matrices.
   */
  lemma LowerTriangularRoundTrip(n: nat, m: Matrix)
    requires n > 0 && IsLowerTriangular(m, n)
    ensures VecToTriVector(TrilIndexTensor(n), n, ReadLowerTriangle(m, n)) == Ok(m)
  {
    var v := ReadLowerTriangle(m, n);
    VecToTriVectorEntries(n, v);
    var r := VecToTriVector(TrilIndexTensor(n), n, v).value;
    forall i | 0 <= i < n
      ensures r[i] == m[i]
    {
      forall j | 0 <= j < n
        ensures r[i][j] == m[i][j]
      {
        if j <= i { ReadLowerTriangleAt(m, n, i, j); }
      }
    }
    assert r == m;
  }

  /**
   * A batch succeeds exactly when n > 0 and its width is n(n+1)/2, whatever
   * the number of vectors; it then holds one n x n matrix per vector, in
   * batch order, each the unpacking of its own vector alone.
   */
  lemma VecToTriBatch(vectors: seq<seq<int>>, width: nat, n: nat)
    requires IsBatch(vectors, width)
    ensures VecToTri(vectors, width, n).Ok? <==> n > 0 && width == TriangleNumber(n)
    ensures n == 0 ==> VecToTri(vectors, width, n) == Err(UpdatesRankMismatch)
    ensures VecToTri(vectors, width, n).Ok? ==>
            |VecToTri(vectors, width, n).value| == |vectors| &&
            forall d :: 0 <= d < |vectors| ==>
              VecToTri(vectors, width, n).value[d] == VecToTriVector(TrilIndexTensor(n), n, vectors[d]).value &&
              IsLowerTriangular(VecToTri(vectors, width, n).value[d], n) &&
              ReadLowerTriangle(VecToTri(vectors, width, n).value[d], n) == vectors[d]
  {
    TrilIndexTensorShape(n);
    forall d | 0 <= d < |vectors|
      ensures VecToTriVector(TrilIndexTensor(n), n, vectors[d]).Ok? <==> n > 0 && |vectors[d]| == TriangleNumber(n)
    {
      VecToTriVectorDefined(n, vectors[d]);
    }
    if VecToTri(vectors, width, n).Ok? {
      forall d | 0 <= d < |vectors|
        ensures IsLowerTriangular(VecToTri(vectors, width, n).value[d], n)
        ensures ReadLowerTriangle(VecToTri(vectors, width, n).value[d], n) == vectors[d]
      {
        VecToTriVectorEntries(n, vectors[d]);
        VecToTriVectorRoundTrip(n, vectors[d]);
      }
    }
  }

  /** N = 3: the vector [1, 2, 3, 4, 5, 6] unpacks to [[1, 0, 0], [2, 3, 0], [4, 5, 6]]. */
  lemma VecToTriExample()
    ensures VecToTri([[1, 2, 3, 4, 5, 6]], 6, 3) == Ok([[[1, 0, 0], [2, 3, 0], [4, 5, 6]]])
  {
    var v: seq<int> := [1, 2, 3, 4, 5, 6];
    var batch: seq<seq<int>> := [v];
    assert TriangleNumber(1) == 1 && TriangleNumber(2) == 3 && TriangleNumber(3) == 6;
    VecToTriVectorEntries(3, v);
    var m := VecToTriVector(TrilIndexTensor(3), 3, v).value;
    assert m[0] == [1, 0, 0];
    assert m[1] == [2, 3, 0];
    assert m[2] == [4, 5, 6];
    assert m == [[1, 0, 0], [2, 3, 0], [4, 5, 6]];
    VecToTriBatch(batch, 6, 3);
    assert VecToTri(batch, 6, 3).Ok?;
    assert VecToTri(batch, 6, 3).value == [m];
  }
}
