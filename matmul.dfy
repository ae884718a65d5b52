// The HLS matrix-multiplication kernel: C = A x B for 4 x 4 row-major
// matrices of `uint32_t`, one row of A and one column of B at a time
// copied into local buffers, with a fresh accumulator per output element.
module Matmul {
  import opened Uint32

  /** `DATA_SIZE`: the matrices are D x D. */
  const D: nat := 4

  /** Entry (i, j) of a row-major D x D matrix. */
  function Entry(m: seq<U32>, i: nat, j: nat): U32
    requires |m| >= D * D && i < D && j < D
  {
    m[i * D + j]
  }

  /** The first k terms of row i of A times column j of B, without wrapping. */
  function Dot(a: seq<U32>, b: seq<U32>, i: nat, j: nat, k: nat): int
    requires |a| >= D * D && |b| >= D * D && i < D && j < D && k <= D
  {
    if k == 0 then 0 else Dot(a, b, i, j, k - 1) + Entry(a, i, k - 1) * Entry(b, k - 1, j)
  }

  /** Entry (i, j) of the product, modulo 2^32. */
  function Product(a: seq<U32>, b: seq<U32>, i: nat, j: nat): U32
    requires |a| >= D * D && |b| >= D * D && i < D && j < D
  {
    Wrap(Dot(a, b, i, j, D))
  }

  /** One step of the wrapping accumulator adds the next term of the dot product. */
  lemma AccumulateStep(a: seq<U32>, b: seq<U32>, i: nat, j: nat, k: nat)
    requires |a| >= D * D && |b| >= D * D && i < D && j < D && k < D
    ensures Wrap(Wrap(Dot(a, b, i, j, k)) + Wrap(Entry(a, i, k) * Entry(b, k, j))) == Wrap(Dot(a, b, i, j, k + 1))
  {
    WrapAdd(Dot(a, b, i, j, k), Entry(a, i, k) * Entry(b, k, j));
  }

  /** The A_row burst: row i of A into the local buffer. */
  method LoadRow(a: array<U32>, aRow: array<U32>, i: nat)
    requires a.Length >= D * D && aRow.Length == D && i < D && aRow != a
    modifies aRow
    ensures forall t :: 0 <= t < D ==> aRow[t] == Entry(a[..], i, t)
  {
    var ii := 0;
    while ii < D
      invariant 0 <= ii <= D
      invariant forall t :: 0 <= t < ii ==> aRow[t] == Entry(a[..], i, t)
    {
      aRow[ii] := a[ii + i * D];
      ii := ii + 1;
    }
  }

  /** The strided B_col load: column j of B into the local buffer. */
  method LoadColumn(b: array<U32>, bCol: array<U32>, j: nat)
    requires b.Length >= D * D && bCol.Length == D && j < D && bCol != b
    modifies bCol
    ensures forall t :: 0 <= t < D ==> bCol[t] == Entry(b[..], t, j)
  {
    var ii := 0;
    while ii < D
      invariant 0 <= ii <= D
      invariant forall t :: 0 <= t < ii ==> bCol[t] == Entry(b[..], t, j)
    {
      bCol[ii] := b[j + ii * D];
      ii := ii + 1;
    }
  }

  /** The accumulation loop: `outsum` starts at zero and ends at the wrapped product entry. */
  method RowTimesColumn(aRow: array<U32>, bCol: array<U32>, ghost a: seq<U32>, ghost b: seq<U32>, i: nat, j: nat) returns (outsum: U32)
    requires |a| >= D * D && |b| >= D * D && i < D && j < D
    requires aRow.Length == D && bCol.Length == D
    requires forall t :: 0 <= t < D ==> aRow[t] == Entry(a, i, t) && bCol[t] == Entry(b, t, j)
    ensures outsum == Product(a, b, i, j)
  {
    outsum := 0;
    var k := 0;
    while k < D
      invariant 0 <= k <= D
      invariant outsum == Wrap(Dot(a, b, i, j, k))
    {
      AccumulateStep(a, b, i, j, k);
      outsum := Wrap(outsum as int + Wrap(aRow[k] as int * bCol[k] as int));
      k := k + 1;
    }
  }

  /**
   * `krnl_matmul`: every entry of C in the first D*D words becomes the
   * wrapped product entry; the stores go to those words once each, in
   * row-major order, and nothing beyond them changes.
   */
  method KrnlMatmul(a: array<U32>, b: array<U32>, c: array<U32>) returns (ghost stores: seq<nat>)
    requires a.Length >= D * D && b.Length >= D * D && c.Length >= D * D
    requires c != a && c != b
    modifies c
    ensures forall i, j :: 0 <= i < D && 0 <= j < D ==> c[i * D + j] == Product(a[..], b[..], i, j)
    ensures c[D * D..] == old(c[D * D..])
    ensures |stores| == D * D && forall p :: 0 <= p < D * D ==> stores[p] == p
  {
    var aRow := new U32[D];
    var bCol := new U32[D];
    stores := [];
    var i := 0;
    while i < D
      invariant 0 <= i <= D
      invariant forall i', j' :: 0 <= i' < i && 0 <= j' < D ==> c[i' * D + j'] == Product(a[..], b[..], i', j')
      invariant forall p :: i * D <= p < c.Length ==> c[p] == old(c[p])
      invariant |stores| == i * D && forall p :: 0 <= p < i * D ==> stores[p] == p
    {
      LoadRow(a, aRow, i);
      var cRow := new U32[D];
      var j := 0;
      while j < D
        invariant 0 <= j <= D
        invariant forall t :: 0 <= t < D ==> aRow[t] == Entry(a[..], i, t)
        invariant forall i', j' :: 0 <= i' < i && 0 <= j' < D ==> c[i' * D + j'] == Product(a[..], b[..], i', j')
        invariant forall j' :: 0 <= j' < j ==> c[i * D + j'] == Product(a[..], b[..], i, j')
        invariant forall p :: i * D + j <= p < c.Length ==> c[p] == old(c[p])
        invariant |stores| == i * D + j && forall p :: 0 <= p < i * D + j ==> stores[p] == p
        modifies c, bCol, cRow
      {
        LoadColumn(b, bCol, j);
        var outsum := RowTimesColumn(aRow, bCol, a[..], b[..], i, j);
        cRow[j] := outsum;
        c[i * D + j] := outsum;
        stores := stores + [i * D + j];
        j := j + 1;
      }
      i := i + 1;
    }
  }
}
