// The naive HLS 2-D convolution kernel: for each output pixel of each
// output channel, a fresh `uint32_t` accumulator sums weight times input
// over the input channels and the 3 x 3 window, and is stored once into
// the flat output tensor. Tensors are flat arrays indexed row-major with
// the run-time channel counts, as the kernel computes its indices.
module ConvNaive {
  import opened Uint32

  /** Tensor dimensions: batch, output channels, input channels, input rows and columns, filter rows and columns, output rows and columns. */
  const N: nat := 1
  const K: nat := 4
  const C: nat := 6
  const Y: nat := 8
  const X: nat := 8
  const R: nat := 3
  const S: nat := 3
  const Y1: nat := 6
  const X1: nat := 6

  /** `SIZE_I` = N*C*Y*X, `SIZE_W` = K*C*R*S, `SIZE_O` = N*K*Y1*X1: the interface depths of the three tensors. */
  const SIZE_I: nat := 384
  const SIZE_W: nat := 216
  const SIZE_O: nat := 144

  /** An output position: batch n, output channel k, row y1, column x1. */
  datatype Pixel = Pixel(n: nat, k: nat, y1: nat, x1: nat)

  /** The output positions the loop nest visits for `N_input` batches and `K_input` channels. */
  predicate InOutput(p: Pixel, nIn: nat, kIn: nat)
  {
    p.n < nIn && p.k < kIn && p.y1 < Y1 && p.x1 < X1
  }

  /** `INDEX_I`, `INDEX_W` and `INDEX_O`: flat indices built with the run-time channel counts. */
  function IndexI(cIn: nat, n: nat, c: nat, y: nat, x: nat): nat
  {
    ((n * cIn + c) * Y + y) * X + x
  }

  function IndexW(cIn: nat, k: nat, c: nat, r: nat, s: nat): nat
  {
    ((k * cIn + c) * R + r) * S + s
  }

  function IndexO(kIn: nat, p: Pixel): nat
  {
    ((p.n * kIn + p.k) * Y1 + p.y1) * X1 + p.x1
  }

  /** The word at a flat index of a tensor (zero past its end, which no proved access reaches). */
  function At(m: seq<U32>, q: nat): U32
  {
    if q < |m| then m[q] else 0
  }

  /** One product of the sum: weight (k, c, r, s) times input (n, c, y1 + r, x1 + s). */
  function Term(i: seq<U32>, w: seq<U32>, cIn: nat, p: Pixel, c: nat, r: nat, s: nat): int
  {
    At(w, IndexW(cIn, p.k, c, r, s)) * At(i, IndexI(cIn, p.n, c, p.y1 + r, p.x1 + s))
  }

  /** The terms of filter row r of input channel c up to column s. */
  function SumS(i: seq<U32>, w: seq<U32>, cIn: nat, p: Pixel, c: nat, r: nat, s: nat): int
  {
    if s == 0 then 0 else SumS(i, w, cIn, p, c, r, s - 1) + Term(i, w, cIn, p, c, r, s - 1)
  }

  /** The terms of input channel c up to filter row r. */
  function SumR(i: seq<U32>, w: seq<U32>, cIn: nat, p: Pixel, c: nat, r: nat): int
  {
    if r == 0 then 0 else SumR(i, w, cIn, p, c, r - 1) + SumS(i, w, cIn, p, c, r - 1, S)
  }

  /** The terms of the input channels below c. */
  function SumC(i: seq<U32>, w: seq<U32>, cIn: nat, p: Pixel, c: nat): int
  {
    if c == 0 then 0 else SumC(i, w, cIn, p, c - 1) + SumR(i, w, cIn, p, c - 1, R)
  }

  /** The output at pixel p: the full sum over c < `C_input`, r < R, s < S, modulo 2^32. */
  function Conv(i: seq<U32>, w: seq<U32>, cIn: nat, p: Pixel): U32
  {
    Wrap(SumC(i, w, cIn, p, cIn))
  }

  /** Multiplication is monotone on naturals. */
  lemma MulLe(a: nat, b: nat, a2: nat, b2: nat)
    requires a <= a2 && b <= b2
    ensures a * b <= a2 * b2
  {
    assert a * b <= a2 * b;
    assert a2 * b <= a2 * b2;
  }

  /** A mixed-radix digit pair stays below the product of the radices. */
  lemma MixBound(a: nat, b: nat, bigA: nat, bigB: nat)
    requires a < bigA && b < bigB
    ensures a * bigB + b < bigA * bigB
  {
    MulLe(a + 1, bigB, bigA, bigB);
  }

  /** A mixed-radix digit pair is determined by its value. */
  lemma MixInjective(a1: nat, b1: nat, a2: nat, b2: nat, bigB: nat)
    requires b1 < bigB && b2 < bigB && a1 * bigB + b1 == a2 * bigB + b2
    ensures a1 == a2 && b1 == b2
  {
    if a1 < a2 {
      MulLe(a1 + 1, bigB, a2, bigB);
      assert false;
    } else if a2 < a1 {
      MulLe(a2 + 1, bigB, a1, bigB);
      assert false;
    }
  }

  /** Input indices stay inside `SIZE_I` when `N_input` <= N and `C_input` <= C, because the window ends at Y1 + R - 1 = Y and X1 + S - 1 = X. */
  lemma IndexIInBounds(nIn: nat, cIn: nat, n: nat, c: nat, y: nat, x: nat)
    requires nIn <= N && cIn <= C && n < nIn && c < cIn && y < Y && x < X
    ensures IndexI(cIn, n, c, y, x) < SIZE_I
  {
    MixBound(n, c, nIn, cIn);
    MulLe(nIn, cIn, N, C);
  }

  /** Weight indices stay inside `SIZE_W` when `K_input` <= K and `C_input` <= C. */
  lemma IndexWInBounds(kIn: nat, cIn: nat, k: nat, c: nat, r: nat, s: nat)
    requires kIn <= K && cIn <= C && k < kIn && c < cIn && r < R && s < S
    ensures IndexW(cIn, k, c, r, s) < SIZE_W
  {
    MixBound(k, c, kIn, cIn);
    MulLe(kIn, cIn, K, C);
  }

  /** Output indices of visited pixels lie below `N_input * K_input * Y1 * X1`, which is at most `SIZE_O`. */
  lemma IndexOInBounds(nIn: nat, kIn: nat, p: Pixel)
    requires InOutput(p, nIn, kIn)
    ensures IndexO(kIn, p) < IndexO(kIn, Pixel(nIn, 0, 0, 0))
    ensures nIn <= N && kIn <= K ==> IndexO(kIn, Pixel(nIn, 0, 0, 0)) <= SIZE_O
  {
    MixBound(p.n, p.k, nIn, kIn);
    if nIn <= N && kIn <= K {
      MulLe(nIn, kIn, N, K);
    }
  }

  /** Distinct visited pixels have distinct output indices. */
  lemma IndexOInjective(nIn: nat, kIn: nat, p: Pixel, q: Pixel)
    requires InOutput(p, nIn, kIn) && InOutput(q, nIn, kIn) && IndexO(kIn, p) == IndexO(kIn, q)
    ensures p == q
  {
    MixInjective((p.n * kIn + p.k) * Y1 + p.y1, p.x1, (q.n * kIn + q.k) * Y1 + q.y1, q.x1, X1);
    MixInjective(p.n * kIn + p.k, p.y1, q.n * kIn + q.k, q.y1, Y1);
    MixInjective(p.n, p.k, q.n, q.k, kIn);
  }

  /** One wrapping addition of the next term advances the partial sum of a filter row. */
  lemma StepS(i: seq<U32>, w: seq<U32>, cIn: nat, p: Pixel, c: nat, r: nat, s: nat, before: int)
    ensures Wrap(Wrap(before + SumS(i, w, cIn, p, c, r, s)) + Wrap(Term(i, w, cIn, p, c, r, s)))
         == Wrap(before + SumS(i, w, cIn, p, c, r, s + 1))
  {
    WrapAdd(before + SumS(i, w, cIn, p, c, r, s), Term(i, w, cIn, p, c, r, s));
  }

  /** The s loop: one filter row of one input channel added to the accumulator. */
  method AccumulateRow(i: array<U32>, w: array<U32>, nIn: nat, cIn: nat, kIn: nat, p: Pixel, c: nat, r: nat, acc0: U32, ghost before: int)
    returns (acc: U32)
    requires i.Length == SIZE_I && w.Length == SIZE_W
    requires nIn <= N && cIn <= C && kIn <= K && InOutput(p, nIn, kIn) && c < cIn && r < R
    requires acc0 == Wrap(before)
    ensures acc == Wrap(before + SumS(i[..], w[..], cIn, p, c, r, S))
  {
    ghost var ii := i[..];
    ghost var ww := w[..];
    acc := acc0;
    var s := 0;
    while s < S
      invariant s <= S
      invariant acc == Wrap(before + SumS(ii, ww, cIn, p, c, r, s))
    {
      IndexWInBounds(kIn, cIn, p.k, c, r, s);
      IndexIInBounds(nIn, cIn, p.n, c, p.y1 + r, p.x1 + s);
      var product := w[IndexW(cIn, p.k, c, r, s)] as int * i[IndexI(cIn, p.n, c, p.y1 + r, p.x1 + s)] as int;
      assert product == Term(ii, ww, cIn, p, c, r, s);
      StepS(ii, ww, cIn, p, c, r, s, before);
      acc := Wrap(acc as int + Wrap(product));
      s := s + 1;
    }
  }

  /** The c and r loops for one pixel: a fresh accumulator ends at the pixel's output. */
  method Accumulate(i: array<U32>, w: array<U32>, nIn: nat, cIn: nat, kIn: nat, p: Pixel) returns (acc: U32)
    requires i.Length == SIZE_I && w.Length == SIZE_W
    requires nIn <= N && cIn <= C && kIn <= K && InOutput(p, nIn, kIn)
    ensures acc == Conv(i[..], w[..], cIn, p)
  {
    ghost var ii := i[..];
    ghost var ww := w[..];
    acc := 0;
    var c := 0;
    while c < cIn
      invariant c <= cIn
      invariant acc == Wrap(SumC(ii, ww, cIn, p, c))
    {
      var r := 0;
      while r < R
        invariant r <= R
        invariant acc == Wrap(SumC(ii, ww, cIn, p, c) + SumR(ii, ww, cIn, p, c, r))
      {
        acc := AccumulateRow(i, w, nIn, cIn, kIn, p, c, r, acc, SumC(ii, ww, cIn, p, c) + SumR(ii, ww, cIn, p, c, r));
        assert SumR(ii, ww, cIn, p, c, r + 1) == SumR(ii, ww, cIn, p, c, r) + SumS(ii, ww, cIn, p, c, r, S);
        r := r + 1;
      }
      assert SumC(ii, ww, cIn, p, c + 1) == SumC(ii, ww, cIn, p, c) + SumR(ii, ww, cIn, p, c, R);
      c := c + 1;
    }
  }

  /** The visited pixels whose output index is below t hold their convolution in o. */
  ghost predicate Stored(o: seq<U32>, i: seq<U32>, w: seq<U32>, nIn: nat, cIn: nat, kIn: nat, t: nat)
  {
    forall p :: InOutput(p, nIn, kIn) && IndexO(kIn, p) < t ==> IndexO(kIn, p) < |o| && o[IndexO(kIn, p)] == Conv(i, w, cIn, p)
  }

  /** The store log so far is 0, 1, 2, ...: each index once, in increasing order. */
  ghost predicate InOrder(stores: seq<nat>)
  {
    forall q :: 0 <= q < |stores| ==> stores[q] == q
  }

  /** The x1 loop for batch n, output channel k and output row y1: the row's 6 pixels, stored in order. */
  method StoreRow(i: array<U32>, w: array<U32>, o: array<U32>, nIn: nat, cIn: nat, kIn: nat, n: nat, k: nat, y1: nat, ghost stores0: seq<nat>)
    returns (ghost stores: seq<nat>)
    requires i.Length == SIZE_I && w.Length == SIZE_W && o.Length == SIZE_O
    requires o != i && o != w
    requires nIn <= N && cIn <= C && kIn <= K && n < nIn && k < kIn && y1 < Y1
    requires |stores0| == IndexO(kIn, Pixel(n, k, y1, 0)) && InOrder(stores0)
    requires Stored(o[..], i[..], w[..], nIn, cIn, kIn, |stores0|)
    modifies o
    ensures |stores| == IndexO(kIn, Pixel(n, k, y1, X1)) && InOrder(stores)
    ensures Stored(o[..], i[..], w[..], nIn, cIn, kIn, |stores|)
    ensures forall q :: |stores| <= q < o.Length ==> o[q] == old(o[q])
  {
    ghost var ii := i[..];
    ghost var ww := w[..];
    stores := stores0;
    var x1 := 0;
    while x1 < X1
      invariant x1 <= X1
      invariant |stores| == IndexO(kIn, Pixel(n, k, y1, x1)) && InOrder(stores)
      invariant Stored(o[..], ii, ww, nIn, cIn, kIn, |stores|)
      invariant forall q :: |stores| <= q < o.Length ==> o[q] == old(o[q])
    {
      var here := Pixel(n, k, y1, x1);
      var accumulator := Accumulate(i, w, nIn, cIn, kIn, here);
      IndexOInBounds(nIn, kIn, here);
      o[IndexO(kIn, here)] := accumulator;
      forall p | InOutput(p, nIn, kIn) && IndexO(kIn, p) == |stores|
        ensures p == here
      {
        IndexOInjective(nIn, kIn, p, here);
      }
      stores := stores + [IndexO(kIn, here)];
      x1 := x1 + 1;
    }
  }

  /** The y1 loop for batch n and output channel k: the plane's 36 pixels, stored in order. */
  method StorePlane(i: array<U32>, w: array<U32>, o: array<U32>, nIn: nat, cIn: nat, kIn: nat, n: nat, k: nat, ghost stores0: seq<nat>)
    returns (ghost stores: seq<nat>)
    requires i.Length == SIZE_I && w.Length == SIZE_W && o.Length == SIZE_O
    requires o != i && o != w
    requires nIn <= N && cIn <= C && kIn <= K && n < nIn && k < kIn
    requires |stores0| == IndexO(kIn, Pixel(n, k, 0, 0)) && InOrder(stores0)
    requires Stored(o[..], i[..], w[..], nIn, cIn, kIn, |stores0|)
    modifies o
    ensures |stores| == IndexO(kIn, Pixel(n, k + 1, 0, 0)) && InOrder(stores)
    ensures Stored(o[..], i[..], w[..], nIn, cIn, kIn, |stores|)
    ensures forall q :: |stores| <= q < o.Length ==> o[q] == old(o[q])
  {
    stores := stores0;
    var y1 := 0;
    while y1 < Y1
      invariant y1 <= Y1
      invariant |stores| == IndexO(kIn, Pixel(n, k, y1, 0)) && InOrder(stores)
      invariant Stored(o[..], i[..], w[..], nIn, cIn, kIn, |stores|)
      invariant forall q :: |stores| <= q < o.Length ==> o[q] == old(o[q])
    {
      stores := StoreRow(i, w, o, nIn, cIn, kIn, n, k, y1, stores);
      y1 := y1 + 1;
    }
  }

  /**
   * `krnl_conv_naive`: every visited pixel's output word holds its
   * convolution; the stores go once each to the indices below
   * `N_input * K_input * Y1 * X1`, in increasing order, and the words
   * beyond are untouched.
   */
  method KrnlConvNaive(i: array<U32>, w: array<U32>, o: array<U32>, nIn: nat, cIn: nat, kIn: nat) returns (ghost stores: seq<nat>)
    requires i.Length == SIZE_I && w.Length == SIZE_W && o.Length == SIZE_O
    requires o != i && o != w
    requires nIn <= N && cIn <= C && kIn <= K
    modifies o
    ensures forall p :: InOutput(p, nIn, kIn) ==> o[IndexO(kIn, p)] == Conv(i[..], w[..], cIn, p)
    ensures forall q :: IndexO(kIn, Pixel(nIn, 0, 0, 0)) <= q < o.Length ==> o[q] == old(o[q])
    ensures |stores| == IndexO(kIn, Pixel(nIn, 0, 0, 0)) && forall q :: 0 <= q < |stores| ==> stores[q] == q
  {
    stores := [];
    var n := 0;
    while n < nIn
      invariant n <= nIn
      invariant |stores| == IndexO(kIn, Pixel(n, 0, 0, 0)) && InOrder(stores)
      invariant Stored(o[..], i[..], w[..], nIn, cIn, kIn, |stores|)
      invariant forall q :: |stores| <= q < o.Length ==> o[q] == old(o[q])
    {
      var k := 0;
      while k < kIn
        invariant k <= kIn
        invariant |stores| == IndexO(kIn, Pixel(n, k, 0, 0)) && InOrder(stores)
        invariant Stored(o[..], i[..], w[..], nIn, cIn, kIn, |stores|)
        invariant forall q :: |stores| <= q < o.Length ==> o[q] == old(o[q])
      {
        stores := StorePlane(i, w, o, nIn, cIn, kIn, n, k, stores);
        k := k + 1;
      }
      assert n * kIn + kIn == (n + 1) * kIn;
      n := n + 1;
    }
    forall p | InOutput(p, nIn, kIn)
      ensures IndexO(kIn, p) < |stores|
    {
      IndexOInBounds(nIn, kIn, p);
    }
  }
}
