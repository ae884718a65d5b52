// The software reference of the convolution example: the data
// initialisation, the reference convolution that accumulates into the
// expected tensor, and the element-wise comparison of the kernel's output
// with it. The tensors are the flat arrays the kernel reads and writes,
// with the compile-time channel counts (`C_input` = C, `K_input` = K).
module ConvUtils {
  import opened Uint32
  import opened ConvNaive

  /** `init_data`'s input pattern: the word at row y, column x of every input plane is y * x + 1. */
  function InputValue(y: nat, x: nat): nat
  {
    y * x + 1
  }

  /** `init_data`'s weight pattern, as the weight tensor ends up holding it: the word at filter row r, column s is r * s + 1. */
  function WeightValue(r: nat, s: nat): nat
  {
    r * s + 1
  }

  /** `init_data`'s output pattern. */
  const O_INIT: U32 := 0x5555_5555

  /** The first word of input plane (n, c); the plane is the next Y * X words. */
  function PlaneI(n: nat, c: nat): nat
  {
    IndexI(C, n, c, 0, 0)
  }

  /** The first word of weight plane (k, c); the plane is the next R * S words. */
  function PlaneW(k: nat, c: nat): nat
  {
    IndexW(C, k, c, 0, 0)
  }

  /** The input plane (n, c) holds the pattern. */
  ghost predicate InputPlaneDone(i: seq<U32>, n: nat, c: nat)
  {
    forall y, x :: 0 <= y < Y && 0 <= x < X ==> IndexI(C, n, c, y, x) < |i| && i[IndexI(C, n, c, y, x)] == InputValue(y, x)
  }

  /** The weight plane (k, c) holds the pattern. */
  ghost predicate WeightPlaneDone(w: seq<U32>, k: nat, c: nat)
  {
    forall r, s :: 0 <= r < R && 0 <= s < S ==> IndexW(C, k, c, r, s) < |w| && w[IndexW(C, k, c, r, s)] == WeightValue(r, s)
  }

  /** Inside input plane (n, c) the words run row by row. */
  lemma IndexIInPlane(n: nat, c: nat, y: nat, x: nat)
    ensures IndexI(C, n, c, y, x) == PlaneI(n, c) + 8 * y + x
  {
  }

  /** Inside weight plane (k, c) the words run row by row. */
  lemma IndexWInPlane(k: nat, c: nat, r: nat, s: nat)
    ensures IndexW(C, k, c, r, s) == PlaneW(k, c) + 3 * r + s
  {
  }

  /** The y and x loops of the input initialisation for one plane, row by row. */
  method InitInputPlane(i: array<U32>, n: nat, c: nat)
    requires i.Length == SIZE_I && n < N && c < C
    modifies i
    ensures InputPlaneDone(i[..], n, c)
    ensures forall q :: 0 <= q < i.Length && !(PlaneI(n, c) <= q < PlaneI(n, c) + Y * X) ==> i[q] == old(i[q])
  {
    var base := PlaneI(n, c);
    IndexIInBounds(N, C, n, c, Y - 1, X - 1);
    IndexIInPlane(n, c, Y - 1, X - 1);
    var y := 0;
    while y < Y
      invariant y <= Y
      invariant forall y', x' :: 0 <= y' < y && 0 <= x' < X ==> i[base + 8 * y' + x'] == InputValue(y', x')
      invariant forall q :: 0 <= q < i.Length && !(base <= q < base + 64) ==> i[q] == old(i[q])
    {
      var x := 0;
      while x < X
        invariant x <= X
        invariant forall y', x' :: 0 <= y' < y && 0 <= x' < X ==> i[base + 8 * y' + x'] == InputValue(y', x')
        invariant forall x' :: 0 <= x' < x ==> i[base + 8 * y + x'] == InputValue(y, x')
        invariant forall q :: 0 <= q < i.Length && !(base <= q < base + 64) ==> i[q] == old(i[q])
      {
        IndexIInPlane(n, c, y, x);
        MulLe(y, x, Y, X);
        i[IndexI(C, n, c, y, x)] := y * x + 1;
        x := x + 1;
      }
      y := y + 1;
    }
    forall y, x | 0 <= y < Y && 0 <= x < X
      ensures IndexI(C, n, c, y, x) < i.Length && i[IndexI(C, n, c, y, x)] == InputValue(y, x)
    {
      IndexIInPlane(n, c, y, x);
    }
  }

  /** The s loop of the weight initialisation: column r of plane (k, c) takes the pattern, one word per row. */
  method InitWeightColumn(w: array<U32>, k: nat, c: nat, r: nat)
    requires w.Length == SIZE_W && k < K && c < C && r < S
    modifies w
    ensures forall t :: 0 <= t < R ==> w[PlaneW(k, c) + 3 * t + r] == WeightValue(t, r)
    ensures forall q :: 0 <= q < w.Length && q != PlaneW(k, c) + r && q != PlaneW(k, c) + 3 + r && q != PlaneW(k, c) + 6 + r ==> w[q] == old(w[q])
  {
    IndexWInBounds(K, C, k, c, R - 1, S - 1);
    IndexWInPlane(k, c, R - 1, S - 1);
    var s := 0;
    while s < S
      invariant s <= S
      invariant forall t :: 0 <= t < s ==> w[PlaneW(k, c) + 3 * t + r] == WeightValue(t, r)
      invariant forall q :: 0 <= q < w.Length && q != PlaneW(k, c) + r && q != PlaneW(k, c) + 3 + r && q != PlaneW(k, c) + 6 + r ==> w[q] == old(w[q])
    {
      IndexWInPlane(k, c, s, r);
      MulLe(r, s, R, S);
      w[IndexW(C, k, c, s, r)] := r * s + 1;
      s := s + 1;
    }
  }

  /**
   * The r and s loops of the weight initialisation for one plane. The
   * source stores r * s + 1 at `W[k][c][s][r]`, third and fourth index
   * swapped against the loop variables; since R == S the loops still reach
   * every word of the plane, and since the product is symmetric the word at
   * third index t and fourth index u holds t * u + 1.
   */
  method InitWeightPlane(w: array<U32>, k: nat, c: nat)
    requires w.Length == SIZE_W && k < K && c < C
    modifies w
    ensures WeightPlaneDone(w[..], k, c)
    ensures forall q :: 0 <= q < w.Length && !(PlaneW(k, c) <= q < PlaneW(k, c) + R * S) ==> w[q] == old(w[q])
  {
    var base := PlaneW(k, c);
    var r := 0;
    while r < R
      invariant r <= R
      invariant forall t, u :: 0 <= t < R && 0 <= u < r ==> w[base + 3 * t + u] == WeightValue(t, u)
      invariant forall q :: 0 <= q < w.Length && !(base <= q < base + 9) ==> w[q] == old(w[q])
    {
      InitWeightColumn(w, k, c, r);
      r := r + 1;
    }
    forall r, s | 0 <= r < R && 0 <= s < S
      ensures IndexW(C, k, c, r, s) < w.Length && w[IndexW(C, k, c, r, s)] == WeightValue(r, s)
    {
      IndexWInBounds(K, C, k, c, r, s);
      IndexWInPlane(k, c, r, s);
    }
  }

  /** Finishing one input plane keeps the other planes' pattern. */
  lemma InputPlaneKept(a: seq<U32>, b: seq<U32>, n: nat, c: nat, n2: nat, c2: nat)
    requires |a| == |b| == SIZE_I && n < N && c < C && n2 < N && c2 < C && (n, c) != (n2, c2)
    requires InputPlaneDone(a, n, c)
    requires forall q :: 0 <= q < |b| && !(PlaneI(n2, c2) <= q < PlaneI(n2, c2) + Y * X) ==> b[q] == a[q]
    ensures InputPlaneDone(b, n, c)
  {
    forall y, x | 0 <= y < Y && 0 <= x < X
      ensures b[IndexI(C, n, c, y, x)] == a[IndexI(C, n, c, y, x)]
    {
      IndexIInPlane(n, c, y, x);
    }
  }

  /** Finishing one weight plane keeps the other planes' pattern. */
  lemma WeightPlaneKept(a: seq<U32>, b: seq<U32>, k: nat, c: nat, k2: nat, c2: nat)
    requires |a| == |b| == SIZE_W && k < K && c < C && k2 < K && c2 < C && (k, c) != (k2, c2)
    requires WeightPlaneDone(a, k, c)
    requires forall q :: 0 <= q < |b| && !(PlaneW(k2, c2) <= q < PlaneW(k2, c2) + R * S) ==> b[q] == a[q]
    ensures WeightPlaneDone(b, k, c)
  {
    forall r, s | 0 <= r < R && 0 <= s < S
      ensures b[IndexW(C, k, c, r, s)] == a[IndexW(C, k, c, r, s)]
    {
      IndexWInPlane(k, c, r, s);
    }
  }

  /** The input initialisation: every plane of I holds the pattern. */
  method InitInput(i: array<U32>)
    requires i.Length == SIZE_I
    modifies i
    ensures forall n, c, y, x :: 0 <= n < N && 0 <= c < C && 0 <= y < Y && 0 <= x < X ==> i[IndexI(C, n, c, y, x)] == InputValue(y, x)
  {
    var n := 0;
    while n < N
      invariant n <= N
      invariant forall n', c' :: 0 <= n' < n && 0 <= c' < C ==> InputPlaneDone(i[..], n', c')
    {
      var c := 0;
      while c < C
        invariant c <= C
        invariant forall n', c' :: 0 <= n' < N && 0 <= c' < C && (n' < n || (n' == n && c' < c)) ==> InputPlaneDone(i[..], n', c')
      {
        ghost var before := i[..];
        InitInputPlane(i, n, c);
        forall n', c' | 0 <= n' < N && 0 <= c' < C && (n' < n || (n' == n && c' < c))
          ensures InputPlaneDone(i[..], n', c')
        {
          InputPlaneKept(before, i[..], n', c', n, c);
        }
        c := c + 1;
      }
      n := n + 1;
    }
    forall n, c, y, x | 0 <= n < N && 0 <= c < C && 0 <= y < Y && 0 <= x < X
      ensures i[IndexI(C, n, c, y, x)] == InputValue(y, x)
    {
      assert InputPlaneDone(i[..], n, c);
    }
  }

  /** The weight initialisation: every plane of W holds the pattern. */
  method InitWeights(w: array<U32>)
    requires w.Length == SIZE_W
    modifies w
    ensures forall k, c, r, s :: 0 <= k < K && 0 <= c < C && 0 <= r < R && 0 <= s < S ==> w[IndexW(C, k, c, r, s)] == WeightValue(r, s)
  {
    var k := 0;
    while k < K
      invariant k <= K
      invariant forall k', c' :: 0 <= k' < k && 0 <= c' < C ==> WeightPlaneDone(w[..], k', c')
    {
      var c := 0;
      while c < C
        invariant c <= C
        invariant forall k', c' :: 0 <= k' < K && 0 <= c' < C && (k' < k || (k' == k && c' < c)) ==> WeightPlaneDone(w[..], k', c')
      {
        ghost var before := w[..];
        InitWeightPlane(w, k, c);
        forall k', c' | 0 <= k' < K && 0 <= c' < C && (k' < k || (k' == k && c' < c))
          ensures WeightPlaneDone(w[..], k', c')
        {
          WeightPlaneKept(before, w[..], k', c', k, c);
        }
        c := c + 1;
      }
      k := k + 1;
    }
    forall k, c, r, s | 0 <= k < K && 0 <= c < C && 0 <= r < R && 0 <= s < S
      ensures w[IndexW(C, k, c, r, s)] == WeightValue(r, s)
    {
      assert WeightPlaneDone(w[..], k, c);
    }
  }

  /** The output initialisation: every word of O becomes 0x55555555, in index order. */
  method InitOutput(o: array<U32>)
    requires o.Length == SIZE_O
    modifies o
    ensures forall q :: 0 <= q < SIZE_O ==> o[q] == O_INIT
  {
    var n := 0;
    while n < N
      invariant n <= N
      invariant forall q :: 0 <= q < IndexO(K, Pixel(n, 0, 0, 0)) ==> o[q] == O_INIT
    {
      var k := 0;
      while k < K
        invariant k <= K
        invariant forall q :: 0 <= q < IndexO(K, Pixel(n, k, 0, 0)) ==> o[q] == O_INIT
      {
        var y1 := 0;
        while y1 < Y1
          invariant y1 <= Y1
          invariant forall q :: 0 <= q < IndexO(K, Pixel(n, k, y1, 0)) ==> o[q] == O_INIT
        {
          var x1 := 0;
          while x1 < X1
            invariant x1 <= X1
            invariant forall q :: 0 <= q < IndexO(K, Pixel(n, k, y1, x1)) ==> o[q] == O_INIT
          {
            o[IndexO(K, Pixel(n, k, y1, x1))] := O_INIT;
            x1 := x1 + 1;
          }
          y1 := y1 + 1;
        }
        k := k + 1;
      }
      n := n + 1;
    }
  }

  /** `init_data`: the three initialisations, in the source's order. */
  method InitData(i: array<U32>, w: array<U32>, o: array<U32>)
    requires i.Length == SIZE_I && w.Length == SIZE_W && o.Length == SIZE_O
    requires i != w && i != o && w != o
    modifies i, w, o
    ensures forall n, c, y, x :: 0 <= n < N && 0 <= c < C && 0 <= y < Y && 0 <= x < X ==> i[IndexI(C, n, c, y, x)] == InputValue(y, x)
    ensures forall k, c, r, s :: 0 <= k < K && 0 <= c < C && 0 <= r < R && 0 <= s < S ==> w[IndexW(C, k, c, r, s)] == WeightValue(r, s)
    ensures forall q :: 0 <= q < SIZE_O ==> o[q] == O_INIT
  {
    InitInput(i);
    InitWeights(w);
    InitOutput(o);
  }

  /** The first word of output plane (n, k); the plane is the next Y1 * X1 words. */
  function PlaneO(n: nat, k: nat): nat
  {
    IndexO(K, Pixel(n, k, 0, 0))
  }

  /** Inside output plane (n, k) the words run row by row. */
  lemma IndexOInPlane(n: nat, k: nat, y1: nat, x1: nat)
    ensures IndexO(K, Pixel(n, k, y1, x1)) == PlaneO(n, k) + 6 * y1 + x1
  {
  }

  /** The output planes lie inside the tensor. */
  lemma PlaneOInBounds(n: nat, k: nat)
    requires n < N && k < K
    ensures PlaneO(n, k) + 36 <= SIZE_O
  {
    IndexOInBounds(N, K, Pixel(n, k, Y1 - 1, X1 - 1));
  }

  /** One `+=` of a wrapped product advances the word by the next term of the filter row. */
  lemma AddStep(i: seq<U32>, w: seq<U32>, p: Pixel, c: nat, r: nat, s: nat, before: int, current: U32, product: int)
    requires current == Wrap(before + SumS(i, w, C, p, c, r, s))
    requires product == Term(i, w, C, p, c, r, s)
    ensures Wrap(current + Wrap(product)) == Wrap(before + SumS(i, w, C, p, c, r, s + 1))
  {
    StepS(i, w, C, p, c, r, s, before);
  }

  /** The s loop of `compute_expected`: one filter row's products added into the pixel's word. */
  method AddWindowRow(i: array<U32>, w: array<U32>, e: array<U32>, p: Pixel, c: nat, r: nat, ghost before: int, ghost ii: seq<U32>, ghost ww: seq<U32>)
    requires i.Length == SIZE_I && w.Length == SIZE_W && e.Length == SIZE_O && e != i && e != w
    requires InOutput(p, N, K) && c < C && r < R && ii == i[..] && ww == w[..]
    requires IndexO(K, p) < e.Length && e[IndexO(K, p)] == Wrap(before)
    modifies e
    ensures e[IndexO(K, p)] == Wrap(before + SumS(ii, ww, C, p, c, r, S))
    ensures forall q :: 0 <= q < e.Length && q != IndexO(K, p) ==> e[q] == old(e[q])
  {
    var at := IndexO(K, p);
    ghost var sofar := before;
    var s := 0;
    while s < S
      invariant s <= S
      invariant sofar == before + SumS(ii, ww, C, p, c, r, s)
      invariant e[at] == Wrap(sofar)
      invariant forall q :: 0 <= q < e.Length && q != at ==> e[q] == old(e[q])
    {
      IndexWInBounds(K, C, p.k, c, r, s);
      IndexIInBounds(N, C, p.n, c, p.y1 + r, p.x1 + s);
      var product := w[IndexW(C, p.k, c, r, s)] as int * i[IndexI(C, p.n, c, p.y1 + r, p.x1 + s)] as int;
      WrapAdd(sofar, product);
      e[at] := Wrap(e[at] as int + Wrap(product));
      sofar := sofar + product;
      s := s + 1;
    }
  }

  /** The window sum up to row r + 1 is the sum up to row r plus row r. */
  lemma NextRow(i: seq<U32>, w: seq<U32>, p: Pixel, c: nat, r: nat)
    ensures SumR(i, w, C, p, c, r + 1) == SumR(i, w, C, p, c, r) + SumS(i, w, C, p, c, r, S)
  {
  }

  /**
   * f gives the sum of channel c's window for every pixel p. The loop
   * states below speak of f, so that they do not unfold the sum; the
   * trigger lets the connection be used only where the sum itself appears.
   */
  ghost predicate IsWindow(f: (Pixel, nat) -> int, i: seq<U32>, w: seq<U32>)
  {
    forall p, c {:trigger SumR(i, w, C, p, c, R)} :: f(p, c) == SumR(i, w, C, p, c, R)
  }

  /** The r and s loops of `compute_expected`: channel c's window added into pixel p's word, and no other word changed. */
  method AddWindow(i: array<U32>, w: array<U32>, e: array<U32>, p: Pixel, c: nat, ghost ii: seq<U32>, ghost ww: seq<U32>, ghost f: (Pixel, nat) -> int)
    requires i.Length == SIZE_I && w.Length == SIZE_W && e.Length == SIZE_O && e != i && e != w
    requires InOutput(p, N, K) && c < C && ii == i[..] && ww == w[..] && IsWindow(f, ii, ww)
    modifies e
    ensures IndexO(K, p) < e.Length
    ensures e[..] == old(e[..])[IndexO(K, p) := Wrap(old(e[IndexO(K, p)]) + f(p, c))]
  {
    IndexOInBounds(N, K, p);
    var at := IndexO(K, p);
    ghost var start := e[at] as int;
    ghost var e0 := e[..];
    ghost var sofar := start;
    var r := 0;
    while r < R
      invariant r <= R
      invariant sofar == start + SumR(ii, ww, C, p, c, r)
      invariant e[at] == Wrap(sofar)
      invariant forall q :: 0 <= q < e.Length && q != at ==> e[q] == e0[q]
    {
      AddWindowRow(i, w, e, p, c, r, sofar, ii, ww);
      NextRow(ii, ww, p, c, r);
      sofar := sofar + SumS(ii, ww, C, p, c, r, S);
      r := r + 1;
    }
    assert e[at] == Wrap(start + f(p, c));
  }

  /** The first x1 words of row y1 of plane (n, k) in `after` are those of `before` plus their window of channel c; every other word is unchanged. */
  ghost predicate RowDone(after: seq<U32>, before: seq<U32>, f: (Pixel, nat) -> int, n: nat, k: nat, c: nat, y1: nat, x1: nat)
  {
    |after| == |before| &&
    (forall x :: 0 <= x < x1 && PlaneO(n, k) + 6 * y1 + x < |before| ==>
      after[PlaneO(n, k) + 6 * y1 + x] == Wrap(before[PlaneO(n, k) + 6 * y1 + x] + f(Pixel(n, k, y1, x), c))) &&
    (forall q :: 0 <= q < |before| && !(PlaneO(n, k) + 6 * y1 <= q < PlaneO(n, k) + 6 * y1 + x1) ==> after[q] == before[q])
  }

  /** Adding the window of pixel x1 extends the row by one word. */
  lemma RowDoneStep(e0: seq<U32>, before: seq<U32>, after: seq<U32>, f: (Pixel, nat) -> int, n: nat, k: nat, c: nat, y1: nat, x1: nat)
    requires n < N && k < K && y1 < Y1 && x1 < X1 && |e0| == SIZE_O
    requires RowDone(before, e0, f, n, k, c, y1, x1)
    requires after == before[IndexO(K, Pixel(n, k, y1, x1)) := Wrap(before[IndexO(K, Pixel(n, k, y1, x1))] + f(Pixel(n, k, y1, x1), c))]
    ensures RowDone(after, e0, f, n, k, c, y1, x1 + 1)
  {
    IndexOInPlane(n, k, y1, x1);
  }

  /** The x1 loop of `compute_expected` inside channel c: every word of row y1 of plane (n, k) gains its window, and nothing else changes. */
  method AddChannelRow(i: array<U32>, w: array<U32>, e: array<U32>, n: nat, k: nat, c: nat, y1: nat, ghost ii: seq<U32>, ghost ww: seq<U32>, ghost f: (Pixel, nat) -> int)
    requires i.Length == SIZE_I && w.Length == SIZE_W && e.Length == SIZE_O && e != i && e != w && ii == i[..] && ww == w[..] && IsWindow(f, ii, ww)
    requires n < N && k < K && c < C && y1 < Y1
    modifies e
    ensures RowDone(e[..], old(e[..]), f, n, k, c, y1, X1)
  {
    ghost var e0 := e[..];
    var x1 := 0;
    while x1 < X1
      invariant x1 <= X1
      invariant RowDone(e[..], e0, f, n, k, c, y1, x1)
    {
      ghost var before := e[..];
      AddWindow(i, w, e, Pixel(n, k, y1, x1), c, ii, ww, f);
      RowDoneStep(e0, before, e[..], f, n, k, c, y1, x1);
      x1 := x1 + 1;
    }
  }

  /** The first y1 rows of plane (n, k) in `after` are those of `before` plus their windows of channel c; every other word is unchanged. */
  ghost predicate ChannelDone(after: seq<U32>, before: seq<U32>, f: (Pixel, nat) -> int, n: nat, k: nat, c: nat, y1: nat)
  {
    |after| == |before| &&
    (forall y, x :: 0 <= y < y1 && 0 <= x < X1 && PlaneO(n, k) + 6 * y + x < |before| ==>
      after[PlaneO(n, k) + 6 * y + x] == Wrap(before[PlaneO(n, k) + 6 * y + x] + f(Pixel(n, k, y, x), c))) &&
    (forall q :: 0 <= q < |before| && !(PlaneO(n, k) <= q < PlaneO(n, k) + 6 * y1) ==> after[q] == before[q])
  }

  /** Finishing row y1 extends the channel by one row. */
  lemma ChannelDoneStep(e0: seq<U32>, before: seq<U32>, after: seq<U32>, f: (Pixel, nat) -> int, n: nat, k: nat, c: nat, y1: nat)
    requires ChannelDone(before, e0, f, n, k, c, y1) && RowDone(after, before, f, n, k, c, y1, X1)
    ensures ChannelDone(after, e0, f, n, k, c, y1 + 1)
  {
  }

  /** The y1 and x1 loops of `compute_expected` inside channel c: every word of plane (n, k) gains its window, and nothing else changes. */
  method AddChannel(i: array<U32>, w: array<U32>, e: array<U32>, n: nat, k: nat, c: nat, ghost ii: seq<U32>, ghost ww: seq<U32>, ghost f: (Pixel, nat) -> int)
    requires i.Length == SIZE_I && w.Length == SIZE_W && e.Length == SIZE_O && e != i && e != w && ii == i[..] && ww == w[..] && IsWindow(f, ii, ww)
    requires n < N && k < K && c < C
    modifies e
    ensures ChannelDone(e[..], old(e[..]), f, n, k, c, Y1)
  {
    ghost var e0 := e[..];
    var y1 := 0;
    while y1 < Y1
      invariant y1 <= Y1
      invariant ChannelDone(e[..], e0, f, n, k, c, y1)
    {
      ghost var before := e[..];
      AddChannelRow(i, w, e, n, k, c, y1, ii, ww, f);
      ChannelDoneStep(e0, before, e[..], f, n, k, c, y1);
      y1 := y1 + 1;
    }
  }

  /** The windows of the input channels below c added up, for pixel p. */
  ghost function ChannelSum(f: (Pixel, nat) -> int, p: Pixel, c: nat): int
  {
    if c == 0 then 0 else ChannelSum(f, p, c - 1) + f(p, c - 1)
  }

  /** Summing the windows channel by channel is the reference sum over channels. */
  lemma {:induction false} ChannelSumIsSumC(f: (Pixel, nat) -> int, i: seq<U32>, w: seq<U32>, p: Pixel, c: nat)
    requires IsWindow(f, i, w)
    ensures ChannelSum(f, p, c) == SumC(i, w, C, p, c)
  {
    if c > 0 {
      ChannelSumIsSumC(f, i, w, p, c - 1);
    }
  }

  /** Every word of plane (n, k) of `after` holds that of `before` plus the windows of the input channels below c; every other word is unchanged. */
  ghost predicate PlaneDone(after: seq<U32>, before: seq<U32>, f: (Pixel, nat) -> int, n: nat, k: nat, c: nat)
  {
    |after| == |before| &&
    (forall y, x :: 0 <= y < Y1 && 0 <= x < X1 && PlaneO(n, k) + 6 * y + x < |before| ==>
      after[PlaneO(n, k) + 6 * y + x] == Wrap(before[PlaneO(n, k) + 6 * y + x] + ChannelSum(f, Pixel(n, k, y, x), c))) &&
    (forall q :: 0 <= q < |before| && !(PlaneO(n, k) <= q < PlaneO(n, k) + 36) ==> after[q] == before[q])
  }

  /** Adding channel c's windows into every word of the plane extends the sums by one channel. */
  lemma PlaneDoneStep(e0: seq<U32>, before: seq<U32>, after: seq<U32>, f: (Pixel, nat) -> int, n: nat, k: nat, c: nat)
    requires PlaneDone(before, e0, f, n, k, c) && ChannelDone(after, before, f, n, k, c, Y1)
    ensures PlaneDone(after, e0, f, n, k, c + 1)
  {
    forall y, x | 0 <= y < Y1 && 0 <= x < X1 && PlaneO(n, k) + 6 * y + x < |e0|
      ensures after[PlaneO(n, k) + 6 * y + x] == Wrap(e0[PlaneO(n, k) + 6 * y + x] + ChannelSum(f, Pixel(n, k, y, x), c + 1))
    {
      WrapAddLeft(e0[PlaneO(n, k) + 6 * y + x] + ChannelSum(f, Pixel(n, k, y, x), c), f(Pixel(n, k, y, x), c));
    }
  }

  /** The c loop of `compute_expected` for plane (n, k): every word of the plane gains all C windows, and nothing else changes. */
  method AddPlane(i: array<U32>, w: array<U32>, e: array<U32>, n: nat, k: nat, ghost ii: seq<U32>, ghost ww: seq<U32>, ghost f: (Pixel, nat) -> int)
    requires i.Length == SIZE_I && w.Length == SIZE_W && e.Length == SIZE_O && e != i && e != w && ii == i[..] && ww == w[..] && IsWindow(f, ii, ww)
    requires n < N && k < K
    modifies e
    ensures PlaneDone(e[..], old(e[..]), f, n, k, C)
  {
    ghost var e0 := e[..];
    var c := 0;
    while c < C
      invariant c <= C
      invariant PlaneDone(e[..], e0, f, n, k, c)
    {
      ghost var before := e[..];
      AddChannel(i, w, e, n, k, c, ii, ww, f);
      PlaneDoneStep(e0, before, e[..], f, n, k, c);
      c := c + 1;
    }
  }

  /** An output plane starts at a multiple of the plane size. */
  lemma PlaneOIsMultiple(n: nat, k: nat)
    ensures PlaneO(n, k) == (n * K + k) * 36
  {
  }

  /** The plane after (n, k) in row-major order starts right where (n, k) ends. */
  lemma PlaneONext(n: nat, k: nat)
    ensures PlaneO(n, k) + 36 == IndexO(K, Pixel(n, k + 1, 0, 0))
    ensures IndexO(K, Pixel(n, K, 0, 0)) == IndexO(K, Pixel(n + 1, 0, 0, 0))
  {
    PlaneOIsMultiple(n, k);
    PlaneOIsMultiple(n, k + 1);
    PlaneOIsMultiple(n, K);
    PlaneOIsMultiple(n + 1, 0);
  }

  /** A visited pixel whose word lies in plane (n, k) belongs to that plane. */
  lemma InPlane(p: Pixel, n: nat, k: nat)
    requires InOutput(p, N, K) && k < K
    requires PlaneO(n, k) <= IndexO(K, p) < PlaneO(n, k) + 36
    ensures p.n == n && p.k == k
  {
    IndexOInPlane(p.n, p.k, p.y1, p.x1);
    PlaneOIsMultiple(p.n, p.k);
    PlaneOIsMultiple(n, k);
    var d := IndexO(K, p) - PlaneO(n, k);
    MixInjective(p.n * K + p.k, 6 * p.y1 + p.x1, n * K + k, d, 36);
    MixInjective(p.n, p.k, n, k, K);
  }

  /** The visited pixels whose word is below t hold their starting value plus all C windows; the words from t on are unchanged. */
  ghost predicate Summed(e: seq<U32>, e0: seq<U32>, f: (Pixel, nat) -> int, t: nat)
  {
    |e| == |e0| &&
    (forall p :: InOutput(p, N, K) && IndexO(K, p) < t ==>
      IndexO(K, p) < |e0| && e[IndexO(K, p)] == Wrap(e0[IndexO(K, p)] + ChannelSum(f, p, C))) &&
    (forall q :: t <= q < |e0| ==> e[q] == e0[q])
  }

  /** Finishing plane (n, k) extends the summed prefix by the plane. */
  lemma SummedStep(e0: seq<U32>, before: seq<U32>, after: seq<U32>, f: (Pixel, nat) -> int, n: nat, k: nat)
    requires n < N && k < K && |e0| == SIZE_O
    requires Summed(before, e0, f, PlaneO(n, k)) && PlaneDone(after, before, f, n, k, C)
    ensures Summed(after, e0, f, PlaneO(n, k) + 36)
  {
    forall p | InOutput(p, N, K) && IndexO(K, p) < PlaneO(n, k) + 36
      ensures IndexO(K, p) < SIZE_O && after[IndexO(K, p)] == Wrap(e0[IndexO(K, p)] + ChannelSum(f, p, C))
    {
      IndexOInBounds(N, K, p);
      if PlaneO(n, k) <= IndexO(K, p) {
        InPlane(p, n, k);
        IndexOInPlane(n, k, p.y1, p.x1);
      }
    }
  }

  /** Every visited pixel's word in e holds its word in e0 plus the full reference sum over c < C, r < R, s < S, modulo 2^32. */
  ghost predicate Accumulated(e: seq<U32>, e0: seq<U32>, i: seq<U32>, w: seq<U32>)
  {
    forall p :: InOutput(p, N, K) ==> IndexO(K, p) < |e| && IndexO(K, p) < |e0| && e[IndexO(K, p)] == Wrap(e0[IndexO(K, p)] + SumC(i, w, C, p, C))
  }

  /** The window sums exist as a function value, and summed over the channels they give the reference sum. */
  lemma MakeWindow(i: seq<U32>, w: seq<U32>) returns (f: (Pixel, nat) -> int)
    ensures IsWindow(f, i, w)
    ensures forall p :: ChannelSum(f, p, C) == SumC(i, w, C, p, C)
  {
    f := (p: Pixel, c: nat) => SumR(i, w, C, p, c, R);
    forall p
      ensures ChannelSum(f, p, C) == SumC(i, w, C, p, C)
    {
      ChannelSumIsSumC(f, i, w, p, C);
    }
  }

  /** Once every plane is summed, every visited pixel holds its starting value plus its reference sum. */
  lemma SummedAll(e0: seq<U32>, e: seq<U32>, i: seq<U32>, w: seq<U32>, f: (Pixel, nat) -> int)
    requires |e0| == SIZE_O && Summed(e, e0, f, IndexO(K, Pixel(N, 0, 0, 0)))
    requires forall p :: ChannelSum(f, p, C) == SumC(i, w, C, p, C)
    ensures Accumulated(e, e0, i, w)
  {
    forall p | InOutput(p, N, K)
      ensures IndexO(K, p) < |e| && IndexO(K, p) < |e0| && e[IndexO(K, p)] == Wrap(e0[IndexO(K, p)] + SumC(i, w, C, p, C))
    {
      IndexOInBounds(N, K, p);
    }
  }

  /**
   * `compute_expected`: the n, k, c, y1, x1, r and s loops, each `+=`
   * wrapping modulo 2^32. Every visited pixel's word ends as its starting
   * value plus the full sum over c < C, r < R, s < S.
   */
  method ComputeExpected(i: array<U32>, w: array<U32>, e: array<U32>)
    requires i.Length == SIZE_I && w.Length == SIZE_W && e.Length == SIZE_O && e != i && e != w
    modifies e
    ensures Accumulated(e[..], old(e[..]), i[..], w[..])
  {
    ghost var ii := i[..];
    ghost var ww := w[..];
    ghost var f := MakeWindow(ii, ww);
    ghost var e0 := e[..];
    var n := 0;
    while n < N
      invariant n <= N
      invariant Summed(e[..], e0, f, IndexO(K, Pixel(n, 0, 0, 0)))
    {
      var k := 0;
      while k < K
        invariant k <= K
        invariant Summed(e[..], e0, f, IndexO(K, Pixel(n, k, 0, 0)))
      {
        ghost var before := e[..];
        AddPlane(i, w, e, n, k, ii, ww, f);
        SummedStep(e0, before, e[..], f, n, k);
        PlaneONext(n, k);
        k := k + 1;
      }
      PlaneONext(n, K);
      n := n + 1;
    }
    assert i[..] == ii && w[..] == ww;
    SummedAll(e0, e[..], ii, ww, f);
  }

  /** The words of `out` and `expected` agree on [lo, hi). */
  ghost predicate AgreeOn(out: seq<U32>, expected: seq<U32>, lo: nat, hi: nat)
    requires hi <= |out| && hi <= |expected|
  {
    forall q :: lo <= q < hi ==> out[q] == expected[q]
  }

  /** The x1 loop of `check_values` for row y1 of plane (n, k): true exactly when the row agrees. */
  method CheckRow(out: array<U32>, expected: array<U32>, n: nat, k: nat, y1: nat) returns (ok: bool)
    requires out.Length == SIZE_O && expected.Length == SIZE_O && n < N && k < K && y1 < Y1
    ensures PlaneO(n, k) + 6 * y1 + 6 <= SIZE_O
    ensures ok <==> AgreeOn(out[..], expected[..], PlaneO(n, k) + 6 * y1, PlaneO(n, k) + 6 * y1 + 6)
  {
    PlaneOInBounds(n, k);
    var base := PlaneO(n, k) + 6 * y1;
    var x1 := 0;
    while x1 < X1
      invariant x1 <= X1
      invariant AgreeOn(out[..], expected[..], base, base + x1)
    {
      IndexOInPlane(n, k, y1, x1);
      var q := IndexO(K, Pixel(n, k, y1, x1));
      if out[q] != expected[q] {
        return false;
      }
      x1 := x1 + 1;
    }
    return true;
  }

  /** The y1 and x1 loops of `check_values` for plane (n, k): true exactly when the plane agrees. */
  method CheckPlane(out: array<U32>, expected: array<U32>, n: nat, k: nat) returns (ok: bool)
    requires out.Length == SIZE_O && expected.Length == SIZE_O && n < N && k < K
    ensures PlaneO(n, k) + 36 <= SIZE_O
    ensures ok <==> AgreeOn(out[..], expected[..], PlaneO(n, k), PlaneO(n, k) + 36)
  {
    PlaneOInBounds(n, k);
    var y1 := 0;
    while y1 < Y1
      invariant y1 <= Y1
      invariant AgreeOn(out[..], expected[..], PlaneO(n, k), PlaneO(n, k) + 6 * y1)
    {
      var rowOk := CheckRow(out, expected, n, k, y1);
      if !rowOk {
        return false;
      }
      y1 := y1 + 1;
    }
    return true;
  }

  /**
   * `check_values`: the n, k, y1 and x1 loops stop at the first word where
   * the kernel's output differs from the expected tensor and return false;
   * they return true exactly when the two tensors agree everywhere.
   */
  method CheckValues(out: array<U32>, expected: array<U32>) returns (ok: bool)
    requires out.Length == SIZE_O && expected.Length == SIZE_O
    ensures ok <==> out[..] == expected[..]
  {
    var n := 0;
    while n < N
      invariant n <= N
      invariant PlaneO(n, 0) <= SIZE_O
      invariant AgreeOn(out[..], expected[..], 0, PlaneO(n, 0))
    {
      var k := 0;
      while k < K
        invariant k <= K
        invariant PlaneO(n, k) <= SIZE_O
        invariant AgreeOn(out[..], expected[..], 0, PlaneO(n, k))
      {
        var planeOk := CheckPlane(out, expected, n, k);
        if !planeOk {
          return false;
        }
        PlaneONext(n, k);
        k := k + 1;
      }
      PlaneONext(n, K);
      n := n + 1;
    }
    assert out[..] == expected[..];
    return true;
  }

  /** The output word at flat position q < `SIZE_O` belongs to a pixel. */
  lemma PixelAt(q: nat) returns (p: Pixel)
    requires q < SIZE_O
    ensures InOutput(p, N, K) && IndexO(K, p) == q
  {
    var k := q / 36;
    var y1 := (q - 36 * k) / 6;
    var x1 := q - 36 * k - 6 * y1;
    p := Pixel(0, k, y1, x1);
    IndexOInPlane(0, k, y1, x1);
    PlaneOIsMultiple(0, k);
  }

  /** Agreement of the flat tensors is agreement at every pixel, in both directions. */
  lemma AgreeEverywhere(out: seq<U32>, expected: seq<U32>)
    requires |out| == SIZE_O && |expected| == SIZE_O
    ensures out == expected <==> forall p :: InOutput(p, N, K) ==> out[IndexO(K, p)] == expected[IndexO(K, p)]
  {
    if forall p :: InOutput(p, N, K) ==> out[IndexO(K, p)] == expected[IndexO(K, p)] {
      forall q | 0 <= q < SIZE_O
        ensures out[q] == expected[q]
      {
        var p := PixelAt(q);
      }
    }
    forall p | InOutput(p, N, K)
      ensures IndexO(K, p) < SIZE_O
    {
      IndexOInBounds(N, K, p);
    }
  }

  /** Accumulating into a tensor of zeros, as the host's `expected = {0}` does, yields the reference convolution at every pixel. */
  lemma ExpectedIsConv(e: seq<U32>, i: seq<U32>, w: seq<U32>)
    requires Accumulated(e, seq(SIZE_O, _ => 0), i, w)
    ensures forall p :: InOutput(p, N, K) ==> e[IndexO(K, p)] == Conv(i, w, C, p)
  {
    forall p | InOutput(p, N, K)
      ensures e[IndexO(K, p)] == Conv(i, w, C, p)
    {
      assert IndexO(K, p) < SIZE_O;
    }
  }

  /**
   * The kernel run with `N`, `C` and `K` as its channel counts and the
   * reference accumulated from zeros agree at every word, so
   * `check_values` returns true on them.
   */
  lemma KernelMatchesExpected(o: seq<U32>, e: seq<U32>, i: seq<U32>, w: seq<U32>)
    requires |o| == SIZE_O && |e| == SIZE_O
    requires forall p :: InOutput(p, N, K) ==> o[IndexO(K, p)] == Conv(i, w, C, p)
    requires Accumulated(e, seq(SIZE_O, _ => 0), i, w)
    ensures o == e
  {
    ExpectedIsConv(e, i, w);
    AgreeEverywhere(o, e);
  }
}
