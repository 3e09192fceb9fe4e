/** Integer arithmetic of sliding windows: the output extent the layers allocate,
    the number of window positions their while-loops visit, and row-major flat
    indices. */
module Windows {

  /** Multiplication by a non-negative factor is monotone. */
  lemma MulMono(a: int, b: int, s: int)
    requires a <= b && s >= 0
    ensures a * s <= b * s
  {
    assert b * s - a * s == (b - a) * s;
  }

  /** One more step of a stride: (k + 1) * s == k * s + s. */
  lemma MulSucc(k: int, s: int)
    ensures (k + 1) * s == k * s + s
  {
  }

  /** Euclidean division is determined by its defining equation. */
  lemma DivModUnique(a: int, d: int, q: int, r: int)
    requires d > 0 && 0 <= r < d && a == q * d + r
    ensures a / d == q && a % d == r
  {
    var q', r' := a / d, a % d;
    assert a == q' * d + r' && 0 <= r' < d;
    if q' > q {
      MulMono(q + 1, q', d);
    } else if q' < q {
      MulMono(q' + 1, q, d);
    }
  }

  /** Python's int(a / d) for d > 0: true division followed by truncation toward zero. */
  function TruncDiv(a: int, d: int): int
    requires d > 0
  {
    if a >= 0 then a / d else -((-a) / d)
  }

  /** The number of window offsets k >= 0 with k * s + K <= P, that is, of windows of
      size K, placed every s positions, that fit in an axis of length P. */
  function WindowCount(P: nat, K: nat, s: nat): nat
    requires s > 0
  {
    if P < K then 0 else (P - K) / s + 1
  }

  /** The window at offset k fits exactly when k is below the window count. */
  lemma WindowFits(P: nat, K: nat, s: nat, k: nat)
    requires s > 0
    ensures k * s + K <= P <==> k < WindowCount(P, K, s)
  {
    if P >= K {
      var q := (P - K) / s;
      assert P - K == q * s + (P - K) % s;
      if k <= q {
        MulMono(k, q, s);
      } else {
        MulMono(q + 1, k, s);
        assert (q + 1) * s == q * s + s;
      }
    } else {
      MulMono(0, k, s);
    }
  }

  /** The extent the layers allocate for an output axis, int(1 + (P - K) / s) in
      Python 3: negative exactly when P - K <= -2s (np.zeros then raises), and
      otherwise equal to the number of windows that fit. */
  function OutSize(P: nat, K: nat, s: nat): (r: int)
    requires s > 0
    ensures r < 0 <==> P + 2 * s <= K
    ensures r >= 0 ==> r == WindowCount(P, K, s)
  {
    var a := s + P - K;
    if a >= 0 then
      if P >= K then
        DivModUnique(a, s, (P - K) / s + 1, (P - K) % s);
        a / s
      else
        DivModUnique(a, s, 0, a);
        a / s
    else
      if -a >= s then
        DivModUnique(-a - s, s, (-a - s) / s, (-a - s) % s);
        DivModUnique(-a, s, (-a - s) / s + 1, (-a - s) % s);
        TruncDiv(a, s)
      else
        DivModUnique(-a, s, 0, -a);
        TruncDiv(a, s)
  }

  /** Row-major flat index of (i, j) in a grid with `cols` columns is below rows * cols. */
  lemma FlatIndexBound(i: nat, j: nat, rows: nat, cols: nat)
    requires i < rows && j < cols
    ensures i * cols + j < rows * cols
  {
    MulMono(i + 1, rows, cols);
    assert (i + 1) * cols == i * cols + cols;
  }

  /** Row-major flat index recovers its coordinates. */
  lemma FlatIndexInverse(i: nat, j: nat, cols: nat)
    requires j < cols
    ensures (i * cols + j) / cols == i && (i * cols + j) % cols == j
  {
    DivModUnique(i * cols + j, cols, i, j);
  }

  /** Three-level row-major flat index n*H*W + h*W + w: its bound and its inverse,
      as computed by the source's reshapes (r / (H*W), (r / W) % H, r % W). */
  lemma Flat3(n: nat, h: nat, w: nat, N: nat, H: nat, W: nat)
    requires n < N && h < H && w < W
    ensures n * (H * W) + h * W + w < N * (H * W)
    ensures (n * (H * W) + h * W + w) / (H * W) == n
    ensures ((n * (H * W) + h * W + w) / W) % H == h
    ensures (n * (H * W) + h * W + w) % W == w
  {
    var s := h * W + w;
    FlatIndexBound(h, w, H, W);
    FlatIndexBound(n, s, N, H * W);
    FlatIndexInverse(n, s, H * W);
    assert n * (H * W) + s == (n * H + h) * W + w by {
      assert n * (H * W) == (n * H) * W;
      assert (n * H + h) * W == (n * H) * W + h * W;
    }
    FlatIndexInverse(n * H + h, w, W);
    FlatIndexInverse(n, h, H);
  }

  /** A positive product of naturals has positive factors. */
  lemma ProductPositive(a: int, b: int)
    requires a >= 0 && b >= 0 && a * b > 0
    ensures a > 0 && b > 0
  {
  }

  /** Every r < N*H*W is the flat index of r / (H*W), (r / W) % H, r % W. */
  lemma Unflat3(r: nat, N: nat, H: nat, W: nat)
    requires r < N * (H * W)
    ensures H > 0 && W > 0
    ensures r / (H * W) < N && (r / W) % H < H && r % W < W
    ensures (r / (H * W)) * (H * W) + ((r / W) % H) * W + r % W == r
  {
    ProductPositive(N, H * W);
    ProductPositive(H, W);
    var q, w := r / W, r % W;
    var Q, h := q / H, q % H;
    FlatIndexBound(h, w, H, W);
    assert r == Q * (H * W) + (h * W + w) by {
      assert r == q * W + w;
      assert q == Q * H + h;
      assert q * W == Q * (H * W) + h * W by {
        assert (Q * H + h) * W == (Q * H) * W + h * W;
        assert (Q * H) * W == Q * (H * W);
      }
    }
    DivModUnique(r, H * W, Q, h * W + w);
    if Q >= N {
      MulMono(N, Q, H * W);
    }
  }
}
