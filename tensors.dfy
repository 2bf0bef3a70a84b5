/**
 * The Tensor of include/tensor.h: a shape and a flat row-major buffer (the last
 * dimension varies fastest), with the 4-D offset map used by every kernel.
 * Element values are reals; the C++ `float` rounding is not modelled.
 */
module Tensors {
  import opened Arith

  datatype Tensor = Tensor(shape: seq<nat>, data: seq<real>)

  /** The default-constructed Tensor: empty shape, empty buffer. */
  const Empty: Tensor := Tensor([], [])

  /** Product of the dimensions, 1 for the empty shape. */
  function Product(dims: seq<nat>): nat
  {
    if dims == [] then 1 else dims[0] * Product(dims[1..])
  }

  /** The buffer holds exactly one element per index tuple of the shape. */
  predicate Valid(t: Tensor)
  {
    |t.data| == Product(t.shape)
  }

  lemma {:induction false} ProductSnoc(dims: seq<nat>, d: nat)
    ensures Product(dims + [d]) == Product(dims) * d
  {
    if dims == [] {
      assert [] + [d] == [d];
    } else {
      assert (dims + [d])[1..] == dims[1..] + [d];
      ProductSnoc(dims[1..], d);
    }
  }

  /** size(): the product accumulated dimension by dimension. */
  method Size(t: Tensor) returns (total: nat)
    ensures total == Product(t.shape)
    ensures t.shape == [] ==> total == 1
  {
    total := 1;
    for i := 0 to |t.shape|
      invariant total == Product(t.shape[..i])
    {
      assert t.shape[..i + 1] == t.shape[..i] + [t.shape[i]];
      ProductSnoc(t.shape[..i], t.shape[i]);
      total := total * t.shape[i];
    }
    assert t.shape[..|t.shape|] == t.shape;
  }

  /** The shape-only constructor: the shape is stored first, then the buffer is resized to size(). */
  method NewTensor(shape: seq<nat>) returns (t: Tensor)
    ensures t.shape == shape && Valid(t)
    ensures forall i :: 0 <= i < |t.data| ==> t.data[i] == 0.0
  {
    var total := Size(Tensor(shape, []));
    t := Tensor(shape, seq(total, _ => 0.0));
  }

  /** The (shape, data) constructor keeps both arguments and checks nothing. */
  lemma ShapeDataConstructorUnchecked(shape: seq<nat>, data: seq<real>)
    ensures Tensor(shape, data).shape == shape && Tensor(shape, data).data == data
    ensures Valid(Tensor(shape, data)) <==> |data| == Product(shape)
  {
  }

  /** Offset of (n, c, h, w) in a buffer whose last three dimensions are C, H, W. */
  function Offset(C: nat, H: nat, W: nat, n: nat, c: nat, h: nat, w: nat): nat
  {
    ((n * C + c) * H + h) * W + w
  }

  /** at(n, c, h, w): the element at the row-major offset computed from the tensor's own shape. */
  function At(t: Tensor, n: nat, c: nat, h: nat, w: nat): real
    requires |t.shape| >= 4
    requires Offset(t.shape[1], t.shape[2], t.shape[3], n, c, h, w) < |t.data|
  {
    t.data[Offset(t.shape[1], t.shape[2], t.shape[3], n, c, h, w)]
  }

  datatype Index4 = Index4(n: nat, c: nat, h: nat, w: nat)

  predicate InBounds(N: nat, C: nat, H: nat, W: nat, i: Index4)
  {
    i.n < N && i.c < C && i.h < H && i.w < W
  }

  /** An in-bounds index tuple has an offset below N*C*H*W. */
  lemma OffsetBound(N: nat, C: nat, H: nat, W: nat, n: nat, c: nat, h: nat, w: nat)
    requires n < N && c < C && h < H && w < W
    ensures Offset(C, H, W, n, c, h, w) < N * C * H * W
  {
    MixedLt(n, c, N, C);
    MixedLt(n * C + c, h, N * C, H);
    MixedLt((n * C + c) * H + h, w, N * C * H, W);
  }

  /** The index tuple stored at flat position j: the inverse of Offset. */
  function Decode(C: nat, H: nat, W: nat, j: nat): (i: Index4)
    requires C > 0 && H > 0 && W > 0
    ensures i.c < C && i.h < H && i.w < W
    ensures Offset(C, H, W, i.n, i.c, i.h, i.w) == j
  {
    var n: nat, c: nat, h: nat, w: nat := j / W / H / C, (j / W / H) % C, (j / W) % H, j % W;
    DecodeRecomposes(C, H, W, j);
    Index4(n, c, h, w)
  }

  /** Peeling the row-major digits of j off with / and % and recombining them gives j back. */
  lemma DecodeRecomposes(C: nat, H: nat, W: nat, j: nat)
    requires C > 0 && H > 0 && W > 0
    ensures Offset(C, H, W, j / W / H / C, (j / W / H) % C, (j / W) % H, j % W) == j
  {
    var q1 := j / W;
    var q2 := q1 / H;
    assert q2 / C * C + q2 % C == q2;
    assert Offset(C, H, W, q2 / C, q2 % C, q1 % H, j % W) == (q2 * H + q1 % H) * W + j % W;
    assert q2 * H + q1 % H == q1;
    assert q1 * W + j % W == j;
  }

  /** Decoding an in-bounds offset gives back the index tuple. */
  lemma DecodeOffset(C: nat, H: nat, W: nat, n: nat, c: nat, h: nat, w: nat)
    requires c < C && h < H && w < W
    ensures Decode(C, H, W, Offset(C, H, W, n, c, h, w)) == Index4(n, c, h, w)
  {
    var q2 := n * C + c;
    var q1 := q2 * H + h;
    DivModUnique(Offset(C, H, W, n, c, h, w), W, q1, w);
    DivModUnique(q1, H, q2, h);
    DivModUnique(q2, C, n, c);
  }

  /** Positions below N*C*H*W decode to in-bounds index tuples. */
  lemma DecodeBound(N: nat, C: nat, H: nat, W: nat, j: nat)
    requires C > 0 && H > 0 && W > 0 && j < N * C * H * W
    ensures Decode(C, H, W, j).n < N
  {
    DivLt(j, W, N * C * H);
    DivLt(j / W, H, N * C);
    DivLt(j / W / H, C, N);
  }

  /**
   * The offset map of include/tensor.h:37 is injective on in-bounds tuples,
   * so two distinct index tuples never share a buffer element.
   */
  lemma OffsetInjective(C: nat, H: nat, W: nat, a: Index4, b: Index4)
    requires a.c < C && a.h < H && a.w < W
    requires b.c < C && b.h < H && b.w < W
    requires Offset(C, H, W, a.n, a.c, a.h, a.w) == Offset(C, H, W, b.n, b.c, b.h, b.w)
    ensures a == b
  {
    DecodeOffset(C, H, W, a.n, a.c, a.h, a.w);
    DecodeOffset(C, H, W, b.n, b.c, b.h, b.w);
  }

  /** For a valid 4-D tensor every in-bounds at() lies in [0, size()). */
  lemma AtInBounds(t: Tensor, n: nat, c: nat, h: nat, w: nat)
    requires Valid(t) && |t.shape| == 4
    requires n < t.shape[0] && c < t.shape[1] && h < t.shape[2] && w < t.shape[3]
    ensures Offset(t.shape[1], t.shape[2], t.shape[3], n, c, h, w) < |t.data|
  {
    OffsetBound(t.shape[0], t.shape[1], t.shape[2], t.shape[3], n, c, h, w);
    Product4(t.shape);
  }

  lemma Product4(s: seq<nat>)
    requires |s| == 4
    ensures Product(s) == s[0] * s[1] * s[2] * s[3]
  {
    assert s[1..][1..][1..][1..] == [];
    assert Product(s[3..]) == s[3];
    assert Product(s[2..]) == s[2] * s[3];
    assert Product(s[1..]) == s[1] * (s[2] * s[3]);
    assert s[1] * (s[2] * s[3]) == s[1] * s[2] * s[3];
    assert s[0] * (s[1] * s[2] * s[3]) == s[0] * s[1] * s[2] * s[3];
  }

  lemma Product2(s: seq<nat>)
    requires |s| == 2
    ensures Product(s) == s[0] * s[1]
  {
    assert s[1..][1..] == [];
    assert Product(s[1..]) == s[1];
  }

  /** The default Tensor reports size() == 1 with an empty buffer: it is not Valid. */
  lemma EmptyTensorInvalid()
    ensures Product(Empty.shape) == 1 && |Empty.data| == 0 && !Valid(Empty)
  {
  }

  /** Row-major stepping: the offset after the last w of a row is the first of the next row, etc. */
  lemma OffsetCarry(C: nat, H: nat, W: nat, n: nat, c: nat, h: nat)
    ensures Offset(C, H, W, n, c, h, W) == Offset(C, H, W, n, c, h + 1, 0)
    ensures Offset(C, H, W, n, c, H, 0) == Offset(C, H, W, n, c + 1, 0, 0)
    ensures Offset(C, H, W, n, C, 0, 0) == Offset(C, H, W, n + 1, 0, 0, 0)
  {
    var x := (n * C + c) * H;
    assert (x + h + 1) * W == (x + h) * W + W;
    assert (n * C + c + 1) * H == x + H;
    assert (x + H) * W == x * W + H * W;
    assert (n * C + C) == (n + 1) * C;
  }

  lemma OffsetTotal(N: nat, C: nat, H: nat, W: nat)
    ensures Offset(C, H, W, N, 0, 0, 0) == N * C * H * W
  {
  }

  /** A flat position inside a non-empty buffer means every dimension is positive. */
  lemma PositiveFactors(N: nat, C: nat, H: nat, W: nat, j: nat)
    requires j < N * C * H * W
    ensures N > 0 && C > 0 && H > 0 && W > 0
  {
  }

  /**
   * A flat position between the first offset of channel c0 of batch n and the first
   * offset of batch n + 1 belongs to batch n and to a channel c0 or above.
   */
  lemma DecodeChannelFrom(C: nat, H: nat, W: nat, n: nat, c0: nat, j: nat)
    requires C > 0 && H > 0 && W > 0 && c0 <= C
    requires Offset(C, H, W, n, c0, 0, 0) <= j < Offset(C, H, W, n + 1, 0, 0, 0)
    ensures Decode(C, H, W, j).n == n && Decode(C, H, W, j).c >= c0
  {
    var i := Decode(C, H, W, j);
    var q := i.n * C + i.c;
    var r := i.h * W + i.w;
    MixedLt(i.h, i.w, H, W);
    SplitOffset(C, H, W, i.n, i.c, i.h, i.w);
    SplitOffset(C, H, W, n, c0, 0, 0);
    SplitOffset(C, H, W, n + 1, 0, 0, 0);
    assert (n + 1) * C == n * C + C;
    BlockOf(j, H * W, q, r, n * C + c0, n * C + C);
    DivModUnique(q, C, i.n, i.c);
    DivModUnique(q, C, n, q - n * C);
  }

  lemma SplitOffset(C: nat, H: nat, W: nat, n: nat, c: nat, h: nat, w: nat)
    ensures Offset(C, H, W, n, c, h, w) == (n * C + c) * (H * W) + (h * W + w)
  {
    var q := n * C + c;
    assert (q * H + h) * W == q * (H * W) + h * W;
  }

  /** If j == q*B + r with 0 <= r < B lies in [lo*B, hi*B), then lo <= q < hi. */
  lemma BlockOf(j: int, B: nat, q: int, r: int, lo: int, hi: int)
    requires B > 0 && 0 <= r < B && j == q * B + r
    requires lo * B <= j < hi * B
    ensures lo <= q < hi
  {
    if q < lo {
      MulMonotone(q + 1, lo, B);
    }
    if q >= hi {
      MulMonotone(hi, q, B);
    }
  }

  /** The first offset of batch n + 1 is at most N*C*H*W when n < N. */
  lemma BatchEnd(N: nat, C: nat, H: nat, W: nat, n: nat)
    requires n < N
    ensures Offset(C, H, W, n + 1, 0, 0, 0) <= N * C * H * W
  {
    var B := C * H * W;
    MulMonotone(n + 1, N, B);
    assert Offset(C, H, W, n + 1, 0, 0, 0) == (n + 1) * C * H * W;
    assert (n + 1) * C * H * W == (n + 1) * B;
    assert N * C * H * W == N * B;
  }

  /** Channel starts of one batch are ordered like the channels. */
  lemma ChannelStartMonotone(C: nat, H: nat, W: nat, n: nat, c1: nat, c2: nat)
    requires c1 <= c2
    ensures Offset(C, H, W, n, c1, 0, 0) <= Offset(C, H, W, n, c2, 0, 0)
  {
    SplitOffset(C, H, W, n, c1, 0, 0);
    SplitOffset(C, H, W, n, c2, 0, 0);
    MulMonotone(n * C + c1, n * C + c2, H * W);
  }

  /**
   * Progress of a kernel that writes a fresh zero-filled buffer in increasing offset
   * order: every element below k holds its final value, every element from k on
   * still holds the 0 the buffer was created with.
   */
  ghost predicate Filled(out: array<real>, k: nat, spec: seq<real>)
    reads out
  {
    FilledUpTo(out[..], k, spec)
  }

  /** Filled, stated on the buffer's contents. */
  ghost predicate FilledUpTo(s: seq<real>, k: nat, spec: seq<real>)
  {
    && |s| == |spec|
    && (forall j :: 0 <= j < k && j < |s| ==> s[j] == spec[j])
    && (forall j :: k <= j < |s| ==> s[j] == 0.0)
  }

  /** Writing the final value at position k extends the filled prefix by one. */
  lemma FilledStep(s: seq<real>, k: nat, spec: seq<real>, v: real)
    requires FilledUpTo(s, k, spec) && k < |s| && v == spec[k]
    ensures FilledUpTo(s[k := v], k + 1, spec)
  {
  }

  /**
   * The zero-filled output buffer a kernel allocates (Tensor output(shape) in the C++),
   * with nothing of its spec written yet.
   */
  method ZeroBuffer(L: nat, ghost spec: seq<real>) returns (out: array<real>)
    requires |spec| == L
    ensures fresh(out) && Filled(out, 0, spec)
  {
    out := new real[L](_ => 0.0);
  }

  /** Once every position is written, the buffer holds exactly the spec. */
  lemma FilledAll(s: seq<real>, k: nat, spec: seq<real>)
    requires FilledUpTo(s, k, spec) && k >= |spec|
    ensures s == spec
  {
  }

  /** Positions [k, next) that the spec wants 0 already hold the 0 they were created with. */
  lemma FilledSkip(s: seq<real>, k: nat, next: nat, spec: seq<real>)
    requires FilledUpTo(s, k, spec) && k <= next
    requires forall j :: k <= j < next && j < |spec| ==> spec[j] == 0.0
    ensures FilledUpTo(s, next, spec)
  {
  }

  /**
   * Element i of a buffer; positions outside it read as 0. The default is never reached
   * under the kernels' Admissible preconditions: the convolution, linear and broadcast reads
   * go through Get, and TapInBounds, DotStep and BroadcastAt show each of them is in range.
   */
  function Get(s: seq<real>, i: int): real
  {
    if 0 <= i < |s| then s[i] else 0.0
  }

  /** The write of one output element in offset order: out[idx] := value, the value the spec asks for. */
  method Store(out: array<real>, ghost spec: seq<real>, idx: nat, value: real)
    requires idx < |spec| && spec[idx] == value && Filled(out, idx, spec)
    modifies out
    ensures Filled(out, idx + 1, spec)
  {
    FilledStep(out[..], idx, spec, value);
    out[idx] := value;
  }
}
