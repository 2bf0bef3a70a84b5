/** adaptive_avg_pool2d of src/layers.cpp: averages over the cells of an even split of each plane. */
module Pooling {
  import opened Arith
  import opened Tensors
  import opened Numerics

  /** First index of cell i when a dimension of the given size is split into `cells` cells. */
  function CellStart(i: nat, size: nat, cells: nat): nat
    requires cells > 0
  {
    (i * size) / cells
  }

  /** One past the last index of cell i. */
  function CellEnd(i: nat, size: nat, cells: nat): nat
    requires cells > 0
  {
    ((i + 1) * size) / cells
  }

  /** Cells are intervals: each starts no later than it ends, and ends where the next one starts. */
  lemma CellOrdered(i: nat, size: nat, cells: nat)
    requires cells > 0
    ensures CellStart(i, size, cells) <= CellEnd(i, size, cells)
    ensures CellEnd(i, size, cells) == CellStart(i + 1, size, cells)
  {
    MulMonotone(i, i + 1, size);
    DivMonotone(i * size, (i + 1) * size, cells);
  }

  /** The first cell starts at 0, the last one ends at size, and no cell reaches past it. */
  lemma CellBounds(i: nat, size: nat, cells: nat)
    requires 0 < cells && i < cells
    ensures CellStart(0, size, cells) == 0
    ensures CellEnd(cells - 1, size, cells) == size
    ensures CellEnd(i, size, cells) <= size
  {
    DivModUnique(cells * size, cells, size, 0);
    MulMonotone(i + 1, cells, size);
    DivMonotone((i + 1) * size, cells * size, cells);
  }

  /** With no more cells than positions, every cell holds at least one position. */
  lemma CellNonEmpty(i: nat, size: nat, cells: nat)
    requires 0 < cells <= size
    ensures CellStart(i, size, cells) < CellEnd(i, size, cells)
  {
    assert (i + 1) * size == i * size + size;
    DivAddStep(i * size, size, cells);
  }

  /** Cells in order: a later cell starts no earlier than an earlier one ends, so cells are disjoint. */
  lemma CellsDisjoint(i: nat, i': nat, size: nat, cells: nat)
    requires cells > 0 && i < i'
    ensures CellEnd(i, size, cells) <= CellStart(i', size, cells)
  {
    MulMonotone(i + 1, i', size);
    DivMonotone((i + 1) * size, i' * size, cells);
  }

  /** The cell that holds position p, found by walking from cell `from` (whose start is at or before p). */
  function CellOf(p: nat, size: nat, cells: nat, from: nat): (i: nat)
    requires 0 < cells && p < size && from < cells && CellStart(from, size, cells) <= p
    ensures from <= i < cells && CellStart(i, size, cells) <= p < CellEnd(i, size, cells)
    decreases cells - from
  {
    CellBounds(from, size, cells);
    if p < CellEnd(from, size, cells) then from
    else
      CellOrdered(from, size, cells);
      CellOf(p, size, cells, from + 1)
  }

  /**
   * The cells tile [0, size) exactly: every position lies in one cell, and in no other.
   */
  lemma CellsTile(p: nat, size: nat, cells: nat)
    requires 0 < cells && p < size
    ensures exists i :: 0 <= i < cells && CellStart(i, size, cells) <= p < CellEnd(i, size, cells)
    ensures forall i, i' ::
              (0 <= i < cells && 0 <= i' < cells
               && CellStart(i, size, cells) <= p < CellEnd(i, size, cells)
               && CellStart(i', size, cells) <= p < CellEnd(i', size, cells)) ==> i == i'
  {
    CellBounds(0, size, cells);
    var i := CellOf(p, size, cells, 0);
    forall a, b | 0 <= a < cells && 0 <= b < cells
                  && CellStart(a, size, cells) <= p < CellEnd(a, size, cells)
                  && CellStart(b, size, cells) <= p < CellEnd(b, size, cells)
      ensures a == b
    {
      if a < b { CellsDisjoint(a, b, size, cells); }
      if b < a { CellsDisjoint(b, a, size, cells); }
    }
  }

  /** Sum of row h of plane (n, c) over the columns [ws, we). */
  function RowSum(x: seq<real>, C: nat, H: nat, W: nat, n: nat, c: nat, h: nat, ws: nat, we: nat): real
    decreases we
  {
    if we <= ws then 0.0
    else RowSum(x, C, H, W, n, c, h, ws, we - 1) + Get(x, Offset(C, H, W, n, c, h, we - 1))
  }

  /** Sum of plane (n, c) over the rows [hs, he) and the columns [ws, we), row after row. */
  function CellSum(x: seq<real>, C: nat, H: nat, W: nat, n: nat, c: nat, hs: nat, he: nat, ws: nat, we: nat): real
    decreases he
  {
    if he <= hs then 0.0
    else CellSum(x, C, H, W, n, c, hs, he - 1, ws, we) + RowSum(x, C, H, W, n, c, he - 1, ws, we)
  }

  /** The value of output cell (oh, ow) of plane (n, c): the cell's sum over its number of elements. */
  function CellMean(x: seq<real>, C: nat, H: nat, W: nat, n: nat, c: nat, oh: nat, ow: nat,
                    outH: nat, outW: nat): real
    requires outH > 0 && outW > 0
  {
    var hs, he := CellStart(oh, H, outH), CellEnd(oh, H, outH);
    var ws, we := CellStart(ow, W, outW), CellEnd(ow, W, outW);
    Quot(CellSum(x, C, H, W, n, c, hs, he, ws, we), ((he - hs) * (we - ws)) as real)
  }

  predicate Admissible(input: Tensor)
  {
    |input.shape| >= 4 && |input.data| >= input.shape[0] * input.shape[1] * input.shape[2] * input.shape[3]
  }

  /** The tensor adaptive_avg_pool2d returns: shape [N, C, outH, outW], one cell mean per element. */
  function AdaptiveAvgPool2dSpec(input: Tensor, outH: nat, outW: nat): (out: Tensor)
    requires Admissible(input)
    ensures out.shape == [input.shape[0], input.shape[1], outH, outW] && Valid(out)
  {
    var N, C, H, W := input.shape[0], input.shape[1], input.shape[2], input.shape[3];
    var L := N * C * outH * outW;
    Product4([N, C, outH, outW]);
    Tensor([N, C, outH, outW], seq(L, j requires 0 <= j < L =>
      PositiveFactors(N, C, outH, outW, j);
      var i := Decode(C, outH, outW, j);
      CellMean(input.data, C, H, W, i.n, i.c, i.h, i.w, outH, outW)))
  }

  /** Element (n, c, oh, ow) of the pooled tensor is the mean of the input over cell (oh, ow). */
  lemma AdaptiveAvgPool2dSpecAt(input: Tensor, outH: nat, outW: nat, n: nat, c: nat, oh: nat, ow: nat)
    requires Admissible(input)
    requires n < input.shape[0] && c < input.shape[1] && oh < outH && ow < outW
    ensures var j := Offset(input.shape[1], outH, outW, n, c, oh, ow);
            && j < |AdaptiveAvgPool2dSpec(input, outH, outW).data|
            && AdaptiveAvgPool2dSpec(input, outH, outW).data[j]
               == CellMean(input.data, input.shape[1], input.shape[2], input.shape[3], n, c, oh, ow, outH, outW)
  {
    OffsetBound(input.shape[0], input.shape[1], outH, outW, n, c, oh, ow);
    DecodeOffset(input.shape[1], outH, outW, n, c, oh, ow);
  }

  /** For a 1x1 output the single cell is the whole plane: element (n, c) is the plane's mean. */
  lemma GlobalAveragePool(input: Tensor, n: nat, c: nat)
    requires Admissible(input) && n < input.shape[0] && c < input.shape[1]
    ensures var C, H, W := input.shape[1], input.shape[2], input.shape[3];
            && n * C + c < |AdaptiveAvgPool2dSpec(input, 1, 1).data|
            && AdaptiveAvgPool2dSpec(input, 1, 1).data[n * C + c]
               == Quot(CellSum(input.data, C, H, W, n, c, 0, H, 0, W), (H * W) as real)
  {
    AdaptiveAvgPool2dSpecAt(input, 1, 1, n, c, 0, 0);
  }

  /**
   * The two innermost loops of adaptive_avg_pool2d: sum and count over rows [hs, he) and
   * columns [ws, we) of plane (n, c), then sum / count.
   */
  method CellAverage(input: Tensor, n: nat, c: nat, hs: nat, he: nat, ws: nat, we: nat) returns (avg: real)
    requires Admissible(input)
    requires n < input.shape[0] && c < input.shape[1]
    requires hs <= he <= input.shape[2] && ws <= we <= input.shape[3]
    ensures avg == Quot(CellSum(input.data, input.shape[1], input.shape[2], input.shape[3], n, c, hs, he, ws, we),
                        ((he - hs) * (we - ws)) as real)
  {
    var C, H, W := input.shape[1], input.shape[2], input.shape[3];
    var sum := 0.0;
    var count := 0;
    for h := hs to he
      invariant sum == CellSum(input.data, C, H, W, n, c, hs, h, ws, we)
      invariant count == (h - hs) * (we - ws)
    {
      for w := ws to we
        invariant sum == CellSum(input.data, C, H, W, n, c, hs, h, ws, we) + RowSum(input.data, C, H, W, n, c, h, ws, w)
        invariant count == (h - hs) * (we - ws) + (w - ws)
      {
        OffsetBound(input.shape[0], C, H, W, n, c, h, w);
        sum := sum + At(input, n, c, h, w);
        count := count + 1;
      }
      assert (h + 1 - hs) * (we - ws) == (h - hs) * (we - ws) + (we - ws);
    }
    avg := Quot(sum, count as real);
  }

  /**
   * adaptive_avg_pool2d: every output element, in offset order, receives the mean of its
   * cell; the result equals AdaptiveAvgPool2dSpec.
   */
  method AdaptiveAvgPool2d(input: Tensor, outH: nat, outW: nat) returns (output: Tensor)
    requires Admissible(input)
    ensures output == AdaptiveAvgPool2dSpec(input, outH, outW)
  {
    var N, C := input.shape[0], input.shape[1];
    ghost var spec := AdaptiveAvgPool2dSpec(input, outH, outW).data;
    Product4([N, C, outH, outW]);
    var out := ZeroBuffer(N * C * outH * outW, spec);
    ghost var k: nat := 0;
    for n := 0 to N
      invariant k == Offset(C, outH, outW, n, 0, 0, 0)
      invariant Filled(out, k, spec)
    {
      for c := 0 to C
        invariant k == Offset(C, outH, outW, n, c, 0, 0)
        invariant Filled(out, k, spec)
      {
        PoolPlane(out, input, outH, outW, spec, n, c);
        OffsetCarry(C, outH, outW, n, c, 0);
        k := Offset(C, outH, outW, n, c + 1, 0, 0);
      }
      OffsetCarry(C, outH, outW, n, 0, 0);
    }
    OffsetTotal(N, C, outH, outW);
    FilledAll(out[..], Offset(C, outH, outW, N, 0, 0, 0), spec);
    output := Tensor([N, C, outH, outW], out[..]);
  }

  /** The loops of adaptive_avg_pool2d over the output cells (oh, ow) of one plane (n, c). */
  method PoolPlane(out: array<real>, input: Tensor, outH: nat, outW: nat, ghost spec: seq<real>, n: nat, c: nat)
    requires Admissible(input) && spec == AdaptiveAvgPool2dSpec(input, outH, outW).data
    requires n < input.shape[0] && c < input.shape[1]
    requires Filled(out, Offset(input.shape[1], outH, outW, n, c, 0, 0), spec)
    modifies out
    ensures Filled(out, Offset(input.shape[1], outH, outW, n, c, outH, 0), spec)
  {
    var C, H, W := input.shape[1], input.shape[2], input.shape[3];
    for oh := 0 to outH
      invariant Filled(out, Offset(C, outH, outW, n, c, oh, 0), spec)
    {
      for ow := 0 to outW
        invariant Filled(out, Offset(C, outH, outW, n, c, oh, ow), spec)
      {
        var hStart := (oh * H) / outH;
        var hEnd := ((oh + 1) * H) / outH;
        var wStart := (ow * W) / outW;
        var wEnd := ((ow + 1) * W) / outW;
        CellOrdered(oh, H, outH);
        CellBounds(oh, H, outH);
        CellOrdered(ow, W, outW);
        CellBounds(ow, W, outW);
        var avg := CellAverage(input, n, c, hStart, hEnd, wStart, wEnd);
        var idx := ((n * C + c) * outH + oh) * outW + ow;
        AdaptiveAvgPool2dSpecAt(input, outH, outW, n, c, oh, ow);
        Store(out, spec, idx, avg);
      }
      OffsetCarry(C, outH, outW, n, c, oh);
    }
  }
}
