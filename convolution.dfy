/**
 * conv2d of src/layers.cpp: grouped 2-D convolution with stride, zero padding
 * and no bias, over buffers laid out as [N, C, H, W].
 */
module Convolution {
  import opened Arith
  import opened Tensors

  /** C++ output size (in + 2*padding - k) / stride + 1 with truncating division. */
  function OutSize(size: nat, k: nat, stride: int, padding: int): int
    requires stride > 0
  {
    TruncDiv(size + 2 * padding - k, stride) + 1
  }

  /** The sizes conv2d reads off its arguments, and its integer parameters. */
  datatype Geometry = Geometry(
    N: nat, Cin: nat, H: nat, W: nat,
    Cout: nat, kH: nat, kW: nat,
    Hout: nat, Wout: nat,
    stride: nat, padding: int, groups: nat)
  {
    /** C_per_group: input channels read by one group. */
    function CperG(): nat
      requires groups > 0
    {
      Cin / groups
    }

    /** C_out_per_group: output channels written by one group. */
    function CoutPerG(): nat
      requires groups > 0
    {
      Cout / groups
    }

    /** The buffers are long enough for every index conv2d computes. */
    predicate Fits(x: seq<real>, w: seq<real>)
    {
      groups > 0 && stride > 0
      && |x| >= N * Cin * H * W
      && |w| >= Cout * CperG() * kH * kW
    }
  }

  /**
   * What the C++ code needs of its arguments: 4-D shapes, a positive stride and
   * group count (it divides by both), non-negative output sizes (the output
   * allocation fails otherwise), and buffers long enough for its reads.
   */
  predicate Admissible(input: Tensor, weight: Tensor, stride: int, padding: int, groups: int)
  {
    && |input.shape| >= 4 && |weight.shape| >= 4
    && stride > 0 && groups > 0
    && OutSize(input.shape[2], weight.shape[2], stride, padding) >= 0
    && OutSize(input.shape[3], weight.shape[3], stride, padding) >= 0
    && |input.data| >= input.shape[0] * input.shape[1] * input.shape[2] * input.shape[3]
    && |weight.data| >= weight.shape[0] * (input.shape[1] / groups) * weight.shape[2] * weight.shape[3]
  }

  function GeometryOf(input: Tensor, weight: Tensor, stride: int, padding: int, groups: int): (g: Geometry)
    requires Admissible(input, weight, stride, padding, groups)
    ensures g.Fits(input.data, weight.data)
  {
    Geometry(input.shape[0], input.shape[1], input.shape[2], input.shape[3],
             weight.shape[0], weight.shape[2], weight.shape[3],
             OutSize(input.shape[2], weight.shape[2], stride, padding),
             OutSize(input.shape[3], weight.shape[3], stride, padding),
             stride, padding, groups)
  }

  /** One output position (n, och, oh, ow) and the group grp its channel belongs to. */
  datatype Site = Site(n: nat, grp: nat, och: nat, oh: nat, ow: nat)

  predicate SiteOk(g: Geometry, s: Site)
  {
    g.groups > 0 && s.n < g.N && s.grp < g.groups && s.och < g.Cout
  }

  /** Input channel ic of group grp is the channel grp * C_per_group + ic, and it exists. */
  lemma GroupChannelBound(g: Geometry, grp: nat, ic: nat)
    requires g.groups > 0 && grp < g.groups && ic < g.CperG()
    ensures grp * g.CperG() + ic < g.Cin
  {
    MixedLt(grp, ic, g.groups, g.CperG());
    assert g.Cin == g.CperG() * g.groups + g.Cin % g.groups;
  }

  /** An output channel below groups * C_out_per_group exists. */
  lemma GroupedOutputBound(g: Geometry, och: nat)
    requires g.groups > 0 && och < g.groups * g.CoutPerG()
    ensures och < g.Cout
  {
    assert g.Cout == g.CoutPerG() * g.groups + g.Cout % g.groups;
  }

  /**
   * Kernel tap (ic, kh, kw) for output site s: the product of an input and a weight
   * element when the tapped position lies inside the input, zero when it falls in
   * the padding.
   */
  function Tap(g: Geometry, x: seq<real>, w: seq<real>, s: Site, ic: nat, kh: nat, kw: nat): real
    requires g.groups > 0
  {
    var ih := s.oh * g.stride - g.padding + kh;
    var iw := s.ow * g.stride - g.padding + kw;
    if 0 <= ih < g.H && 0 <= iw < g.W then
      Get(x, Offset(g.Cin, g.H, g.W, s.n, s.grp * g.CperG() + ic, ih, iw))
        * Get(w, Offset(g.CperG(), g.kH, g.kW, s.och, ic, kh, kw))
    else
      0.0
  }

  /** Taps kw' < m of kernel row kh of input channel ic. */
  function SumKw(g: Geometry, x: seq<real>, w: seq<real>, s: Site, ic: nat, kh: nat, m: nat): real
    requires g.groups > 0
  {
    if m == 0 then 0.0 else SumKw(g, x, w, s, ic, kh, m - 1) + Tap(g, x, w, s, ic, kh, m - 1)
  }

  /** Kernel rows kh' < m of input channel ic. */
  function SumKh(g: Geometry, x: seq<real>, w: seq<real>, s: Site, ic: nat, m: nat): real
    requires g.groups > 0
  {
    if m == 0 then 0.0 else SumKh(g, x, w, s, ic, m - 1) + SumKw(g, x, w, s, ic, m - 1, g.kW)
  }

  /** Input channels ic' < m of the site's group. */
  function SumIc(g: Geometry, x: seq<real>, w: seq<real>, s: Site, m: nat): real
    requires g.groups > 0
  {
    if m == 0 then 0.0 else SumIc(g, x, w, s, m - 1) + SumKh(g, x, w, s, m - 1, g.kH)
  }

  /** The receptive-field sum of one output element. */
  function WindowValue(g: Geometry, x: seq<real>, w: seq<real>, s: Site): real
    requires g.groups > 0
  {
    SumIc(g, x, w, s, g.CperG())
  }

  /**
   * Output element (n, och, oh, ow): the window sum for channels covered by the groups,
   * and the zero the buffer was filled with for the up to groups - 1 trailing channels
   * that no group writes when groups does not divide C_out.
   */
  function ConvValue(g: Geometry, x: seq<real>, w: seq<real>, n: nat, och: nat, oh: nat, ow: nat): real
    requires g.groups > 0
  {
    if och < g.groups * g.CoutPerG() then WindowValue(g, x, w, Site(n, och / g.CoutPerG(), och, oh, ow))
    else 0.0
  }

  /** Output element at flat position j. */
  function OutputAt(g: Geometry, x: seq<real>, w: seq<real>, j: nat): real
    requires g.groups > 0 && j < g.N * g.Cout * g.Hout * g.Wout
  {
    PositiveFactors(g.N, g.Cout, g.Hout, g.Wout, j);
    var i := Decode(g.Cout, g.Hout, g.Wout, j);
    ConvValue(g, x, w, i.n, i.c, i.h, i.w)
  }

  /** The elements of the conv2d output, in offset order. */
  function ConvData(g: Geometry, x: seq<real>, w: seq<real>): (d: seq<real>)
    requires g.groups > 0
    ensures |d| == g.N * g.Cout * g.Hout * g.Wout
  {
    var L: nat := g.N * g.Cout * g.Hout * g.Wout;
    seq(L, j requires 0 <= j < L => OutputAt(g, x, w, j))
  }

  /** The tensor conv2d returns. */
  function Conv2dSpec(input: Tensor, weight: Tensor, stride: int, padding: int, groups: int): (out: Tensor)
    requires Admissible(input, weight, stride, padding, groups)
    ensures Valid(out) && |out.shape| == 4
    ensures out.shape == [input.shape[0], weight.shape[0],
                          OutSize(input.shape[2], weight.shape[2], stride, padding),
                          OutSize(input.shape[3], weight.shape[3], stride, padding)]
  {
    var g := GeometryOf(input, weight, stride, padding, groups);
    var out := Tensor([g.N, g.Cout, g.Hout, g.Wout], ConvData(g, input.data, weight.data));
    Product4(out.shape);
    out
  }

  /**
   * A conv2d output buffer, stated position by position: at every in-bounds
   * (n, och, oh, ow) it holds ConvValue.
   */
  ghost predicate IsConvOutput(g: Geometry, x: seq<real>, w: seq<real>, spec: seq<real>)
    requires g.groups > 0
  {
    && |spec| == g.N * g.Cout * g.Hout * g.Wout
    && forall n: nat, och: nat, oh: nat, ow: nat {:trigger Offset(g.Cout, g.Hout, g.Wout, n, och, oh, ow)} ::
         n < g.N && och < g.Cout && oh < g.Hout && ow < g.Wout ==>
           && Offset(g.Cout, g.Hout, g.Wout, n, och, oh, ow) < |spec|
           && spec[Offset(g.Cout, g.Hout, g.Wout, n, och, oh, ow)] == ConvValue(g, x, w, n, och, oh, ow)
  }

  lemma Conv2dSpecIsOutput(input: Tensor, weight: Tensor, stride: int, padding: int, groups: int)
    requires Admissible(input, weight, stride, padding, groups)
    ensures IsConvOutput(GeometryOf(input, weight, stride, padding, groups), input.data, weight.data,
                         Conv2dSpec(input, weight, stride, padding, groups).data)
  {
    ConvDataIsOutput(GeometryOf(input, weight, stride, padding, groups), input.data, weight.data);
  }

  lemma ConvDataIsOutput(g: Geometry, x: seq<real>, w: seq<real>)
    requires g.groups > 0
    ensures IsConvOutput(g, x, w, ConvData(g, x, w))
  {
    forall n: nat, och: nat, oh: nat, ow: nat | n < g.N && och < g.Cout && oh < g.Hout && ow < g.Wout
      ensures Offset(g.Cout, g.Hout, g.Wout, n, och, oh, ow) < |ConvData(g, x, w)|
      ensures ConvData(g, x, w)[Offset(g.Cout, g.Hout, g.Wout, n, och, oh, ow)] == ConvValue(g, x, w, n, och, oh, ow)
    {
      OffsetBound(g.N, g.Cout, g.Hout, g.Wout, n, och, oh, ow);
      DecodeOffset(g.Cout, g.Hout, g.Wout, n, och, oh, ow);
    }
  }

  /**
   * Every index a tap inside the input reads is in bounds: the input index below
   * N*C_in*H*W, inside the group's channels, and the weight index below
   * C_out*C_per_group*kH*kW; the tap is the product of the two elements.
   */
  lemma TapInBounds(g: Geometry, x: seq<real>, w: seq<real>, s: Site, ic: nat, kh: nat, kw: nat,
                    inputIdx: int, weightIdx: int)
    requires g.Fits(x, w) && SiteOk(g, s) && ic < g.CperG() && kh < g.kH && kw < g.kW
    requires 0 <= s.oh * g.stride - g.padding + kh < g.H
    requires 0 <= s.ow * g.stride - g.padding + kw < g.W
    requires inputIdx == Offset(g.Cin, g.H, g.W, s.n, s.grp * g.CperG() + ic,
                                s.oh * g.stride - g.padding + kh, s.ow * g.stride - g.padding + kw)
    requires weightIdx == Offset(g.CperG(), g.kH, g.kW, s.och, ic, kh, kw)
    ensures 0 <= inputIdx < |x| && 0 <= weightIdx < |w|
    ensures s.grp * g.CperG() <= s.grp * g.CperG() + ic < (s.grp + 1) * g.CperG()
  {
    GroupChannelBound(g, s.grp, ic);
    OffsetBound(g.N, g.Cin, g.H, g.W, s.n, s.grp * g.CperG() + ic,
                s.oh * g.stride - g.padding + kh, s.ow * g.stride - g.padding + kw);
    OffsetBound(g.Cout, g.CperG(), g.kH, g.kW, s.och, ic, kh, kw);
  }

  /** A tap inside the input is the product of the input and weight elements at those indices. */
  lemma TapAt(g: Geometry, x: seq<real>, w: seq<real>, s: Site, ic: nat, kh: nat, kw: nat,
              inputIdx: int, weightIdx: int)
    requires g.groups > 0
    requires 0 <= s.oh * g.stride - g.padding + kh < g.H
    requires 0 <= s.ow * g.stride - g.padding + kw < g.W
    requires inputIdx == Offset(g.Cin, g.H, g.W, s.n, s.grp * g.CperG() + ic,
                                s.oh * g.stride - g.padding + kh, s.ow * g.stride - g.padding + kw)
    requires weightIdx == Offset(g.CperG(), g.kH, g.kW, s.och, ic, kh, kw)
    requires 0 <= inputIdx < |x| && 0 <= weightIdx < |w|
    ensures Tap(g, x, w, s, ic, kh, kw) == x[inputIdx] * w[weightIdx]
  {
  }

  /** The three inner loops of conv2d (over ic, kh, kw) for one output element. */
  method WindowSum(x: seq<real>, w: seq<real>, g: Geometry, s: Site) returns (sum: real)
    requires g.Fits(x, w) && SiteOk(g, s)
    ensures sum == WindowValue(g, x, w, s)
  {
    var CperG := g.Cin / g.groups;
    sum := 0.0;
    for ic := 0 to CperG
      invariant sum == SumIc(g, x, w, s, ic)
    {
      for kh := 0 to g.kH
        invariant sum == SumIc(g, x, w, s, ic) + SumKh(g, x, w, s, ic, kh)
      {
        var row := KernelRowSum(x, w, g, s, ic, kh);
        sum := sum + row;
      }
    }
  }

  /** The innermost loop of conv2d (over kw): the taps of kernel row kh of input channel ic. */
  method KernelRowSum(x: seq<real>, w: seq<real>, g: Geometry, s: Site, ic: nat, kh: nat) returns (sum: real)
    requires g.Fits(x, w) && SiteOk(g, s) && ic < g.CperG() && kh < g.kH
    ensures sum == SumKw(g, x, w, s, ic, kh, g.kW)
  {
    var CperG := g.Cin / g.groups;
    var inCh := s.grp * CperG + ic;
    sum := 0.0;
    for kw := 0 to g.kW
      invariant sum == SumKw(g, x, w, s, ic, kh, kw)
    {
      var ih := s.oh * g.stride - g.padding + kh;
      var iw := s.ow * g.stride - g.padding + kw;
      if ih >= 0 && ih < g.H && iw >= 0 && iw < g.W {
        var inputIdx := ((s.n * g.Cin + inCh) * g.H + ih) * g.W + iw;
        var weightIdx := ((s.och * CperG + ic) * g.kH + kh) * g.kW + kw;
        TapInBounds(g, x, w, s, ic, kh, kw, inputIdx, weightIdx);
        TapAt(g, x, w, s, ic, kh, kw, inputIdx, weightIdx);
        sum := sum + x[inputIdx] * w[weightIdx];
      }
    }
  }

  /**
   * Element (n, och, oh, ow) of the conv2d output, for a channel covered by the groups,
   * is the window sum of group och / C_out_per_group.
   */
  lemma Conv2dSpecAt(input: Tensor, weight: Tensor, stride: int, padding: int, groups: int,
                     n: nat, och: nat, oh: nat, ow: nat)
    requires Admissible(input, weight, stride, padding, groups)
    requires n < input.shape[0] && oh < OutSize(input.shape[2], weight.shape[2], stride, padding)
    requires ow < OutSize(input.shape[3], weight.shape[3], stride, padding)
    requires och < groups * (weight.shape[0] / groups)
    ensures var g := GeometryOf(input, weight, stride, padding, groups);
            var j := Offset(g.Cout, g.Hout, g.Wout, n, och, oh, ow);
            && j < |Conv2dSpec(input, weight, stride, padding, groups).data|
            && Conv2dSpec(input, weight, stride, padding, groups).data[j]
               == WindowValue(g, input.data, weight.data, Site(n, och / g.CoutPerG(), och, oh, ow))
  {
    var g := GeometryOf(input, weight, stride, padding, groups);
    GroupedOutputBound(g, och);
    Conv2dSpecIsOutput(input, weight, stride, padding, groups);
    assert Offset(g.Cout, g.Hout, g.Wout, n, och, oh, ow) < |Conv2dSpec(input, weight, stride, padding, groups).data|;
  }

  /**
   * The output channels from groups * C_out_per_group on are never written: every
   * element of batch n from the first of those channels up to the next batch is 0.
   */
  lemma ConvOutputTail(g: Geometry, x: seq<real>, w: seq<real>, spec: seq<real>, n: nat)
    requires g.groups > 0 && IsConvOutput(g, x, w, spec) && n < g.N
    ensures Offset(g.Cout, g.Hout, g.Wout, n, g.groups * g.CoutPerG(), 0, 0)
            <= Offset(g.Cout, g.Hout, g.Wout, n + 1, 0, 0, 0) <= |spec|
    ensures forall j ::
              (Offset(g.Cout, g.Hout, g.Wout, n, g.groups * g.CoutPerG(), 0, 0) <= j
               < Offset(g.Cout, g.Hout, g.Wout, n + 1, 0, 0, 0)) ==> spec[j] == 0.0
  {
    var c0 := g.groups * g.CoutPerG();
    assert c0 <= g.Cout by {
      assert g.Cout == g.CoutPerG() * g.groups + g.Cout % g.groups;
    }
    BatchEnd(g.N, g.Cout, g.Hout, g.Wout, n);
    ChannelStartMonotone(g.Cout, g.Hout, g.Wout, n, c0, g.Cout);
    OffsetCarry(g.Cout, g.Hout, g.Wout, n, 0, 0);
    forall j | Offset(g.Cout, g.Hout, g.Wout, n, c0, 0, 0) <= j < Offset(g.Cout, g.Hout, g.Wout, n + 1, 0, 0, 0)
      ensures spec[j] == 0.0
    {
      PositiveFactors(g.N, g.Cout, g.Hout, g.Wout, j);
      DecodeChannelFrom(g.Cout, g.Hout, g.Wout, n, c0, j);
      var i := Decode(g.Cout, g.Hout, g.Wout, j);
      assert Offset(g.Cout, g.Hout, g.Wout, i.n, i.c, i.h, i.w) == j;
    }
  }

  /**
   * When groups does not divide C_out, the output channels from groups * C_out_per_group
   * on are never written: the conv2d output holds 0 there.
   */
  lemma Conv2dSpecUnwritten(input: Tensor, weight: Tensor, stride: int, padding: int, groups: int,
                            n: nat, j: nat)
    requires Admissible(input, weight, stride, padding, groups)
    requires var g := GeometryOf(input, weight, stride, padding, groups);
             && n < g.N
             && Offset(g.Cout, g.Hout, g.Wout, n, groups * g.CoutPerG(), 0, 0) <= j
             && j < Offset(g.Cout, g.Hout, g.Wout, n + 1, 0, 0, 0)
    ensures j < |Conv2dSpec(input, weight, stride, padding, groups).data|
    ensures Conv2dSpec(input, weight, stride, padding, groups).data[j] == 0.0
  {
    var g := GeometryOf(input, weight, stride, padding, groups);
    Conv2dSpecIsOutput(input, weight, stride, padding, groups);
    ConvOutputTail(g, input.data, weight.data, Conv2dSpec(input, weight, stride, padding, groups).data, n);
  }

  /**
   * The two loops of conv2d over (oh, ow) for one batch n and one output channel
   * outCh of group grp: they fill the H_out * W_out consecutive elements of that plane.
   */
  method ConvPlane(out: array<real>, x: seq<real>, w: seq<real>, g: Geometry, ghost spec: seq<real>,
                   n: nat, grp: nat, outCh: nat)
    requires g.Fits(x, w) && IsConvOutput(g, x, w, spec)
    requires n < g.N && grp < g.groups && outCh < g.groups * g.CoutPerG() && outCh / g.CoutPerG() == grp
    requires Filled(out, Offset(g.Cout, g.Hout, g.Wout, n, outCh, 0, 0), spec)
    modifies out
    ensures Filled(out, Offset(g.Cout, g.Hout, g.Wout, n, outCh + 1, 0, 0), spec)
  {
    GroupedOutputBound(g, outCh);
    for oh := 0 to g.Hout
      invariant Filled(out, Offset(g.Cout, g.Hout, g.Wout, n, outCh, oh, 0), spec)
    {
      for ow := 0 to g.Wout
        invariant Filled(out, Offset(g.Cout, g.Hout, g.Wout, n, outCh, oh, ow), spec)
      {
        var sum := WindowSum(x, w, g, Site(n, grp, outCh, oh, ow));
        var outputIdx := ((n * g.Cout + outCh) * g.Hout + oh) * g.Wout + ow;
        assert outputIdx == Offset(g.Cout, g.Hout, g.Wout, n, outCh, oh, ow);
        Store(out, spec, outputIdx, sum);
      }
      OffsetCarry(g.Cout, g.Hout, g.Wout, n, outCh, oh);
    }
    OffsetCarry(g.Cout, g.Hout, g.Wout, n, outCh, 0);
  }

  /** The loops of conv2d over (grp, oc) for one batch n: they fill the elements of batch n. */
  method ConvBatch(out: array<real>, x: seq<real>, w: seq<real>, g: Geometry, ghost spec: seq<real>, n: nat)
    requires g.Fits(x, w) && IsConvOutput(g, x, w, spec) && n < g.N
    requires Filled(out, Offset(g.Cout, g.Hout, g.Wout, n, 0, 0, 0), spec)
    modifies out
    ensures Filled(out, Offset(g.Cout, g.Hout, g.Wout, n + 1, 0, 0, 0), spec)
  {
    var CoutPerG := g.Cout / g.groups;
    for grp := 0 to g.groups
      invariant Filled(out, Offset(g.Cout, g.Hout, g.Wout, n, grp * CoutPerG, 0, 0), spec)
    {
      for oc := 0 to CoutPerG
        invariant Filled(out, Offset(g.Cout, g.Hout, g.Wout, n, grp * CoutPerG + oc, 0, 0), spec)
      {
        var outCh := grp * CoutPerG + oc;
        MixedLt(grp, oc, g.groups, CoutPerG);
        DivModUnique(outCh, CoutPerG, grp, oc);
        ConvPlane(out, x, w, g, spec, n, grp, outCh);
      }
      assert (grp + 1) * CoutPerG == grp * CoutPerG + CoutPerG;
    }
    // Channels groups * C_out_per_group .. C_out - 1 are never written and keep their 0.
    ConvOutputTail(g, x, w, spec, n);
    FilledSkip(out[..], Offset(g.Cout, g.Hout, g.Wout, n, g.groups * CoutPerG, 0, 0),
               Offset(g.Cout, g.Hout, g.Wout, n + 1, 0, 0, 0), spec);
  }

  /**
   * conv2d: each output element is written once, at the offset the loops compute,
   * in increasing order; the result equals Conv2dSpec.
   */
  method Conv2d(input: Tensor, weight: Tensor, stride: int := 1, padding: int := 0, groups: int := 1)
    returns (output: Tensor)
    requires Admissible(input, weight, stride, padding, groups)
    ensures output == Conv2dSpec(input, weight, stride, padding, groups)
  {
    var N := input.shape[0];
    var Cout := weight.shape[0];
    var Hout: nat := TruncDiv(input.shape[2] + 2 * padding - weight.shape[2], stride) + 1;
    var Wout: nat := TruncDiv(input.shape[3] + 2 * padding - weight.shape[3], stride) + 1;
    var g := GeometryOf(input, weight, stride, padding, groups);
    ghost var spec := Conv2dSpec(input, weight, stride, padding, groups).data;
    var out := ZeroBuffer(N * Cout * Hout * Wout, spec);
    assert Offset(Cout, Hout, Wout, 0, 0, 0, 0) == 0;
    Conv2dSpecIsOutput(input, weight, stride, padding, groups);
    for n := 0 to N
      invariant Filled(out, Offset(Cout, Hout, Wout, n, 0, 0, 0), spec)
    {
      ConvBatch(out, input.data, weight.data, g, spec, n);
    }
    OffsetTotal(N, Cout, Hout, Wout);
    FilledAll(out[..], Offset(Cout, Hout, Wout, N, 0, 0, 0), spec);
    output := Tensor([N, Cout, Hout, Wout], out[..]);
  }

  /** x1 and x2 agree on every element of batch n whose channel lies in group grp. */
  ghost predicate AgreeOnGroup(g: Geometry, x1: seq<real>, x2: seq<real>, n: nat, grp: nat)
    requires g.groups > 0
  {
    forall ch: nat, ih: nat, iw: nat {:trigger Offset(g.Cin, g.H, g.W, n, ch, ih, iw)} ::
      grp * g.CperG() <= ch < grp * g.CperG() + g.CperG() && ih < g.H && iw < g.W
      ==> Get(x1, Offset(g.Cin, g.H, g.W, n, ch, ih, iw)) == Get(x2, Offset(g.Cin, g.H, g.W, n, ch, ih, iw))
  }

  lemma {:induction false} SumKwLocal(g: Geometry, x1: seq<real>, x2: seq<real>, w: seq<real>,
                                      s: Site, ic: nat, kh: nat, m: nat)
    requires g.groups > 0 && ic < g.CperG() && AgreeOnGroup(g, x1, x2, s.n, s.grp)
    ensures SumKw(g, x1, w, s, ic, kh, m) == SumKw(g, x2, w, s, ic, kh, m)
  {
    if m > 0 {
      SumKwLocal(g, x1, x2, w, s, ic, kh, m - 1);
    }
  }

  lemma {:induction false} SumKhLocal(g: Geometry, x1: seq<real>, x2: seq<real>, w: seq<real>,
                                      s: Site, ic: nat, m: nat)
    requires g.groups > 0 && ic < g.CperG() && AgreeOnGroup(g, x1, x2, s.n, s.grp)
    ensures SumKh(g, x1, w, s, ic, m) == SumKh(g, x2, w, s, ic, m)
  {
    if m > 0 {
      SumKhLocal(g, x1, x2, w, s, ic, m - 1);
      SumKwLocal(g, x1, x2, w, s, ic, m - 1, g.kW);
    }
  }

  lemma {:induction false} SumIcLocal(g: Geometry, x1: seq<real>, x2: seq<real>, w: seq<real>,
                                      s: Site, m: nat)
    requires g.groups > 0 && m <= g.CperG() && AgreeOnGroup(g, x1, x2, s.n, s.grp)
    ensures SumIc(g, x1, w, s, m) == SumIc(g, x2, w, s, m)
  {
    if m > 0 {
      SumIcLocal(g, x1, x2, w, s, m - 1);
      SumKhLocal(g, x1, x2, w, s, m - 1, g.kH);
    }
  }

  /**
   * Grouped convolution reads only its own group's input channels: two inputs that
   * agree on channels grp*C_per_group .. (grp+1)*C_per_group - 1 of batch n give the
   * same output at every channel of group grp (src/layers.cpp:30-39).
   */
  lemma ConvGroupLocal(input1: Tensor, input2: Tensor, weight: Tensor, stride: int, padding: int, groups: int,
                       n: nat, och: nat, oh: nat, ow: nat)
    requires Admissible(input1, weight, stride, padding, groups)
    requires Admissible(input2, weight, stride, padding, groups)
    requires input1.shape == input2.shape
    requires n < input1.shape[0] && oh < OutSize(input1.shape[2], weight.shape[2], stride, padding)
    requires ow < OutSize(input1.shape[3], weight.shape[3], stride, padding)
    requires och < groups * (weight.shape[0] / groups)
    requires AgreeOnGroup(GeometryOf(input1, weight, stride, padding, groups), input1.data, input2.data,
                          n, och / (weight.shape[0] / groups))
    ensures var g := GeometryOf(input1, weight, stride, padding, groups);
            var j := Offset(g.Cout, g.Hout, g.Wout, n, och, oh, ow);
            && j < |Conv2dSpec(input1, weight, stride, padding, groups).data|
            && Conv2dSpec(input1, weight, stride, padding, groups).data[j]
               == Conv2dSpec(input2, weight, stride, padding, groups).data[j]
  {
    var g := GeometryOf(input1, weight, stride, padding, groups);
    Conv2dSpecAt(input1, weight, stride, padding, groups, n, och, oh, ow);
    Conv2dSpecAt(input2, weight, stride, padding, groups, n, och, oh, ow);
    assert GeometryOf(input2, weight, stride, padding, groups) == g;
    SumIcLocal(g, input1.data, input2.data, weight.data, Site(n, och / g.CoutPerG(), och, oh, ow), g.CperG());
  }

  /**
   * When groups divides C_out every output channel belongs to a group, so every
   * output element is a window sum and none keeps the initial zero.
   */
  lemma Conv2dSpecAllWritten(input: Tensor, weight: Tensor, stride: int, padding: int, groups: int,
                             n: nat, och: nat, oh: nat, ow: nat)
    requires Admissible(input, weight, stride, padding, groups)
    requires weight.shape[0] % groups == 0
    requires n < input.shape[0] && och < weight.shape[0]
    requires oh < OutSize(input.shape[2], weight.shape[2], stride, padding)
    requires ow < OutSize(input.shape[3], weight.shape[3], stride, padding)
    ensures var g := GeometryOf(input, weight, stride, padding, groups);
            var j := Offset(g.Cout, g.Hout, g.Wout, n, och, oh, ow);
            && j < |Conv2dSpec(input, weight, stride, padding, groups).data|
            && Conv2dSpec(input, weight, stride, padding, groups).data[j]
               == WindowValue(g, input.data, weight.data, Site(n, och / g.CoutPerG(), och, oh, ow))
  {
    var Cout := weight.shape[0];
    assert Cout == (Cout / groups) * groups + Cout % groups;
    Conv2dSpecAt(input, weight, stride, padding, groups, n, och, oh, ow);
  }
}
