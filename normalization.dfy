/** batchnorm2d of src/layers.cpp: inference-mode batch normalisation with running statistics. */
module Normalization {
  import opened Tensors
  import opened Numerics

  /** 4-D input, and per-channel parameter buffers with an entry for every channel. */
  predicate Admissible(input: Tensor, weight: Tensor, bias: Tensor, mean: Tensor, variance: Tensor)
  {
    && |input.shape| == 4
    && |input.data| >= input.shape[0] * input.shape[1] * input.shape[2] * input.shape[3]
    && |weight.data| >= input.shape[1] && |bias.data| >= input.shape[1]
    && |mean.data| >= input.shape[1] && |variance.data| >= input.shape[1]
  }

  /** scale = gamma / sqrt(var + eps) of channel c. */
  function Scale(m: Math, weight: Tensor, variance: Tensor, eps: real, c: nat): real
    requires c < |weight.data| && c < |variance.data|
  {
    Quot(weight.data[c], m.sqrt(variance.data[c] + eps))
  }

  /** The normalised value of input element x of channel c. */
  function Normalize(m: Math, weight: Tensor, bias: Tensor, mean: Tensor, variance: Tensor, eps: real,
                     c: nat, x: real): real
    requires c < |weight.data| && c < |bias.data| && c < |mean.data| && c < |variance.data|
  {
    Scale(m, weight, variance, eps, c) * (x - mean.data[c]) + bias.data[c]
  }

  /** The tensor batchnorm2d returns. */
  function BatchNorm2dSpec(m: Math, input: Tensor, weight: Tensor, bias: Tensor, mean: Tensor,
                           variance: Tensor, eps: real): (out: Tensor)
    requires Admissible(input, weight, bias, mean, variance)
    ensures out.shape == input.shape && Valid(out)
  {
    var C, H, W := input.shape[1], input.shape[2], input.shape[3];
    var L := input.shape[0] * C * H * W;
    Product4(input.shape);
    Tensor(input.shape, seq(L, j requires 0 <= j < L =>
      PositiveFactors(input.shape[0], C, H, W, j);
      Normalize(m, weight, bias, mean, variance, eps, Decode(C, H, W, j).c, input.data[j])))
  }

  /**
   * batchnorm2d: writes every element, in offset order, with the affine map of its
   * own channel; the result equals BatchNorm2dSpec.
   */
  method BatchNorm2d(m: Math, input: Tensor, weight: Tensor, bias: Tensor, mean: Tensor, variance: Tensor,
                     eps: real := 0.00001)
    returns (output: Tensor)
    requires Admissible(input, weight, bias, mean, variance)
    ensures output == BatchNorm2dSpec(m, input, weight, bias, mean, variance, eps)
  {
    var N, C, H, W := input.shape[0], input.shape[1], input.shape[2], input.shape[3];
    ghost var spec := BatchNorm2dSpec(m, input, weight, bias, mean, variance, eps).data;
    Product4(input.shape);
    var out := ZeroBuffer(N * C * H * W, spec);
    ghost var k: nat := 0;
    for n := 0 to N
      invariant k == Offset(C, H, W, n, 0, 0, 0)
      invariant Filled(out, k, spec)
    {
      for c := 0 to C
        invariant k == Offset(C, H, W, n, c, 0, 0)
        invariant Filled(out, k, spec)
      {
        var mu := mean.data[c];
        var sigma2 := variance.data[c];
        var gamma := weight.data[c];
        var beta := bias.data[c];
        var scale := Quot(gamma, m.sqrt(sigma2 + eps));
        ChannelPlane(out, m, input, weight, bias, mean, variance, eps, spec, n, c, scale, k);
        OffsetCarry(C, H, W, n, c, 0);
        k := Offset(C, H, W, n, c + 1, 0, 0);
      }
      OffsetCarry(C, H, W, n, 0, 0);
    }
    OffsetTotal(N, C, H, W);
    FilledAll(out[..], Offset(C, H, W, N, 0, 0, 0), spec);
    output := Tensor(input.shape, out[..]);
  }

  /** The loop of batchnorm2d over h for one batch n and channel c. */
  method ChannelPlane(out: array<real>, m: Math, input: Tensor, weight: Tensor, bias: Tensor, mean: Tensor,
                      variance: Tensor, eps: real, ghost spec: seq<real>, n: nat, c: nat, scale: real,
                      ghost k0: nat)
    requires Admissible(input, weight, bias, mean, variance)
    requires spec == BatchNorm2dSpec(m, input, weight, bias, mean, variance, eps).data
    requires n < input.shape[0] && c < input.shape[1] && scale == Scale(m, weight, variance, eps, c)
    requires k0 == Offset(input.shape[1], input.shape[2], input.shape[3], n, c, 0, 0)
    requires Filled(out, k0, spec)
    modifies out
    ensures Filled(out, Offset(input.shape[1], input.shape[2], input.shape[3], n, c, input.shape[2], 0), spec)
  {
    var C, H, W := input.shape[1], input.shape[2], input.shape[3];
    ghost var k := k0;
    for h := 0 to H
      invariant k == Offset(C, H, W, n, c, h, 0)
      invariant Filled(out, k, spec)
    {
      ChannelRow(out, m, input, weight, bias, mean, variance, eps, spec, n, c, h, scale, k);
      OffsetCarry(C, H, W, n, c, h);
      k := Offset(C, H, W, n, c, h + 1, 0);
    }
  }

  /** The innermost loop of batchnorm2d (over w) for one row h of channel c in batch n. */
  method ChannelRow(out: array<real>, m: Math, input: Tensor, weight: Tensor, bias: Tensor, mean: Tensor,
                    variance: Tensor, eps: real, ghost spec: seq<real>, n: nat, c: nat, h: nat, scale: real,
                    ghost k0: nat)
    requires Admissible(input, weight, bias, mean, variance)
    requires spec == BatchNorm2dSpec(m, input, weight, bias, mean, variance, eps).data
    requires n < input.shape[0] && c < input.shape[1] && h < input.shape[2]
    requires scale == Scale(m, weight, variance, eps, c)
    requires k0 == Offset(input.shape[1], input.shape[2], input.shape[3], n, c, h, 0)
    requires Filled(out, k0, spec)
    modifies out
    ensures Filled(out, Offset(input.shape[1], input.shape[2], input.shape[3], n, c, h, input.shape[3]), spec)
  {
    var C, H, W := input.shape[1], input.shape[2], input.shape[3];
    var rowStart := ((n * C + c) * H + h) * W;
    for w := 0 to W
      invariant Filled(out, rowStart + w, spec)
    {
      var idx := rowStart + w;
      BatchNormAt(m, input, weight, bias, mean, variance, eps, n, c, h, w);
      WriteElement(out, m, input, weight, bias, mean, variance, eps, spec, c, scale, idx);
    }
  }

  /** The body of the innermost loop: out[idx] = scale * (x[idx] - mean_c) + beta_c. */
  method WriteElement(out: array<real>, m: Math, input: Tensor, weight: Tensor, bias: Tensor, mean: Tensor,
                      variance: Tensor, eps: real, ghost spec: seq<real>, c: nat, scale: real, idx: nat)
    requires c < |weight.data| && c < |bias.data| && c < |mean.data| && c < |variance.data|
    requires idx < |input.data| && idx < |spec| && scale == Scale(m, weight, variance, eps, c)
    requires spec[idx] == Normalize(m, weight, bias, mean, variance, eps, c, input.data[idx])
    requires Filled(out, idx, spec)
    modifies out
    ensures Filled(out, idx + 1, spec)
  {
    var value := scale * (input.data[idx] - mean.data[c]) + bias.data[c];
    FilledStep(out[..], idx, spec, value);
    out[idx] := value;
  }

  /**
   * Element (n, c, h, w) of the output is gamma_c / sqrt(var_c + eps) * (x - mean_c) + beta_c,
   * with x the input element at the same position: only channel c's parameters are used.
   */
  lemma BatchNormAt(m: Math, input: Tensor, weight: Tensor, bias: Tensor, mean: Tensor, variance: Tensor,
                    eps: real, n: nat, c: nat, h: nat, w: nat)
    requires Admissible(input, weight, bias, mean, variance)
    requires n < input.shape[0] && c < input.shape[1] && h < input.shape[2] && w < input.shape[3]
    ensures var j := Offset(input.shape[1], input.shape[2], input.shape[3], n, c, h, w);
            && j < |input.data|
            && j < |BatchNorm2dSpec(m, input, weight, bias, mean, variance, eps).data|
            && BatchNorm2dSpec(m, input, weight, bias, mean, variance, eps).data[j]
               == Normalize(m, weight, bias, mean, variance, eps, c, input.data[j])
  {
    OffsetBound(input.shape[0], input.shape[1], input.shape[2], input.shape[3], n, c, h, w);
    DecodeOffset(input.shape[1], input.shape[2], input.shape[3], n, c, h, w);
  }

  /**
   * With mean 0, gamma 1, beta 0 and a square root that gives 1 at var + eps,
   * batch normalisation is the identity.
   */
  lemma BatchNormIdentity(m: Math, input: Tensor, weight: Tensor, bias: Tensor, mean: Tensor, variance: Tensor,
                          eps: real)
    requires Admissible(input, weight, bias, mean, variance)
    requires Valid(input)
    requires forall c :: 0 <= c < input.shape[1] ==>
      mean.data[c] == 0.0 && weight.data[c] == 1.0 && bias.data[c] == 0.0 && m.sqrt(variance.data[c] + eps) == 1.0
    ensures BatchNorm2dSpec(m, input, weight, bias, mean, variance, eps) == input
  {
    var out := BatchNorm2dSpec(m, input, weight, bias, mean, variance, eps);
    Product4(input.shape);
    forall j | 0 <= j < |input.data|
      ensures out.data[j] == input.data[j]
    {
      PositiveFactors(input.shape[0], input.shape[1], input.shape[2], input.shape[3], j);
      DecodeBound(input.shape[0], input.shape[1], input.shape[2], input.shape[3], j);
    }
  }
}
