/** linear of src/layers.cpp: a fully connected layer with an optional bias. */
module Dense {
  import opened Arith
  import opened Wrappers
  import opened Tensors

  /**
   * Input [N, F], weight [O, F]: the buffers hold every element the loops read, and a
   * bias, when given, holds one element per output feature.
   */
  predicate Admissible(input: Tensor, weight: Tensor, bias: Option<Tensor>)
  {
    && |input.shape| >= 2 && |weight.shape| >= 1
    && |input.data| >= input.shape[0] * input.shape[1]
    && |weight.data| >= weight.shape[0] * input.shape[1]
    && (bias.Some? ==> |bias.value.data| >= weight.shape[0])
  }

  /** Sum of the first m products x[xBase + i] * w[wBase + i]. */
  function Dot(x: seq<real>, w: seq<real>, xBase: nat, wBase: nat, m: nat): real
  {
    if m == 0 then 0.0 else Dot(x, w, xBase, wBase, m - 1) + Get(x, xBase + m - 1) * Get(w, wBase + m - 1)
  }

  /** Element (n, o): the dot product of input row n with weight row o, plus bias[o] when given. */
  function LinearValue(x: seq<real>, w: seq<real>, bias: Option<Tensor>, F: nat, n: nat, o: nat): real
  {
    Dot(x, w, n * F, o * F, F) + (if bias.Some? then Get(bias.value.data, o) else 0.0)
  }

  /** The tensor linear returns. */
  function LinearSpec(input: Tensor, weight: Tensor, bias: Option<Tensor>): (out: Tensor)
    requires Admissible(input, weight, bias)
    ensures out.shape == [input.shape[0], weight.shape[0]] && Valid(out)
  {
    var N, F, O := input.shape[0], input.shape[1], weight.shape[0];
    var L: nat := N * O;
    var out := Tensor([N, O], seq(L, j requires 0 <= j < L => LinearValue(input.data, weight.data, bias, F, j / O, j % O)));
    Product2(out.shape);
    out
  }

  /** Element (n, o) of the output, at offset n * O + o. */
  lemma LinearSpecAt(input: Tensor, weight: Tensor, bias: Option<Tensor>, n: nat, o: nat)
    requires Admissible(input, weight, bias) && n < input.shape[0] && o < weight.shape[0]
    ensures n * weight.shape[0] + o < |LinearSpec(input, weight, bias).data|
    ensures LinearSpec(input, weight, bias).data[n * weight.shape[0] + o]
            == LinearValue(input.data, weight.data, bias, input.shape[1], n, o)
  {
    var O := weight.shape[0];
    MixedLt(n, o, input.shape[0], O);
    DivModUnique(n * O + o, O, n, o);
  }

  /** One step of the inner loop: the next product, read at in-bounds indices. */
  lemma DotStep(x: seq<real>, w: seq<real>, xBase: nat, wBase: nat, i: nat, xIdx: int, wIdx: int)
    requires xIdx == xBase + i && wIdx == wBase + i
    requires 0 <= xIdx < |x| && 0 <= wIdx < |w|
    ensures Dot(x, w, xBase, wBase, i + 1) == Dot(x, w, xBase, wBase, i) + x[xIdx] * w[wIdx]
  {
  }

  /** Row n of an [N, F] buffer lies inside it. */
  lemma RowInBounds(N: nat, F: nat, n: nat, i: nat)
    requires n < N && i < F
    ensures n * F + i < N * F
  {
    MixedLt(n, i, N, F);
  }

  /** The inner loop of linear (over i), plus the bias, for one output element (n, o). */
  method LinearElement(input: Tensor, weight: Tensor, bias: Option<Tensor>, n: nat, o: nat) returns (sum: real)
    requires Admissible(input, weight, bias) && n < input.shape[0] && o < weight.shape[0]
    ensures sum == LinearValue(input.data, weight.data, bias, input.shape[1], n, o)
  {
    var F := input.shape[1];
    sum := 0.0;
    for i := 0 to F
      invariant sum == Dot(input.data, weight.data, n * F, o * F, i)
    {
      RowInBounds(input.shape[0], F, n, i);
      RowInBounds(weight.shape[0], F, o, i);
      DotStep(input.data, weight.data, n * F, o * F, i, n * F + i, o * F + i);
      sum := sum + input.data[n * F + i] * weight.data[o * F + i];
    }
    if bias.Some? {
      sum := sum + bias.value.data[o];
    }
  }

  /**
   * linear: every output element (n, o), in offset order, receives the dot product of
   * input row n and weight row o plus the optional bias; the result equals LinearSpec.
   */
  method Linear(input: Tensor, weight: Tensor, bias: Option<Tensor> := None) returns (output: Tensor)
    requires Admissible(input, weight, bias)
    ensures output == LinearSpec(input, weight, bias)
  {
    var N, O := input.shape[0], weight.shape[0];
    ghost var spec := LinearSpec(input, weight, bias).data;
    var out := ZeroBuffer(N * O, spec);
    for n := 0 to N
      invariant Filled(out, n * O, spec)
    {
      for o := 0 to O
        invariant Filled(out, n * O + o, spec)
      {
        var sum := LinearElement(input, weight, bias, n, o);
        LinearSpecAt(input, weight, bias, n, o);
        Store(out, spec, n * O + o, sum);
      }
      assert n * O + O == (n + 1) * O;
    }
    FilledAll(out[..], N * O, spec);
    output := Tensor([N, O], out[..]);
  }

  /** The dot product reads x only at positions xBase .. xBase + m - 1. */
  lemma {:induction false} DotRowLocal(x1: seq<real>, x2: seq<real>, w: seq<real>, xBase: nat, wBase: nat, m: nat)
    requires xBase + m <= |x1| && xBase + m <= |x2|
    requires x1[xBase..xBase + m] == x2[xBase..xBase + m]
    ensures Dot(x1, w, xBase, wBase, m) == Dot(x2, w, xBase, wBase, m)
  {
    if m > 0 {
      assert x1[xBase..xBase + (m - 1)] == x1[xBase..xBase + m][..m - 1];
      assert x2[xBase..xBase + (m - 1)] == x2[xBase..xBase + m][..m - 1];
      DotRowLocal(x1, x2, w, xBase, wBase, m - 1);
      assert x1[xBase + (m - 1)] == x1[xBase..xBase + m][m - 1];
      assert x2[xBase + (m - 1)] == x2[xBase..xBase + m][m - 1];
    }
  }

  /** Output row n depends on input row n only: inputs that agree on that row give the same output row. */
  lemma LinearRowLocal(input1: Tensor, input2: Tensor, weight: Tensor, bias: Option<Tensor>, n: nat, o: nat)
    requires Admissible(input1, weight, bias) && Admissible(input2, weight, bias)
    requires input1.shape == input2.shape && n < input1.shape[0] && o < weight.shape[0]
    requires (n + 1) * input1.shape[1] <= |input1.data| && (n + 1) * input1.shape[1] <= |input2.data|
    requires input1.data[n * input1.shape[1]..(n + 1) * input1.shape[1]]
             == input2.data[n * input1.shape[1]..(n + 1) * input1.shape[1]]
    ensures n * weight.shape[0] + o < |LinearSpec(input1, weight, bias).data|
    ensures LinearSpec(input1, weight, bias).data[n * weight.shape[0] + o]
            == LinearSpec(input2, weight, bias).data[n * weight.shape[0] + o]
  {
    var F := input1.shape[1];
    LinearSpecAt(input1, weight, bias, n, o);
    LinearSpecAt(input2, weight, bias, n, o);
    assert (n + 1) * F == n * F + F;
    DotRowLocal(input1.data, input2.data, weight.data, n * F, o * F, F);
  }
}
