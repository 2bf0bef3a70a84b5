/**
 * The inline element-wise operations of include/layers.h: ReLU6 and sigmoid applied to
 * every element of a tensor, element-wise multiplication and reshape.
 *
 * relu6_inplace and sigmoid_inplace overwrite x.data element by element; here the
 * tensor is a value, so each takes the tensor and returns it with its buffer updated
 * in the same loop order.
 */
module Elementwise {
  import opened Tensors
  import opened Numerics

  /** min(max(v, 0), 6). */
  function Relu6(v: real): (r: real)
    ensures 0.0 <= r <= 6.0
    ensures 0.0 <= v <= 6.0 ==> r == v
    ensures v < 0.0 ==> r == 0.0
    ensures v > 6.0 ==> r == 6.0
  {
    Min(Max(v, 0.0), 6.0)
  }

  /** The buffer relu6_inplace leaves behind. */
  function Relu6All(s: seq<real>): (r: seq<real>)
    ensures |r| == |s|
    ensures forall i :: 0 <= i < |r| ==> 0.0 <= r[i] <= 6.0
    ensures forall i :: 0 <= i < |s| && 0.0 <= s[i] <= 6.0 ==> r[i] == s[i]
  {
    seq(|s|, i requires 0 <= i < |s| => Relu6(s[i]))
  }

  /** Clamping twice is clamping once. */
  lemma Relu6Idempotent(s: seq<real>)
    ensures Relu6All(Relu6All(s)) == Relu6All(s)
  {
    var once := Relu6All(s);
    assert forall i :: 0 <= i < |once| ==> Relu6All(once)[i] == once[i];
  }

  /** A buffer already inside [0, 6] is left as it is. */
  lemma Relu6FixesRange(s: seq<real>)
    requires forall i :: 0 <= i < |s| ==> 0.0 <= s[i] <= 6.0
    ensures Relu6All(s) == s
  {
    assert forall i :: 0 <= i < |s| ==> Relu6All(s)[i] == s[i];
  }

  /** relu6_inplace: clamps each element in turn; the shape is not touched. */
  method Relu6InPlace(x: Tensor) returns (y: Tensor)
    ensures y == Tensor(x.shape, Relu6All(x.data))
  {
    y := x;
    for i := 0 to |x.data|
      invariant y.shape == x.shape && |y.data| == |x.data|
      invariant forall k :: 0 <= k < i ==> y.data[k] == Relu6(x.data[k])
      invariant forall k :: i <= k < |x.data| ==> y.data[k] == x.data[k]
    {
      y := y.(data := y.data[i := Relu6(y.data[i])]);
    }
    assert y.data == Relu6All(x.data);
  }

  /** 1 / (1 + exp(-v)). */
  function Sigmoid(m: Math, v: real): (r: real)
    ensures m.exp(-v) >= 0.0 ==> 0.0 < r <= 1.0
    ensures m.exp(-v) > 0.0 ==> r < 1.0
  {
    Quot(1.0, 1.0 + m.exp(-v))
  }

  /** With exp(v) * exp(-v) == 1 and exp positive, sigmoid(v) + sigmoid(-v) == 1. */
  lemma SigmoidComplement(m: Math, v: real)
    requires m.exp(v) > 0.0 && m.exp(-v) > 0.0 && m.exp(v) * m.exp(-v) == 1.0
    ensures Sigmoid(m, v) + Sigmoid(m, -v) == 1.0
  {
    var a, b := m.exp(-v), m.exp(v);
    assert -(-v) == v;
    assert Sigmoid(m, -v) == 1.0 / (1.0 + b);
    assert Sigmoid(m, v) == 1.0 / (1.0 + a);
    assert a == 1.0 / b;
    assert 1.0 / (1.0 + 1.0 / b) == b / (b + 1.0);
    assert b / (1.0 + b) + 1.0 / (1.0 + b) == (b + 1.0) / (1.0 + b);
  }

  /** The buffer sigmoid_inplace leaves behind: every element mapped on its own. */
  function SigmoidAll(m: Math, s: seq<real>): (r: seq<real>)
    ensures |r| == |s|
    ensures forall i :: 0 <= i < |s| ==> r[i] == Sigmoid(m, s[i])
  {
    seq(|s|, i requires 0 <= i < |s| => Sigmoid(m, s[i]))
  }

  /** A result of sigmoid lies in (0, 1) wherever exp is positive. */
  lemma SigmoidAllBounds(m: Math, s: seq<real>)
    requires forall v: real :: m.exp(v) > 0.0
    ensures forall i :: 0 <= i < |s| ==> 0.0 < SigmoidAll(m, s)[i] < 1.0
  {
    forall i | 0 <= i < |s|
      ensures 0.0 < SigmoidAll(m, s)[i] < 1.0
    {
      assert m.exp(-s[i]) > 0.0;
    }
  }

  /** sigmoid_inplace: maps each element in turn; the shape is not touched. */
  method SigmoidInPlace(m: Math, x: Tensor) returns (y: Tensor)
    ensures y == Tensor(x.shape, SigmoidAll(m, x.data))
  {
    y := x;
    for i := 0 to |x.data|
      invariant y.shape == x.shape && |y.data| == |x.data|
      invariant forall k :: 0 <= k < i ==> y.data[k] == Sigmoid(m, x.data[k])
      invariant forall k :: i <= k < |x.data| ==> y.data[k] == x.data[k]
    {
      y := y.(data := y.data[i := Sigmoid(m, y.data[i])]);
    }
    assert y.data == SigmoidAll(m, x.data);
  }

  /** multiply: a copy of a whose element i is multiplied by b[i]; b is read at every index of a. */
  method Multiply(a: Tensor, b: Tensor) returns (result: Tensor)
    requires |b.data| >= |a.data|
    ensures result.shape == a.shape && |result.data| == |a.data|
    ensures forall i :: 0 <= i < |a.data| ==> result.data[i] == a.data[i] * b.data[i]
    ensures Valid(a) ==> Valid(result)
  {
    result := a;
    for i := 0 to |result.data|
      invariant result.shape == a.shape && |result.data| == |a.data|
      invariant forall k :: 0 <= k < i ==> result.data[k] == a.data[k] * b.data[k]
      invariant forall k :: i <= k < |a.data| ==> result.data[k] == a.data[k]
    {
      result := result.(data := result.data[i := result.data[i] * b.data[i]]);
    }
  }

  /** reshape: the input's buffer under new_shape. */
  function Reshape(input: Tensor, newShape: seq<nat>): Tensor
  {
    Tensor(newShape, input.data)
  }

  /** reshape checks nothing: the result is well formed exactly when the counts agree. */
  lemma ReshapeValidIff(input: Tensor, newShape: seq<nat>)
    ensures Valid(Reshape(input, newShape)) <==> |input.data| == Product(newShape)
    ensures Valid(input) ==> (Valid(Reshape(input, newShape)) <==> Product(input.shape) == Product(newShape))
  {
  }

  /** Reshaping back to the original shape restores the tensor. */
  lemma ReshapeRoundTrip(input: Tensor, newShape: seq<nat>)
    ensures Reshape(Reshape(input, newShape), input.shape) == input
  {
  }

  /** A reshape to a shape with the wrong element count is accepted: the shape is taken, the data kept, and the result is ill formed. */
  lemma ReshapeAcceptsWrongCount(input: Tensor, newShape: seq<nat>)
    requires |input.data| != Product(newShape)
    ensures Reshape(input, newShape).shape == newShape && Reshape(input, newShape).data == input.data
    ensures !Valid(Reshape(input, newShape))
  {
    ReshapeValidIff(input, newShape);
  }
}
