/**
 * LiteCNNPro of src/model.cpp: the weight store filled from an LCNN file, the
 * lookups by name, and the fixed graph stem -> features.0..6 -> pool -> classifier.
 *
 * The graph is a composition of the kernels' spec functions over the store's map.
 * A missing weight is the runtime_error get_weight throws; argument shapes the
 * kernels cannot take (undefined behaviour in the C++ code) fail with ShapeMismatch.
 */
module Model {
  import opened Wrappers
  import opened Tensors
  import opened Numerics
  import Container
  import Convolution
  import Normalization
  import Pooling
  import Dense
  import Elementwise

  /** The prefix torch.compile puts in front of every parameter name. */
  const OrigMod: string := "_orig_mod."

  /** The failure of a kernel given arguments it cannot take. */
  const ShapeMismatch: string := "shape mismatch"

  // ---------------------------------------------------------------------------
  // The weight store

  /** The key a loaded name is stored under: one leading "_orig_mod." removed, when present. */
  function Canonical(name: string): (key: string)
    ensures |key| <= |name|
    ensures key == name || name == OrigMod + key
  {
    if |name| >= |OrigMod| && name[..|OrigMod|] == OrigMod then name[|OrigMod|..] else name
  }

  /** A prefixed name loses exactly its first prefix. */
  lemma CanonicalStrips(name: string)
    ensures Canonical(OrigMod + name) == name
  {
    var full := OrigMod + name;
    assert full[..|OrigMod|] == OrigMod;
    assert full[|OrigMod|..] == name;
  }

  /** A name that does not start with the prefix is its own key. */
  lemma CanonicalKeeps(name: string)
    requires |name| < |OrigMod| || name[..|OrigMod|] != OrigMod
    ensures Canonical(name) == name
  {
  }

  /** The store after every loaded pair is inserted in order under its key; a later pair overwrites. */
  function Install(store: map<string, Tensor>, ns: seq<Container.Named>): map<string, Tensor>
  {
    if ns == [] then store
    else Install(store, ns[..|ns| - 1])[Canonical(ns[|ns| - 1].name) := ns[|ns| - 1].tensor]
  }

  /** The keys of the store afterwards: the old keys and the key of every loaded name. */
  lemma {:induction false} InstallKeys(store: map<string, Tensor>, ns: seq<Container.Named>)
    ensures Install(store, ns).Keys == store.Keys + set i | 0 <= i < |ns| :: Canonical(ns[i].name)
  {
    if ns != [] {
      var init := ns[..|ns| - 1];
      InstallKeys(store, init);
      var last := Canonical(ns[|ns| - 1].name);
      assert forall i :: 0 <= i < |init| ==> init[i] == ns[i];
      assert (set i | 0 <= i < |ns| :: Canonical(ns[i].name))
          == (set i | 0 <= i < |init| :: Canonical(init[i].name)) + {last};
    }
  }

  /** The last pair with a given key decides the tensor stored under it. */
  lemma {:induction false} InstallLastWins(store: map<string, Tensor>, ns: seq<Container.Named>, i: nat)
    requires i < |ns|
    requires forall j :: i < j < |ns| ==> Canonical(ns[j].name) != Canonical(ns[i].name)
    ensures Canonical(ns[i].name) in Install(store, ns)
    ensures Install(store, ns)[Canonical(ns[i].name)] == ns[i].tensor
  {
    if i < |ns| - 1 {
      var init := ns[..|ns| - 1];
      assert init[i] == ns[i];
      assert forall j :: i < j < |init| ==> init[j] == ns[j];
      InstallLastWins(store, init, i);
    }
  }

  /** A key no loaded name maps to keeps its old tensor. */
  lemma {:induction false} InstallUntouched(store: map<string, Tensor>, ns: seq<Container.Named>, key: string)
    requires key in store
    requires forall i :: 0 <= i < |ns| ==> Canonical(ns[i].name) != key
    ensures key in Install(store, ns) && Install(store, ns)[key] == store[key]
  {
    if ns != [] {
      var init := ns[..|ns| - 1];
      assert forall i :: 0 <= i < |init| ==> init[i] == ns[i];
      InstallUntouched(store, init, key);
    }
  }

  /** get_weight on a map: the stored tensor, or the runtime_error naming the missing key. */
  function Lookup(w: map<string, Tensor>, name: string): (r: Result<Tensor>)
    ensures r.Success? <==> name in w
    ensures r.Success? ==> r.value == w[name]
    ensures r.Failure? ==> r.error == "Weight not found: " + name
  {
    if name in w then Success(w[name]) else Failure("Weight not found: " + name)
  }

  class LiteCNNPro {
    /** weights_: canonical name -> tensor. */
    var weights: map<string, Tensor>

    constructor()
      ensures weights == map[]
    {
      weights := map[];
    }

    /**
     * load_weights: `file` is the weights file's contents (None when it cannot be
     * opened); `float` turns a stored 32-bit pattern into an element value.
     */
    method LoadWeights(file: Option<seq<Container.Byte>>, float: Container.Word -> real) returns (ok: bool)
      modifies this
      ensures ok <==> file.Some? && Container.Parse(file.value).Success?
      ensures !ok ==> weights == old(weights)
      ensures ok ==> weights == Install(old(weights), Container.ToNamedAll(float, Container.Parse(file.value).value.entries))
    {
      var loaded, list := Container.Load(file, float, []);
      if !loaded {
        return false;
      }
      assert list == Container.ToNamedAll(float, Container.Parse(file.value).value.entries);
      for i := 0 to |list|
        invariant weights == Install(old(weights), list[..i])
      {
        assert list[..i + 1][..i] == list[..i];
        weights := weights[Canonical(list[i].name) := list[i].tensor];
      }
      assert list[..|list|] == list;
      ok := true;
    }

    /** get_weight. */
    function GetWeight(name: string): (r: Result<Tensor>)
      reads this
      ensures r == Lookup(weights, name)
    {
      Lookup(weights, name)
    }

    /** has_weight. */
    function HasWeight(name: string): (b: bool)
      reads this
      ensures b <==> name in weights
    {
      name in weights
    }

    /**
     * se_block: squeeze (1x1 average pool, flattened to [N, C]), excitation
     * (linear, relu6, linear, sigmoid), then every plane (n, c) of x scaled by
     * gate element n * C + c.
     */
    method SeBlock(m: Math, x: Tensor, prefix: string) returns (r: Result<Tensor>)
      ensures r == SeBlockSpec(m, weights, x, prefix)
    {
      if !Pooling.Admissible(x) {
        return Failure(ShapeMismatch);
      }
      var N, C := x.shape[0], x.shape[1];
      var squeezed := Pooling.AdaptiveAvgPool2d(x, 1, 1);
      var flat := Elementwise.Reshape(squeezed, [N, C]);
      var fc1 := GetWeight(prefix + ".excitation.0.weight");
      if fc1.Failure? {
        return Failure(fc1.error);
      }
      if !Dense.Admissible(flat, fc1.value, None) {
        return Failure(ShapeMismatch);
      }
      var y := Dense.Linear(flat, fc1.value);
      y := Elementwise.Relu6InPlace(y);
      var fc2 := GetWeight(prefix + ".excitation.2.weight");
      if fc2.Failure? {
        return Failure(fc2.error);
      }
      if !Dense.Admissible(y, fc2.value, None) {
        return Failure(ShapeMismatch);
      }
      y := Dense.Linear(y, fc2.value);
      y := Elementwise.SigmoidInPlace(m, y);
      var gate := Elementwise.Reshape(y, [N, C, 1, 1]);
      if |gate.data| < N * C {
        return Failure(ShapeMismatch);
      }
      var output := BroadcastScale(x, gate.data);
      r := Success(output);
    }
  }

  /** A has_weight answer agrees with get_weight succeeding. */
  lemma HasIffGet(net: LiteCNNPro, name: string)
    ensures net.HasWeight(name) <==> net.GetWeight(name).Success?
  {
  }

  // ---------------------------------------------------------------------------
  // The SE broadcast multiply

  /** x with element (n, c, h, w) multiplied by scale[n * C + c]; elements past N * C * H * W are copied. */
  function Broadcast(x: Tensor, scale: seq<real>): (out: Tensor)
    requires |x.shape| >= 4
    ensures out.shape == x.shape && |out.data| == |x.data|
  {
    var C, H, W := x.shape[1], x.shape[2], x.shape[3];
    var L := x.shape[0] * C * H * W;
    Tensor(x.shape, seq(|x.data|, j requires 0 <= j < |x.data| =>
      if j < L then
        PositiveFactors(x.shape[0], C, H, W, j);
        var i := Decode(C, H, W, j);
        x.data[j] * Get(scale, i.n * C + i.c)
      else x.data[j]))
  }

  /** Element (n, c, h, w) of the scaled tensor is x(n, c, h, w) * scale[n * C + c]. */
  lemma BroadcastAt(x: Tensor, scale: seq<real>, n: nat, c: nat, h: nat, w: nat)
    requires |x.shape| >= 4 && |x.data| >= x.shape[0] * x.shape[1] * x.shape[2] * x.shape[3]
    requires n < x.shape[0] && c < x.shape[1] && h < x.shape[2] && w < x.shape[3]
    requires n * x.shape[1] + c < |scale|
    ensures var j := Offset(x.shape[1], x.shape[2], x.shape[3], n, c, h, w);
            j < |x.data| && Broadcast(x, scale).data[j] == x.data[j] * scale[n * x.shape[1] + c]
  {
    var C, H, W := x.shape[1], x.shape[2], x.shape[3];
    OffsetBound(x.shape[0], C, H, W, n, c, h, w);
    DecodeOffset(C, H, W, n, c, h, w);
  }

  /** A scale of all ones leaves x as it is. */
  lemma BroadcastOnes(x: Tensor, scale: seq<real>)
    requires |x.shape| >= 4
    requires forall i :: 0 <= i < |scale| ==> scale[i] == 1.0
    requires x.shape[0] * x.shape[1] <= |scale|
    ensures Broadcast(x, scale) == x
  {
    var C, H, W := x.shape[1], x.shape[2], x.shape[3];
    forall j | 0 <= j < |x.data|
      ensures Broadcast(x, scale).data[j] == x.data[j]
    {
      if j < x.shape[0] * C * H * W {
        PositiveFactors(x.shape[0], C, H, W, j);
        var i := Decode(C, H, W, j);
        DecodeBound(x.shape[0], C, H, W, j);
        MixedLtChannel(i.n, i.c, x.shape[0], C);
      }
    }
  }

  lemma MixedLtChannel(n: nat, c: nat, N: nat, C: nat)
    requires n < N && c < C
    ensures n * C + c < N * C
  {
    Arith.MixedLt(n, c, N, C);
  }

  /** Elements below k scaled, the rest still as in x. */
  ghost predicate ScaledUpTo(s: seq<real>, x: seq<real>, spec: seq<real>, k: nat)
  {
    && |s| == |x| == |spec|
    && (forall j :: 0 <= j < k && j < |s| ==> s[j] == spec[j])
    && (forall j :: k <= j < |s| ==> s[j] == x[j])
  }

  /** Writing the scaled value at position k extends the scaled prefix by one. */
  lemma ScaleStep(s: seq<real>, x: seq<real>, spec: seq<real>, k: nat, v: real)
    requires ScaledUpTo(s, x, spec, k) && k < |s| && v == spec[k]
    ensures ScaledUpTo(s[k := v], x, spec, k + 1)
  {
  }

  /** The four loops of se_block that scale the copy of x in place, plane by plane. */
  method BroadcastScale(x: Tensor, scale: seq<real>) returns (output: Tensor)
    requires |x.shape| >= 4 && |x.data| >= x.shape[0] * x.shape[1] * x.shape[2] * x.shape[3]
    requires |scale| >= x.shape[0] * x.shape[1]
    ensures output == Broadcast(x, scale)
  {
    var N, C, H, W := x.shape[0], x.shape[1], x.shape[2], x.shape[3];
    ghost var spec := Broadcast(x, scale).data;
    output := x;
    for n := 0 to N
      invariant output.shape == x.shape
      invariant ScaledUpTo(output.data, x.data, spec, Offset(C, H, W, n, 0, 0, 0))
    {
      for c := 0 to C
        invariant output.shape == x.shape
        invariant ScaledUpTo(output.data, x.data, spec, Offset(C, H, W, n, c, 0, 0))
      {
        MixedLtChannel(n, c, N, C);
        var factor := scale[n * C + c];
        output := ScalePlane(output, x, scale, spec, n, c, factor);
        OffsetCarry(C, H, W, n, c, 0);
      }
      OffsetCarry(C, H, W, n, 0, 0);
    }
    OffsetTotal(N, C, H, W);
    forall j | 0 <= j < |spec|
      ensures output.data[j] == spec[j]
    {
      if j >= N * C * H * W {
        assert spec[j] == x.data[j];
      }
    }
  }

  /** The loops over h and w of one plane (n, c): each element multiplied by factor. */
  method ScalePlane(current: Tensor, x: Tensor, scale: seq<real>, ghost spec: seq<real>, n: nat, c: nat, factor: real)
    returns (output: Tensor)
    requires |x.shape| >= 4 && |x.data| >= x.shape[0] * x.shape[1] * x.shape[2] * x.shape[3]
    requires spec == Broadcast(x, scale).data
    requires n < x.shape[0] && c < x.shape[1] && n * x.shape[1] + c < |scale| && factor == scale[n * x.shape[1] + c]
    requires current.shape == x.shape
    requires ScaledUpTo(current.data, x.data, spec, Offset(x.shape[1], x.shape[2], x.shape[3], n, c, 0, 0))
    ensures output.shape == x.shape
    ensures ScaledUpTo(output.data, x.data, spec, Offset(x.shape[1], x.shape[2], x.shape[3], n, c, x.shape[2], 0))
  {
    var C, H, W := x.shape[1], x.shape[2], x.shape[3];
    output := current;
    for h := 0 to H
      invariant output.shape == x.shape
      invariant ScaledUpTo(output.data, x.data, spec, Offset(C, H, W, n, c, h, 0))
    {
      for w := 0 to W
        invariant output.shape == x.shape
        invariant ScaledUpTo(output.data, x.data, spec, Offset(C, H, W, n, c, h, w))
      {
        var j := Offset(C, H, W, n, c, h, w);
        BroadcastAt(x, scale, n, c, h, w);
        ScaleStep(output.data, x.data, spec, j, output.data[j] * factor);
        output := output.(data := output.data[j := output.data[j] * factor]);
      }
      OffsetCarry(C, H, W, n, c, h);
    }
  }

  // ---------------------------------------------------------------------------
  // The graph

  /** What relu6_inplace leaves in a tensor. */
  function Clamped(t: Tensor): (r: Tensor)
    ensures r.shape == t.shape && |r.data| == |t.data|
  {
    Tensor(t.shape, Elementwise.Relu6All(t.data))
  }

  /** What sigmoid_inplace leaves in a tensor. */
  function Gated(m: Math, t: Tensor): (r: Tensor)
    ensures r.shape == t.shape && |r.data| == |t.data|
  {
    Tensor(t.shape, Elementwise.SigmoidAll(m, t.data))
  }

  /** se_block, mapped over the store w. */
  function SeBlockSpec(m: Math, w: map<string, Tensor>, x: Tensor, prefix: string): (r: Result<Tensor>)
    ensures r.Success? ==> r.value.shape == x.shape
  {
    if !Pooling.Admissible(x) then Failure(ShapeMismatch)
    else
      var N, C := x.shape[0], x.shape[1];
      var flat := Elementwise.Reshape(Pooling.AdaptiveAvgPool2dSpec(x, 1, 1), [N, C]);
      var fc1 :- Lookup(w, prefix + ".excitation.0.weight");
      if !Dense.Admissible(flat, fc1, None) then Failure(ShapeMismatch)
      else
        var hidden := Clamped(Dense.LinearSpec(flat, fc1, None));
        var fc2 :- Lookup(w, prefix + ".excitation.2.weight");
        if !Dense.Admissible(hidden, fc2, None) then Failure(ShapeMismatch)
        else
          var gate := Gated(m, Dense.LinearSpec(hidden, fc2, None));
          if |gate.data| < N * C then Failure(ShapeMismatch)
          else Success(Broadcast(x, gate.data))
  }

  /** conv2d on arguments it can take. */
  function Conv(x: Tensor, weight: Tensor, stride: int, padding: int, groups: int): (r: Result<Tensor>)
    ensures r.Success? <==> Convolution.Admissible(x, weight, stride, padding, groups)
    ensures r.Success? ==> r.value == Convolution.Conv2dSpec(x, weight, stride, padding, groups)
  {
    if Convolution.Admissible(x, weight, stride, padding, groups)
    then Success(Convolution.Conv2dSpec(x, weight, stride, padding, groups))
    else Failure(ShapeMismatch)
  }

  /** batchnorm2d with the four parameters stored under prefix, and the default eps. */
  function BatchNorm(m: Math, w: map<string, Tensor>, x: Tensor, prefix: string): (r: Result<Tensor>)
    ensures r.Success? ==> r.value.shape == x.shape
  {
    var gamma :- Lookup(w, prefix + ".weight");
    var beta :- Lookup(w, prefix + ".bias");
    var mean :- Lookup(w, prefix + ".running_mean");
    var variance :- Lookup(w, prefix + ".running_var");
    if Normalization.Admissible(x, gamma, beta, mean, variance)
    then Success(Normalization.BatchNorm2dSpec(m, x, gamma, beta, mean, variance, 0.00001))
    else Failure(ShapeMismatch)
  }

  /**
   * depthwise_separable_conv: a depthwise convolution (stride, padding 1, one group
   * per channel), bn1, relu6, a pointwise convolution (stride 1, padding 0, one
   * group), bn2, relu6, then the SE block under prefix + ".se" when useSe.
   */
  function DepthwiseSeparableConv(m: Math, w: map<string, Tensor>, x: Tensor, prefix: string, stride: int, useSe: bool)
    : (r: Result<Tensor>)
  {
    var dwWeight :- Lookup(w, prefix + ".depthwise.weight");
    if |x.shape| < 2 then Failure(ShapeMismatch)
    else
      var dw :- Conv(x, dwWeight, stride, 1, x.shape[1]);
      var bn1 :- BatchNorm(m, w, dw, prefix + ".bn1");
      var pwWeight :- Lookup(w, prefix + ".pointwise.weight");
      var pw :- Conv(Clamped(bn1), pwWeight, 1, 0, 1);
      var bn2 :- BatchNorm(m, w, pw, prefix + ".bn2");
      if useSe then SeBlockSpec(m, w, Clamped(bn2), prefix + ".se") else Success(Clamped(bn2))
  }

  /** The stem: a convolution with stride 2, padding 1 and one group, stem.1 batch norm, relu6. */
  function Stem(m: Math, w: map<string, Tensor>, input: Tensor): (r: Result<Tensor>)
  {
    var weight :- Lookup(w, "stem.0.weight");
    var x :- Conv(input, weight, 2, 1, 1);
    var y :- BatchNorm(m, w, x, "stem.1");
    Success(Clamped(y))
  }

  /** The strides of features.0 .. features.6. */
  const Strides: seq<nat> := [2, 1, 2, 1, 2, 1, 2]

  /** "features.k". */
  function FeatureName(k: nat): string
    requires k < 10
  {
    "features." + [('0' as int + k) as char]
  }

  /** Blocks features.k .. features.6 in order, each with its SE block. */
  function Blocks(m: Math, w: map<string, Tensor>, x: Tensor, k: nat): (r: Result<Tensor>)
    requires k <= |Strides|
    decreases |Strides| - k
  {
    if k == |Strides| then Success(x)
    else
      var y :- DepthwiseSeparableConv(m, w, x, FeatureName(k), Strides[k], true);
      Blocks(m, w, y, k + 1)
  }

  /** The stem followed by the seven blocks. */
  function Features(m: Math, w: map<string, Tensor>, input: Tensor): (r: Result<Tensor>)
  {
    var x :- Stem(m, w, input);
    Blocks(m, w, x, 0)
  }

  /**
   * Global average pooling to 1x1, the flatten to [N, C], classifier.2 with its
   * bias, relu6, then classifier.5 with its bias.
   */
  function Head(w: map<string, Tensor>, x: Tensor): (r: Result<Tensor>)
  {
    if !Pooling.Admissible(x) then Failure(ShapeMismatch)
    else
      var pooled := Pooling.AdaptiveAvgPool2dSpec(x, 1, 1);
      var flat := Elementwise.Reshape(pooled, [pooled.shape[0], pooled.shape[1]]);
      var bias1 :- Lookup(w, "classifier.2.bias");
      var weight1 :- Lookup(w, "classifier.2.weight");
      if !Dense.Admissible(flat, weight1, Some(bias1)) then Failure(ShapeMismatch)
      else
        var hidden := Clamped(Dense.LinearSpec(flat, weight1, Some(bias1)));
        var bias2 :- Lookup(w, "classifier.5.bias");
        var weight2 :- Lookup(w, "classifier.5.weight");
        if !Dense.Admissible(hidden, weight2, Some(bias2)) then Failure(ShapeMismatch)
        else Success(Dense.LinearSpec(hidden, weight2, Some(bias2)))
  }

  /** forward. */
  function Forward(m: Math, w: map<string, Tensor>, input: Tensor): (r: Result<Tensor>)
  {
    var x :- Features(m, w, input);
    Head(w, x)
  }

  // ---------------------------------------------------------------------------
  // The names the graph looks up

  /** The four parameters of a batch norm stored under prefix. */
  function BatchNormNames(prefix: string): set<string>
  {
    {prefix + ".weight", prefix + ".bias", prefix + ".running_mean", prefix + ".running_var"}
  }

  /** The two excitation weights of an SE block stored under prefix. */
  function SeNames(prefix: string): set<string>
  {
    {prefix + ".excitation.0.weight", prefix + ".excitation.2.weight"}
  }

  /** Every name one depthwise separable block under prefix looks up. */
  function BlockNames(prefix: string, useSe: bool): set<string>
  {
    {prefix + ".depthwise.weight", prefix + ".pointwise.weight"}
      + BatchNormNames(prefix + ".bn1") + BatchNormNames(prefix + ".bn2")
      + (if useSe then SeNames(prefix + ".se") else {})
  }

  /** The names of blocks features.k .. features.6. */
  function BlocksNames(k: nat): set<string>
    requires k <= |Strides|
    decreases |Strides| - k
  {
    if k == |Strides| then {} else BlockNames(FeatureName(k), true) + BlocksNames(k + 1)
  }

  function StemNames(): set<string>
  {
    {"stem.0.weight"} + BatchNormNames("stem.1")
  }

  const HeadNames: set<string> := {"classifier.2.bias", "classifier.2.weight", "classifier.5.bias", "classifier.5.weight"}

  /** Every name forward looks up. */
  function RequiredNames(): set<string>
  {
    StemNames() + BlocksNames(0) + HeadNames
  }

  /** Two stores that hold the same tensors under the given names. */
  predicate AgreeOn(w1: map<string, Tensor>, w2: map<string, Tensor>, names: set<string>)
  {
    forall n :: n in names ==> (n in w1 <==> n in w2) && (n in w1 ==> w1[n] == w2[n])
  }

  lemma BatchNormNeeds(m: Math, w: map<string, Tensor>, x: Tensor, prefix: string)
    ensures BatchNorm(m, w, x, prefix).Success? ==> BatchNormNames(prefix) <= w.Keys
  {
  }

  lemma BatchNormLocal(m: Math, w1: map<string, Tensor>, w2: map<string, Tensor>, x: Tensor, prefix: string)
    requires AgreeOn(w1, w2, BatchNormNames(prefix))
    ensures BatchNorm(m, w1, x, prefix) == BatchNorm(m, w2, x, prefix)
  {
    assert Lookup(w1, prefix + ".weight") == Lookup(w2, prefix + ".weight");
    assert Lookup(w1, prefix + ".bias") == Lookup(w2, prefix + ".bias");
    assert Lookup(w1, prefix + ".running_mean") == Lookup(w2, prefix + ".running_mean");
    assert Lookup(w1, prefix + ".running_var") == Lookup(w2, prefix + ".running_var");
  }

  lemma SeBlockNeeds(m: Math, w: map<string, Tensor>, x: Tensor, prefix: string)
    ensures SeBlockSpec(m, w, x, prefix).Success? ==> SeNames(prefix) <= w.Keys
  {
  }

  lemma SeBlockLocal(m: Math, w1: map<string, Tensor>, w2: map<string, Tensor>, x: Tensor, prefix: string)
    requires AgreeOn(w1, w2, SeNames(prefix))
    ensures SeBlockSpec(m, w1, x, prefix) == SeBlockSpec(m, w2, x, prefix)
  {
    assert Lookup(w1, prefix + ".excitation.0.weight") == Lookup(w2, prefix + ".excitation.0.weight");
    assert Lookup(w1, prefix + ".excitation.2.weight") == Lookup(w2, prefix + ".excitation.2.weight");
  }

  /** A block that succeeds found every one of its names in the store. */
  lemma BlockNeeds(m: Math, w: map<string, Tensor>, x: Tensor, prefix: string, stride: int, useSe: bool)
    ensures DepthwiseSeparableConv(m, w, x, prefix, stride, useSe).Success? ==> BlockNames(prefix, useSe) <= w.Keys
  {
    if DepthwiseSeparableConv(m, w, x, prefix, stride, useSe).Success? {
      var dw := Conv(x, w[prefix + ".depthwise.weight"], stride, 1, x.shape[1]).value;
      BatchNormNeeds(m, w, dw, prefix + ".bn1");
      var bn1 := BatchNorm(m, w, dw, prefix + ".bn1").value;
      var pw := Conv(Clamped(bn1), w[prefix + ".pointwise.weight"], 1, 0, 1).value;
      BatchNormNeeds(m, w, pw, prefix + ".bn2");
      if useSe {
        SeBlockNeeds(m, w, Clamped(BatchNorm(m, w, pw, prefix + ".bn2").value), prefix + ".se");
      }
    }
  }

  /** A block reads the store only under its own names. */
  lemma BlockLocal(m: Math, w1: map<string, Tensor>, w2: map<string, Tensor>, x: Tensor, prefix: string, stride: int, useSe: bool)
    requires AgreeOn(w1, w2, BlockNames(prefix, useSe))
    ensures DepthwiseSeparableConv(m, w1, x, prefix, stride, useSe) == DepthwiseSeparableConv(m, w2, x, prefix, stride, useSe)
  {
    assert Lookup(w1, prefix + ".depthwise.weight") == Lookup(w2, prefix + ".depthwise.weight");
    assert Lookup(w1, prefix + ".pointwise.weight") == Lookup(w2, prefix + ".pointwise.weight");
    if Lookup(w1, prefix + ".depthwise.weight").Success? && |x.shape| >= 2 {
      var dw := Conv(x, w1[prefix + ".depthwise.weight"], stride, 1, x.shape[1]);
      if dw.Success? {
        BatchNormLocal(m, w1, w2, dw.value, prefix + ".bn1");
        var bn1 := BatchNorm(m, w1, dw.value, prefix + ".bn1");
        if bn1.Success? && Lookup(w1, prefix + ".pointwise.weight").Success? {
          var pw := Conv(Clamped(bn1.value), w1[prefix + ".pointwise.weight"], 1, 0, 1);
          if pw.Success? {
            BatchNormLocal(m, w1, w2, pw.value, prefix + ".bn2");
            var bn2 := BatchNorm(m, w1, pw.value, prefix + ".bn2");
            if bn2.Success? && useSe {
              SeBlockLocal(m, w1, w2, Clamped(bn2.value), prefix + ".se");
            }
          }
        }
      }
    }
  }

  lemma {:induction false} BlocksNeeds(m: Math, w: map<string, Tensor>, x: Tensor, k: nat)
    requires k <= |Strides|
    ensures Blocks(m, w, x, k).Success? ==> BlocksNames(k) <= w.Keys
    decreases |Strides| - k
  {
    if k < |Strides| && Blocks(m, w, x, k).Success? {
      BlockNeeds(m, w, x, FeatureName(k), Strides[k], true);
      BlocksNeeds(m, w, DepthwiseSeparableConv(m, w, x, FeatureName(k), Strides[k], true).value, k + 1);
    }
  }

  lemma {:induction false} BlocksLocal(m: Math, w1: map<string, Tensor>, w2: map<string, Tensor>, x: Tensor, k: nat)
    requires k <= |Strides| && AgreeOn(w1, w2, BlocksNames(k))
    ensures Blocks(m, w1, x, k) == Blocks(m, w2, x, k)
    decreases |Strides| - k
  {
    if k < |Strides| {
      BlockLocal(m, w1, w2, x, FeatureName(k), Strides[k], true);
      var y := DepthwiseSeparableConv(m, w1, x, FeatureName(k), Strides[k], true);
      if y.Success? {
        BlocksLocal(m, w1, w2, y.value, k + 1);
      }
    }
  }

  lemma StemNeeds(m: Math, w: map<string, Tensor>, input: Tensor)
    ensures Stem(m, w, input).Success? ==> StemNames() <= w.Keys
  {
    if Stem(m, w, input).Success? {
      var x := Conv(input, w["stem.0.weight"], 2, 1, 1).value;
      BatchNormNeeds(m, w, x, "stem.1");
    }
  }

  lemma HeadNeeds(w: map<string, Tensor>, x: Tensor)
    ensures Head(w, x).Success? ==> HeadNames <= w.Keys
  {
  }

  /** forward succeeds only on a store holding every name in RequiredNames. */
  lemma ForwardNeeds(m: Math, w: map<string, Tensor>, input: Tensor)
    ensures Forward(m, w, input).Success? ==> RequiredNames() <= w.Keys
  {
    var stem := Stem(m, w, input);
    StemNeeds(m, w, input);
    if stem.Success? {
      BlocksNeeds(m, w, stem.value, 0);
      var features := Blocks(m, w, stem.value, 0);
      if features.Success? {
        HeadNeeds(w, features.value);
      }
    }
  }

  lemma StemLocal(m: Math, w1: map<string, Tensor>, w2: map<string, Tensor>, input: Tensor)
    requires AgreeOn(w1, w2, StemNames())
    ensures Stem(m, w1, input) == Stem(m, w2, input)
  {
    assert Lookup(w1, "stem.0.weight") == Lookup(w2, "stem.0.weight");
    if Lookup(w1, "stem.0.weight").Success? {
      var x := Conv(input, w1["stem.0.weight"], 2, 1, 1);
      if x.Success? {
        BatchNormLocal(m, w1, w2, x.value, "stem.1");
      }
    }
  }

  lemma HeadLocal(w1: map<string, Tensor>, w2: map<string, Tensor>, x: Tensor)
    requires AgreeOn(w1, w2, HeadNames)
    ensures Head(w1, x) == Head(w2, x)
  {
    assert Lookup(w1, "classifier.2.bias") == Lookup(w2, "classifier.2.bias");
    assert Lookup(w1, "classifier.2.weight") == Lookup(w2, "classifier.2.weight");
    assert Lookup(w1, "classifier.5.bias") == Lookup(w2, "classifier.5.bias");
    assert Lookup(w1, "classifier.5.weight") == Lookup(w2, "classifier.5.weight");
  }

  /** forward reads the store only under RequiredNames: stores that agree there give the same result. */
  lemma ForwardLocal(m: Math, w1: map<string, Tensor>, w2: map<string, Tensor>, input: Tensor)
    requires AgreeOn(w1, w2, RequiredNames())
    ensures Forward(m, w1, input) == Forward(m, w2, input)
  {
    StemLocal(m, w1, w2, input);
    var stem := Stem(m, w1, input);
    if stem.Success? {
      BlocksLocal(m, w1, w2, stem.value, 0);
      var features := Blocks(m, w1, stem.value, 0);
      if features.Success? {
        HeadLocal(w1, w2, features.value);
      }
    }
  }

  // ---------------------------------------------------------------------------
  // Shapes through the graph

  /** One block keeps the batch size and yields a 4-D tensor with the pointwise weight's channel count. */
  lemma BlockBatch(m: Math, w: map<string, Tensor>, x: Tensor, prefix: string, stride: int, useSe: bool)
    ensures var r := DepthwiseSeparableConv(m, w, x, prefix, stride, useSe);
            r.Success? ==> |r.value.shape| == 4 && r.value.shape[0] == x.shape[0]
                           && r.value.shape[1] == w[prefix + ".pointwise.weight"].shape[0]
  {
  }

  /** A kernel of k x k spatial size. */
  predicate KernelIs(t: Tensor, k: nat)
  {
    |t.shape| >= 4 && t.shape[2] == k && t.shape[3] == k
  }

  /** A 3x3 depthwise and a 1x1 pointwise kernel under prefix, when they are stored. */
  predicate BlockKernels(w: map<string, Tensor>, prefix: string)
  {
    && (prefix + ".depthwise.weight" in w ==> KernelIs(w[prefix + ".depthwise.weight"], 3))
    && (prefix + ".pointwise.weight" in w ==> KernelIs(w[prefix + ".pointwise.weight"], 1))
  }

  /** The kernel sizes of the network as trained: a 3x3 stem, 3x3 depthwise and 1x1 pointwise kernels. */
  predicate StandardKernels(w: map<string, Tensor>)
  {
    && ("stem.0.weight" in w ==> KernelIs(w["stem.0.weight"], 3))
    && forall k :: 0 <= k < |Strides| ==> BlockKernels(w, FeatureName(k))
  }

  /** The spatial size after a 3x3 convolution with padding 1. */
  function Reduced(size: nat, stride: nat): nat
    requires stride > 0
  {
    var o := Convolution.OutSize(size, 3, stride, 1);
    if o < 0 then 0 else o
  }

  /** The spatial size after blocks features.k .. features.6 with standard kernels. */
  function Spatial(size: nat, k: nat): nat
    requires k <= |Strides|
    decreases |Strides| - k
  {
    if k == |Strides| then size else Spatial(Reduced(size, Strides[k]), k + 1)
  }

  /** The spatial sizes of a 224 x 224 image: the input, after the stem, after each block. */
  const ImageTrace: seq<nat> := [224, 112, 56, 56, 28, 28, 14, 14, 7]

  /** Each size of ImageTrace is the one before it reduced with the stem's or the block's stride. */
  lemma ImageTraceSteps()
    ensures ImageTrace[1] == Reduced(ImageTrace[0], 2)
    ensures forall k :: 0 <= k < |Strides| ==> ImageTrace[k + 2] == Reduced(ImageTrace[k + 1], Strides[k])
  {
  }

  /** Spatial follows any chain of sizes that each block's stride produces one from the next. */
  lemma {:induction false} SpatialAlong(start: nat, sizes: seq<nat>, k: nat)
    requires k <= |Strides| && |sizes| == |Strides| - k + 1 && start == sizes[0]
    requires forall i :: 0 <= i < |sizes| - 1 ==> sizes[i + 1] == Reduced(sizes[i], Strides[k + i])
    ensures Spatial(start, k) == sizes[|sizes| - 1]
    decreases |sizes|
  {
    if k < |Strides| {
      var tail := sizes[1..];
      assert forall i :: 0 <= i < |tail| - 1 ==> tail[i + 1] == Reduced(tail[i], Strides[k + 1 + i]) by {
        forall i | 0 <= i < |tail| - 1
          ensures tail[i + 1] == Reduced(tail[i], Strides[k + 1 + i])
        {
          assert tail[i + 1] == sizes[i + 2] && tail[i] == sizes[i + 1];
        }
      }
      assert tail[0] == Reduced(start, Strides[k]);
      SpatialAlong(tail[0], tail, k + 1);
    }
  }

  /** A 1x1 convolution with stride 1 and no padding keeps the spatial size. */
  lemma PointwiseKeeps(size: nat)
    ensures Convolution.OutSize(size, 1, 1, 0) == size
  {
  }

  /** With standard kernels a block maps spatial size s to Reduced(s, stride). */
  lemma BlockSpatial(m: Math, w: map<string, Tensor>, x: Tensor, prefix: string, stride: nat, useSe: bool)
    requires BlockKernels(w, prefix) && stride > 0
    ensures var r := DepthwiseSeparableConv(m, w, x, prefix, stride, useSe);
            r.Success? ==> |r.value.shape| == 4 && r.value.shape[0] == x.shape[0]
                           && r.value.shape[2] == Reduced(x.shape[2], stride)
                           && r.value.shape[3] == Reduced(x.shape[3], stride)
  {
    var r := DepthwiseSeparableConv(m, w, x, prefix, stride, useSe);
    if r.Success? {
      var dw := Conv(x, w[prefix + ".depthwise.weight"], stride, 1, x.shape[1]).value;
      PointwiseKeeps(dw.shape[2]);
      PointwiseKeeps(dw.shape[3]);
    }
  }

  lemma {:induction false} BlocksSpatial(m: Math, w: map<string, Tensor>, x: Tensor, k: nat)
    requires StandardKernels(w) && k <= |Strides| && |x.shape| == 4
    ensures var r := Blocks(m, w, x, k);
            r.Success? ==> |r.value.shape| == 4 && r.value.shape[0] == x.shape[0]
                           && r.value.shape[2] == Spatial(x.shape[2], k)
                           && r.value.shape[3] == Spatial(x.shape[3], k)
    decreases |Strides| - k
  {
    if k < |Strides| && Blocks(m, w, x, k).Success? {
      assert BlockKernels(w, FeatureName(k));
      BlockSpatial(m, w, x, FeatureName(k), Strides[k], true);
      BlocksSpatial(m, w, DepthwiseSeparableConv(m, w, x, FeatureName(k), Strides[k], true).value, k + 1);
    }
  }

  /** The blocks keep the batch size and yield a 4-D tensor, whatever the kernels. */
  lemma {:induction false} BlocksBatch(m: Math, w: map<string, Tensor>, x: Tensor, k: nat)
    requires k <= |Strides| && |x.shape| == 4
    ensures var r := Blocks(m, w, x, k);
            r.Success? ==> |r.value.shape| == 4 && r.value.shape[0] == x.shape[0]
    decreases |Strides| - k
  {
    if k < |Strides| && Blocks(m, w, x, k).Success? {
      BlockBatch(m, w, x, FeatureName(k), Strides[k], true);
      BlocksBatch(m, w, DepthwiseSeparableConv(m, w, x, FeatureName(k), Strides[k], true).value, k + 1);
    }
  }

  /** With standard kernels the features of an H x W input are Spatial(Reduced(H, 2), 0) on each side. */
  lemma FeaturesSpatial(m: Math, w: map<string, Tensor>, input: Tensor)
    requires StandardKernels(w)
    ensures var r := Features(m, w, input);
            r.Success? ==> |r.value.shape| == 4 && r.value.shape[0] == input.shape[0]
                           && r.value.shape[2] == Spatial(Reduced(input.shape[2], 2), 0)
                           && r.value.shape[3] == Spatial(Reduced(input.shape[3], 2), 0)
  {
    var stem := Stem(m, w, input);
    if stem.Success? {
      BlocksSpatial(m, w, stem.value, 0);
    }
  }

  /** Seven blocks take the stem's 112 x 112 map of a 224 x 224 image down to 7 x 7. */
  lemma SpatialFromStem(size: nat)
    requires size == ImageTrace[1]
    ensures Spatial(size, 0) == 7
  {
    ImageTraceSteps();
    var blocks := ImageTrace[1..];
    assert forall i :: 0 <= i < |blocks| ==> blocks[i] == ImageTrace[i + 1];
    SpatialAlong(size, blocks, 0);
  }

  /** A 224 x 224 input reaches the pool as a 7 x 7 map. */
  lemma Features224(m: Math, w: map<string, Tensor>, input: Tensor)
    requires StandardKernels(w) && |input.shape| == 4 && input.shape[2] == 224 && input.shape[3] == 224
    ensures var r := Features(m, w, input);
            r.Success? ==> |r.value.shape| == 4 && r.value.shape[0] == input.shape[0]
                           && r.value.shape[2] == 7 && r.value.shape[3] == 7
  {
    FeaturesSpatial(m, w, input);
    ImageTraceSteps();
    SpatialFromStem(Reduced(input.shape[2], 2));
    SpatialFromStem(Reduced(input.shape[3], 2));
  }

  /** The head pools to 1x1, flattens to [N, C] and ends in [N, rows of classifier.5.weight]. */
  lemma HeadShape(w: map<string, Tensor>, x: Tensor)
    ensures var r := Head(w, x);
            r.Success? ==> r.value.shape == [x.shape[0], w["classifier.5.weight"].shape[0]]
  {
  }

  /** forward yields [N, rows of classifier.5.weight]. */
  lemma ForwardShape(m: Math, w: map<string, Tensor>, input: Tensor)
    ensures var r := Forward(m, w, input);
            r.Success? ==> r.value.shape == [input.shape[0], w["classifier.5.weight"].shape[0]]
  {
    var stem := Stem(m, w, input);
    if stem.Success? {
      BlocksBatch(m, w, stem.value, 0);
      var features := Blocks(m, w, stem.value, 0);
      if features.Success? {
        HeadShape(w, features.value);
      }
    }
  }
}
