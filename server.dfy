/**
 * The two adapters of src/server.cpp between HTTP and the network: the layout and
 * normalisation of a resized RGB image into the [1, 3, 224, 224] input tensor, and
 * the top-5 selection with its softmax that turns the logits into predictions.
 *
 * Decoding and resizing the image (stb), the breeds file (JSON), the HTTP routing
 * and the JSON text of the response are not part of this model: the resized
 * interleaved buffer and the breeds map are inputs, the response is the sequence
 * of predictions it would print.
 */
module Server {
  import opened Wrappers
  import opened Arith
  import opened Tensors
  import opened Numerics
  import Container

  // ---------------------------------------------------------------------------
  // preprocess_image

  /** The side of the square image the network takes. */
  const TargetSize: nat := 224

  /** Elements of one colour plane, and of the whole image. */
  const Plane: nat := 224 * 224
  const Pixels: nat := 3 * 224 * 224

  /** The ImageNet statistics the image is normalised with, per colour channel. */
  const Mean: seq<real> := [0.485, 0.456, 0.406]
  const Std: seq<real> := [0.229, 0.224, 0.225]

  /** (pixel / 255 - mean[c]) / std[c]. */
  function Normalize(b: Container.Byte, c: nat): (v: real)
    requires c < 3
    ensures (v * Std[c] + Mean[c]) * 255.0 == b as real
    ensures -Mean[c] / Std[c] <= v <= (1.0 - Mean[c]) / Std[c]
  {
    ((b as real) / 255.0 - Mean[c]) / Std[c]
  }

  /** src_idx: where channel c of pixel (h, w) sits in the interleaved resized buffer. */
  function SrcIndex(c: nat, h: nat, w: nat): nat
  {
    (h * TargetSize + w) * 3 + c
  }

  /** dst_idx: where it goes in the planar tensor buffer. */
  function DstIndex(c: nat, h: nat, w: nat): nat
  {
    ((0 * 3 + c) * TargetSize + h) * TargetSize + w
  }

  /** The interleaved position that fills planar position j. */
  function SourceOf(j: nat): nat
    requires j < Pixels
  {
    var i := Decode(3, TargetSize, TargetSize, j);
    SrcIndex(i.c, i.h, i.w)
  }

  /** The planar position that interleaved position s is copied to. */
  function DestOf(s: nat): nat
    requires s < Pixels
  {
    var i := Decode(TargetSize, TargetSize, 3, s);
    DstIndex(i.w, i.c, i.h)
  }

  /** Both index expressions of the loop are in bounds, and the destination determines the source. */
  lemma LoopIndices(c: nat, h: nat, w: nat)
    requires c < 3 && h < TargetSize && w < TargetSize
    ensures SrcIndex(c, h, w) < Pixels && DstIndex(c, h, w) < Pixels
    ensures DstIndex(c, h, w) == c * Plane + h * TargetSize + w
    ensures Decode(3, TargetSize, TargetSize, DstIndex(c, h, w)) == Index4(0, c, h, w)
    ensures SourceOf(DstIndex(c, h, w)) == SrcIndex(c, h, w)
  {
    assert SrcIndex(c, h, w) == Offset(TargetSize, TargetSize, 3, 0, h, w, c);
    assert DstIndex(c, h, w) == Offset(3, TargetSize, TargetSize, 0, c, h, w);
    OffsetBound(1, TargetSize, TargetSize, 3, 0, h, w, c);
    OffsetBound(1, 3, TargetSize, TargetSize, 0, c, h, w);
    DecodeOffset(3, TargetSize, TargetSize, 0, c, h, w);
  }

  /** SourceOf and DestOf are inverse maps of [0, Pixels): the layout change is a bijection. */
  lemma LayoutBijection(j: nat, s: nat)
    requires j < Pixels && s < Pixels
    ensures SourceOf(j) < Pixels && DestOf(SourceOf(j)) == j
    ensures DestOf(s) < Pixels && SourceOf(DestOf(s)) == s
  {
    var i := Decode(3, TargetSize, TargetSize, j);
    DecodeBound(1, 3, TargetSize, TargetSize, j);
    LoopIndices(i.c, i.h, i.w);
    assert SourceOf(j) == Offset(TargetSize, TargetSize, 3, 0, i.h, i.w, i.c);
    DecodeOffset(TargetSize, TargetSize, 3, 0, i.h, i.w, i.c);
    var k := Decode(TargetSize, TargetSize, 3, s);
    DecodeBound(1, TargetSize, TargetSize, 3, s);
    assert s == SrcIndex(k.w, k.c, k.h);
    LoopIndices(k.w, k.c, k.h);
  }

  /** Planar element j: the interleaved byte it comes from, normalised with its channel's statistics. */
  function Element(resized: seq<Container.Byte>, j: nat): real
    requires |resized| == Pixels && j < Pixels
  {
    LayoutBijection(j, 0);
    Normalize(resized[SourceOf(j)], Decode(3, TargetSize, TargetSize, j).c)
  }

  /** The tensor preprocess_image returns for a resized interleaved RGB buffer. */
  function Preprocessed(resized: seq<Container.Byte>): (t: Tensor)
    requires |resized| == Pixels
    ensures t.shape == [1, 3, TargetSize, TargetSize] && Valid(t)
  {
    var data := seq(Pixels, j requires 0 <= j < Pixels => Element(resized, j));
    assert Product([1, 3, TargetSize, TargetSize]) == Pixels by {
      Product4([1, 3, TargetSize, TargetSize]);
    }
    Tensor([1, 3, TargetSize, TargetSize], data)
  }

  /** Element (0, c, h, w) of the tensor is channel c of pixel (h, w), normalised. */
  lemma PreprocessedAt(resized: seq<Container.Byte>, c: nat, h: nat, w: nat)
    requires |resized| == Pixels && c < 3 && h < TargetSize && w < TargetSize
    ensures At(Preprocessed(resized), 0, c, h, w) == Normalize(resized[SrcIndex(c, h, w)], c)
  {
    LoopIndices(c, h, w);
    assert Offset(3, TargetSize, TargetSize, 0, c, h, w) == DstIndex(c, h, w);
  }

  /** Interleaved position s lands in the plane of its own channel s % 3. */
  lemma DestChannel(s: nat)
    requires s < Pixels
    ensures DestOf(s) < Pixels && SourceOf(DestOf(s)) == s
    ensures Decode(3, TargetSize, TargetSize, DestOf(s)).c == s % 3
  {
    var k := Decode(TargetSize, TargetSize, 3, s);
    assert k.w == s % 3;
    assert s == SrcIndex(k.w, k.c, k.h) by {
      assert Offset(TargetSize, TargetSize, 3, k.n, k.c, k.h, k.w) == s;
      DecodeBound(1, TargetSize, TargetSize, 3, s);
    }
    assert k.c < TargetSize && k.h < TargetSize;
    LoopIndices(k.w, k.c, k.h);
  }

  lemma PreprocessedElement(resized: seq<Container.Byte>, j: nat)
    requires |resized| == Pixels && j < Pixels
    ensures Preprocessed(resized).data[j] == Element(resized, j)
  {
  }

  /** The value the loop of preprocess_image writes at (c, h, w), and where it writes it. */
  lemma PreprocessedStep(resized: seq<Container.Byte>, c: nat, h: nat, w: nat)
    requires |resized| == Pixels && c < 3 && h < TargetSize && w < TargetSize
    ensures SrcIndex(c, h, w) < Pixels && DstIndex(c, h, w) == c * Plane + h * TargetSize + w < Pixels
    ensures Preprocessed(resized).data[DstIndex(c, h, w)] == Normalize(resized[SrcIndex(c, h, w)], c)
  {
    LoopIndices(c, h, w);
    PreprocessedElement(resized, DstIndex(c, h, w));
  }

  /** Every byte of the resized image can be read back from the tensor: nothing is lost or merged. */
  lemma PreprocessedRecovers(resized: seq<Container.Byte>, s: nat)
    requires |resized| == Pixels && s < Pixels
    ensures (Preprocessed(resized).data[DestOf(s)] * Std[s % 3] + Mean[s % 3]) * 255.0 == resized[s] as real
  {
    DestChannel(s);
    PreprocessedElement(resized, DestOf(s));
  }

  /** Two different resized images give two different tensors. */
  lemma PreprocessedInjective(a: seq<Container.Byte>, b: seq<Container.Byte>)
    requires |a| == Pixels && |b| == Pixels && Preprocessed(a) == Preprocessed(b)
    ensures a == b
  {
    forall s | 0 <= s < Pixels
      ensures a[s] == b[s]
    {
      PreprocessedRecovers(a, s);
      PreprocessedRecovers(b, s);
    }
  }

  // ---------------------------------------------------------------------------
  // create_response

  /** A (logit, class index) pair of the scores vector. */
  datatype Score = Score(logit: real, id: nat)

  /** The English and Korean names of a breed. */
  datatype BreedInfo = BreedInfo(en: string, ko: string)

  /** One entry of the predictions array: class id, probability, and the breed names when known. */
  datatype Prediction = Prediction(classId: nat, score: real, breed: Option<BreedInfo>)

  /** The scores vector as first built: logit i paired with its index i. */
  function ScoresOf(logits: seq<real>): (s: seq<Score>)
    ensures |s| == |logits|
    ensures forall i :: 0 <= i < |s| ==> s[i].id == i && s[i].logit == logits[i]
  {
    seq(|logits|, i requires 0 <= i < |logits| => Score(logits[i], i))
  }

  /**
   * What partial_sort with the comparator a.first > b.first guarantees for its middle k:
   * every one of the first k entries is at least as large as everything after it.
   */
  predicate PartialSorted(s: seq<Score>, k: nat)
  {
    forall i, j :: 0 <= i < j < |s| && i < k ==> s[i].logit >= s[j].logit
  }

  predicate DistinctIds(ids: seq<nat>)
  {
    forall i, j :: 0 <= i < j < |ids| ==> ids[i] != ids[j]
  }

  /**
   * ids are five different class indices of logits, in non-increasing order of
   * logit, and no other class has a larger logit than the fifth.
   */
  predicate TopFive(logits: seq<real>, ids: seq<nat>)
  {
    && |ids| == 5
    && (forall i :: 0 <= i < 5 ==> ids[i] < |logits|)
    && DistinctIds(ids)
    && (forall i, j :: 0 <= i < j < 5 ==> logits[ids[i]] >= logits[ids[j]])
    && (forall c :: 0 <= c < |logits| && c !in ids ==> logits[c] <= logits[ids[4]])
  }

  /** The first of the top five holds the largest logit overall. */
  lemma TopFirstIsMax(logits: seq<real>, ids: seq<nat>)
    requires TopFive(logits, ids)
    ensures forall c :: 0 <= c < |logits| ==> logits[c] <= logits[ids[0]]
  {
    forall c | 0 <= c < |logits|
      ensures logits[c] <= logits[ids[0]]
    {
      if c in ids {
        var i :| 0 <= i < 5 && ids[i] == c;
        if i > 0 {
          assert logits[ids[0]] >= logits[ids[i]];
        }
      } else {
        assert logits[ids[0]] >= logits[ids[4]];
      }
    }
  }

  function Elems(s: seq<nat>): set<nat>
  {
    set x | x in s
  }

  lemma {:induction false} ElemsSize(s: seq<nat>)
    ensures |Elems(s)| <= |s|
    ensures DistinctIds(s) ==> |Elems(s)| == |s|
  {
    if |s| > 0 {
      var init := s[..|s| - 1];
      ElemsSize(init);
      assert Elems(s) == Elems(init) + {s[|s| - 1]};
      if DistinctIds(s) {
        assert DistinctIds(init);
        assert s[|s| - 1] !in Elems(init);
      }
    }
  }

  lemma SubsetSize(a: set<nat>, b: set<nat>)
    requires a <= b
    ensures |a| <= |b|
  {
    assert b == a + (b - a);
  }

  /** A class whose logit exceeds position i of a top five is among its first i classes. */
  lemma LargerIsPlaced(logits: seq<real>, b: seq<nat>, i: nat, x: nat)
    requires TopFive(logits, b) && i < 5 && x < |logits| && logits[x] > logits[b[i]]
    ensures x in Elems(b[..i])
  {
    if x !in b {
      assert false;
    }
    var p :| 0 <= p < 5 && b[p] == x;
    if p >= i {
      assert false;
    }
    assert b[..i][p] == x;
  }

  /**
   * Two top fives of the same logits that agree on their first i logits agree on the
   * next one too: a larger logit at position i of one would give i + 1 classes above
   * everything from position i of the other on, and only i places hold them.
   */
  lemma TopFiveNextLogit(logits: seq<real>, a: seq<nat>, b: seq<nat>, i: nat)
    requires TopFive(logits, a) && TopFive(logits, b) && i < 5
    requires forall k :: 0 <= k < i ==> logits[a[k]] == logits[b[k]]
    ensures logits[a[i]] <= logits[b[i]]
  {
    if logits[a[i]] > logits[b[i]] {
      var bound := logits[b[i]];
      var above := Elems(a[..i + 1]);
      var placed := Elems(b[..i]);
      forall x | x in above
        ensures x in placed
      {
        var k :| 0 <= k <= i && a[k] == x;
        assert logits[x] >= logits[a[i]];
        LargerIsPlaced(logits, b, i, x);
      }
      assert DistinctIds(a[..i + 1]);
      ElemsSize(a[..i + 1]);
      ElemsSize(b[..i]);
      SubsetSize(above, placed);
      assert false;
    }
  }

  /**
   * The logits of the top five do not depend on which of several equal logits
   * partial_sort keeps: any two top fives select the same five values in the same order.
   */
  lemma {:induction false} TopFiveLogitsUnique(logits: seq<real>, a: seq<nat>, b: seq<nat>)
    requires TopFive(logits, a) && TopFive(logits, b)
    ensures Selected(logits, a) == Selected(logits, b)
  {
    forall i | 0 <= i < 5
      ensures logits[a[i]] == logits[b[i]]
    {
      TopFivePrefix(logits, a, b, i);
    }
  }

  lemma {:induction false} TopFivePrefix(logits: seq<real>, a: seq<nat>, b: seq<nat>, i: nat)
    requires TopFive(logits, a) && TopFive(logits, b) && i < 5
    ensures forall k :: 0 <= k <= i ==> logits[a[k]] == logits[b[k]]
  {
    if i > 0 {
      TopFivePrefix(logits, a, b, i - 1);
    }
    TopFiveNextLogit(logits, a, b, i);
    TopFiveNextLogit(logits, b, a, i);
  }

  /** So the probabilities of the response are the same whichever way ties are broken. */
  lemma ResponseIgnoresTies(m: Math, logits: seq<real>, a: seq<nat>, b: seq<nat>)
    requires TopFive(logits, a) && TopFive(logits, b)
    ensures Softmax(m, Selected(logits, a)) == Softmax(m, Selected(logits, b))
  {
    TopFiveLogitsUnique(logits, a, b);
  }

  /** left-to-right accumulation, as sum_exp += exp_val. */
  function Sum(s: seq<real>): real
  {
    if |s| == 0 then 0.0 else Sum(s[..|s| - 1]) + s[|s| - 1]
  }

  /** exp(v - max) for every selected logit v. */
  function Exps(m: Math, top: seq<real>, max: real): (e: seq<real>)
    ensures |e| == |top|
    ensures forall i :: 0 <= i < |top| ==> e[i] == m.exp(top[i] - max)
  {
    seq(|top|, i requires 0 <= i < |top| => m.exp(top[i] - max))
  }

  /** The probabilities of the response: the softmax of the selected logits, shifted by the first. */
  function Softmax(m: Math, top: seq<real>): (p: seq<real>)
    requires |top| > 0
    ensures |p| == |top|
  {
    Shares(Exps(m, top, top[0]))
  }

  /** probs[i] / sum_exp for every i. */
  function Shares(e: seq<real>): (p: seq<real>)
    ensures |p| == |e| && forall i :: 0 <= i < |e| ==> p[i] == Quot(e[i], Sum(e))
  {
    seq(|e|, i requires 0 <= i < |e| => Quot(e[i], Sum(e)))
  }

  /** The logits of the given classes, in order. */
  function Selected(logits: seq<real>, ids: seq<nat>): (v: seq<real>)
    requires forall i :: 0 <= i < |ids| ==> ids[i] < |logits|
    ensures |v| == |ids|
  {
    seq(|ids|, i requires 0 <= i < |ids| => logits[ids[i]])
  }

  /** With the first selected logit the largest, every argument passed to exp is at most 0. */
  lemma ExponentsNonPositive(logits: seq<real>, ids: seq<nat>)
    requires TopFive(logits, ids)
    ensures forall i :: 0 <= i < 5 ==> Selected(logits, ids)[i] - Selected(logits, ids)[0] <= 0.0
  {
  }

  lemma {:induction false} SumPositive(s: seq<real>)
    requires forall i :: 0 <= i < |s| ==> s[i] > 0.0
    ensures |s| > 0 ==> Sum(s) > 0.0
    ensures Sum(s) >= 0.0
  {
    if |s| > 0 {
      SumPositive(s[..|s| - 1]);
    }
  }

  /** Dividing every term by d divides the sum by d. */
  lemma {:induction false} SumScaled(s: seq<real>, d: real)
    requires d > 0.0
    ensures Sum(seq(|s|, i requires 0 <= i < |s| => s[i] / d)) == Sum(s) / d
  {
    var q := seq(|s|, i requires 0 <= i < |s| => s[i] / d);
    if |s| > 0 {
      var init := s[..|s| - 1];
      SumScaled(init, d);
      assert q[..|q| - 1] == seq(|init|, i requires 0 <= i < |init| => init[i] / d);
      assert Sum(q) == Sum(init) / d + s[|s| - 1] / d;
    }
  }

  /** Where exp is positive the probabilities lie in (0, 1] and add up to 1. */
  lemma SoftmaxDistribution(m: Math, top: seq<real>)
    requires |top| > 0 && forall v: real :: m.exp(v) > 0.0
    ensures forall i :: 0 <= i < |top| ==> 0.0 < Softmax(m, top)[i] <= 1.0
    ensures Sum(Softmax(m, top)) == 1.0
  {
    var e := Exps(m, top, top[0]);
    assert forall i :: 0 <= i < |e| ==> e[i] > 0.0;
    SharesDistribution(e);
  }

  /** Positive terms divided by their sum lie in (0, 1] and add up to 1. */
  lemma SharesDistribution(e: seq<real>)
    requires |e| > 0 && forall i :: 0 <= i < |e| ==> e[i] > 0.0
    ensures forall i :: 0 <= i < |e| ==> 0.0 < Shares(e)[i] <= 1.0
    ensures Sum(Shares(e)) == 1.0
  {
    SumPositive(e);
    SumParts(e);
    var total := Sum(e);
    forall i | 0 <= i < |e|
      ensures 0.0 < Shares(e)[i] <= 1.0
    {
      ShareBounds(e[i], total);
    }
    SumScaled(e, total);
    assert Shares(e) == seq(|e|, i requires 0 <= i < |e| => e[i] / total);
  }

  /** Each positive term is at most the sum. */
  lemma {:induction false} SumParts(s: seq<real>)
    requires forall i :: 0 <= i < |s| ==> s[i] > 0.0
    ensures forall i :: 0 <= i < |s| ==> s[i] <= Sum(s)
  {
    if |s| > 0 {
      var init := s[..|s| - 1];
      SumParts(init);
      SumPositive(init);
      assert forall i :: 0 <= i < |init| ==> s[i] == init[i];
    }
  }

  /** With exp monotone, a non-increasing run of logits gives non-increasing probabilities. */
  lemma SoftmaxOrdered(m: Math, top: seq<real>)
    requires |top| > 0 && forall v: real :: m.exp(v) > 0.0
    requires forall a: real, b: real :: a <= b ==> m.exp(a) <= m.exp(b)
    requires forall i, j :: 0 <= i < j < |top| ==> top[i] >= top[j]
    ensures forall i, j :: 0 <= i < j < |top| ==> Softmax(m, top)[i] >= Softmax(m, top)[j]
  {
    var e := Exps(m, top, top[0]);
    SumPositive(e);
    forall i, j | 0 <= i < j < |top|
      ensures Softmax(m, top)[i] >= Softmax(m, top)[j]
    {
      assert e[j] <= e[i] by {
        assert top[j] - top[0] <= top[i] - top[0];
      }
      QuotMonotone(e[j], e[i], Sum(e));
    }
  }

  lemma ShareBounds(a: real, d: real)
    requires 0.0 < a <= d
    ensures 0.0 < Quot(a, d) <= 1.0
  {
    var q := a / d;
    assert q * d == a;
    if q > 1.0 {
      assert q * d > 1.0 * d;
    }
  }

  lemma QuotMonotone(a: real, b: real, d: real)
    requires a <= b && d > 0.0
    ensures Quot(a, d) <= Quot(b, d)
  {
    assert b / d - a / d == (b - a) / d;
  }

  /** A breed's names are attached exactly when its id is a key of the breeds map. */
  predicate BreedsAttached(breeds: map<int, BreedInfo>, preds: seq<Prediction>)
  {
    forall i :: 0 <= i < |preds| ==>
      preds[i].breed == (if preds[i].classId in breeds then Some(breeds[preds[i].classId]) else None)
  }

  function Ids(preds: seq<Prediction>): (ids: seq<nat>)
    ensures |ids| == |preds| && forall i :: 0 <= i < |preds| ==> ids[i] == preds[i].classId
  {
    seq(|preds|, i requires 0 <= i < |preds| => preds[i].classId)
  }

  function Probabilities(preds: seq<Prediction>): (p: seq<real>)
    ensures |p| == |preds| && forall i :: 0 <= i < |preds| ==> p[i] == preds[i].score
  {
    seq(|preds|, i requires 0 <= i < |preds| => preds[i].score)
  }

  predicate Distinct<T(==)>(s: seq<T>)
  {
    forall p, q :: 0 <= p < q < |s| ==> s[p] != s[q]
  }

  /** An element of a sequence without repeats occurs in its multiset at most once. */
  lemma {:induction false} DistinctCount<T>(s: seq<T>, x: T)
    requires Distinct(s)
    ensures multiset(s)[x] <= 1
  {
    if |s| > 0 {
      var init := s[..|s| - 1];
      assert s == init + [s[|s| - 1]];
      assert Distinct(init);
      DistinctCount(init, x);
      if x == s[|s| - 1] {
        assert x !in init;
      }
    }
  }

  /** An element at two positions occurs in the multiset at least twice. */
  lemma RepeatCount<T>(s: seq<T>, p: nat, q: nat)
    requires p < q < |s| && s[p] == s[q]
    ensures multiset(s)[s[p]] >= 2
  {
    assert s == s[..q] + s[q..];
    assert s[p] in s[..q];
    assert s[q] in s[q..];
  }

  /** A permutation of a sequence without repeats has none either. */
  lemma DistinctPermutation<T>(s: seq<T>, t: seq<T>)
    requires Distinct(s) && multiset(s) == multiset(t)
    ensures Distinct(t)
  {
    forall p, q | 0 <= p < q < |t|
      ensures t[p] != t[q]
    {
      if t[p] == t[q] {
        RepeatCount(t, p, q);
        DistinctCount(s, t[p]);
      }
    }
  }

  function ScoreIds(s: seq<Score>): (ids: seq<nat>)
    ensures |ids| == |s| && forall p :: 0 <= p < |s| ==> ids[p] == s[p].id
  {
    seq(|s|, p requires 0 <= p < |s| => s[p].id)
  }

  /**
   * Any reordering of the scores vector still pairs each logit with its own index,
   * holds every index once, and misses none.
   */
  lemma PermutedScores(logits: seq<real>, s: seq<Score>)
    requires multiset(s) == multiset(ScoresOf(logits))
    ensures |s| == |logits|
    ensures forall p :: 0 <= p < |s| ==> s[p].id < |logits| && s[p].logit == logits[s[p].id]
    ensures forall p, q :: 0 <= p < q < |s| ==> s[p].id != s[q].id
    ensures forall c :: 0 <= c < |logits| ==> c in ScoreIds(s)
  {
    var scores := ScoresOf(logits);
    assert |s| == |multiset(s)| == |scores|;
    forall p | 0 <= p < |s|
      ensures s[p].id < |logits| && s[p].logit == logits[s[p].id]
    {
      assert s[p] in multiset(scores);
    }
    assert Distinct(scores);
    DistinctPermutation(scores, s);
    forall c | 0 <= c < |logits|
      ensures c in ScoreIds(s)
    {
      assert scores[c] in multiset(s);
      var p :| 0 <= p < |s| && s[p] == scores[c];
      assert ScoreIds(s)[p] == c;
    }
  }

  /** std::partial_sort(first, first + k, last, greater-by-logit), here by repeated selection of the largest. */
  method PartialSort(a: array<Score>, k: nat)
    requires k <= a.Length
    modifies a
    ensures multiset(a[..]) == multiset(old(a[..]))
    ensures PartialSorted(a[..], k)
  {
    for i := 0 to k
      invariant multiset(a[..]) == multiset(old(a[..]))
      invariant PartialSorted(a[..], i)
    {
      var best := i;
      for j := i + 1 to a.Length
        invariant i <= best < a.Length
        invariant forall t :: i <= t < j ==> a[t].logit <= a[best].logit
      {
        if a[j].logit > a[best].logit {
          best := j;
        }
      }
      ghost var prev := a[..];
      a[i], a[best] := a[best], a[i];
      assert a[..] == Swapped(prev, i, best);
      SelectStep(prev, i, best);
    }
  }

  /** prev with the entries at i and j exchanged. */
  function Swapped(prev: seq<Score>, i: nat, j: nat): (s: seq<Score>)
    requires i < |prev| && j < |prev|
    ensures multiset(s) == multiset(prev)
  {
    prev[i := prev[j]][j := prev[i]]
  }

  /** Moving a largest remaining entry to position i extends the sorted prefix by one. */
  lemma SelectStep(prev: seq<Score>, i: nat, best: nat)
    requires PartialSorted(prev, i) && i <= best < |prev|
    requires forall t :: i <= t < |prev| ==> prev[t].logit <= prev[best].logit
    ensures PartialSorted(Swapped(prev, i, best), i + 1)
  {
    var s := Swapped(prev, i, best);
    assert forall t :: i <= t < |s| ==> s[t] == prev[t] || s[t] == prev[i] || s[t] == prev[best];
  }

  /**
   * After partial_sort with k = 5 on the scores vector, the ids of its first five
   * entries are a top five of the logits, and their logits are the first five scores.
   */
  lemma TopFiveOfSorted(logits: seq<real>, sorted: seq<Score>)
    requires |logits| >= 5 && |sorted| == |logits|
    requires multiset(sorted) == multiset(ScoresOf(logits)) && PartialSorted(sorted, 5)
    ensures TopFive(logits, ScoreIds(sorted)[..5])
    ensures Selected(logits, ScoreIds(sorted)[..5]) == TopLogits(sorted)
  {
    PermutedScores(logits, sorted);
    var ids := ScoreIds(sorted)[..5];
    forall c | 0 <= c < |logits| && c !in ids
      ensures logits[c] <= logits[ids[4]]
    {
      assert c in ScoreIds(sorted);
      var p :| 0 <= p < |sorted| && ScoreIds(sorted)[p] == c;
      assert forall k :: 0 <= k < 5 ==> ids[k] in ids;
      assert p >= 5;
    }
  }

  /** The logits of the first five scores. */
  function TopLogits(sorted: seq<Score>): (top: seq<real>)
    requires |sorted| >= 5
    ensures |top| == 5 && forall k :: 0 <= k < 5 ==> top[k] == sorted[k].logit
  {
    seq(5, k requires 0 <= k < 5 => sorted[k].logit)
  }

  /** The scores vector of create_response, built in index order and then partially sorted. */
  method RankScores(logits: seq<real>) returns (sorted: seq<Score>)
    requires |logits| >= 5
    ensures |sorted| == |logits| && multiset(sorted) == multiset(ScoresOf(logits))
    ensures PartialSorted(sorted, 5)
  {
    var scores := new Score[|logits|](_ => Score(0.0, 0));
    for i := 0 to |logits|
      invariant forall k :: 0 <= k < i ==> scores[k] == Score(logits[k], k)
    {
      scores[i] := Score(logits[i], i);
    }
    assert scores[..] == ScoresOf(logits);
    PartialSort(scores, 5);
    sorted := scores[..];
  }

  /** The first loop of the softmax: exp(score - max_logit) for the top five, and their running sum. */
  method ShiftedExps(m: Math, sorted: seq<Score>) returns (probs: seq<real>, sumExp: real)
    requires |sorted| >= 5
    ensures probs == Exps(m, TopLogits(sorted), TopLogits(sorted)[0]) && sumExp == Sum(probs)
  {
    var maxLogit := sorted[0].logit;
    sumExp := 0.0;
    probs := [];
    ghost var exps := Exps(m, TopLogits(sorted), maxLogit);
    for i := 0 to 5
      invariant probs == exps[..i]
      invariant sumExp == Sum(probs)
    {
      var expVal := m.exp(sorted[i].logit - maxLogit);
      assert (probs + [expVal])[..i] == probs;
      assert exps[..i + 1] == exps[..i] + [expVal];
      probs := probs + [expVal];
      sumExp := sumExp + expVal;
    }
    assert probs == exps;
  }

  /** The server: breeds_ as load_breeds leaves it. */
  class InferenceServer {
    var breeds: map<int, BreedInfo>

    /** The breeds map is taken as already read from its JSON file. */
    constructor(breeds: map<int, BreedInfo>)
      ensures this.breeds == breeds
    {
      this.breeds := breeds;
    }

    /** The normalisation loop of preprocess_image over the resized interleaved buffer. */
    method PreprocessImage(resized: seq<Container.Byte>) returns (t: Tensor)
      requires |resized| == Pixels
      ensures t == Preprocessed(resized)
    {
      ghost var spec := Preprocessed(resized).data;
      var out := ZeroBuffer(Pixels, spec);
      for c := 0 to 3
        invariant Filled(out, c * Plane, spec)
      {
        NormalizePlane(resized, out, spec, c);
      }
      FilledAll(out[..], Pixels, spec);
      t := Tensor([1, 3, TargetSize, TargetSize], out[..]);
    }

    /** The middle loop of preprocess_image: the rows of channel c. */
    method NormalizePlane(resized: seq<Container.Byte>, out: array<real>, ghost spec: seq<real>, c: nat)
      requires |resized| == Pixels && spec == Preprocessed(resized).data
      requires c < 3 && Filled(out, c * Plane, spec)
      modifies out
      ensures Filled(out, (c + 1) * Plane, spec)
    {
      for h := 0 to TargetSize
        invariant Filled(out, c * Plane + h * TargetSize, spec)
      {
        NormalizeRow(resized, out, spec, c, h);
      }
      assert c * Plane + TargetSize * TargetSize == (c + 1) * Plane;
    }

    /** The innermost loop of preprocess_image: row h of channel c. */
    method NormalizeRow(resized: seq<Container.Byte>, out: array<real>, ghost spec: seq<real>, c: nat, h: nat)
      requires |resized| == Pixels && spec == Preprocessed(resized).data
      requires c < 3 && h < TargetSize && Filled(out, c * Plane + h * TargetSize, spec)
      modifies out
      ensures Filled(out, c * Plane + (h + 1) * TargetSize, spec)
    {
      for w := 0 to TargetSize
        invariant Filled(out, c * Plane + h * TargetSize + w, spec)
      {
        var srcIdx := (h * TargetSize + w) * 3 + c;
        var dstIdx := ((0 * 3 + c) * TargetSize + h) * TargetSize + w;
        assert srcIdx == SrcIndex(c, h, w) && dstIdx == DstIndex(c, h, w);
        PreprocessedStep(resized, c, h, w);
        var pixel := (resized[srcIdx] as real) / 255.0;
        var value := (pixel - Mean[c]) / Std[c];
        assert value == Normalize(resized[srcIdx], c);
        Store(out, spec, dstIdx, value);
      }
      assert c * Plane + h * TargetSize + TargetSize == c * Plane + (h + 1) * TargetSize;
    }

    /** create_response: the top five classes of the logits with their softmax probabilities and breed names. */
    method CreateResponse(m: Math, logits: seq<real>) returns (preds: seq<Prediction>)
      requires |logits| >= 5
      ensures |preds| == 5
      ensures TopFive(logits, Ids(preds))
      ensures Probabilities(preds) == Softmax(m, Selected(logits, Ids(preds)))
      ensures BreedsAttached(breeds, preds)
    {
      var sorted := RankScores(logits);
      var probs, sumExp := ShiftedExps(m, sorted);

      preds := [];
      for i := 0 to 5
        invariant |preds| == i
        invariant forall k :: 0 <= k < i ==> preds[k].classId == sorted[k].id && preds[k].score == Quot(probs[k], sumExp)
        invariant BreedsAttached(breeds, preds)
      {
        var prob := Quot(probs[i], sumExp);
        var classId := sorted[i].id;
        var breed := if classId in breeds then Some(breeds[classId]) else None;
        preds := preds + [Prediction(classId, prob, breed)];
      }

      assert Ids(preds) == ScoreIds(sorted)[..5];
      TopFiveOfSorted(logits, sorted);
    }
  }
}
