/**
 The detector metric: overlap of boxes, and the greedy one-to-one matching of predicted
 boxes, taken in score order, with true boxes.
 */
module BoxMatch {
  import opened Prelude

  datatype Box = Box(x: real, y: real, w: real, h: real)

  function Max(a: real, b: real): real {
    if a >= b then a else b
  }

  function Min(a: real, b: real): real {
    if a <= b then a else b
  }

  function Overlap(p: real, len: real, q: real, len': real): real {
    Max(0.0, Min(p + len, q + len') - Max(p, q))
  }

  function Inter(a: Box, b: Box): real {
    Overlap(a.x, a.w, b.x, b.w) * Overlap(a.y, a.h, b.y, b.h)
  }

  function Area(a: Box): real {
    a.w * a.h
  }

  /** Intersection over union, from the intersection and the two areas. */
  function Ratio(inter: real, p: real, q: real): real {
    if p + q - inter > 0.0 then inter / (p + q - inter) else 0.0
  }

  function Iou(a: Box, b: Box): real {
    Ratio(Inter(a, b), Area(a), Area(b))
  }

  predicate NonNegative(a: Box) {
    a.w >= 0.0 && a.h >= 0.0
  }

  // ----- overlap -----

  lemma ProductMonotone(a: real, b: real, c: real, d: real)
    requires 0.0 <= a <= c && 0.0 <= b <= d
    ensures 0.0 <= a * b <= c * d
  {
    assert a * b <= c * b;
    assert c * b <= c * d;
  }

  lemma OverlapBounds(p: real, len: real, q: real, len': real)
    requires len >= 0.0 && len' >= 0.0
    ensures 0.0 <= Overlap(p, len, q, len') <= Min(len, len')
    ensures Overlap(p, len, q, len') == Overlap(q, len', p, len)
    ensures len > 0.0 && Overlap(p, len, q, len') == len == len' ==> p == q
  {
  }

  lemma ProductWithin(ox: real, oy: real, c: Box)
    requires 0.0 <= ox <= c.w && 0.0 <= oy <= c.h
    ensures 0.0 <= ox * oy <= Area(c)
  {
    ProductMonotone(ox, oy, c.w, c.h);
  }

  lemma InterBounds(a: Box, b: Box)
    requires NonNegative(a) && NonNegative(b)
    ensures 0.0 <= Inter(a, b) <= Area(a)
    ensures Inter(a, b) <= Area(b)
  {
    OverlapBounds(a.x, a.w, b.x, b.w);
    OverlapBounds(a.y, a.h, b.y, b.h);
    var ox, oy := Overlap(a.x, a.w, b.x, b.w), Overlap(a.y, a.h, b.y, b.h);
    ProductWithin(ox, oy, a);
    ProductWithin(ox, oy, b);
  }

  /** The point is in the box, which has its lower edges and not its upper ones. */
  predicate Inside(a: Box, x: real, y: real) {
    a.x <= x < a.x + a.w && a.y <= y < a.y + a.h
  }

  function Common(a: Box, b: Box): Box {
    Box(Max(a.x, b.x), Max(a.y, b.y), Overlap(a.x, a.w, b.x, b.w), Overlap(a.y, a.h, b.y, b.h))
  }

  /** The intersection is the area of the box of all common points. */
  lemma InterIsCommonArea(a: Box, b: Box)
    ensures Inter(a, b) == Area(Common(a, b))
    ensures forall x, y :: Inside(Common(a, b), x, y) <==> Inside(a, x, y) && Inside(b, x, y)
  {
  }

  /** The ratio is the intersection's share of the union, whose area is counted once. */
  lemma IouIsShare(a: Box, b: Box)
    requires NonNegative(a) && NonNegative(b)
    ensures var union := Area(a) + Area(b) - Inter(a, b);
            union >= 0.0 && (if union > 0.0 then Iou(a, b) * union == Inter(a, b) else Iou(a, b) == 0.0)
  {
    InterBounds(a, b);
    ShareOf(Inter(a, b), Area(a), Area(b));
  }

  lemma ShareOf(inter: real, p: real, q: real)
    requires 0.0 <= inter <= p && inter <= q
    ensures p + q - inter > 0.0 ==> Ratio(inter, p, q) * (p + q - inter) == inter
  {
  }

  lemma QuotientBounds(n: real, d: real)
    requires 0.0 <= n <= d && d > 0.0
    ensures 0.0 <= n / d <= 1.0
    ensures n / d == 1.0 ==> n == d
  {
  }

  lemma RatioBounds(inter: real, p: real, q: real)
    requires 0.0 <= inter <= p && inter <= q
    ensures 0.0 <= Ratio(inter, p, q) <= 1.0
    ensures Ratio(inter, p, q) == 1.0 <==> 0.0 < inter == p == q
  {
    var union := p + q - inter;
    if union > 0.0 {
      QuotientBounds(inter, union);
      if inter == p == q {
        assert inter / union == inter / inter == 1.0;
      }
    }
  }

  /** The overlap ratio of boxes with non-negative sides is a fraction. */
  lemma IouInRange(a: Box, b: Box)
    requires NonNegative(a) && NonNegative(b)
    ensures 0.0 <= Iou(a, b) <= 1.0
  {
    InterBounds(a, b);
    RatioBounds(Inter(a, b), Area(a), Area(b));
  }

  lemma InterSymmetric(a: Box, b: Box)
    ensures Inter(a, b) == Inter(b, a)
  {
    assert Overlap(a.x, a.w, b.x, b.w) == Overlap(b.x, b.w, a.x, a.w);
    assert Overlap(a.y, a.h, b.y, b.h) == Overlap(b.y, b.h, a.y, a.h);
  }

  lemma IouSymmetric(a: Box, b: Box)
    ensures Iou(a, b) == Iou(b, a)
  {
    InterSymmetric(a, b);
    assert Area(a) + Area(b) - Inter(a, b) == Area(b) + Area(a) - Inter(b, a);
  }

  /** Boxes with area overlap fully exactly when they are the same box. */
  lemma IouOneIffSame(a: Box, b: Box)
    requires a.w > 0.0 && a.h > 0.0 && b.w > 0.0 && b.h > 0.0
    ensures Iou(a, b) == 1.0 <==> a == b
  {
    InterBounds(a, b);
    RatioBounds(Inter(a, b), Area(a), Area(b));
    OverlapBounds(a.x, a.w, b.x, b.w);
    OverlapBounds(a.y, a.h, b.y, b.h);
    if Iou(a, b) == 1.0 {
      FullOverlap(a, b);
    } else if a == b {
      AreaPositive(a);
    }
  }

  lemma AreaPositive(a: Box)
    requires a.w > 0.0 && a.h > 0.0
    ensures Area(a) > 0.0
  {
  }

  lemma FullOverlap(a: Box, b: Box)
    requires a.w > 0.0 && a.h > 0.0 && b.w > 0.0 && b.h > 0.0
    requires Inter(a, b) == Area(a) == Area(b)
    ensures a == b
  {
    var ox, oy := Overlap(a.x, a.w, b.x, b.w), Overlap(a.y, a.h, b.y, b.h);
    OverlapBounds(a.x, a.w, b.x, b.w);
    OverlapBounds(a.y, a.h, b.y, b.h);
    FullFactors(ox, oy, a.w, a.h);
    FullFactors(ox, oy, b.w, b.h);
  }

  lemma FullFactors(p: real, q: real, w: real, h: real)
    requires 0.0 <= p <= w && 0.0 <= q <= h && w > 0.0 && h > 0.0
    requires p * q == w * h
    ensures p == w && q == h
  {
    ProductMonotone(p, q, p, h);
    assert (w - p) * h == w * h - p * h;
    assert (w - p) * h <= 0.0;
    if w - p > 0.0 {
      assert false;
    }
    assert w * (h - q) == 0.0;
    if h - q > 0.0 {
      assert false;
    }
  }

  // ----- matchings -----

  /** Predictions with the true boxes they are matched with, both by index. */
  type Matching = map<nat, nat>

  predicate Good(predicted: seq<Box>, truth: seq<Box>, threshold: real, i: nat, j: nat) {
    i < |predicted| && j < |truth| && Iou(predicted[i], truth[j]) >= threshold
  }

  ghost predicate OneToOne(m: Matching) {
    forall i, k :: i in m && k in m && m[i] == m[k] ==> i == k
  }

  /** A one-to-one matching of pairs at or above the threshold. */
  ghost predicate Admissible(m: Matching, predicted: seq<Box>, truth: seq<Box>, threshold: real) {
    OneToOne(m) && forall i :: i in m ==> Good(predicted, truth, threshold, i, m[i])
  }

  predicate UsedBefore(m: Matching, i: nat, j: nat) {
    exists k :: k in m && k < i && m[k] == j
  }

  /** `j` is a best free box for prediction `i`: no free box overlaps more, and ties go to the later box. */
  ghost predicate Best(m: Matching, predicted: seq<Box>, truth: seq<Box>, i: nat, j: nat)
    requires i < |predicted| && j < |truth|
  {
    forall l :: 0 <= l < |truth| && !UsedBefore(m, i, l) ==>
      || Iou(predicted[i], truth[l]) < Iou(predicted[i], truth[j])
      || (Iou(predicted[i], truth[l]) == Iou(predicted[i], truth[j]) && l <= j)
  }

  /** What the greedy pass decides for prediction `i`, given its earlier decisions. */
  ghost predicate GreedyAt(m: Matching, predicted: seq<Box>, truth: seq<Box>, threshold: real, i: nat)
    requires i < |predicted|
  {
    if i in m then
      && Good(predicted, truth, threshold, i, m[i]) && !UsedBefore(m, i, m[i])
      && Best(m, predicted, truth, i, m[i])
    else
      forall j :: 0 <= j < |truth| && !UsedBefore(m, i, j) ==> !Good(predicted, truth, threshold, i, j)
  }

  ghost predicate Greedy(m: Matching, predicted: seq<Box>, truth: seq<Box>, threshold: real, n: nat)
    requires n <= |predicted|
  {
    && (forall i :: i in m ==> i < n)
    && forall i :: 0 <= i < n ==> GreedyAt(m, predicted, truth, threshold, i)
  }

  /** The greedy decisions determine the matching. */
  lemma {:induction false} GreedyUnique(m: Matching, m': Matching, predicted: seq<Box>, truth: seq<Box>,
                                        threshold: real, n: nat, i: nat)
    requires n <= |predicted| && Greedy(m, predicted, truth, threshold, n)
    requires Greedy(m', predicted, truth, threshold, n)
    requires i < n
    ensures i in m <==> i in m'
    ensures i in m ==> m[i] == m'[i]
  {
    forall k: nat | k < i
      ensures k in m <==> k in m'
      ensures k in m ==> m[k] == m'[k]
    {
      GreedyUnique(m, m', predicted, truth, threshold, n, k);
    }
    forall j: nat
      ensures UsedBefore(m, i, j) <==> UsedBefore(m', i, j)
    {
    }
    assert GreedyAt(m, predicted, truth, threshold, i) && GreedyAt(m', predicted, truth, threshold, i);
  }

  lemma GreedyAdmissible(m: Matching, predicted: seq<Box>, truth: seq<Box>, threshold: real)
    requires Greedy(m, predicted, truth, threshold, |predicted|)
    ensures Admissible(m, predicted, truth, threshold)
  {
    forall i, k | i in m && k in m && m[i] == m[k]
      ensures i == k
    {
      assert GreedyAt(m, predicted, truth, threshold, i) && GreedyAt(m, predicted, truth, threshold, k);
    }
    forall i | i in m
      ensures Good(predicted, truth, threshold, i, m[i])
    {
      assert GreedyAt(m, predicted, truth, threshold, i);
    }
  }

  /** Maximal: every good pair has its prediction or its true box matched. */
  lemma GreedyMaximal(m: Matching, predicted: seq<Box>, truth: seq<Box>, threshold: real, i: nat, j: nat)
    requires Greedy(m, predicted, truth, threshold, |predicted|)
    requires Good(predicted, truth, threshold, i, j)
    ensures i in m || exists k :: k in m && m[k] == j
  {
    assert GreedyAt(m, predicted, truth, threshold, i);
  }

  // ----- at least half of the best possible -----

  function Image(m: Matching, keys: set<nat>): set<nat>
    requires keys <= m.Keys
  {
    set i | i in keys :: m[i]
  }

  lemma {:induction false} ImageSize(m: Matching, keys: set<nat>)
    requires keys <= m.Keys
    ensures |Image(m, keys)| <= |keys|
    ensures OneToOne(m) ==> |Image(m, keys)| == |keys|
  {
    if keys == {} {
      assert Image(m, keys) == {};
    } else {
      var i :| i in keys;
      var rest := keys - {i};
      ImageSize(m, rest);
      assert Image(m, keys) == Image(m, rest) + {m[i]};
    }
  }

  /** Any admissible one-to-one matching has at most twice as many pairs as the greedy one. */
  lemma GreedyAtLeastHalf(m: Matching, other: Matching, predicted: seq<Box>, truth: seq<Box>, threshold: real)
    requires Greedy(m, predicted, truth, threshold, |predicted|)
    requires Admissible(other, predicted, truth, threshold)
    ensures |other| <= 2 * |m|
  {
    var shared := other.Keys * m.Keys;
    var rest := other.Keys - m.Keys;
    forall j | j in Image(other, rest)
      ensures j in Image(m, m.Keys)
    {
      var i :| i in rest && other[i] == j;
      GreedyMaximal(m, predicted, truth, threshold, i, j);
    }
    SubsetSize(shared, m.Keys);
    SubsetSize(Image(other, rest), Image(m, m.Keys));
    ImageSize(m, m.Keys);
    ImageSize(other, rest);
    assert other.Keys == shared + rest;
  }

  // ----- the loops -----

  /** The scan over true boxes `[0, j)`: the best free one so far, or none good enough. */
  ghost predicate Scanned(m: Matching, predicted: seq<Box>, truth: seq<Box>, threshold: real,
                          i: nat, j: nat, best: Option<nat>, bestIou: real)
    requires i < |predicted| && j <= |truth|
  {
    && (best.None? ==> bestIou == threshold)
    && (best.Some? ==>
          && best.value < j && !UsedBefore(m, i, best.value)
          && bestIou == Iou(predicted[i], truth[best.value]) && bestIou >= threshold)
    && forall l :: 0 <= l < j && !UsedBefore(m, i, l) ==>
         || Iou(predicted[i], truth[l]) < bestIou
         || (Iou(predicted[i], truth[l]) == bestIou && best.Some? && l <= best.value)
  }

  /** `m'` decides prediction `i` on top of `m`. */
  ghost predicate Extends(m: Matching, m': Matching, i: nat) {
    (forall k :: k in m ==> k < i) && (m' == m || (i in m' && m' == m[i := m'[i]]))
  }

  lemma UsedBeforeSame(m: Matching, m': Matching, i: nat, k: nat, l: nat)
    requires Extends(m, m', i) && k <= i
    ensures UsedBefore(m', k, l) <==> UsedBefore(m, k, l)
  {
    if x :| x in m && x < k && m[x] == l {
      assert x in m' && m'[x] == l;
    }
    if x :| x in m' && x < k && m'[x] == l {
      assert x in m && m[x] == l;
    }
  }

  /** Deciding prediction `i` does not disturb the decisions before it. */
  lemma GreedyExtends(m: Matching, m': Matching, predicted: seq<Box>, truth: seq<Box>, threshold: real, i: nat)
    requires i < |predicted| && Greedy(m, predicted, truth, threshold, i)
    requires Extends(m, m', i) && GreedyAt(m', predicted, truth, threshold, i)
    ensures Greedy(m', predicted, truth, threshold, i + 1)
  {
    forall k | 0 <= k < i
      ensures GreedyAt(m', predicted, truth, threshold, k)
    {
      assert GreedyAt(m, predicted, truth, threshold, k);
      forall l: nat ensures UsedBefore(m', k, l) <==> UsedBefore(m, k, l) { UsedBeforeSame(m, m', i, k, l); }
    }
  }

  lemma ScanDecides(m: Matching, predicted: seq<Box>, truth: seq<Box>, threshold: real,
                    i: nat, best: Option<nat>, bestIou: real)
    requires i < |predicted| && Greedy(m, predicted, truth, threshold, i)
    requires Scanned(m, predicted, truth, threshold, i, |truth|, best, bestIou)
    ensures best.None? ==> GreedyAt(m, predicted, truth, threshold, i)
    ensures best.Some? ==> GreedyAt(m[i := best.value], predicted, truth, threshold, i)
  {
    if best.Some? {
      var m' := m[i := best.value];
      forall l: nat ensures UsedBefore(m', i, l) <==> UsedBefore(m, i, l) { UsedBeforeSame(m, m', i, i, l); }
    }
  }

  lemma UsedGrows(m: Matching, m': Matching, i: nat, l: nat)
    requires Extends(m, m', i)
    ensures UsedBefore(m', i + 1, l) <==> UsedBefore(m, i, l) || (i in m' && m'[i] == l)
  {
    UsedBeforeSame(m, m', i, i, l);
    if x :| x in m' && x < i + 1 && m'[x] == l {
      assert x == i || UsedBefore(m', i, l);
    }
    if x :| x in m' && x < i && m'[x] == l {
      assert UsedBefore(m', i + 1, l);
    }
  }

  method Match(predicted: seq<Box>, truth: seq<Box>, threshold: real)
    returns (hits: nat, predictions: nat, truths: nat, ghost m: Matching)
    ensures Greedy(m, predicted, truth, threshold, |predicted|)
    ensures hits == |m| && predictions == |predicted| && truths == |truth|
    ensures Admissible(m, predicted, truth, threshold)
    ensures forall other :: Admissible(other, predicted, truth, threshold) ==> |other| <= 2 * hits
  {
    var used: set<nat> := {};
    hits := 0;
    m := map[];
    for i := 0 to |predicted|
      invariant Greedy(m, predicted, truth, threshold, i)
      invariant hits == |m| && forall l: nat :: l in used <==> UsedBefore(m, i, l)
    {
      var best: Option<nat>, bestIou := None, threshold;
      for j := 0 to |truth|
        invariant Scanned(m, predicted, truth, threshold, i, j, best, bestIou)
      {
        if j !in used {
          var overlap := Iou(predicted[i], truth[j]);
          if overlap >= bestIou {
            best, bestIou := Some(j), overlap;
          }
        }
      }
      ScanDecides(m, predicted, truth, threshold, i, best, bestIou);
      ghost var before := m;
      if best.Some? {
        used := used + {best.value};
        hits := hits + 1;
        m := m[i := best.value];
      }
      GreedyExtends(before, m, predicted, truth, threshold, i);
      forall l: nat ensures l in used <==> UsedBefore(m, i + 1, l) { UsedGrows(before, m, i, l); }
    }
    predictions, truths := |predicted|, |truth|;
    GreedyAdmissible(m, predicted, truth, threshold);
    forall other | Admissible(other, predicted, truth, threshold)
      ensures |other| <= 2 * hits
    {
      GreedyAtLeastHalf(m, other, predicted, truth, threshold);
    }
  }
}
