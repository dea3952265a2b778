/** The order in which both scripts walk demographic x item x perspective x style:
    demographic outermost, style innermost. Each level is defined by recursion on a
    prefix of its list, the way the loops append to their results. */
module Enumeration {
  import opened Scenario
  import opened Arith
  import opened Matrix

  /** One point of the Cartesian product: the inputs of one generate_prompt call. */
  datatype Combo = Combo(demo: Demographic, item: string, perspective: string, style: string)

  function StyleCombos(demo: Demographic, item: string, perspective: string, styles: seq<string>): (r: seq<Combo>)
    ensures |r| == |styles|
  {
    if styles == [] then []
    else StyleCombos(demo, item, perspective, styles[..|styles| - 1])
         + [Combo(demo, item, perspective, styles[|styles| - 1])]
  }

  function PerspectiveCombos(demo: Demographic, item: string, perspectives: seq<string>, styles: seq<string>): (r: seq<Combo>)
    ensures |r| == |perspectives| * |styles|
  {
    if perspectives == [] then []
    else PerspectiveCombos(demo, item, perspectives[..|perspectives| - 1], styles)
         + StyleCombos(demo, item, perspectives[|perspectives| - 1], styles)
  }

  function ItemCombos(demo: Demographic, items: seq<string>, perspectives: seq<string>, styles: seq<string>): (r: seq<Combo>)
    ensures |r| == |items| * (|perspectives| * |styles|)
  {
    if items == [] then []
    else ItemCombos(demo, items[..|items| - 1], perspectives, styles)
         + PerspectiveCombos(demo, items[|items| - 1], perspectives, styles)
  }

  /** All combinations, in the scripts' loop order. */
  function Product(demographics: seq<Demographic>, items: seq<string>, perspectives: seq<string>, styles: seq<string>): (r: seq<Combo>)
    ensures |r| == |demographics| * (|items| * (|perspectives| * |styles|))
  {
    if demographics == [] then []
    else Product(demographics[..|demographics| - 1], items, perspectives, styles)
         + ItemCombos(demographics[|demographics| - 1], items, perspectives, styles)
  }

  lemma AppendAssoc<T>(a: seq<T>, b: seq<T>, c: seq<T>)
    ensures (a + b) + c == a + (b + c)
  {
  }

  // One more list element appends one more block: the step each loop of the scripts takes.

  lemma StyleCombosSnoc(demo: Demographic, item: string, perspective: string, styles: seq<string>, s: nat)
    requires s < |styles|
    ensures StyleCombos(demo, item, perspective, styles[..s + 1])
            == StyleCombos(demo, item, perspective, styles[..s]) + [Combo(demo, item, perspective, styles[s])]
  {
    assert styles[..s + 1][..s] == styles[..s];
  }

  lemma PerspectiveCombosSnoc(demo: Demographic, item: string, perspectives: seq<string>, styles: seq<string>, p: nat)
    requires p < |perspectives|
    ensures PerspectiveCombos(demo, item, perspectives[..p + 1], styles)
            == PerspectiveCombos(demo, item, perspectives[..p], styles) + StyleCombos(demo, item, perspectives[p], styles)
  {
    assert perspectives[..p + 1][..p] == perspectives[..p];
  }

  lemma ItemCombosSnoc(demo: Demographic, items: seq<string>, perspectives: seq<string>, styles: seq<string>, it: nat)
    requires it < |items|
    ensures ItemCombos(demo, items[..it + 1], perspectives, styles)
            == ItemCombos(demo, items[..it], perspectives, styles) + PerspectiveCombos(demo, items[it], perspectives, styles)
  {
    assert items[..it + 1][..it] == items[..it];
  }

  lemma ProductSnoc(demographics: seq<Demographic>, items: seq<string>, perspectives: seq<string>, styles: seq<string>, d: nat)
    requires d < |demographics|
    ensures Product(demographics[..d + 1], items, perspectives, styles)
            == Product(demographics[..d], items, perspectives, styles) + ItemCombos(demographics[d], items, perspectives, styles)
  {
    assert demographics[..d + 1][..d] == demographics[..d];
  }

  lemma ProductLength(demographics: seq<Demographic>, items: seq<string>, perspectives: seq<string>, styles: seq<string>)
    ensures |Product(demographics, items, perspectives, styles)| == |demographics| * |items| * |perspectives| * |styles|
  {
    var nD, nI, nP, nS := |demographics|, |items|, |perspectives|, |styles|;
    assert nD * (nI * (nP * nS)) == (nD * nI) * (nP * nS);
    assert (nD * nI) * (nP * nS) == ((nD * nI) * nP) * nS;
  }

  /** The flat position of (d, it, p, s) for lists of lengths (_, nItems, nPerspectives, nStyles). */
  function Index(d: nat, it: nat, p: nat, s: nat, nItems: nat, nPerspectives: nat, nStyles: nat): (i: nat) {
    ((d * nItems + it) * nPerspectives + p) * nStyles + s
  }

  /** In `pre + blk`, where `pre` is k blocks of size b and `blk` one more block, offset o
      of block j lies in `pre` when j < k and in `blk` when j == k. */
  lemma BlockAt<T>(pre: seq<T>, blk: seq<T>, b: nat, k: nat, j: nat, o: nat)
    requires |pre| == k * b && |blk| == b
    requires j <= k && o < b
    ensures j * b + o < |pre| + |blk|
    ensures j < k ==> j * b + o < |pre| && (pre + blk)[j * b + o] == pre[j * b + o]
    ensures j == k ==> (pre + blk)[j * b + o] == blk[o]
  {
    if j < k {
      MulMonotone(j + 1, k, b);
      assert (j + 1) * b == j * b + b;
    }
  }

  lemma {:induction false} StyleCombosAt(demo: Demographic, item: string, perspective: string, styles: seq<string>, s: nat)
    requires s < |styles|
    ensures StyleCombos(demo, item, perspective, styles)[s] == Combo(demo, item, perspective, styles[s])
    decreases |styles|
  {
    var n := |styles|;
    var front := StyleCombos(demo, item, perspective, styles[..n - 1]);
    assert StyleCombos(demo, item, perspective, styles) == front + [Combo(demo, item, perspective, styles[n - 1])];
    if s < n - 1 {
      StyleCombosAt(demo, item, perspective, styles[..n - 1], s);
    }
  }

  lemma {:induction false} PerspectiveCombosAt(demo: Demographic, item: string, perspectives: seq<string>, styles: seq<string>, p: nat, s: nat)
    requires p < |perspectives| && s < |styles|
    ensures FlatIndex(p, s, |styles|) < |PerspectiveCombos(demo, item, perspectives, styles)|
    ensures PerspectiveCombos(demo, item, perspectives, styles)[FlatIndex(p, s, |styles|)]
            == Combo(demo, item, perspectives[p], styles[s])
    decreases |perspectives|
  {
    var n := |perspectives|;
    var pre := perspectives[..n - 1];
    var front := PerspectiveCombos(demo, item, pre, styles);
    var last := StyleCombos(demo, item, perspectives[n - 1], styles);
    assert PerspectiveCombos(demo, item, perspectives, styles) == front + last;
    BlockAt(front, last, |styles|, n - 1, p, s);
    if p < n - 1 {
      PerspectiveCombosAt(demo, item, pre, styles, p, s);
    } else {
      StyleCombosAt(demo, item, perspectives[n - 1], styles, s);
    }
  }

  /** Offset o of block `it` of ItemCombos, k = |perspectives| * |styles| being the block size. */
  lemma {:induction false} ItemCombosAtOffset(demo: Demographic, items: seq<string>, perspectives: seq<string>, styles: seq<string>,
                                              it: nat, o: nat, k: nat)
    requires k == |perspectives| * |styles|
    requires it < |items| && o < k
    ensures FlatIndex(it, o, k) < |ItemCombos(demo, items, perspectives, styles)|
    ensures ItemCombos(demo, items, perspectives, styles)[FlatIndex(it, o, k)]
            == PerspectiveCombos(demo, items[it], perspectives, styles)[o]
    decreases |items|
  {
    var n := |items|;
    var pre := items[..n - 1];
    var front := ItemCombos(demo, pre, perspectives, styles);
    var last := PerspectiveCombos(demo, items[n - 1], perspectives, styles);
    assert ItemCombos(demo, items, perspectives, styles) == front + last;
    BlockAt(front, last, k, n - 1, it, o);
    if it < n - 1 {
      ItemCombosAtOffset(demo, pre, perspectives, styles, it, o, k);
    }
  }

  lemma ItemCombosAt(demo: Demographic, items: seq<string>, perspectives: seq<string>, styles: seq<string>,
                     it: nat, p: nat, s: nat, k: nat)
    requires k == |perspectives| * |styles|
    requires it < |items| && p < |perspectives| && s < |styles|
    ensures FlatIndex(p, s, |styles|) < k
    ensures FlatIndex(it, FlatIndex(p, s, |styles|), k) < |ItemCombos(demo, items, perspectives, styles)|
    ensures ItemCombos(demo, items, perspectives, styles)[FlatIndex(it, FlatIndex(p, s, |styles|), k)]
            == Combo(demo, items[it], perspectives[p], styles[s])
  {
    PerspectiveCombosAt(demo, items[it], perspectives, styles, p, s);
    ItemCombosAtOffset(demo, items, perspectives, styles, it, FlatIndex(p, s, |styles|), k);
  }

  /** Offset o of block d of the product, k = |items| * |perspectives| * |styles| being the block size. */
  lemma {:induction false} ProductAtOffset(demographics: seq<Demographic>, items: seq<string>, perspectives: seq<string>, styles: seq<string>,
                                           d: nat, o: nat, k: nat)
    requires k == |items| * (|perspectives| * |styles|)
    requires d < |demographics| && o < k
    ensures FlatIndex(d, o, k) < |Product(demographics, items, perspectives, styles)|
    ensures Product(demographics, items, perspectives, styles)[FlatIndex(d, o, k)]
            == ItemCombos(demographics[d], items, perspectives, styles)[o]
    decreases |demographics|
  {
    var n := |demographics|;
    var pre := demographics[..n - 1];
    var front := Product(pre, items, perspectives, styles);
    var last := ItemCombos(demographics[n - 1], items, perspectives, styles);
    assert Product(demographics, items, perspectives, styles) == front + last;
    BlockAt(front, last, k, n - 1, d, o);
    if d < n - 1 {
      ProductAtOffset(pre, items, perspectives, styles, d, o, k);
    }
  }

  lemma IndexSplit(d: nat, it: nat, p: nat, s: nat, nItems: nat, nPerspectives: nat, nStyles: nat)
    ensures Index(d, it, p, s, nItems, nPerspectives, nStyles)
            == d * (nItems * (nPerspectives * nStyles)) + (it * (nPerspectives * nStyles) + (p * nStyles + s))
  {
  }

  /** Position ((d*I + it)*P + p)*S + s of the product holds (demographics[d], items[it],
      perspectives[p], styles[s]): demographic outermost, style innermost. */
  lemma ProductAt(demographics: seq<Demographic>, items: seq<string>, perspectives: seq<string>, styles: seq<string>,
                  d: nat, it: nat, p: nat, s: nat)
    requires d < |demographics| && it < |items| && p < |perspectives| && s < |styles|
    ensures Index(d, it, p, s, |items|, |perspectives|, |styles|) < |Product(demographics, items, perspectives, styles)|
    ensures Product(demographics, items, perspectives, styles)[Index(d, it, p, s, |items|, |perspectives|, |styles|)]
            == Combo(demographics[d], items[it], perspectives[p], styles[s])
  {
    var nI, nP, nS := |items|, |perspectives|, |styles|;
    MulMonotone(0, nP, nS);
    var kPS: nat := nP * nS;
    MulMonotone(0, nI, kPS);
    var kI: nat := nI * kPS;
    ItemCombosAt(demographics[d], items, perspectives, styles, it, p, s, kPS);
    var o := FlatIndex(it, FlatIndex(p, s, nS), kPS);
    assert o < kI by { MulStep(it, nI, kPS); }
    ProductAtOffset(demographics, items, perspectives, styles, d, o, kI);
    IndexSplit(d, it, p, s, nI, nP, nS);
    assert Index(d, it, p, s, nI, nP, nS) == FlatIndex(d, o, kI);
  }

  /** Every combination of the first d demographics comes from one of them. */
  lemma {:induction false} ItemCombosDemo(demo: Demographic, items: seq<string>, perspectives: seq<string>, styles: seq<string>, i: nat)
    requires i < |ItemCombos(demo, items, perspectives, styles)|
    ensures ItemCombos(demo, items, perspectives, styles)[i].demo == demo
    decreases |items|
  {
    var n := |items|;
    var pre := ItemCombos(demo, items[..n - 1], perspectives, styles);
    var last := PerspectiveCombos(demo, items[n - 1], perspectives, styles);
    assert ItemCombos(demo, items, perspectives, styles) == pre + last;
    if i < |pre| {
      ItemCombosDemo(demo, items[..n - 1], perspectives, styles, i);
    } else {
      PerspectiveCombosDemo(demo, items[n - 1], perspectives, styles, i - |pre|);
    }
  }

  lemma {:induction false} PerspectiveCombosDemo(demo: Demographic, item: string, perspectives: seq<string>, styles: seq<string>, i: nat)
    requires i < |PerspectiveCombos(demo, item, perspectives, styles)|
    ensures PerspectiveCombos(demo, item, perspectives, styles)[i].demo == demo
    decreases |perspectives|
  {
    var n := |perspectives|;
    var pre := PerspectiveCombos(demo, item, perspectives[..n - 1], styles);
    var last := StyleCombos(demo, item, perspectives[n - 1], styles);
    assert PerspectiveCombos(demo, item, perspectives, styles) == pre + last;
    if i < |pre| {
      PerspectiveCombosDemo(demo, item, perspectives[..n - 1], styles, i);
    } else {
      StyleCombosAt(demo, item, perspectives[n - 1], styles, i - |pre|);
    }
  }

  /** Row d of the flat product (positions d*k .. d*k + k - 1, k = |items|*|perspectives|*|styles|)
      belongs entirely to demographic d. */
  lemma ProductRowDemo(demographics: seq<Demographic>, items: seq<string>, perspectives: seq<string>, styles: seq<string>,
                       d: nat, o: nat, k: nat)
    requires k == |items| * (|perspectives| * |styles|)
    requires d < |demographics| && o < k
    ensures FlatIndex(d, o, k) < |Product(demographics, items, perspectives, styles)|
    ensures Product(demographics, items, perspectives, styles)[FlatIndex(d, o, k)].demo == demographics[d]
  {
    ProductAtOffset(demographics, items, perspectives, styles, d, o, k);
    ItemCombosDemo(demographics[d], items, perspectives, styles, o);
  }

  /** Every combination's applicant is one of the catalog's demographics. */
  lemma {:induction false} ProductDemoIn(demographics: seq<Demographic>, items: seq<string>, perspectives: seq<string>, styles: seq<string>,
                                         i: nat)
    requires i < |Product(demographics, items, perspectives, styles)|
    ensures Product(demographics, items, perspectives, styles)[i].demo in demographics
    decreases |demographics|
  {
    var n := |demographics|;
    var pre := Product(demographics[..n - 1], items, perspectives, styles);
    var last := ItemCombos(demographics[n - 1], items, perspectives, styles);
    assert Product(demographics, items, perspectives, styles) == pre + last;
    if i < |pre| {
      ProductDemoIn(demographics[..n - 1], items, perspectives, styles, i);
      assert pre[i].demo in demographics[..n - 1];
    } else {
      ItemCombosDemo(demographics[n - 1], items, perspectives, styles, i - |pre|);
    }
  }

  /** Positions d*k .. d*k + k - 1 of `combos` all have applicant demographics[d]: the
      list is grouped by demographic in blocks of k. */
  ghost predicate DemoRows(combos: seq<Combo>, demographics: seq<Demographic>, k: nat) {
    forall d, o :: 0 <= d < |demographics| && 0 <= o < k ==>
      FlatIndex(d, o, k) < |combos| && combos[FlatIndex(d, o, k)].demo == demographics[d]
  }

  /** ProductRowDemo for every position: the product is grouped by demographic in blocks
      of K = |items|*|perspectives|*|styles|. */
  lemma ProductRows(demographics: seq<Demographic>, items: seq<string>, perspectives: seq<string>, styles: seq<string>,
                    k: nat)
    requires k == |items| * (|perspectives| * |styles|)
    ensures DemoRows(Product(demographics, items, perspectives, styles), demographics, k)
  {
    var combos := Product(demographics, items, perspectives, styles);
    forall d, o | 0 <= d < |demographics| && 0 <= o < k
      ensures FlatIndex(d, o, k) < |combos| && combos[FlatIndex(d, o, k)].demo == demographics[d]
    {
      ProductRowDemo(demographics, items, perspectives, styles, d, o, k);
    }
  }
}
