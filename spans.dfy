/** Where a sequence holds a given stretch: the tool with which the round
    trip follows the encoder's text through the line and its tokens
    through the token list. */
module Spans {
  /** xs holds w from pos on, stated one element at a time. */
  predicate At<T(==)>(xs: seq<T>, pos: nat, w: seq<T>)
    decreases w
  {
    if w == [] then pos <= |xs|
    else pos < |xs| && xs[pos] == w[0] && At(xs, pos + 1, w[1..])
  }

  lemma {:induction false} AtIndex<T>(xs: seq<T>, pos: nat, w: seq<T>, k: nat)
    requires At(xs, pos, w)
    ensures pos + |w| <= |xs|
    ensures k < |w| ==> xs[pos + k] == w[k]
    decreases w
  {
    if w != [] {
      AtIndex(xs, pos + 1, w[1..], if k == 0 then 0 else k - 1);
    }
  }

  lemma {:induction false} SliceParts<T>(xs: seq<T>, p: nat, whole: seq<T>, a: seq<T>, b: seq<T>)
    requires whole == a + b && At(xs, p, whole)
    ensures At(xs, p, a) && At(xs, p + |a|, b)
    decreases a
  {
    if a == [] {
      assert whole == b;
      AtIndex(xs, p, whole, 0);
    } else {
      assert whole[1..] == a[1..] + b;
      SliceParts(xs, p + 1, whole[1..], a[1..], b);
    }
  }

  lemma ThreeParts<T>(xs: seq<T>, p: nat, a: seq<T>, b: seq<T>, c: seq<T>)
    requires At(xs, p, a + b + c)
    ensures At(xs, p, a) && At(xs, p + |a|, b) && At(xs, p + |a| + |b|, c)
  {
    SliceParts(xs, p, a + b + c, a + b, c);
    SliceParts(xs, p, a + b, a, b);
  }

  /** ThreeParts, with the places of the second and third parts named. */
  lemma ThreePartsAt<T>(xs: seq<T>, p: nat, q: nat, r: nat, a: seq<T>, b: seq<T>, c: seq<T>)
    requires At(xs, p, a + b + c) && q == p + |a| && r == q + |b|
    ensures At(xs, p, a) && At(xs, q, b) && At(xs, r, c)
  {
    ThreeParts(xs, p, a, b, c);
  }


  /** A slice that equals w is a place where xs holds w. */
  lemma {:induction false} SliceAt<T>(xs: seq<T>, pos: nat, w: seq<T>)
    requires pos + |w| <= |xs| && xs[pos..pos + |w|] == w
    ensures At(xs, pos, w)
    decreases w
  {
    if w != [] {
      assert xs[pos + 1..pos + |w|] == w[1..];
      SliceAt(xs, pos + 1, w[1..]);
    }
  }

  /** Where xs holds w, its slice there is w. */
  lemma AtSlice<T>(xs: seq<T>, pos: nat, w: seq<T>)
    requires At(xs, pos, w)
    ensures pos + |w| <= |xs| && xs[pos..pos + |w|] == w
  {
    AtIndex(xs, pos, w, 0);
    forall k | 0 <= k < |w| ensures xs[pos..pos + |w|][k] == w[k] {
      AtIndex(xs, pos, w, k);
    }
  }
}
