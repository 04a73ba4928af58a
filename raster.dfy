/**
 * Pixel-wise image algebra of the hosted platform, over a fixed grid.
 *
 * An image is a sequence of pixels, one per grid cell; a pixel is either
 * masked (None) or holds a value. Every operation below works cell by cell,
 * the way the platform's image operators do, and keeps masked cells masked
 * unless the operator is one that fills them (Unmask).
 *
 * These are the platform's primitives, so their per-pixel contracts state
 * the platform semantics rather than a property derived from them; the
 * lemmas at the end of the module relate them to each other.
 */
module Raster {

  datatype Option<+T> = None | Some(value: T)

  /** The outcome of an action of the script that can fail. */
  datatype Result<+T, +E> = Ok(value: T) | Err(error: E)

  type Image = seq<Option<int>>
  /** An image of real-valued pixels (the priority layers, pixel areas, rates). */
  type RealImage = seq<Option<real>>
  type Region = seq<bool>

  /** Table lookup used by `remap`: the first matching source entry wins. */
  function Lookup(from: seq<int>, to: seq<int>, x: int): (r: Option<int>)
    requires |from| == |to|
  {
    if from == [] then None
    else if from[0] == x then Some(to[0])
    else Lookup(from[1..], to[1..], x)
  }

  /** A lookup finds a value exactly when `x` is listed, and then it is the target of the first entry for `x`. */
  lemma {:induction false} LookupFirstMatch(from: seq<int>, to: seq<int>, x: int)
    requires |from| == |to|
    ensures Lookup(from, to, x).None? <==> x !in from
    ensures Lookup(from, to, x).Some? ==>
              exists k :: 0 <= k < |from| && from[k] == x && to[k] == Lookup(from, to, x).value &&
                          (forall j :: 0 <= j < k ==> from[j] != x)
  {
    if from != [] && from[0] != x {
      LookupFirstMatch(from[1..], to[1..], x);
      var rest := Lookup(from[1..], to[1..], x);
      assert forall k :: 0 < k < |from| ==> from[k] == from[1..][k - 1] && to[k] == to[1..][k - 1];
      assert x in from <==> x in from[1..];
      if rest.Some? {
        var k :| 0 <= k < |from[1..]| && from[1..][k] == x && to[1..][k] == rest.value &&
          forall j :: 0 <= j < k ==> from[1..][j] != x;
        assert from[k + 1] == x && to[k + 1] == rest.value;
        assert forall j :: 0 <= j < k + 1 ==> from[j] != x by {
          forall j | 0 <= j < k + 1 ensures from[j] != x {
            if j > 0 { assert from[j] == from[1..][j - 1]; }
          }
        }
      }
    }
  }

  /** `image.remap(from, to)`: values not listed become masked. */
  function Remap(img: Image, from: seq<int>, to: seq<int>): (r: Image)
    requires |from| == |to|
    ensures |r| == |img|
    ensures forall i :: 0 <= i < |img| ==> (r[i].Some? <==> img[i].Some? && img[i].value in from)
    ensures forall i :: 0 <= i < |img| && r[i].Some? ==>
              exists k :: 0 <= k < |from| && from[k] == img[i].value && to[k] == r[i].value &&
                          (forall j :: 0 <= j < k ==> from[j] != img[i].value)
  {
    forall i | 0 <= i < |img| && img[i].Some? {
      LookupFirstMatch(from, to, img[i].value);
    }
    seq(|img|, i requires 0 <= i < |img| =>
      if img[i].Some? then Lookup(from, to, img[i].value) else None)
  }

  /** `image.eq(c)`: 1 where the value equals c, 0 elsewhere, masked stays masked. */
  function Eq(img: Image, c: int): (r: Image)
    ensures |r| == |img|
    ensures forall i :: 0 <= i < |img| ==> (r[i].Some? <==> img[i].Some?) && (Keeps(r[i]) <==> img[i] == Some(c))
  {
    seq(|img|, i requires 0 <= i < |img| =>
      if img[i].Some? then Some(if img[i].value == c then 1 else 0) else None)
  }

  /** A mask pixel keeps the image pixel when it is present and non-zero. */
  predicate Keeps(m: Option<int>) {
    m.Some? && m.value != 0
  }

  /** `image.updateMask(m)`: cells where m is masked or zero become masked. */
  function UpdateMask(img: Image, m: Image): (r: Image)
    requires |img| == |m|
    ensures |r| == |img|
    ensures forall i :: 0 <= i < |img| ==> (r[i].Some? <==> img[i].Some? && Keeps(m[i])) && (r[i].Some? ==> r[i] == img[i])
  {
    seq(|img|, i requires 0 <= i < |img| => if Keeps(m[i]) then img[i] else None)
  }

  /** `image.unmask(0)`: every masked cell becomes 0, the others keep their value. */
  function Unmask(img: Image): (r: seq<int>)
    ensures |r| == |img|
    ensures forall i :: 0 <= i < |img| ==> (img[i].Some? ==> r[i] == img[i].value) && (img[i].None? ==> r[i] == 0)
  {
    seq(|img|, i requires 0 <= i < |img| => if img[i].Some? then img[i].value else 0)
  }

  /** An image with no masked cell. */
  function Full(s: seq<int>): (r: Image)
    ensures |r| == |s|
    ensures forall i :: 0 <= i < |s| ==> r[i].Some?
    ensures Unmask(r) == s
  {
    seq(|s|, i requires 0 <= i < |s| => Some(s[i]))
  }

  /** The constant image `ee.Image(0)` on the grid. */
  function Zeros(n: nat): (r: seq<int>)
    ensures |r| == n
    ensures forall i :: 0 <= i < n ==> r[i] == 0
  {
    seq(n, i => 0)
  }

  /** `a.add(b)` on two images without masked cells. */
  function Add(a: seq<int>, b: seq<int>): (r: seq<int>)
    requires |a| == |b|
    ensures |r| == |a|
    ensures Subtract(r, b) == a
  {
    seq(|a|, i requires 0 <= i < |a| => a[i] + b[i])
  }

  /** `a.subtract(b)` on two images without masked cells. */
  function Subtract(a: seq<int>, b: seq<int>): (r: seq<int>)
    requires |a| == |b|
    ensures |r| == |a|
    ensures forall i :: 0 <= i < |a| ==> r[i] + b[i] == a[i]
  {
    seq(|a|, i requires 0 <= i < |a| => a[i] - b[i])
  }

  /**
   * `input.where(test, value)`: where the test is present and non-zero the
   * value replaces the input; a masked input cell stays masked.
   */
  function Where(input: Image, test: Image, value: int): (r: Image)
    requires |input| == |test|
    ensures |r| == |input|
    ensures forall i :: 0 <= i < |input| ==> (r[i].Some? <==> input[i].Some?)
    ensures forall i :: 0 <= i < |input| && input[i].Some? ==> r[i] == if Keeps(test[i]) then Some(value) else input[i]
  {
    seq(|input|, i requires 0 <= i < |input| =>
      if input[i].None? then None else if Keeps(test[i]) then Some(value) else input[i])
  }

  /** `image.clip(geometry)`: cells outside the geometry become masked. */
  function Clip(img: Image, inside: Region): (r: Image)
    requires |img| == |inside|
    ensures |r| == |img|
    ensures forall i :: 0 <= i < |img| ==> (r[i].Some? <==> img[i].Some? && inside[i]) && (r[i].Some? ==> r[i] == img[i])
  {
    seq(|img|, i requires 0 <= i < |img| => if inside[i] then img[i] else None)
  }

  /** Clipping twice is clipping to the intersection of the two regions. */
  lemma ClipTwice(img: Image, a: Region, b: Region)
    requires |img| == |a| == |b|
    ensures Clip(Clip(img, a), b) == Clip(img, seq(|a|, i requires 0 <= i < |a| => a[i] && b[i]))
  {
  }

  /** Masking by the same mask twice changes nothing the second time. */
  lemma UpdateMaskIdempotent(img: Image, m: Image)
    requires |img| == |m|
    ensures UpdateMask(UpdateMask(img, m), m) == UpdateMask(img, m)
  {
  }
}
