/**
 * The part of the `image` crate that the thumbnail engine relies on: decoded
 * RGBA bitmaps, a transparent canvas that is drawn on in place, `overlay`
 * (a rectangle copied onto the canvas, clipped to it, pixel by pixel blended),
 * `resize_exact` and `blur`.
 *
 * The pixel numerics of the crate (alpha blending, the Lanczos3 and Gaussian
 * resampling filters, the Gaussian blur and the PNG encoder) are not modelled:
 * they are the fields of an `ImageLib` value that every operation takes as a
 * parameter, so nothing proved here depends on what they compute.
 */
module Imaging {
  import opened Wrappers

  newtype byte = x: int | 0 <= x < 256

  datatype Pixel = Rgba(r: byte, g: byte, b: byte, a: byte)

  /** The pixel a freshly allocated `new_rgba8` canvas is filled with. */
  const Transparent: Pixel := Rgba(0, 0, 0, 0)

  /** A decoded bitmap: `rows[y][x]` is the pixel in column x of row y, origin at the top left. */
  datatype Image = Image(width: nat, height: nat, rows: seq<seq<Pixel>>)

  predicate WellFormed(img: Image) {
    |img.rows| == img.height &&
    forall y :: 0 <= y < |img.rows| ==> |img.rows[y]| == img.width
  }

  predicate AllWellFormed(images: seq<Image>) {
    forall i :: 0 <= i < |images| ==> WellFormed(images[i])
  }

  function At(img: Image, x: nat, y: nat): Pixel
    requires WellFormed(img) && x < img.width && y < img.height
  {
    img.rows[y][x]
  }

  /** Resampling filters named by the source; their arithmetic is left to `ImageLib.resample`. */
  datatype Filter = Lanczos3 | Gaussian

  /**
   * The numerics of the image crate, uninterpreted:
   * - `blend(under, over)` is the pixel `overlay` leaves where `over` is drawn on `under`;
   * - `resample(img, f, w, h, x, y)` is pixel (x, y) of `img` resized to w×h with filter f;
   * - `blur(img, sigma, x, y)` is pixel (x, y) of `img` blurred with the given sigma;
   * - `encodePng(img)` serialises an image, or fails with the encoder's message.
   */
  datatype ImageLib = ImageLib(
    blend: (Pixel, Pixel) -> Pixel,
    resample: (Image, Filter, nat, nat, nat, nat) -> Pixel,
    blur: (Image, real, nat, nat) -> Pixel,
    encodePng: Image -> Result<seq<byte>, string>)

  /** The w×h image whose pixel (x, y) is f(x, y) (the crate's `from_fn`). */
  function FromFn(w: nat, h: nat, f: (nat, nat) -> Pixel): (r: Image)
    ensures WellFormed(r) && r.width == w && r.height == h
  {
    Image(w, h, seq(h, y requires 0 <= y < h => seq(w, x requires 0 <= x < w => f(x, y))))
  }

  lemma FromFnAt(w: nat, h: nat, f: (nat, nat) -> Pixel, x: nat, y: nat)
    requires x < w && y < h
    ensures At(FromFn(w, h, f), x, y) == f(x, y)
  {
  }

  /** The canvas `DynamicImage::new_rgba8(w, h)` allocates. */
  function Blank(w: nat, h: nat): (r: Image)
    ensures WellFormed(r) && r.width == w && r.height == h
  {
    FromFn(w, h, (x: nat, y: nat) => Transparent)
  }

  /** Every pixel of a new canvas is transparent. */
  lemma BlankAt(w: nat, h: nat, x: nat, y: nat)
    requires x < w && y < h
    ensures At(Blank(w, h), x, y) == Transparent
  {
    FromFnAt(w, h, (x: nat, y: nat) => Transparent, x, y);
  }

  /** `image.resize_exact(w, h, filter)`: exactly w×h, whatever the aspect ratio of `img`. */
  function ResizeExact(img: Image, w: nat, h: nat, filter: Filter, lib: ImageLib): (r: Image)
    ensures WellFormed(r) && r.width == w && r.height == h
  {
    FromFn(w, h, (x: nat, y: nat) => lib.resample(img, filter, w, h, x, y))
  }

  /** Every pixel of a resized image is a resampled pixel. */
  lemma ResizeExactAt(img: Image, w: nat, h: nat, filter: Filter, lib: ImageLib, x: nat, y: nat)
    requires x < w && y < h
    ensures At(ResizeExact(img, w, h, filter, lib), x, y) == lib.resample(img, filter, w, h, x, y)
  {
    FromFnAt(w, h, (x: nat, y: nat) => lib.resample(img, filter, w, h, x, y), x, y);
  }

  /** `image.blur(sigma)`: a new image of the same dimensions. */
  function Blurred(img: Image, sigma: real, lib: ImageLib): (r: Image)
    ensures WellFormed(r) && r.width == img.width && r.height == img.height
  {
    FromFn(img.width, img.height, (x: nat, y: nat) => lib.blur(img, sigma, x, y))
  }

  /** Two well-formed images with the same dimensions and the same pixels are equal. */
  lemma ImageExt(a: Image, b: Image)
    requires WellFormed(a) && WellFormed(b) && a.width == b.width && a.height == b.height
    requires forall x: nat, y: nat :: x < a.width && y < a.height ==> At(a, x, y) == At(b, x, y)
    ensures a == b
  {
    forall y | 0 <= y < a.height
      ensures a.rows[y] == b.rows[y]
    {
      forall x | 0 <= x < a.width
        ensures a.rows[y][x] == b.rows[y][x]
      {
        assert At(a, x, y) == At(b, x, y);
      }
    }
  }

  // ---------------------------------------------------------------------------
  // Overlay geometry

  /** Whether pixel (px, py) lies in the w×h rectangle whose top-left corner is (x, y). */
  predicate InRect(px: int, py: int, x: int, y: int, w: nat, h: nat) {
    x <= px < x + w && y <= py < y + h
  }

  /** Pixel (px, py) of `bottom` after `top` has been overlaid with its top-left corner at (x, y). */
  function OverlayPixel(bottom: Image, top: Image, x: int, y: int, blend: (Pixel, Pixel) -> Pixel, px: nat, py: nat): Pixel
    requires WellFormed(bottom) && WellFormed(top) && px < bottom.width && py < bottom.height
  {
    if InRect(px, py, x, y, top.width, top.height)
    then blend(At(bottom, px, py), At(top, px - x, py - y))
    else At(bottom, px, py)
  }

  /** `imageops::overlay(bottom, top, x, y)` as a value; `OverlaidAt` says what each pixel becomes. */
  function Overlaid(bottom: Image, top: Image, x: int, y: int, blend: (Pixel, Pixel) -> Pixel): (r: Image)
    requires WellFormed(bottom) && WellFormed(top)
    ensures WellFormed(r) && r.width == bottom.width && r.height == bottom.height
  {
    Image(bottom.width, bottom.height,
      seq(bottom.height, py requires 0 <= py < bottom.height =>
        seq(bottom.width, px requires 0 <= px < bottom.width =>
          OverlayPixel(bottom, top, x, y, blend, px, py))))
  }

  /**
   * Overlaying keeps the canvas size and clips away the part of `top` that
   * falls outside it: each canvas pixel that `top` covers becomes the blend of
   * the old pixel with the covering one, and every other pixel is unchanged.
   */
  lemma OverlaidAt(bottom: Image, top: Image, x: int, y: int, blend: (Pixel, Pixel) -> Pixel, px: nat, py: nat)
    requires WellFormed(bottom) && WellFormed(top) && px < bottom.width && py < bottom.height
    ensures At(Overlaid(bottom, top, x, y, blend), px, py)
         == if InRect(px, py, x, y, top.width, top.height)
            then blend(At(bottom, px, py), At(top, px - x, py - y))
            else At(bottom, px, py)
  {
  }

  /** An image to be overlaid with its top-left corner at (x, y). */
  datatype Placement = Placement(img: Image, x: int, y: int)

  predicate Covers(p: Placement, px: int, py: int) {
    InRect(px, py, p.x, p.y, p.img.width, p.img.height)
  }

  predicate PlacementsWellFormed(ps: seq<Placement>) {
    forall i :: 0 <= i < |ps| ==> WellFormed(ps[i].img)
  }

  /** The rectangle of `p` lies entirely inside a w×h canvas. */
  predicate InsideCanvas(p: Placement, w: nat, h: nat) {
    0 <= p.x && p.x + p.img.width <= w && 0 <= p.y && p.y + p.img.height <= h
  }

  /** The rectangles of `p` and `q` are separated by a vertical or a horizontal line. */
  predicate Separated(p: Placement, q: Placement) {
    p.x + p.img.width <= q.x || q.x + q.img.width <= p.x ||
    p.y + p.img.height <= q.y || q.y + q.img.height <= p.y
  }

  predicate PairwiseSeparated(ps: seq<Placement>) {
    forall i, j :: 0 <= i < j < |ps| ==> Separated(ps[i], ps[j])
  }

  /** Overlaying the placements one after the other, in order, onto `base`. */
  function Apply(base: Image, ps: seq<Placement>, blend: (Pixel, Pixel) -> Pixel): (r: Image)
    requires WellFormed(base) && PlacementsWellFormed(ps)
    ensures WellFormed(r) && r.width == base.width && r.height == base.height
    decreases |ps|
  {
    if |ps| == 0 then base
    else
      var last := ps[|ps| - 1];
      Overlaid(Apply(base, ps[..|ps| - 1], blend), last.img, last.x, last.y, blend)
  }

  /** A pixel that no placement covers keeps its value. */
  lemma {:induction false} ApplyOutside(base: Image, ps: seq<Placement>, blend: (Pixel, Pixel) -> Pixel, px: nat, py: nat)
    requires WellFormed(base) && PlacementsWellFormed(ps)
    requires px < base.width && py < base.height
    requires forall i :: 0 <= i < |ps| ==> !Covers(ps[i], px, py)
    ensures At(Apply(base, ps, blend), px, py) == At(base, px, py)
    decreases |ps|
  {
    if |ps| > 0 {
      var init := ps[..|ps| - 1];
      assert forall i :: 0 <= i < |init| ==> init[i] == ps[i];
      ApplyOutside(base, init, blend, px, py);
      assert !Covers(ps[|ps| - 1], px, py);
      OverlaidAt(Apply(base, init, blend), ps[|ps| - 1].img, ps[|ps| - 1].x, ps[|ps| - 1].y, blend, px, py);
    }
  }

  /**
   * When no two placements overlap, a pixel covered by placement j is the
   * blend of the base pixel with the pixel of image j that lands there.
   */
  lemma {:induction false} ApplyInside(base: Image, ps: seq<Placement>, blend: (Pixel, Pixel) -> Pixel, j: nat, px: nat, py: nat)
    requires WellFormed(base) && PlacementsWellFormed(ps) && PairwiseSeparated(ps)
    requires px < base.width && py < base.height
    requires j < |ps| && Covers(ps[j], px, py)
    ensures At(Apply(base, ps, blend), px, py)
         == blend(At(base, px, py), At(ps[j].img, px - ps[j].x, py - ps[j].y))
    decreases |ps|
  {
    var n := |ps|;
    var init, last := ps[..n - 1], ps[n - 1];
    InitOfPlacements(ps);
    ApplyLastAt(base, ps, blend, px, py);
    if j == n - 1 {
      LastCoverIsAlone(ps, px, py);
      ApplyOutside(base, init, blend, px, py);
    } else {
      assert Separated(ps[j], last);
      assert !Covers(last, px, py);
      ApplyInside(base, init, blend, j, px, py);
    }
  }

  /** A pixel covered by the last of pairwise separated placements is covered by no earlier one. */
  lemma LastCoverIsAlone(ps: seq<Placement>, px: int, py: int)
    requires |ps| > 0 && PairwiseSeparated(ps) && Covers(ps[|ps| - 1], px, py)
    ensures var init := ps[..|ps| - 1]; forall i :: 0 <= i < |init| ==> !Covers(init[i], px, py)
  {
    var init := ps[..|ps| - 1];
    forall i | 0 <= i < |init| ensures !Covers(init[i], px, py) {
      assert init[i] == ps[i];
      assert Separated(ps[i], ps[|ps| - 1]);
    }
  }

  /** A pixel after the last overlay, in terms of the image before it. */
  lemma ApplyLastAt(base: Image, ps: seq<Placement>, blend: (Pixel, Pixel) -> Pixel, px: nat, py: nat)
    requires WellFormed(base) && PlacementsWellFormed(ps) && |ps| > 0
    requires px < base.width && py < base.height
    ensures var init, last := ps[..|ps| - 1], ps[|ps| - 1];
      PlacementsWellFormed(init) &&
      At(Apply(base, ps, blend), px, py)
        == if Covers(last, px, py)
           then blend(At(Apply(base, init, blend), px, py), At(last.img, px - last.x, py - last.y))
           else At(Apply(base, init, blend), px, py)
  {
    var init, last := ps[..|ps| - 1], ps[|ps| - 1];
    assert forall i :: 0 <= i < |init| ==> init[i] == ps[i];
    OverlaidAt(Apply(base, init, blend), last.img, last.x, last.y, blend, px, py);
  }

  /** Dropping the last placement keeps the list well-formed and pairwise separated. */
  lemma InitOfPlacements(ps: seq<Placement>)
    requires |ps| > 0 && PlacementsWellFormed(ps) && PairwiseSeparated(ps)
    ensures var init := ps[..|ps| - 1];
      (forall i :: 0 <= i < |init| ==> init[i] == ps[i]) && PlacementsWellFormed(init) && PairwiseSeparated(init)
  {
    var init := ps[..|ps| - 1];
    assert forall i :: 0 <= i < |init| ==> init[i] == ps[i];
  }

  /** Overlaying one list of placements and then another is overlaying their concatenation. */
  lemma {:induction false} ApplyAppend(base: Image, ps: seq<Placement>, qs: seq<Placement>, blend: (Pixel, Pixel) -> Pixel)
    requires WellFormed(base) && PlacementsWellFormed(ps) && PlacementsWellFormed(qs)
    ensures PlacementsWellFormed(ps + qs)
    ensures Apply(Apply(base, ps, blend), qs, blend) == Apply(base, ps + qs, blend)
    decreases |qs|
  {
    assert PlacementsWellFormed(ps + qs) by {
      forall i | 0 <= i < |ps + qs| ensures WellFormed((ps + qs)[i].img) {
        if i >= |ps| { assert (ps + qs)[i] == qs[i - |ps|]; }
      }
    }
    if |qs| > 0 {
      var qInit := qs[..|qs| - 1];
      assert (ps + qs)[..|ps + qs| - 1] == ps + qInit;
      assert PlacementsWellFormed(qInit) by {
        forall i | 0 <= i < |qInit| ensures WellFormed(qInit[i].img) { assert qInit[i] == qs[i]; }
      }
      ApplyAppend(base, ps, qInit, blend);
      assert (ps + qs)[|ps + qs| - 1] == qs[|qs| - 1];
    } else {
      assert ps + qs == ps;
    }
  }

  // ---------------------------------------------------------------------------
  // The mutable canvas

  /** A `DynamicImage` that is drawn on in place: fixed dimensions over a pixel array. */
  class Canvas {
    const width: nat
    const height: nat
    const pixels: array2<Pixel>

    ghost predicate Valid() {
      pixels.Length0 == height && pixels.Length1 == width
    }

    /** The image the canvas currently holds. */
    function Snapshot(): (img: Image)
      requires Valid()
      reads pixels
      ensures WellFormed(img) && img.width == width && img.height == height
      ensures forall x: nat, y: nat :: x < width && y < height ==> At(img, x, y) == pixels[y, x]
    {
      Image(width, height,
        seq(height, y requires 0 <= y < height reads pixels =>
          seq(width, x requires 0 <= x < width reads pixels => pixels[y, x])))
    }

    /** `DynamicImage::new_rgba8(w, h)`: a fully transparent w×h canvas. */
    constructor NewRgba8(w: nat, h: nat)
      ensures Valid() && fresh(pixels)
      ensures Snapshot() == Blank(w, h)
    {
      width, height := w, h;
      pixels := new Pixel[h, w]((y, x) => Transparent);
      new;
      forall x: nat, y: nat | x < w && y < h ensures At(Snapshot(), x, y) == At(Blank(w, h), x, y) {
        BlankAt(w, h, x, y);
      }
      ImageExt(Snapshot(), Blank(w, h));
    }

    /** An owned copy of `img` (`to_owned`), to be drawn on. */
    constructor FromImage(img: Image)
      requires WellFormed(img)
      ensures Valid() && fresh(pixels)
      ensures Snapshot() == img
    {
      width, height := img.width, img.height;
      pixels := new Pixel[img.height, img.width]((y, x) requires 0 <= y < img.height && 0 <= x < img.width => img.rows[y][x]);
      new;
      ImageExt(Snapshot(), img);
    }

    /**
     * `imageops::overlay(self, top, x, y)`: walks the part of `top` that falls
     * inside the canvas and blends each of its pixels onto the canvas.
     */
    method Overlay(top: Image, x: int, y: int, blend: (Pixel, Pixel) -> Pixel)
      requires Valid() && WellFormed(top)
      modifies pixels
      ensures Snapshot() == Overlaid(old(Snapshot()), top, x, y, blend)
    {
      ghost var before := Snapshot();
      var x0 := if x < 0 then 0 else x;
      var x1 := if x + top.width < width then x + top.width else width;
      var y0 := if y < 0 then 0 else y;
      var y1 := if y + top.height < height then y + top.height else height;
      if x1 < x0 { x1 := x0; }
      if y1 < y0 { y1 := y0; }
      var py := y0;
      while py < y1
        invariant y0 <= py <= y1
        invariant forall qy, qx :: 0 <= qy < height && 0 <= qx < width ==>
          pixels[qy, qx] == if qy < py then OverlayPixel(before, top, x, y, blend, qx, qy) else At(before, qx, qy)
      {
        var px := x0;
        while px < x1
          invariant x0 <= px <= x1
          invariant forall qy, qx :: 0 <= qy < height && 0 <= qx < width ==>
            pixels[qy, qx] == if qy < py || (qy == py && qx < px) then OverlayPixel(before, top, x, y, blend, qx, qy)
                              else At(before, qx, qy)
        {
          pixels[py, px] := blend(pixels[py, px], At(top, px - x, py - y));
          px := px + 1;
        }
        py := py + 1;
      }
      forall px: nat, py: nat | px < width && py < height
        ensures At(Snapshot(), px, py) == At(Overlaid(before, top, x, y, blend), px, py)
      {
        OverlaidAt(before, top, x, y, blend, px, py);
      }
      ImageExt(Snapshot(), Overlaid(before, top, x, y, blend));
    }
  }
}
