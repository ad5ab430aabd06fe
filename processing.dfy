/**
 * The thumbnail engine of `src/processing.rs`: picks the reference image (the
 * one with the most pixels), sizes the canvas from the image count, scales
 * every image to the reference's dimensions (letterboxed or stretched), lays
 * the scaled images out by count, and overlays the sharp letterboxed layout
 * on a blurred copy of the stretched one.
 *
 * Rust's `u32` arithmetic is modelled by unbounded naturals, and the `f64`
 * aspect-ratio arithmetic by exact integer cross-multiplication and floor
 * division. Rayon's parallel iterators become sequential, order-preserving
 * recursion.
 */
module Processing {
  import opened Wrappers
  import opened Imaging

  datatype ProcessingError =
    | EmptyImageArray
    | TooManyImages
    | CouldNotFindMostPixels
    | ImageError(cause: string)

  /** The encoded bytes of a finished thumbnail. */
  datatype CombinedThumbnail = CombinedThumbnail(inner: seq<byte>)

  /** The fixed sigma of the background blur. */
  const BlurSigma: real := 50.0

  function Area(img: Image): nat {
    img.width * img.height
  }

  // ---------------------------------------------------------------------------
  // Reference image and canvas size

  /** Image k has the largest area, and every image after it has a strictly smaller one. */
  predicate IsLastMaximum(images: seq<Image>, k: nat) {
    k < |images| &&
    (forall i :: 0 <= i < |images| ==> Area(images[i]) <= Area(images[k])) &&
    (forall i :: k < i < |images| ==> Area(images[i]) < Area(images[k]))
  }

  /**
   * The index `max_by_key` picks: a left fold that keeps the later image when
   * areas tie (`MostPixelsIndexIsLastMaximum`).
   */
  function MostPixelsIndex(images: seq<Image>): (k: nat)
    requires |images| > 0
    ensures k < |images|
    decreases |images|
  {
    var n := |images|;
    if n == 1 then 0
    else
      var k := MostPixelsIndex(images[..n - 1]);
      if Area(images[n - 1]) >= Area(images[k]) then n - 1 else k
  }

  /** The chosen image has the largest area, and it is the last image with that area. */
  lemma {:induction false} MostPixelsIndexIsLastMaximum(images: seq<Image>)
    requires |images| > 0
    ensures IsLastMaximum(images, MostPixelsIndex(images))
    decreases |images|
  {
    var n := |images|;
    if n > 1 {
      var init := images[..n - 1];
      MostPixelsIndexIsLastMaximum(init);
      assert forall i :: 0 <= i < n - 1 ==> init[i] == images[i];
    }
  }

  /** At most one index is a last maximum, so `MostPixelsIndex` is the only possible answer. */
  lemma LastMaximumUnique(images: seq<Image>, k1: nat, k2: nat)
    requires IsLastMaximum(images, k1) && IsLastMaximum(images, k2)
    ensures k1 == k2
  {
    assert Area(images[k1]) == Area(images[k2]);
  }

  /** The reference image of a non-empty array. */
  function Reference(images: seq<Image>): Image
    requires |images| > 0
  {
    images[MostPixelsIndex(images)]
  }

  /** `find_img_with_most_pixels`: fails only on an empty array, else returns the reference image. */
  function FindImgWithMostPixels(images: seq<Image>): (r: Result<Image, ProcessingError>)
    ensures r.Err? <==> |images| == 0
    ensures r.Err? ==> r.error == CouldNotFindMostPixels
    ensures r.Ok? ==> r.value == Reference(images)
  {
    if |images| == 0 then Err(CouldNotFindMostPixels)
    else Ok(images[MostPixelsIndex(images)])
  }

  /** `get_total_img_size`: the canvas is 1×1, 2×1 or 2×2 reference images. */
  function GetTotalImgSize(images: seq<Image>): (r: Result<(nat, nat), ProcessingError>)
    ensures r.Err? <==> |images| == 0
    ensures r.Err? ==> r.error == CouldNotFindMostPixels
    ensures r.Ok? ==>
      var ref := Reference(images);
      r.value == if |images| == 1 then (ref.width, ref.height)
                 else if |images| == 2 then (2 * ref.width, ref.height)
                 else (2 * ref.width, 2 * ref.height)
  {
    match FindImgWithMostPixels(images)
    case Err(e) => Err(e)
    case Ok(maxImage) =>
      var (width, height) := (maxImage.width, maxImage.height);
      var size := match |images|
        case 1 => (width, height)
        case 2 => (width * 2, height)
        case _ => (width * 2, height * 2);
      Ok(size)
  }

  /** A single image's canvas is exactly that image's size. */
  lemma TotalSizeOfSingle(img: Image)
    ensures GetTotalImgSize([img]) == Ok((img.width, img.height))
  {
    assert MostPixelsIndex([img]) == 0;
  }

  // ---------------------------------------------------------------------------
  // Scaling

  lemma MulLeft(a: int, b: int, c: nat)
    requires a <= b
    ensures c * a <= c * b
  {
  }

  /** Floor division brackets its dividend. */
  lemma FloorDiv(a: nat, b: nat)
    requires b > 0
    ensures (a / b) * b <= a < (a / b + 1) * b
  {
    assert a == (a / b) * b + a % b;
    assert (a / b + 1) * b == (a / b) * b + b;
  }

  /** Fitting the width: the scaled height nh, the floor of tw·h/w, fits the target height. */
  lemma FitWidth(w: nat, h: nat, tw: nat, th: nat, nh: nat)
    requires w * th > tw * h && w > 0 && nh == tw * h / w
    ensures nh * w <= tw * h < (nh + 1) * w
    ensures nh <= th
  {
    FloorDiv(tw * h, w);
    if nh > th {
      MulLeft(th + 1, nh, w);
    }
  }

  /** Fitting the height: the scaled width nw, the floor of th·w/h, fits the target width. */
  lemma FitHeight(w: nat, h: nat, tw: nat, th: nat, nw: nat)
    requires w * th <= tw * h && h > 0 && nw == th * w / h
    ensures nw * h <= th * w < (nw + 1) * h
    ensures nw <= tw
  {
    FloorDiv(th * w, h);
    if nw > tw {
      MulLeft(tw + 1, nw, h);
    }
  }

  /**
   * The letterbox size of a w×h image in a tw×th box. The source compares the
   * aspect ratios w/h and tw/th in `f64` and truncates the scaled side; here
   * the comparison is w·th > tw·h and the scaled side is a floor division.
   * With a zero height the float code yields a zero width in the second branch.
   */
  function LetterboxSize(w: nat, h: nat, tw: nat, th: nat): (r: (nat, nat))
    ensures r.0 <= tw && r.1 <= th
    ensures r.0 == tw || r.1 == th
    ensures w * th > tw * h ==> r.0 == tw && r.1 * w <= tw * h < (r.1 + 1) * w
    ensures w * th <= tw * h && h > 0 ==> r.1 == th && r.0 * h <= th * w < (r.0 + 1) * h
    ensures w * th <= tw * h && h == 0 ==> r == (0, th)
  {
    if w * th > tw * h then
      assert w != 0;
      var nh := tw * h / w;
      FitWidth(w, h, tw, th, nh);
      (tw, nh)
    else if h == 0 then
      (0, th)
    else
      var nw := th * w / h;
      FitHeight(w, h, tw, th, nw);
      (nw, th)
  }

  /**
   * `scale_image_iterable`: with `pad`, the image is resized to its letterbox
   * size and centred on a transparent target-sized canvas (the subtractions
   * cannot underflow); without, it is stretched to the target size.
   */
  function ScaleImageIterable(image: Image, targetWidth: nat, targetHeight: nat, pad: bool, lib: ImageLib): (r: Image)
    ensures WellFormed(r) && r.width == targetWidth && r.height == targetHeight
  {
    if pad then
      var newSize := LetterboxSize(image.width, image.height, targetWidth, targetHeight);
      var newWidth, newHeight := newSize.0, newSize.1;
      var resized := ResizeExact(image, newWidth, newHeight, Lanczos3, lib);
      var x: nat := (targetWidth - newWidth) / 2;
      var y: nat := (targetHeight - newHeight) / 2;
      Overlaid(Blank(targetWidth, targetHeight), resized, x, y, lib.blend)
    else
      ResizeExact(image, targetWidth, targetHeight, Gaussian, lib)
  }

  /**
   * A letterboxed image shows the resized image inside a rectangle whose left
   * and right (top and bottom) margins differ by at most one pixel, and is
   * transparent everywhere else.
   */
  lemma LetterboxPixels(image: Image, tw: nat, th: nat, lib: ImageLib, nw: nat, nh: nat, px: nat, py: nat)
    requires LetterboxSize(image.width, image.height, tw, th) == (nw, nh)
    requires px < tw && py < th
    ensures var x := (tw - nw) / 2;
      var y := (th - nh) / 2;
      x <= tw - nw - x <= x + 1 && y <= th - nh - y <= y + 1 &&
      At(ScaleImageIterable(image, tw, th, true, lib), px, py)
        == if InRect(px, py, x, y, nw, nh)
           then lib.blend(Transparent, lib.resample(image, Lanczos3, nw, nh, px - x, py - y))
           else Transparent
  {
    LetterboxUnfold(image, tw, th, lib, nw, nh);
    HalfSplit(tw - nw);
    HalfSplit(th - nh);
    CenteredPixel(image, tw, th, lib, nw, nh, px, py);
  }

  /** A pixel of the resized image centred on a transparent canvas. */
  lemma CenteredPixel(image: Image, tw: nat, th: nat, lib: ImageLib, nw: nat, nh: nat, px: nat, py: nat)
    requires nw <= tw && nh <= th && px < tw && py < th
    ensures var x := (tw - nw) / 2;
      var y := (th - nh) / 2;
      At(Overlaid(Blank(tw, th), ResizeExact(image, nw, nh, Lanczos3, lib), x, y, lib.blend), px, py)
        == if InRect(px, py, x, y, nw, nh)
           then lib.blend(Transparent, lib.resample(image, Lanczos3, nw, nh, px - x, py - y))
           else Transparent
  {
    var x: nat := (tw - nw) / 2;
    var y: nat := (th - nh) / 2;
    var resized := ResizeExact(image, nw, nh, Lanczos3, lib);
    OverlaidAt(Blank(tw, th), resized, x, y, lib.blend, px, py);
    BlankAt(tw, th, px, py);
    if InRect(px, py, x, y, nw, nh) {
      ResizeExactAt(image, nw, nh, Lanczos3, lib, px - x, py - y);
    }
  }

  /** The padded branch of `ScaleImageIterable` at a known letterbox size. */
  lemma LetterboxUnfold(image: Image, tw: nat, th: nat, lib: ImageLib, nw: nat, nh: nat)
    requires LetterboxSize(image.width, image.height, tw, th) == (nw, nh)
    ensures nw <= tw && nh <= th
    ensures ScaleImageIterable(image, tw, th, true, lib)
         == Overlaid(Blank(tw, th), ResizeExact(image, nw, nh, Lanczos3, lib), (tw - nw) / 2, (th - nh) / 2, lib.blend)
  {
  }

  /** Halving a margin leaves the larger half on the right or bottom, by at most one pixel. */
  lemma HalfSplit(m: nat)
    ensures m / 2 <= m - m / 2 <= m / 2 + 1
  {
  }

  /** A stretched image is the resampled image at every pixel: no transparent margin. */
  lemma StretchPixels(image: Image, tw: nat, th: nat, lib: ImageLib, px: nat, py: nat)
    requires px < tw && py < th
    ensures At(ScaleImageIterable(image, tw, th, false, lib), px, py) == lib.resample(image, Gaussian, tw, th, px, py)
  {
    ResizeExactAt(image, tw, th, Gaussian, lib, px, py);
  }

  /** `scale_all_images_to_same_size`: an order-preserving map of `ScaleImageIterable`. */
  function ScaleAllImagesToSameSize(imageArray: seq<Image>, targetWidth: nat, targetHeight: nat, pad: bool, lib: ImageLib): (r: seq<Image>)
    ensures |r| == |imageArray|
    ensures forall i :: 0 <= i < |r| ==> r[i] == ScaleImageIterable(imageArray[i], targetWidth, targetHeight, pad, lib)
    ensures forall i :: 0 <= i < |r| ==> WellFormed(r[i]) && r[i].width == targetWidth && r[i].height == targetHeight
    decreases |imageArray|
  {
    if |imageArray| == 0 then []
    else [ScaleImageIterable(imageArray[0], targetWidth, targetHeight, pad, lib)]
         + ScaleAllImagesToSameSize(imageArray[1..], targetWidth, targetHeight, pad, lib)
  }

  // ---------------------------------------------------------------------------
  // Horizontal layout

  function SumWidths(images: seq<Image>): nat
    decreases |images|
  {
    if |images| == 0 then 0 else SumWidths(images[..|images| - 1]) + images[|images| - 1].width
  }

  /** The placements `layout_horizontal` makes: each image right of the previous one, all at one height. */
  function HorizontalPlacements(images: seq<Image>, yOffset: nat): (ps: seq<Placement>)
    ensures |ps| == |images|
    ensures AllWellFormed(images) ==> PlacementsWellFormed(ps)
    decreases |images|
  {
    var n := |images|;
    if n == 0 then []
    else
      var init := images[..n - 1];
      var ps := HorizontalPlacements(init, yOffset) + [Placement(images[n - 1], SumWidths(init), yOffset)];
      assert AllWellFormed(images) ==> AllWellFormed(init);
      ps
  }

  /** Image i is placed at x = the total width of images 0..i-1, y = `yOffset`. */
  lemma {:induction false} HorizontalPlacementAt(images: seq<Image>, yOffset: nat, i: nat)
    requires i < |images|
    ensures HorizontalPlacements(images, yOffset)[i] == Placement(images[i], SumWidths(images[..i]), yOffset)
    decreases |images|
  {
    var n := |images|;
    var init := images[..n - 1];
    if i < n - 1 {
      HorizontalPlacementAt(init, yOffset, i);
      assert init[..i] == images[..i];
    } else {
      assert init == images[..i];
    }
  }

  /** Widths accumulate without gaps, so consecutive horizontal placements never overlap. */
  lemma HorizontalSeparated(images: seq<Image>, yOffset: nat)
    ensures PairwiseSeparated(HorizontalPlacements(images, yOffset))
  {
    var ps := HorizontalPlacements(images, yOffset);
    forall i, j | 0 <= i < j < |ps| ensures Separated(ps[i], ps[j]) {
      HorizontalPlacementAt(images, yOffset, i);
      HorizontalPlacementAt(images, yOffset, j);
      SumWidthsPrefix(images, i + 1, j);
      assert images[..i + 1][..i] == images[..i];
    }
  }

  /** The total width of a longer prefix is at least that of a shorter one. */
  lemma {:induction false} SumWidthsPrefix(images: seq<Image>, i: nat, j: nat)
    requires i <= j <= |images|
    ensures SumWidths(images[..i]) <= SumWidths(images[..j])
    decreases j - i
  {
    if i < j {
      SumWidthsPrefix(images, i, j - 1);
      assert images[..j][..j - 1] == images[..j - 1];
    }
  }

  /**
   * `layout_horizontal`: overlays the images left to right onto the canvas at
   * height `yOffset`, advancing the x offset by each image's width. Canvas
   * pixels outside the placed rectangles are unchanged (`ApplyOutside`).
   */
  method LayoutHorizontal(newImage: Canvas, images: seq<Image>, yOffset: nat, blend: (Pixel, Pixel) -> Pixel)
    requires newImage.Valid() && AllWellFormed(images)
    modifies newImage.pixels
    ensures newImage.Snapshot() == Apply(old(newImage.Snapshot()), HorizontalPlacements(images, yOffset), blend)
  {
    ghost var before := newImage.Snapshot();
    var xOffset: nat := 0;
    for i := 0 to |images|
      invariant xOffset == SumWidths(images[..i])
      invariant newImage.Snapshot() == Apply(before, HorizontalPlacements(images[..i], yOffset), blend)
    {
      var image := images[i];
      ghost var ps := HorizontalPlacements(images[..i + 1], yOffset);
      assert images[..i + 1][..i] == images[..i];
      assert ps[..i] == HorizontalPlacements(images[..i], yOffset);
      newImage.Overlay(image, xOffset, yOffset, blend);
      xOffset := xOffset + image.width;
    }
    assert images[..|images|] == images;
  }

  // ---------------------------------------------------------------------------
  // Combining

  /**
   * What `combine_images` returns: a single image as it is; otherwise every
   * image scaled to the reference's size and laid out on a transparent canvas
   * of the given size by count (`LayoutScaled`); an error for no image (at
   * reference selection) or more than four.
   */
  function CombinedImage(images: seq<Image>, totalWidth: nat, totalHeight: nat, pad: bool, lib: ImageLib): (r: Result<Image, ProcessingError>)
    requires AllWellFormed(images)
    ensures r.Err? <==> |images| == 0 || |images| > 4
    ensures |images| == 0 ==> r == Err(CouldNotFindMostPixels)
    ensures |images| > 4 ==> r == Err(TooManyImages)
    ensures |images| == 1 ==> r == Ok(images[0])
    ensures 2 <= |images| <= 4 ==> r.Ok? && WellFormed(r.value) && r.value.width == totalWidth && r.value.height == totalHeight
  {
    if |images| == 1 then Ok(images[0])
    else
      var newImage := Blank(totalWidth, totalHeight);
      match FindImgWithMostPixels(images)
      case Err(e) => Err(e)
      case Ok(topImg) =>
        var scaledImages := ScaleAllImagesToSameSize(images, topImg.width, topImg.height, pad, lib);
        LayoutScaled(images, scaledImages, newImage, totalWidth, topImg.height, pad, lib)
  }

  /**
   * The match on the number of scaled images in `combine_images`: two side by
   * side; the first two on top and the third re-scaled, from its scaled copy,
   * to the full width and the reference height as a bottom row; or a 2×2 grid.
   * The bottom row starts at the first scaled image's height. The arms for
   * zero and one image are never reached from `CombinedImage`.
   */
  function LayoutScaled(images: seq<Image>, scaledImages: seq<Image>, newImage: Image, totalWidth: nat, topHeight: nat, pad: bool, lib: ImageLib): (r: Result<Image, ProcessingError>)
    requires |images| == |scaledImages| && AllWellFormed(scaledImages) && WellFormed(newImage)
    ensures |images| == 0 ==> r == Err(EmptyImageArray)
    ensures |images| == 1 ==> r == Ok(images[0])
    ensures |images| > 4 ==> r == Err(TooManyImages)
    ensures 2 <= |images| <= 4 ==> r.Ok? && WellFormed(r.value) && r.value.width == newImage.width && r.value.height == newImage.height
  {
    match |scaledImages|
    case 0 => Err(EmptyImageArray)
    case 1 => Ok(images[0])
    case 2 => Ok(Apply(newImage, HorizontalPlacements(scaledImages, 0), lib.blend))
    case 3 =>
      var top := Apply(newImage, HorizontalPlacements(scaledImages[..2], 0), lib.blend);
      var processedLastImg := ScaleAllImagesToSameSize([scaledImages[2]], totalWidth, topHeight, pad, lib);
      var rescaled := scaledImages[2 := processedLastImg[0]];
      Ok(Apply(top, HorizontalPlacements(rescaled[2..], rescaled[0].height), lib.blend))
    case 4 =>
      var top := Apply(newImage, HorizontalPlacements(scaledImages[..2], 0), lib.blend);
      Ok(Apply(top, HorizontalPlacements(scaledImages[2..], scaledImages[0].height), lib.blend))
    case _ => Err(TooManyImages)
  }

  /**
   * The placements of the 2-, 3- and 4-image layouts, with the reference
   * image's size refW×refH: (0,0) and (refW,0); then (0,refH) for a
   * full-width third image; or (0,refH) and (refW,refH) for a 2×2 grid.
   */
  function CombinePlan(images: seq<Image>, totalWidth: nat, pad: bool, lib: ImageLib): (ps: seq<Placement>)
    requires 2 <= |images| <= 4
    ensures PlacementsWellFormed(ps) && |ps| == |images|
  {
    var ref := Reference(images);
    ScaledPlan(ScaleAllImagesToSameSize(images, ref.width, ref.height, pad, lib), ref.width, ref.height, totalWidth, pad, lib)
  }

  /** `CombinePlan` on the images already scaled to w×h. */
  function ScaledPlan(s: seq<Image>, w: nat, h: nat, totalWidth: nat, pad: bool, lib: ImageLib): (ps: seq<Placement>)
    requires 2 <= |s| <= 4 && AllWellFormed(s)
    ensures PlacementsWellFormed(ps) && |ps| == |s|
  {
    if |s| == 2 then
      [Placement(s[0], 0, 0), Placement(s[1], w, 0)]
    else if |s| == 3 then
      [Placement(s[0], 0, 0), Placement(s[1], w, 0), Placement(ScaleImageIterable(s[2], totalWidth, h, pad, lib), 0, h)]
    else
      [Placement(s[0], 0, 0), Placement(s[1], w, 0), Placement(s[2], 0, h), Placement(s[3], w, h)]
  }

  lemma HorizontalOne(a: Image, y: nat)
    ensures HorizontalPlacements([a], y) == [Placement(a, 0, y)]
  {
    assert [a][..0] == [];
  }

  lemma HorizontalTwo(a: Image, b: Image, y: nat)
    ensures HorizontalPlacements([a, b], y) == [Placement(a, 0, y), Placement(b, a.width, y)]
  {
    assert [a, b][..1] == [a];
    HorizontalOne(a, y);
    assert [a][..0] == [];
  }

  /** The placements of a pair laid out horizontally, the second image after the first. */
  lemma TopRow(s: seq<Image>, y: nat)
    requires |s| >= 2
    ensures HorizontalPlacements(s[..2], y) == [Placement(s[0], 0, y), Placement(s[1], s[0].width, y)]
  {
    assert s[..2] == [s[0], s[1]];
    HorizontalTwo(s[0], s[1], y);
  }

  /** Two scaled images: side by side at the top. */
  lemma LayoutTwo(images: seq<Image>, s: seq<Image>, base: Image, totalWidth: nat, topHeight: nat, pad: bool, lib: ImageLib)
    requires |images| == |s| == 2 && AllWellFormed(s) && WellFormed(base)
    ensures LayoutScaled(images, s, base, totalWidth, topHeight, pad, lib)
         == Ok(Apply(base, [Placement(s[0], 0, 0), Placement(s[1], s[0].width, 0)], lib.blend))
  {
    assert s[..2] == s;
    TopRow(s, 0);
  }

  /** The arm of `LayoutScaled` for two images: one horizontal row. */
  lemma LayoutScaledRow(images: seq<Image>, s: seq<Image>, base: Image, totalWidth: nat, topHeight: nat, pad: bool, lib: ImageLib)
    requires |images| == |s| == 2 && AllWellFormed(s) && WellFormed(base)
    ensures LayoutScaled(images, s, base, totalWidth, topHeight, pad, lib) == Ok(Apply(base, HorizontalPlacements(s, 0), lib.blend))
  {
  }

  /** The arms of `LayoutScaled` for three and four images: two horizontal rows. */
  lemma LayoutScaledRows(images: seq<Image>, s: seq<Image>, base: Image, totalWidth: nat, topHeight: nat, pad: bool, lib: ImageLib)
    requires |images| == |s| && 3 <= |s| <= 4 && AllWellFormed(s) && WellFormed(base)
    ensures var bottom := if |s| == 3 then s[2 := ScaleAllImagesToSameSize([s[2]], totalWidth, topHeight, pad, lib)[0]] else s;
      AllWellFormed(bottom[2..]) &&
      LayoutScaled(images, s, base, totalWidth, topHeight, pad, lib)
        == Ok(Apply(Apply(base, HorizontalPlacements(s[..2], 0), lib.blend), HorizontalPlacements(bottom[2..], bottom[0].height), lib.blend))
  {
    if |s| == 3 {
      var rescaled := s[2 := ScaleAllImagesToSameSize([s[2]], totalWidth, topHeight, pad, lib)[0]];
      assert rescaled[2..] == [rescaled[2]];
    }
  }

  /** The bottom row of three: the third image, re-scaled, alone at the first image's height. */
  lemma BottomRowOfThree(s: seq<Image>, totalWidth: nat, topHeight: nat, pad: bool, lib: ImageLib)
    requires |s| == 3
    ensures var bottom := s[2 := ScaleAllImagesToSameSize([s[2]], totalWidth, topHeight, pad, lib)[0]];
      HorizontalPlacements(bottom[2..], bottom[0].height)
        == [Placement(ScaleImageIterable(s[2], totalWidth, topHeight, pad, lib), 0, s[0].height)]
  {
    var third := ScaleImageIterable(s[2], totalWidth, topHeight, pad, lib);
    assert s[2 := ScaleAllImagesToSameSize([s[2]], totalWidth, topHeight, pad, lib)[0]][2..] == [third];
    HorizontalOne(third, s[0].height);
  }

  /** The bottom row of four: the last two images side by side at the first image's height. */
  lemma BottomRowOfFour(s: seq<Image>)
    requires |s| == 4
    ensures HorizontalPlacements(s[2..], s[0].height) == [Placement(s[2], 0, s[0].height), Placement(s[3], s[2].width, s[0].height)]
  {
    TopRow(s[2..], s[0].height);
    assert s[2..][..2] == s[2..];
  }

  /** Overlaying a pair and then one more is overlaying all three in order. */
  lemma ApplyPairThenOne(base: Image, p: Placement, q: Placement, t: Placement, blend: (Pixel, Pixel) -> Pixel)
    requires WellFormed(base) && WellFormed(p.img) && WellFormed(q.img) && WellFormed(t.img)
    ensures Apply(Apply(base, [p, q], blend), [t], blend) == Apply(base, [p, q, t], blend)
  {
    ApplyAppend(base, [p, q], [t], blend);
    assert [p, q] + [t] == [p, q, t];
  }

  /** Overlaying a pair and then another pair is overlaying all four in order. */
  lemma ApplyPairThenPair(base: Image, p: Placement, q: Placement, t: Placement, u: Placement, blend: (Pixel, Pixel) -> Pixel)
    requires WellFormed(base) && WellFormed(p.img) && WellFormed(q.img) && WellFormed(t.img) && WellFormed(u.img)
    ensures Apply(Apply(base, [p, q], blend), [t, u], blend) == Apply(base, [p, q, t, u], blend)
  {
    ApplyAppend(base, [p, q], [t, u], blend);
    assert [p, q] + [t, u] == [p, q, t, u];
  }

  /** Three scaled images: two on top, the re-scaled third below at the first one's height. */
  lemma LayoutThree(images: seq<Image>, s: seq<Image>, base: Image, totalWidth: nat, topHeight: nat, pad: bool, lib: ImageLib)
    requires |images| == |s| == 3 && AllWellFormed(s) && WellFormed(base)
    ensures LayoutScaled(images, s, base, totalWidth, topHeight, pad, lib)
         == Ok(Apply(base, [Placement(s[0], 0, 0), Placement(s[1], s[0].width, 0),
                            Placement(ScaleImageIterable(s[2], totalWidth, topHeight, pad, lib), 0, s[0].height)], lib.blend))
  {
    LayoutScaledRows(images, s, base, totalWidth, topHeight, pad, lib);
    TopRow(s, 0);
    BottomRowOfThree(s, totalWidth, topHeight, pad, lib);
    ApplyPairThenOne(base, Placement(s[0], 0, 0), Placement(s[1], s[0].width, 0),
                     Placement(ScaleImageIterable(s[2], totalWidth, topHeight, pad, lib), 0, s[0].height), lib.blend);
  }

  /** Four scaled images: two rows of two, the second at the first image's height. */
  lemma LayoutFour(images: seq<Image>, s: seq<Image>, base: Image, totalWidth: nat, topHeight: nat, pad: bool, lib: ImageLib)
    requires |images| == |s| == 4 && AllWellFormed(s) && WellFormed(base)
    ensures LayoutScaled(images, s, base, totalWidth, topHeight, pad, lib)
         == Ok(Apply(base, [Placement(s[0], 0, 0), Placement(s[1], s[0].width, 0),
                            Placement(s[2], 0, s[0].height), Placement(s[3], s[2].width, s[0].height)], lib.blend))
  {
    LayoutScaledRows(images, s, base, totalWidth, topHeight, pad, lib);
    TopRow(s, 0);
    BottomRowOfFour(s);
    ApplyPairThenPair(base, Placement(s[0], 0, 0), Placement(s[1], s[0].width, 0),
                      Placement(s[2], 0, s[0].height), Placement(s[3], s[2].width, s[0].height), lib.blend);
  }

  /** With two or more images, `CombinedImage` is the layout of the images scaled to the reference's size. */
  lemma CombinedIsLayout(images: seq<Image>, totalWidth: nat, totalHeight: nat, pad: bool, lib: ImageLib)
    requires AllWellFormed(images) && |images| >= 2
    ensures var ref := Reference(images);
      CombinedImage(images, totalWidth, totalHeight, pad, lib)
        == LayoutScaled(images, ScaleAllImagesToSameSize(images, ref.width, ref.height, pad, lib),
                        Blank(totalWidth, totalHeight), totalWidth, ref.height, pad, lib)
  {
  }

  lemma CombinedTwoIsPlan(images: seq<Image>, totalWidth: nat, totalHeight: nat, pad: bool, lib: ImageLib)
    requires AllWellFormed(images) && |images| == 2
    ensures CombinedImage(images, totalWidth, totalHeight, pad, lib)
         == Ok(Apply(Blank(totalWidth, totalHeight), CombinePlan(images, totalWidth, pad, lib), lib.blend))
  {
    var ref := Reference(images);
    var s := ScaleAllImagesToSameSize(images, ref.width, ref.height, pad, lib);
    CombinedIsLayout(images, totalWidth, totalHeight, pad, lib);
    LayoutTwo(images, s, Blank(totalWidth, totalHeight), totalWidth, ref.height, pad, lib);
  }

  lemma CombinedThreeIsPlan(images: seq<Image>, totalWidth: nat, totalHeight: nat, pad: bool, lib: ImageLib)
    requires AllWellFormed(images) && |images| == 3
    ensures CombinedImage(images, totalWidth, totalHeight, pad, lib)
         == Ok(Apply(Blank(totalWidth, totalHeight), CombinePlan(images, totalWidth, pad, lib), lib.blend))
  {
    var ref := Reference(images);
    var s := ScaleAllImagesToSameSize(images, ref.width, ref.height, pad, lib);
    CombinedIsLayout(images, totalWidth, totalHeight, pad, lib);
    LayoutThree(images, s, Blank(totalWidth, totalHeight), totalWidth, ref.height, pad, lib);
  }

  lemma CombinedFourIsPlan(images: seq<Image>, totalWidth: nat, totalHeight: nat, pad: bool, lib: ImageLib)
    requires AllWellFormed(images) && |images| == 4
    ensures CombinedImage(images, totalWidth, totalHeight, pad, lib)
         == Ok(Apply(Blank(totalWidth, totalHeight), CombinePlan(images, totalWidth, pad, lib), lib.blend))
  {
    var ref := Reference(images);
    var s := ScaleAllImagesToSameSize(images, ref.width, ref.height, pad, lib);
    CombinedIsLayout(images, totalWidth, totalHeight, pad, lib);
    LayoutFour(images, s, Blank(totalWidth, totalHeight), totalWidth, ref.height, pad, lib);
  }

  lemma CombinedImageIsPlan(images: seq<Image>, totalWidth: nat, totalHeight: nat, pad: bool, lib: ImageLib)
    requires AllWellFormed(images) && 2 <= |images| <= 4
    ensures CombinedImage(images, totalWidth, totalHeight, pad, lib)
         == Ok(Apply(Blank(totalWidth, totalHeight), CombinePlan(images, totalWidth, pad, lib), lib.blend))
  {
    if |images| == 2 {
      CombinedTwoIsPlan(images, totalWidth, totalHeight, pad, lib);
    } else if |images| == 3 {
      CombinedThreeIsPlan(images, totalWidth, totalHeight, pad, lib);
    } else {
      CombinedFourIsPlan(images, totalWidth, totalHeight, pad, lib);
    }
  }

  /** No two placements overlap and each lies inside the w×h canvas. */
  predicate Tiles(ps: seq<Placement>, w: nat, h: nat) {
    PairwiseSeparated(ps) && forall i :: 0 <= i < |ps| ==> InsideCanvas(ps[i], w, h)
  }

  predicate HasSize(img: Image, w: nat, h: nat) {
    img.width == w && img.height == h
  }

  /**
   * The placements tile the tw×th canvas and each image is w×h, except that
   * with `wideThird` the third image spans the canvas width at height h.
   */
  predicate FitsCanvas(ps: seq<Placement>, tw: nat, th: nat, w: nat, h: nat, wideThird: bool) {
    Tiles(ps, tw, th) &&
    (forall i :: 0 <= i < |ps| && !(wideThird && i == 2) ==> HasSize(ps[i].img, w, h)) &&
    (wideThird ==> |ps| > 2 && HasSize(ps[2].img, tw, h))
  }

  /** Two w×h images side by side tile a 2w×h canvas. */
  lemma PairTiles(a: Image, b: Image, w: nat, h: nat)
    requires HasSize(a, w, h) && HasSize(b, w, h)
    ensures FitsCanvas([Placement(a, 0, 0), Placement(b, w, 0)], 2 * w, h, w, h, false)
  {
  }

  /** Two w×h images over a 2w×h one tile a 2w×2h canvas. */
  lemma PairOverWideTiles(a: Image, b: Image, c: Image, w: nat, h: nat)
    requires HasSize(a, w, h) && HasSize(b, w, h) && HasSize(c, 2 * w, h)
    ensures FitsCanvas([Placement(a, 0, 0), Placement(b, w, 0), Placement(c, 0, h)], 2 * w, 2 * h, w, h, true)
  {
    var ps := [Placement(a, 0, 0), Placement(b, w, 0), Placement(c, 0, h)];
    assert Separated(ps[0], ps[1]) && Separated(ps[0], ps[2]) && Separated(ps[1], ps[2]);
  }

  /** Four w×h images in a 2×2 grid tile a 2w×2h canvas. */
  lemma GridTiles(a: Image, b: Image, c: Image, d: Image, w: nat, h: nat)
    requires HasSize(a, w, h) && HasSize(b, w, h) && HasSize(c, w, h) && HasSize(d, w, h)
    ensures FitsCanvas([Placement(a, 0, 0), Placement(b, w, 0), Placement(c, 0, h), Placement(d, w, h)], 2 * w, 2 * h, w, h, false)
  {
    var ps := [Placement(a, 0, 0), Placement(b, w, 0), Placement(c, 0, h), Placement(d, w, h)];
    assert Separated(ps[0], ps[1]) && Separated(ps[0], ps[2]) && Separated(ps[0], ps[3]);
    assert Separated(ps[1], ps[2]) && Separated(ps[1], ps[3]) && Separated(ps[2], ps[3]);
  }

  /**
   * On the canvas `get_total_img_size` computes, the placements of the plan
   * tile the canvas: each lies inside it and no two overlap. Every placed image
   * has the reference's size, except the full-width third of three.
   */
  predicate PlanFits(images: seq<Image>, pad: bool, lib: ImageLib)
    requires 2 <= |images| <= 4
  {
    var (tw, th) := GetTotalImgSize(images).value;
    var ref := Reference(images);
    FitsCanvas(CombinePlan(images, tw, pad, lib), tw, th, ref.width, ref.height, |images| == 3)
  }

  lemma PlanGeometryTwo(images: seq<Image>, pad: bool, lib: ImageLib)
    requires |images| == 2
    ensures PlanFits(images, pad, lib)
  {
    var ref := Reference(images);
    var (w, h) := (ref.width, ref.height);
    var s := ScaleAllImagesToSameSize(images, w, h, pad, lib);
    assert HasSize(s[0], w, h) && HasSize(s[1], w, h);
    PairTiles(s[0], s[1], w, h);
  }

  lemma PlanGeometryThree(images: seq<Image>, pad: bool, lib: ImageLib)
    requires |images| == 3
    ensures PlanFits(images, pad, lib)
  {
    var ref := Reference(images);
    var (w, h) := (ref.width, ref.height);
    var s := ScaleAllImagesToSameSize(images, w, h, pad, lib);
    assert HasSize(s[0], w, h) && HasSize(s[1], w, h);
    var third := ScaleImageIterable(s[2], 2 * w, h, pad, lib);
    assert GetTotalImgSize(images).value == (2 * w, 2 * h);
    assert CombinePlan(images, 2 * w, pad, lib) == [Placement(s[0], 0, 0), Placement(s[1], w, 0), Placement(third, 0, h)];
    PairOverWideTiles(s[0], s[1], third, w, h);
  }

  lemma PlanGeometryFour(images: seq<Image>, pad: bool, lib: ImageLib)
    requires |images| == 4
    ensures PlanFits(images, pad, lib)
  {
    var ref := Reference(images);
    var (w, h) := (ref.width, ref.height);
    var s := ScaleAllImagesToSameSize(images, w, h, pad, lib);
    assert HasSize(s[0], w, h) && HasSize(s[1], w, h) && HasSize(s[2], w, h) && HasSize(s[3], w, h);
    assert GetTotalImgSize(images).value == (2 * w, 2 * h);
    assert CombinePlan(images, 2 * w, pad, lib) == [Placement(s[0], 0, 0), Placement(s[1], w, 0), Placement(s[2], 0, h), Placement(s[3], w, h)];
    GridTiles(s[0], s[1], s[2], s[3], w, h);
  }

  lemma PlanGeometry(images: seq<Image>, pad: bool, lib: ImageLib)
    requires 2 <= |images| <= 4
    ensures PlanFits(images, pad, lib)
  {
    if |images| == 2 {
      PlanGeometryTwo(images, pad, lib);
    } else if |images| == 3 {
      PlanGeometryThree(images, pad, lib);
    } else {
      PlanGeometryFour(images, pad, lib);
    }
  }

  /**
   * What a pixel of non-overlapping placements on a transparent canvas shows:
   * the covering image blended onto transparency, or transparency.
   */
  predicate ShowsPlan(img: Image, plan: seq<Placement>, blend: (Pixel, Pixel) -> Pixel, px: nat, py: nat)
    requires WellFormed(img) && px < img.width && py < img.height && PlacementsWellFormed(plan)
  {
    (forall j :: 0 <= j < |plan| && Covers(plan[j], px, py) ==>
       At(img, px, py) == blend(Transparent, At(plan[j].img, px - plan[j].x, py - plan[j].y))) &&
    ((forall j :: 0 <= j < |plan| ==> !Covers(plan[j], px, py)) ==> At(img, px, py) == Transparent)
  }

  lemma ApplyOnBlank(tw: nat, th: nat, plan: seq<Placement>, blend: (Pixel, Pixel) -> Pixel, px: nat, py: nat)
    requires PlacementsWellFormed(plan) && PairwiseSeparated(plan) && px < tw && py < th
    ensures ShowsPlan(Apply(Blank(tw, th), plan, blend), plan, blend, px, py)
  {
    var blank := Blank(tw, th);
    BlankAt(tw, th, px, py);
    forall j | 0 <= j < |plan| && Covers(plan[j], px, py)
      ensures At(Apply(blank, plan, blend), px, py)
           == blend(Transparent, At(plan[j].img, px - plan[j].x, py - plan[j].y))
    {
      ApplyInside(blank, plan, blend, j, px, py);
    }
    if forall j :: 0 <= j < |plan| ==> !Covers(plan[j], px, py) {
      ApplyOutside(blank, plan, blend, px, py);
    }
  }

  /**
   * For two to four images on the computed canvas, each pixel covered by a
   * placement shows that placement's image blended onto transparency, and
   * every other pixel stays transparent.
   */
  lemma CombinedPixels(images: seq<Image>, pad: bool, lib: ImageLib, tw: nat, th: nat, px: nat, py: nat)
    requires AllWellFormed(images) && 2 <= |images| <= 4
    requires GetTotalImgSize(images) == Ok((tw, th)) && px < tw && py < th
    ensures ShowsPlan(CombinedImage(images, tw, th, pad, lib).value, CombinePlan(images, tw, pad, lib), lib.blend, px, py)
  {
    var plan := CombinePlan(images, tw, pad, lib);
    CombinedImageIsPlan(images, tw, th, pad, lib);
    PlanGeometry(images, pad, lib);
    ApplyOnBlank(tw, th, plan, lib.blend, px, py);
  }

  /**
   * The match on the number of scaled images in `combine_images`, in place on
   * `newImage`: the result is `LayoutScaled` of the canvas before.
   */
  method LayoutByCount(newImage: Canvas, images: seq<Image>, scaledImages: seq<Image>, totalWidth: nat, topHeight: nat, pad: bool, lib: ImageLib)
    returns (r: Result<Canvas, ProcessingError>)
    requires newImage.Valid() && AllWellFormed(images) && AllWellFormed(scaledImages) && |images| == |scaledImages|
    modifies newImage.pixels
    ensures r.Ok? ==> r.value.Valid() && (r.value == newImage || fresh(r.value.pixels))
    ensures r.Ok? ==> LayoutScaled(images, scaledImages, old(newImage.Snapshot()), totalWidth, topHeight, pad, lib) == Ok(r.value.Snapshot())
    ensures r.Err? ==> LayoutScaled(images, scaledImages, old(newImage.Snapshot()), totalWidth, topHeight, pad, lib) == Err(r.error)
  {
    ghost var before := newImage.Snapshot();
    var n := |scaledImages|;
    if n == 0 {
      return Err(EmptyImageArray);
    } else if n == 1 {
      var single := new Canvas.FromImage(images[0]);
      return Ok(single);
    } else if n == 2 {
      LayoutScaledRow(images, scaledImages, before, totalWidth, topHeight, pad, lib);
      LayoutHorizontal(newImage, scaledImages, 0, lib.blend);
    } else if n <= 4 {
      LayoutScaledRows(images, scaledImages, before, totalWidth, topHeight, pad, lib);
      LayoutRows(newImage, scaledImages, totalWidth, topHeight, pad, lib);
    } else {
      return Err(TooManyImages);
    }
    return Ok(newImage);
  }

  /**
   * The three- and four-image arms of `combine_images`: the first two scaled
   * images as a top row, then the rest (for three, the third re-scaled to the
   * full width) as a bottom row at the first image's height.
   */
  method LayoutRows(newImage: Canvas, scaledImages: seq<Image>, totalWidth: nat, topHeight: nat, pad: bool, lib: ImageLib)
    requires newImage.Valid() && AllWellFormed(scaledImages) && 3 <= |scaledImages| <= 4
    modifies newImage.pixels
    ensures var bottom := if |scaledImages| == 3 then scaledImages[2 := ScaleAllImagesToSameSize([scaledImages[2]], totalWidth, topHeight, pad, lib)[0]] else scaledImages;
      AllWellFormed(bottom[2..]) &&
      newImage.Snapshot() == Apply(Apply(old(newImage.Snapshot()), HorizontalPlacements(scaledImages[..2], 0), lib.blend),
                                   HorizontalPlacements(bottom[2..], bottom[0].height), lib.blend)
  {
    var rescaled := scaledImages;
    LayoutHorizontal(newImage, rescaled[..2], 0, lib.blend);
    if |rescaled| == 3 {
      var processedLastImg := ScaleAllImagesToSameSize([rescaled[2]], totalWidth, topHeight, pad, lib);
      rescaled := rescaled[2 := processedLastImg[0]];
    }
    LayoutHorizontal(newImage, rescaled[2..], rescaled[0].height, lib.blend);
  }

  /**
   * `combine_images`: allocates the canvas, scales the images and lays them
   * out in place by count; the result is `CombinedImage`.
   */
  method CombineImages(images: seq<Image>, totalWidth: nat, totalHeight: nat, pad: bool, lib: ImageLib)
    returns (r: Result<Canvas, ProcessingError>)
    requires AllWellFormed(images)
    ensures r.Ok? ==> r.value.Valid() && fresh(r.value.pixels)
    ensures r.Ok? ==> CombinedImage(images, totalWidth, totalHeight, pad, lib) == Ok(r.value.Snapshot())
    ensures r.Err? ==> CombinedImage(images, totalWidth, totalHeight, pad, lib) == Err(r.error)
  {
    if |images| == 1 {
      var single := new Canvas.FromImage(images[0]);
      return Ok(single);
    }
    var newImage := new Canvas.NewRgba8(totalWidth, totalHeight);
    var topImg := FindImgWithMostPixels(images);
    if topImg.Err? {
      return Err(topImg.error);
    }
    var scaledImages := ScaleAllImagesToSameSize(images, topImg.value.width, topImg.value.height, pad, lib);
    CombinedIsLayout(images, totalWidth, totalHeight, pad, lib);
    r := LayoutByCount(newImage, images, scaledImages, totalWidth, topImg.value.height, pad, lib);
  }

  // ---------------------------------------------------------------------------
  // The two-layer thumbnail

  /**
   * The image `generate_combined_thumbnail` encodes: the letterboxed layout
   * overlaid at (0,0) on the blurred stretched layout, both on the canvas
   * `get_total_img_size` computes. It has exactly that canvas size, and fails
   * exactly for no image or more than four.
   */
  function ComposedImage(images: seq<Image>, lib: ImageLib): (r: Result<Image, ProcessingError>)
    requires AllWellFormed(images)
    ensures r.Err? <==> |images| == 0 || |images| > 4
    ensures |images| == 0 ==> r == Err(CouldNotFindMostPixels)
    ensures |images| > 4 ==> r == Err(TooManyImages)
    ensures r.Ok? ==> WellFormed(r.value) && (r.value.width, r.value.height) == GetTotalImgSize(images).value
  {
    match GetTotalImgSize(images)
    case Err(e) => Err(e)
    case Ok((totalWidth, totalHeight)) =>
      TotalSizeOfSingleSeq(images);
      match CombinedImage(images, totalWidth, totalHeight, true, lib)
      case Err(e) => Err(e)
      case Ok(combined) =>
        match CombinedImage(images, totalWidth, totalHeight, false, lib)
        case Err(e) => Err(e)
        case Ok(background) => Ok(Overlaid(Blurred(background, BlurSigma, lib), combined, 0, 0, lib.blend))
  }

  /** The canvas of a one-image array is that image's size. */
  lemma TotalSizeOfSingleSeq(images: seq<Image>)
    ensures |images| == 1 ==> GetTotalImgSize(images) == Ok((images[0].width, images[0].height))
  {
    if |images| == 1 {
      assert images == [images[0]];
      TotalSizeOfSingle(images[0]);
    }
  }

  /** A single image is overlaid, unscaled, on a blurred copy of itself. */
  lemma ComposedSingle(img: Image, lib: ImageLib)
    requires WellFormed(img)
    ensures ComposedImage([img], lib) == Ok(Overlaid(Blurred(img, BlurSigma, lib), img, 0, 0, lib.blend))
  {
    TotalSizeOfSingle(img);
  }

  /** When both layouts succeed, the composed image is the letterboxed one over the blurred stretched one. */
  lemma ComposedOfLayers(images: seq<Image>, lib: ImageLib, totalWidth: nat, totalHeight: nat, foreground: Image, background: Image)
    requires AllWellFormed(images)
    requires GetTotalImgSize(images) == Ok((totalWidth, totalHeight))
    requires CombinedImage(images, totalWidth, totalHeight, true, lib) == Ok(foreground)
    requires CombinedImage(images, totalWidth, totalHeight, false, lib) == Ok(background)
    ensures ComposedImage(images, lib) == Ok(Overlaid(Blurred(background, BlurSigma, lib), foreground, 0, 0, lib.blend))
  {
  }

  /**
   * `generate_combined_thumbnail`: the composed image encoded as PNG. A
   * processing error is returned as it is, an encoder failure as `ImageError`.
   */
  method GenerateCombinedThumbnail(images: seq<Image>, lib: ImageLib) returns (r: Result<CombinedThumbnail, ProcessingError>)
    requires AllWellFormed(images)
    ensures ComposedImage(images, lib).Err? ==> r == Err(ComposedImage(images, lib).error)
    ensures ComposedImage(images, lib).Ok? ==>
      r == match lib.encodePng(ComposedImage(images, lib).value)
           case Ok(bytes) => Ok(CombinedThumbnail(bytes))
           case Err(msg) => Err(ImageError(msg))
  {
    var totalSize := GetTotalImgSize(images);
    if totalSize.Err? {
      return Err(totalSize.error);
    }
    var (totalWidth, totalHeight) := totalSize.value;
    var combined := CombineImages(images, totalWidth, totalHeight, true, lib);
    if combined.Err? {
      return Err(combined.error);
    }
    var foreground := combined.value.Snapshot();
    var backgroundRaw := CombineImages(images, totalWidth, totalHeight, false, lib);
    if backgroundRaw.Err? {
      // unreachable: both layouts fail for the same image counts
      assert false;
    }
    ghost var stretched := backgroundRaw.value.Snapshot();
    var background := new Canvas.FromImage(Blurred(backgroundRaw.value.Snapshot(), BlurSigma, lib));
    background.Overlay(foreground, 0, 0, lib.blend);
    assert ComposedImage(images, lib) == Ok(background.Snapshot()) by {
      ComposedOfLayers(images, lib, totalWidth, totalHeight, foreground, stretched);
    }
    var encoded := lib.encodePng(background.Snapshot());
    if encoded.Err? {
      return Err(ImageError(encoded.error));
    }
    return Ok(CombinedThumbnail(encoded.value));
  }
}
