# Combined-thumbnail engine and embed-bot classifier, in Dafny

This project models the two pieces of logic in the Bluesky embed server that
decide what the server produces.

The first piece is the thumbnail engine in `src/processing.rs`. It takes the
one to four images of a post, picks the image with the most pixels as the
*reference*, and sizes a canvas from the image count:

- 1×1 reference for one image;
- 2×1 for two;
- 2×2 for more.

Every image is then scaled to the reference's size. With *padding*, an image
is letterboxed: resized to keep its aspect ratio and centred on a transparent
frame. Without padding, it is stretched. The scaled images are laid out by
count:

- two images side by side;
- three images as two on top and one full-width below;
- four images as a 2×2 grid.

The letterboxed layout is overlaid on a blurred copy of the stretched layout,
and the result is encoded as PNG.

The second piece is the `RequireEmbed` extractor in `src/user_agent.rs`. It
rejects a request that has no `User-Agent` header. A present header counts as
an embed bot when it exactly equals one of fifteen listed agents, or when it
contains `WhatsApp/`. Any other header counts as an ordinary visitor.

The project has four modules:

- `Wrappers` (`wrappers.dfy`): `Option` and `Result`.
- `Imaging` (`imaging.dfy`): the parts of the `image` crate the engine uses.
  - Images are values.
  - `Canvas` is a class over a two-dimensional array, drawn on in place by
    `Overlay`.
  - `Apply` is a list of overlays, with lemmas giving each pixel of the result
    when the overlaid rectangles do not overlap.
  - The pixel numerics (blend, resampling filters, blur, PNG encoder) are
    fields of an `ImageLib` value. The scaling and composing operations take
    it whole. `Overlaid`, `Apply`, `Canvas.Overlay` and `LayoutHorizontal`
    take only its `blend` function. Nothing proved depends on what these
    functions compute.
- `Processing` (`processing.dfy`): `src/processing.rs`.
  - Each pure Rust function is a Dafny function.
  - `layout_horizontal`, `combine_images` and `generate_combined_thumbnail`
    mutate an image. So they are module-level methods that draw on a `Canvas`
    in place, or allocate and return one, through `Canvas.Overlay` (the only
    drawing method of the class). Each is proved equal to a specification
    function (`Apply`, `CombinedImage`, `ComposedImage`).
  - Lemmas then prove what those functions guarantee: sizes, placements,
    tiling without overlap, and the value of every pixel.
- `UserAgent` (`user_agent.dfy`): `src/user_agent.rs`. The agent list is a
  constant sequence, and the classification is a function over the optional
  header.

Two details of the code that the model reproduces as written:

- **An empty image array.** The `EmptyImageArray` variant ("Image array is
  empty", src/processing.rs:20-21) and the `0 =>` arm of the count match
  (src/processing.rs:94) suggest that an empty array was meant to fail with
  `EmptyImageArray`. But `get_total_img_size` and `combine_images` first call
  `find_img_with_most_pixels` (src/processing.rs:148 and 88). So an empty
  array fails there, with `CouldNotFindMostPixels`, and the `0 =>` arm cannot
  be reached. `LayoutScaled` still models that arm, and `CombinedImage` states
  the error that is actually returned.
- **The bottom row.** It starts at `scaled_images[0].height()`
  (src/processing.rs:119 and 129), the first scaled image's height, rather
  than at `top_img.height()`. The two are equal, because every scaled image
  has the reference's size. The model keeps the expression the code uses.

## Model

| member | source | states |
|---|---|---|
| Imaging.Blank | src/processing.rs:87 | `new_rgba8(w, h)` is a well-formed image of exactly w×h |
| Imaging.BlankAt | src/processing.rs:185 | every pixel of a new canvas is fully transparent |
| Imaging.ResizeExact | src/processing.rs:178 | `resize_exact` yields exactly the requested size, whatever the input's aspect ratio |
| Imaging.ResizeExactAt | src/processing.rs:190 | each pixel of a resized image is the filter's resampled pixel at that position and size |
| Imaging.Blurred | src/processing.rs:57 | the blurred background keeps the dimensions of the image it blurs |
| Imaging.Overlaid | src/processing.rs:186 | overlaying keeps the bottom image's size, clipping whatever of the top image falls outside |
| Imaging.OverlaidAt | src/processing.rs:58 | a pixel the top image covers becomes the blend of the old pixel and the covering one; every other pixel is unchanged |
| Imaging.Canvas.NewRgba8 | src/processing.rs:87 | a freshly allocated canvas holds exactly the transparent w×h image |
| Imaging.Canvas.FromImage | src/processing.rs:84 | `to_owned` gives a fresh canvas holding exactly the given image |
| Imaging.Canvas.Overlay | src/processing.rs:68 | the in-place overlay loop leaves the canvas equal to `Overlaid` of its old contents |
| Imaging.Apply | src/processing.rs:65-72 | overlaying a list of placements in order keeps the canvas well-formed and its size |
| Imaging.ApplyOutside | src/processing.rs:65-72 | a pixel covered by no placement keeps its original value |
| Imaging.ApplyInside | src/processing.rs:65-72 | when no two placements overlap, a pixel covered by placement j is the base pixel blended with image j's pixel at the matching offset, whatever comes before or after j |
| Imaging.ApplyAppend | src/processing.rs:125-130 | two successive rounds of overlays equal one round over the concatenated placement lists |
| Processing.MostPixelsIndexIsLastMaximum | src/processing.rs:139-144 | the chosen image has the maximum width×height area, and every later image's area is strictly smaller: ties go to the last image |
| Processing.LastMaximumUnique | src/processing.rs:142 | at most one index is a last maximum, so the tie-break fixes the reference uniquely |
| Processing.MostPixelsIndex | src/processing.rs:140-142 | a valid index; a later image replaces the current choice when its area is at least as large |
| Processing.FindImgWithMostPixels | src/processing.rs:139-144 | fails exactly on an empty array, with `CouldNotFindMostPixels`; otherwise returns the reference image |
| Processing.GetTotalImgSize | src/processing.rs:147-156 | fails exactly on an empty array, with the reference-selection error; the canvas is (w,h) for one image, (2w,h) for two and (2w,2h) for three or more, including more than four |
| Processing.TotalSizeOfSingle | src/processing.rs:151 | the canvas of a single image is that image's own size |
| Processing.LetterboxSize | src/processing.rs:169-176 | the letterbox fits the target (new_w ≤ target_w, new_h ≤ target_h), meets it on at least one side, and the other side is the floor of the aspect-preserving length |
| Processing.ScaleImageIterable | src/processing.rs:160-192 | with or without padding, the scaled image is well-formed and exactly target_w×target_h |
| Processing.LetterboxPixels | src/processing.rs:178-186 | a padded image shows the Lanczos3-resized image in a rectangle at ((tw−nw)/2, (th−nh)/2), where opposite margins differ by at most one pixel; every other pixel is transparent |
| Processing.StretchPixels | src/processing.rs:189-191 | an unpadded image is the Gaussian-resampled image at every pixel, with no margin |
| Processing.ScaleAllImagesToSameSize | src/processing.rs:196-206 | keeps the length and the order, scaling element i of the input to element i of the output, each exactly the target size |
| Processing.HorizontalPlacements | src/processing.rs:65-72 | one placement per image, in order |
| Processing.HorizontalPlacementAt | src/processing.rs:66-71 | image i is placed at x = the sum of the widths of the images before it, and at y = the offset |
| Processing.HorizontalSeparated | src/processing.rs:66-71 | the x offset only grows by each image's width, so no two horizontally laid out images overlap |
| Processing.LayoutHorizontal | src/processing.rs:65-72 | the loop with its accumulating `x_offset` leaves the canvas equal to `Apply` of those placements on its old contents |
| Processing.CombinedImage | src/processing.rs:76-136 | a single image is returned as it is; no image fails with `CouldNotFindMostPixels` and more than four with `TooManyImages`; two to four give a well-formed image of exactly the requested canvas size |
| Processing.LayoutScaled | src/processing.rs:93-133 | the match on the number of scaled images: 0 gives `EmptyImageArray`, 1 the original first image, more than 4 `TooManyImages`, and 2 to 4 an image the size of the canvas |
| Processing.CombinePlan | src/processing.rs:93-133 | the layout has one well-formed placement per image |
| Processing.LayoutTwo | src/processing.rs:96-99 | two scaled images go side by side at the top, the second at the first's width |
| Processing.TopRow | src/processing.rs:103 | the top row places the first scaled image at (0,0) and the second at (its width, 0) |
| Processing.BottomRowOfThree | src/processing.rs:105-120 | the third image is re-scaled from its already scaled copy to the full width and the reference height, and placed alone at the first image's height |
| Processing.BottomRowOfFour | src/processing.rs:125-130 | the last two images go side by side at the first image's height |
| Processing.LayoutThree | src/processing.rs:100-121 | all three in order: two on top, and the re-scaled third below at the first image's height |
| Processing.LayoutFour | src/processing.rs:122-131 | the 2×2 grid, in order: top row at y = 0, bottom row at the first image's height |
| Processing.CombinedIsLayout | src/processing.rs:87-91 | with two or more images, the result is the count layout of the images scaled to the reference's size, drawn on a transparent canvas |
| Processing.CombinedImageIsPlan | src/processing.rs:82-135 | for two to four images, the combined image is the plan's placements overlaid, in order, on a transparent canvas |
| Processing.PlanGeometry | src/processing.rs:147-156 | on the canvas `get_total_img_size` computes, the placements lie inside the canvas and never overlap; each has the reference's size, except the full-width third of three |
| Processing.CombinedPixels | src/processing.rs:87-135 | each pixel of the combined image covered by a placement is that image blended onto transparency; every other pixel stays transparent |
| Processing.LayoutByCount | src/processing.rs:93-135 | the in-place match on the count leaves the canvas (or returns the owned single image) equal to `LayoutScaled`, with the same errors |
| Processing.LayoutRows | src/processing.rs:100-131 | the in-place three- and four-image arms: a top row of two, then the bottom row at the first image's height, with the third of three re-scaled first |
| Processing.CombineImages | src/processing.rs:76-136 | the method returns a fresh canvas holding exactly `CombinedImage`, or exactly its error |
| Processing.ComposedImage | src/processing.rs:52-59 | the image to encode is exactly the size `get_total_img_size` computes, and fails exactly for no image or more than four, with the same errors |
| Processing.ComposedSingle | src/processing.rs:55-58 | a single image is overlaid, unscaled, on a blurred copy of itself |
| Processing.ComposedOfLayers | src/processing.rs:56-58 | the letterboxed layout is overlaid at (0,0) on the blurred stretched layout |
| Processing.GenerateCombinedThumbnail | src/processing.rs:52-62 | a processing error is returned unchanged; otherwise the PNG encoding of the composed image, with an encoder failure surfacing as `ImageError` |
| UserAgent.Contains | src/user_agent.rs:56 | the search succeeds exactly when the pattern occurs at some index of the agent |
| UserAgent.ClassifyAgainst | src/user_agent.rs:53-59 | the result carries the original header exactly when it is in the list or contains `WhatsApp/`, and is `None` otherwise |
| UserAgent.FromUserAgent | src/user_agent.rs:51-63 | a missing header is rejected with (400, "`User-Agent` header is missing"); a present one is never rejected, and is accepted as an embed bot, with the header carried, exactly when it is listed or contains `WhatsApp/` |
| UserAgent.ListedAgentIsEmbed | src/user_agent.rs:18-34 | each of the fifteen listed agents, sent as the header, is accepted as an embed bot |
| UserAgent.ListedAgentIsClassified | src/user_agent.rs:18-34 | each of the fifteen listed agents, as a present header, is classified as an embed bot carrying that header, with no assumption about its characters |
| UserAgent.WhatsAppAnywhere | src/user_agent.rs:55-58 | any agent containing `WhatsApp/`, whatever comes before or after it, is accepted as an embed bot |
| UserAgent.OtherAgentIsVisitor | src/user_agent.rs:57-59 | an agent that is not listed and has no `WhatsApp/` gives `Ok(None)`, never a rejection |
| UserAgent.NoPrefixMatching | src/user_agent.rs:53 | list matching is exact equality: `"test2"` is not accepted although `"test"` is listed |
| UserAgent.DuplicateIsHarmless | src/user_agent.rs:19-24 | removing the second `facebookexternalhit/1.1` entry changes no classification |

## Left out

- Integer widths: `u32` arithmetic is modelled on unbounded naturals. So the
  model never wraps (or, in a debug build, panics) when computing the area
  product, `2 * width`, `2 * height` or the accumulating `x_offset`.
- Processing.LetterboxSize: the `f64` aspect-ratio comparison and the
  truncating casts are replaced by the exact comparison w·th > tw·h and floor
  division. Rounding can make the float code differ by one pixel, or pick the
  other branch when the two ratios are nearly equal. Where a dimension is zero,
  the model gives the results the float code gives:
  - when h = 0 < w·th, the first branch is taken (w/0 is +∞) and the result is
    (tw, 0);
  - otherwise, when th = 0 or w = 0 or h = 0, the second branch gives a zero
    width.
- Pixel numerics: the alpha blend inside `imageops::overlay`, the Lanczos3 and
  Gaussian resampling filters, and the Gaussian blur with sigma 50 are
  uninterpreted functions. They are fields of `ImageLib`. Only sizes,
  positions, clipping and the order of blends are modelled.
- PNG encoding: `CombinedThumbnail::new` and `write_to` (src/processing.rs:37-45)
  are an uninterpreted, fallible `encodePng`. Its error message becomes
  `ImageError`.
- Parallelism: rayon's `par_iter` is modelled sequentially. The map keeps its
  order, and `max_by_key` is a left fold that keeps the later image on a tie,
  which matches rayon's documented choice of the last maximum.
- Processing.GenerateCombinedThumbnail: the second, stretched `combine_images`
  call fails for exactly the counts the first call fails for, so its `?` arm
  cannot be reached after the first call succeeded. The method proves it
  unreachable, so it has no return statement of its own.
- Logging: the `debug!` call in `layout_horizontal` is not modelled.
- `src/main.rs` is not part of this model. It holds the HTTP routing, the API
  client, image downloads and response mapping, all asynchronous I/O.
- `src/templates.rs` is not part of this model. It holds HTML template data
  with no logic.
- Header extraction: looking the header up in the request's header map is left
  to the caller. The header arrives as an `Option<string>`.
- UserAgent.FromUserAgent: `to_str().unwrap()` panics unless the header is
  visible ASCII, so a present header is required to be visible ASCII. The
  panic is not modelled as a result.
- UserAgent.ListedAgentIsEmbed: it takes as a precondition that the listed
  entry is visible ASCII. Every entry is, but checking that character by
  character for fifteen long literals is beyond the solver's budget here.
