# ImageCompare: the exact pixel-difference scanner, in Dafny

ImageCompare is a macOS app. It loads two images and reports whether they are
pixel-identical and how many pixels differ. It also shows a diff image that
highlights the differing regions against a background colour the user picks.
This project models the part of `ContentView` that decides and counts:

- `PixelScan` models `areImagesIdentical`. Two images with equal extents come
  with their RGBA8 renderings, which are byte buffers of `width * height * 4`
  bytes. The scan compares the four channel bytes of every pixel and counts
  the pixels where any of them differs. It returns `(identical, totalPixels,
  differentPixels)`. When the extents differ it returns `(false, 0, 0)` and
  reads no pixel. `DifferingCount` is the specification: a recursive count over
  the first `n` pixels. `AreImagesIdentical` is the loop, proved equal to it.
  The lemmas prove the count equals the number of differing pixel indices,
  and that the scan is reflexive and symmetric. They also prove that
  "identical" means byte-equal buffers, and that a pair one pixel apart gives
  exactly one differing pixel.
- `CompareImages` models the result assembly of `compareImages`. The Core Image
  filter stages are opaque, fallible functions held in a `Filters` value. The
  model proves three things. The counts are the scan's on every exit path.
  A failing stage leaves the image nil. Only when every stage succeeds does the
  image come from the final stage.
- `ContentView` models the `@State` fields as a class. `CompareButton` is the
  Compare button's action. `SetBackgroundColor` is the `onChange(of:
  backgroundColor)` handler, which drops the diff image. The class invariant
  `Valid()` says the counts on display are consistent with each other and with
  the "identical" flag. Both methods preserve it.

The button compares `NSImage.size` (ContentView.swift:304) and returns
before any comparison when the sizes differ. The scanner separately compares
whole extents, origin included (ContentView.swift:256), and returns
`(false, 0, 0)` when they differ. `NSImage.size` is measured in points and the
extent in pixels. So two images with the same point size and different pixel
extents, such as a 2x and a 1x rendition, raise no size alert; the scan then
returns `(false, 0, 0)`, and the view shows 0 total and 0 differing pixels.
`CompareButton`'s contract together with `Scan`'s covers this case, because
`LoadedImage` keeps the size and the bitmap apart.

## Model

| member | source | states |
|---|---|---|
| PixelScan.DifferingCount | ImageCompare/ContentView.swift:272-288 | the count over the first `n` pixels is at most `n`, and it is zero exactly when no pixel among them has a differing R, G, B or A byte |
| PixelScan.DifferingCountIsCardinality | ImageCompare/ContentView.swift:272-288 | the count equals the number of pixel indices whose 4-byte tuples differ |
| PixelScan.DifferingCountSymmetric | ImageCompare/ContentView.swift:285 | counting `b` against `a` gives the same number as `a` against `b` |
| PixelScan.SameBytesIffNoPixelDiffers | ImageCompare/ContentView.swift:273-290 | two buffers of `n` pixels are byte-equal exactly when no pixel differs |
| PixelScan.Scan | ImageCompare/ContentView.swift:252-292 | `0 <= differentPixels <= totalPixels`; on an extent mismatch the result is `(false, 0, 0)`; otherwise `totalPixels == width * height` and "identical" holds exactly when the two RGBA8 buffers are equal; "identical" holds exactly when the extents match and no pixel differs |
| PixelScan.AreImagesIdentical | ImageCompare/ContentView.swift:252-292 | the loop returns the specification's result; on a mismatch it returns `(false, 0, 0)` without reading a byte; otherwise `totalPixels == width * height`, `differentPixels` is the number of differing pixel indices, and `identical == (differentPixels == 0)`; every access `4 * pixelIndex + k`, `k < 4`, is in bounds |
| PixelScan.ScanReflexive | ImageCompare/ContentView.swift:285-291 | an image scanned against itself is identical with 0 differing pixels out of `width * height` |
| PixelScan.ScanSymmetric | ImageCompare/ContentView.swift:285 | swapping the two images gives the same identical flag and the same counts |
| PixelScan.ScanOnePixelApart | ImageCompare/ContentView.swift:272-288 | images that agree outside pixel `p` and differ inside it have exactly one differing pixel and are not identical |
| PixelScan.BlackAgainstRedCorner | ImageCompare/ContentView.swift:259-291 | a 2x2 opaque black image against the same image with a red pixel (0, 0) scans to `(false, 4, 1)` |
| CompareImages.Compare | ImageCompare/ContentView.swift:195-251 | the identical flag and both counts are the scanner's whatever the filter stages return; a nil difference, exposure, monochrome, blend or bitmap stage leaves the image nil; when all succeed the image is the bitmap of the masked blend over the background cropped to the difference's extent |
| CompareImages.CompareCountsConsistent | ImageCompare/ContentView.swift:203-250 | on every exit path the returned counts satisfy `0 <= different <= total`, "identical" implies no differing pixel, and a non-empty scan with no differing pixel is identical |
| CompareImages.CompareSelf | ImageCompare/ContentView.swift:203-207 | comparing an image with itself reports identical, `width * height` pixels and 0 differing, whether or not a diff image is produced |
| ContentView.ContentView.constructor | ImageCompare/ContentView.swift:78-86 | the initial state: no images, no diff image, counts unset, not identical, no alert; the background is the saved colour when one decodes (as the getter at lines 15-22 does), `.black` otherwise |
| ContentView.ContentView.CompareButton | ImageCompare/ContentView.swift:296-318 | nothing changes unless both images exist and convert to bitmaps; a size mismatch only sets `showSizeAlert`; otherwise the diff image, the flag and both counts all come from one comparison and the alert is left alone; the counts invariant is preserved |
| ContentView.ContentView.SetBackgroundColor | ImageCompare/ContentView.swift:160-162 | the new colour is stored; a change of colour sets the diff image to nil; no other field changes |

## Left out

- The Core Image filter chain (`CIDifferenceBlendMode`, `CIExposureAdjust` at 4 EV, `CIPhotoEffectMono`, `CIBlendWithMask`, `createCGImage`). These are foreign floating-point colour operations. Each is an uninterpreted, fallible stage in `Filters`. So the model does not prove that comparing an image with itself gives a solid background image.
- `CIContext.render` into the two bitmaps is foreign colour conversion. An image's rendered RGBA8 buffer is an input of the model. The `Raster` type records that the buffer has exactly `width * height * 4` bytes, because the source allocates it at that size before rendering.
- The scanner's buffers are Swift arrays that only the renderer writes. The model reads them as immutable sequences.
- `CIImage.extent` is a floating-point rectangle truncated by `Int(...)`. The model takes an integer origin and a natural width and height, so infinite or fractional extents are not modelled.
- Swift's trap on `Int` overflow of `width * height` is not modelled, because integers are unbounded here.
- `NSImage.cgImage(forProposedRect:)` is foreign. Its result is the `bitmap` field of `LoadedImage`, nil when the conversion fails.
- `NSColor(backgroundColor).getRed(...)` is foreign. The colour is modelled directly as its four components.
- `updateSharedImageSize` and the `onChange(of: image1/image2)` handlers are display-only floating-point layout, so they are not modelled.
- `AppStorageColor` is persistence through keyed archiving and base64, a platform API. Decoding the saved colour is foreign: the constructor takes its outcome as an `Option<Color>`, and the colour is then a plain field. Writing a new colour back to storage is not modelled.
- The focused-value keys, the view bodies, the alert text and `withAnimation` are UI routing and layout, so they are not modelled.
- Loading and clearing images (drag and drop, the file importer, menu commands) lives in files that handle GUI and file I/O. That code is not part of this model. `image1` and `image2` are fields that no method here sets.
