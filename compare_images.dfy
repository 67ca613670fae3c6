/**
  The result assembly of `compareImages`: the exact scan always runs and its
  counts are returned on every exit, while the diff image comes out of a chain
  of Core Image stages, each of which may yield nothing. The stages are foreign
  floating-point colour operations and are kept opaque: a `Filters` value says
  what each stage returns, and nothing here interprets it.
 */
module CompareImages {
  import opened Wrappers
  import opened PixelScan

  /** The background colour, as the components `getRed(_:green:blue:alpha:)` yields. */
  datatype Color = Color(red: real, green: real, blue: real, alpha: real)

  /** The exposure adjustment applied to the raw difference, in stops. */
  const ExposureEV: real := 4.0

  /** The opaque stages; `None` is a stage whose filter or output image is nil. */
  datatype Filters = Filters(
    differenceBlend: (Image, Image) -> Option<Image>,   // CIDifferenceBlendMode
    exposureAdjust: (Image, real) -> Option<Image>,     // CIExposureAdjust
    constantColor: (Color, Extent) -> Image,            // CIImage(color:) cropped to an extent
    photoEffectMono: Image -> Option<Image>,            // CIPhotoEffectMono
    blendWithMask: (Image, Image, Image) -> Option<Image>, // CIBlendWithMask(input, background, mask)
    createImage: (Image, Extent) -> Option<Image>       // createCGImage, wrapped in an NSImage
  )

  /** The four-field tuple `(image, areIdentical, totalPixels, differentPixels)`. */
  datatype Comparison = Comparison(
    image: Option<Image>, areIdentical: bool, totalPixels: int, differentPixels: int)

  /** Scans the two images and builds the diff image: difference, amplified by
      `ExposureEV`, shown through its own monochrome version as a mask over a
      solid `backgroundColor` cropped to the difference's extent. */
  function Compare(image1: Raster, image2: Raster, backgroundColor: Color, f: Filters): (r: Comparison)
    // the counts are the scanner's, whatever the stages do
    ensures r.areIdentical == Scan(image1, image2).identical
    ensures r.totalPixels == Scan(image1, image2).totalPixels
    ensures r.differentPixels == Scan(image1, image2).differentPixels
    // any stage that fails leaves the image nil
    ensures f.differenceBlend(image1, image2).None? ==> r.image.None?
    ensures f.differenceBlend(image1, image2).Some? ==>
      var difference := f.differenceBlend(image1, image2).value;
      var amplified := f.exposureAdjust(difference, ExposureEV);
      (amplified.None? ==> r.image.None?) &&
      (amplified.Some? ==>
        var mask := f.photoEffectMono(amplified.value);
        (mask.None? ==> r.image.None?) &&
        (mask.Some? ==>
          var background := f.constantColor(backgroundColor, difference.extent);
          var blended := f.blendWithMask(amplified.value, background, mask.value);
          (blended.None? ==> r.image.None?) &&
          (blended.Some? ==> r.image == f.createImage(blended.value, difference.extent))))
  {
    var scan := Scan(image1, image2);
    var diffImage :=
      match f.differenceBlend(image1, image2)
      case None => None
      case Some(outputImage) =>
        var extent := outputImage.extent;
        match f.exposureAdjust(outputImage, ExposureEV)
        case None => None
        case Some(amplifiedDiff) =>
          var colorBackground := f.constantColor(backgroundColor, extent);
          match f.photoEffectMono(amplifiedDiff)
          case None => None
          case Some(grayscaleMask) =>
            match f.blendWithMask(amplifiedDiff, colorBackground, grayscaleMask)
            case None => None
            case Some(finalImage) => f.createImage(finalImage, extent);
    Comparison(diffImage, scan.identical, scan.totalPixels, scan.differentPixels)
  }

  /** Counts that can be shown together: never more differing pixels than
      pixels, "identical" only with no differing pixel, and a non-empty scan
      with no differing pixel is identical. */
  predicate ConsistentCounts(areIdentical: bool, totalPixels: int, differentPixels: int) {
    0 <= differentPixels <= totalPixels &&
    (areIdentical ==> differentPixels == 0) &&
    (differentPixels == 0 && 0 < totalPixels ==> areIdentical)
  }

  /** Every comparison, whether or not a diff image came out, has consistent counts. */
  lemma CompareCountsConsistent(image1: Raster, image2: Raster, backgroundColor: Color, f: Filters)
    ensures var r := Compare(image1, image2, backgroundColor, f);
            ConsistentCounts(r.areIdentical, r.totalPixels, r.differentPixels)
  {
  }

  /** Comparing an image with itself reports it identical, whatever the stages do. */
  lemma CompareSelf(image: Raster, backgroundColor: Color, f: Filters)
    ensures var r := Compare(image, image, backgroundColor, f);
            r.areIdentical && r.totalPixels == PixelCount(image.extent) && r.differentPixels == 0
  {
  }
}
