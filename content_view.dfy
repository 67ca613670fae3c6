/**
  The view state the Compare button and the background-colour handler update:
  the two loaded images, the diff image, the counts and the size alert.
 */
module ContentView {
  import opened Wrappers
  import opened PixelScan
  import opened CompareImages

  /** `NSImage.size`, in points. */
  datatype Size = Size(width: real, height: real)

  /** A loaded image: its size in points and what `cgImage(forProposedRect:)`
      turned into a `CIImage` yields (nil when the conversion fails). */
  datatype LoadedImage = LoadedImage(size: Size, bitmap: Option<Raster>)

  /** The default background colour, `.black`, used when no saved colour decodes. */
  const Black := Color(0.0, 0.0, 0.0, 1.0)

  class ContentView {
    var diffImage: Option<Image>
    var image1: Option<LoadedImage>
    var image2: Option<LoadedImage>
    var areIdentical: bool
    var totalPixels: Option<int>
    var differentPixels: Option<int>
    var showSizeAlert: bool
    var backgroundColor: Color

    /** The counts on display are both set or both unset, and when set they
        are consistent with each other and with the "identical" label. */
    ghost predicate Valid()
      reads this
    {
      (totalPixels.Some? <==> differentPixels.Some?) &&
      (totalPixels.None? ==> !areIdentical) &&
      (totalPixels.Some? ==>
        ConsistentCounts(areIdentical, totalPixels.value, differentPixels.value))
    }

    /** `storedColor` is the saved background colour as decoded from storage,
        `None` when nothing is saved or it does not decode. */
    constructor (storedColor: Option<Color>)
      ensures Valid()
      ensures diffImage.None? && image1.None? && image2.None?
      ensures !areIdentical && totalPixels.None? && differentPixels.None?
      ensures !showSizeAlert
      ensures storedColor.Some? ==> backgroundColor == storedColor.value
      ensures storedColor.None? ==> backgroundColor == Black
    {
      diffImage := None;
      image1 := None;
      image2 := None;
      areIdentical := false;
      totalPixels := None;
      differentPixels := None;
      showSizeAlert := false;
      backgroundColor := if storedColor.Some? then storedColor.value else Black;
    }

    /** The Compare button: nothing without two images that convert to bitmaps;
        only the size alert when their sizes differ; otherwise all four result
        fields come from one comparison. */
    method CompareButton(f: Filters)
      requires Valid()
      modifies this
      ensures Valid()
      ensures image1 == old(image1) && image2 == old(image2)
      ensures backgroundColor == old(backgroundColor)
      ensures old(image1).None? || old(image2).None? ||
              old(image1).value.bitmap.None? || old(image2).value.bitmap.None? ==>
        unchanged(this)
      ensures old(image1).Some? && old(image2).Some? &&
              old(image1).value.bitmap.Some? && old(image2).value.bitmap.Some? &&
              old(image1).value.size != old(image2).value.size ==>
        showSizeAlert &&
        diffImage == old(diffImage) && areIdentical == old(areIdentical) &&
        totalPixels == old(totalPixels) && differentPixels == old(differentPixels)
      ensures old(image1).Some? && old(image2).Some? &&
              old(image1).value.bitmap.Some? && old(image2).value.bitmap.Some? &&
              old(image1).value.size == old(image2).value.size ==>
        var r := Compare(old(image1).value.bitmap.value, old(image2).value.bitmap.value,
                         old(backgroundColor), f);
        diffImage == r.image && areIdentical == r.areIdentical &&
        totalPixels == Some(r.totalPixels) && differentPixels == Some(r.differentPixels) &&
        showSizeAlert == old(showSizeAlert)
    {
      if image1.None? || image2.None? {
        return;
      }
      var img1 := image1.value;
      var img2 := image2.value;
      if img1.bitmap.None? || img2.bitmap.None? {
        return;
      }
      var ciImage1 := img1.bitmap.value;
      var ciImage2 := img2.bitmap.value;

      if img1.size != img2.size {
        showSizeAlert := true;
        return;
      }

      var result := Compare(ciImage1, ciImage2, backgroundColor, f);
      diffImage := result.image;
      areIdentical := result.areIdentical;
      totalPixels := Some(result.totalPixels);
      differentPixels := Some(result.differentPixels);
    }

    /** A new background colour; a change of colour discards the diff image. */
    method SetBackgroundColor(color: Color)
      requires Valid()
      modifies this
      ensures Valid()
      ensures backgroundColor == color
      ensures diffImage == if color != old(backgroundColor) then None else old(diffImage)
      ensures image1 == old(image1) && image2 == old(image2)
      ensures areIdentical == old(areIdentical) && showSizeAlert == old(showSizeAlert)
      ensures totalPixels == old(totalPixels) && differentPixels == old(differentPixels)
    {
      if color != backgroundColor {
        backgroundColor := color;
        diffImage := None;
      }
    }
  }
}
