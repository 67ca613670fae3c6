/**
  The exact pixel-difference scanner of the content view (`areImagesIdentical`):
  two images with equal extents, each rendered to an RGBA8 byte buffer of
  `width * height * 4` bytes, are compared pixel by pixel, and the pixels whose
  R, G, B or A byte differ are counted.
 */
module PixelScan {

  /** The integer rectangle `CIImage.extent`: an origin and a size in pixels. */
  datatype Extent = Extent(x: int, y: int, width: nat, height: nat)

  /** `Int(extent.width) * Int(extent.height)`. */
  function PixelCount(e: Extent): nat {
    e.width * e.height
  }

  /** An image together with its RGBA8 rendering over its own extent, row by row,
      four bytes (R, G, B, A) per pixel. */
  datatype Image = Image(extent: Extent, rgba: seq<bv8>)

  /** The renderer writes into a buffer allocated with exactly
      `totalPixels * 4` bytes, so a rendered image always has that many. */
  type Raster = img: Image | |img.rgba| == PixelCount(img.extent) * 4
    witness Image(Extent(0, 0, 0, 0), [])

  /** The tuple `(areIdentical, totalPixels, differentPixels)`. */
  datatype ScanResult = ScanResult(identical: bool, totalPixels: int, differentPixels: int)

  /** Pixel `i` differs when any of its four channel bytes differs. */
  predicate PixelDiffers(a: seq<bv8>, b: seq<bv8>, i: nat)
    requires 4 * i + 3 < |a| && 4 * i + 3 < |b|
  {
    a[4 * i] != b[4 * i] || a[4 * i + 1] != b[4 * i + 1] ||
    a[4 * i + 2] != b[4 * i + 2] || a[4 * i + 3] != b[4 * i + 3]
  }

  /** The number of differing pixels among the first `n`. */
  function DifferingCount(a: seq<bv8>, b: seq<bv8>, n: nat): (c: nat)
    requires 4 * n <= |a| && 4 * n <= |b|
    ensures c <= n
    ensures c == 0 <==> forall i :: 0 <= i < n ==> !PixelDiffers(a, b, i)
  {
    if n == 0 then 0
    else DifferingCount(a, b, n - 1) + (if PixelDiffers(a, b, n - 1) then 1 else 0)
  }

  /** The indices of the differing pixels among the first `n`. */
  ghost function DifferingPixels(a: seq<bv8>, b: seq<bv8>, n: nat): set<nat>
    requires 4 * n <= |a| && 4 * n <= |b|
  {
    set i: nat | i < n && PixelDiffers(a, b, i)
  }

  /** The count is the number of pixel indices whose four channel bytes differ. */
  lemma {:induction false} DifferingCountIsCardinality(a: seq<bv8>, b: seq<bv8>, n: nat)
    requires 4 * n <= |a| && 4 * n <= |b|
    ensures DifferingCount(a, b, n) == |DifferingPixels(a, b, n)|
  {
    if n == 0 {
      assert DifferingPixels(a, b, 0) == {};
    } else {
      DifferingCountIsCardinality(a, b, n - 1);
      var before := DifferingPixels(a, b, n - 1);
      if PixelDiffers(a, b, n - 1) {
        assert DifferingPixels(a, b, n) == before + {n - 1};
        assert n - 1 !in before;
      } else {
        assert DifferingPixels(a, b, n) == before;
      }
    }
  }

  /** Comparing `b` against `a` counts the same pixels as `a` against `b`. */
  lemma {:induction false} DifferingCountSymmetric(a: seq<bv8>, b: seq<bv8>, n: nat)
    requires 4 * n <= |a| && 4 * n <= |b|
    ensures DifferingCount(a, b, n) == DifferingCount(b, a, n)
  {
    if n > 0 {
      DifferingCountSymmetric(a, b, n - 1);
    }
  }

  /** Two buffers of `n` pixels are byte-equal exactly when no pixel differs. */
  lemma SameBytesIffNoPixelDiffers(a: seq<bv8>, b: seq<bv8>, n: nat)
    requires |a| == 4 * n && |b| == 4 * n
    ensures a == b <==> forall i :: 0 <= i < n ==> !PixelDiffers(a, b, i)
  {
    if forall i :: 0 <= i < n ==> !PixelDiffers(a, b, i) {
      forall j | 0 <= j < |a|
        ensures a[j] == b[j]
      {
        var i := j / 4;
        assert 4 * i <= j < 4 * i + 4;
        assert !PixelDiffers(a, b, i);
      }
    }
  }

  /** What the scanner returns: the degenerate `(false, 0, 0)` when the extents
      differ, otherwise the pixel count of the extent, the number of differing
      pixels, and whether that number is zero. On a mismatch no pixel byte
      is read, so the result is the same whatever the buffers hold. */
  function Scan(image1: Raster, image2: Raster): (r: ScanResult)
    ensures 0 <= r.differentPixels <= r.totalPixels
    ensures image1.extent != image2.extent ==> r == ScanResult(false, 0, 0)
    ensures image1.extent == image2.extent ==>
      r.totalPixels == PixelCount(image1.extent) &&
      (r.identical <==> image1.rgba == image2.rgba)
    ensures r.identical <==> image1.extent == image2.extent && r.differentPixels == 0
  {
    if image1.extent != image2.extent then ScanResult(false, 0, 0)
    else
      var totalPixels := PixelCount(image1.extent);
      var differentPixels := DifferingCount(image1.rgba, image2.rgba, totalPixels);
      SameBytesIffNoPixelDiffers(image1.rgba, image2.rgba, totalPixels);
      ScanResult(differentPixels == 0, totalPixels, differentPixels)
  }

  /** The scan loop: one pass over every pixel index, incrementing the
      counter on any channel mismatch, with no early exit. */
  method AreImagesIdentical(image1: Raster, image2: Raster)
    returns (identical: bool, totalPixels: int, differentPixels: int)
    ensures ScanResult(identical, totalPixels, differentPixels) == Scan(image1, image2)
    ensures image1.extent != image2.extent ==>
      !identical && totalPixels == 0 && differentPixels == 0
    ensures image1.extent == image2.extent ==>
      totalPixels == PixelCount(image1.extent) &&
      differentPixels == |DifferingPixels(image1.rgba, image2.rgba, totalPixels)| &&
      (identical <==> differentPixels == 0)
  {
    if image1.extent != image2.extent {
      return false, 0, 0;
    }
    var extent := image1.extent;
    var width := extent.width;
    var height := extent.height;
    totalPixels := width * height;

    var bitmap1 := image1.rgba;
    var bitmap2 := image2.rgba;

    differentPixels := 0;
    for pixelIndex := 0 to totalPixels
      invariant differentPixels == DifferingCount(bitmap1, bitmap2, pixelIndex)
    {
      var baseIndex := pixelIndex * 4;
      var r1 := bitmap1[baseIndex];
      var g1 := bitmap1[baseIndex + 1];
      var b1 := bitmap1[baseIndex + 2];
      var a1 := bitmap1[baseIndex + 3];

      var r2 := bitmap2[baseIndex];
      var g2 := bitmap2[baseIndex + 1];
      var b2 := bitmap2[baseIndex + 2];
      var a2 := bitmap2[baseIndex + 3];

      if r1 != r2 || g1 != g2 || b1 != b2 || a1 != a2 {
        differentPixels := differentPixels + 1;
      }
    }

    identical := differentPixels == 0;
    DifferingCountIsCardinality(bitmap1, bitmap2, totalPixels);
  }

  /** Scanning an image against itself finds it identical and no differing pixel. */
  lemma ScanReflexive(image: Raster)
    ensures Scan(image, image) == ScanResult(true, PixelCount(image.extent), 0)
  {
  }

  /** Swapping the two images changes nothing in the result. */
  lemma ScanSymmetric(image1: Raster, image2: Raster)
    ensures Scan(image1, image2) == Scan(image2, image1)
  {
    if image1.extent == image2.extent {
      DifferingCountSymmetric(image1.rgba, image2.rgba, PixelCount(image1.extent));
    }
  }

  /** Two images that agree on every byte outside pixel `p` and differ somewhere
      inside it have exactly one differing pixel. */
  lemma ScanOnePixelApart(image1: Raster, image2: Raster, p: nat)
    requires image1.extent == image2.extent && p < PixelCount(image1.extent)
    requires forall j :: 0 <= j < |image1.rgba| && j / 4 != p ==> image1.rgba[j] == image2.rgba[j]
    requires image1.rgba[4 * p..4 * p + 4] != image2.rgba[4 * p..4 * p + 4]
    ensures Scan(image1, image2) == ScanResult(false, PixelCount(image1.extent), 1)
  {
    var a, b, n := image1.rgba, image2.rgba, PixelCount(image1.extent);
    assert PixelDiffers(a, b, p);
    forall i: nat | i < n && i != p
      ensures !PixelDiffers(a, b, i)
    {
      assert (4 * i) / 4 == i && (4 * i + 1) / 4 == i;
      assert (4 * i + 2) / 4 == i && (4 * i + 3) / 4 == i;
    }
    assert DifferingPixels(a, b, n) == {p};
    DifferingCountIsCardinality(a, b, n);
  }

  /** A 2x2 opaque black image against the same image with pixel (0, 0)
      opaque red: four pixels, one of them different, not identical. */
  lemma BlackAgainstRedCorner()
    ensures var black: seq<bv8> := [0, 0, 0, 255];
            var red: seq<bv8> := [255, 0, 0, 255];
            var e := Extent(0, 0, 2, 2);
            Scan(Image(e, black + black + black + black), Image(e, red + black + black + black))
              == ScanResult(false, 4, 1)
  {
    var black: seq<bv8> := [0, 0, 0, 255];
    var red: seq<bv8> := [255, 0, 0, 255];
    var e := Extent(0, 0, 2, 2);
    var image1 := Image(e, black + black + black + black);
    var image2 := Image(e, red + black + black + black);
    assert image1.rgba[0..4] == black && image2.rgba[0..4] == red;
    ScanOnePixelApart(image1, image2, 0);
  }
}
