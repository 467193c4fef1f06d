/**
 * Page geometry of the PDF generator: the pixel-to-millimetre conversion,
 * the aspect-preserving fit of an image inside a fixed page with a margin,
 * and the page size used when the page is fitted to the image.
 * All lengths are exact reals; `generatePDF` computes them in doubles.
 */
module Geometry {

  /** Millimetres per pixel as `pxToMm` writes it (not exactly 25.4 / 96). */
  const MmPerPx: real := 0.264583

  /** The margin, in millimetres, kept on every side of a fixed-size page. */
  const Margin: real := 10.0

  datatype Orientation = Portrait | Landscape

  /** A draw rectangle on a page: top-left corner and size, in millimetres. */
  datatype Rect = Rect(x: real, y: real, width: real, height: real)

  /** pxToMm: converts a pixel count to millimetres at its fixed scale of 0.264583 mm per pixel. */
  function PxToMm(px: real): (mm: real)
    ensures px >= 0.0 ==> mm >= 0.0
    ensures px > 0.0 ==> mm > 0.0
  {
    px * MmPerPx
  }

  /** Strictly increasing: a larger pixel count always gives a longer length. */
  lemma PxToMmStrictlyIncreasing(a: real, b: real)
    requires a < b
    ensures PxToMm(a) < PxToMm(b)
  {
    assert PxToMm(b) - PxToMm(a) == (b - a) * MmPerPx;
  }

  /**
   * Compared with the 96 px/inch reference scale (25.4 mm per 96 px), the
   * constant of `pxToMm` falls short by exactly one three-millionth of a
   * millimetre per pixel.
   */
  lemma PxToMmAgainstReferenceScale(px: real)
    ensures PxToMm(px) == px * 25.4 / 96.0 - px / 3000000.0
    ensures px >= 0.0 ==> PxToMm(px) <= px * 25.4 / 96.0
  {
    assert 25.4 / 96.0 - MmPerPx == 1.0 / 3000000.0;
  }

  /** Landscape exactly when the page is wider than it is high ('l' : 'p'). */
  function OrientationOf(width: real, height: real): (o: Orientation)
    ensures o == Landscape <==> width > height
  {
    if width > height then Landscape else Portrait
  }

  /** The area of a fixed page that is left once the margin is taken off. */
  function AvailableWidth(pageWidth: real): real { pageWidth - Margin * 2.0 }
  function AvailableHeight(pageHeight: real): real { pageHeight - Margin * 2.0 }

  /** A page on which the margins leave some room. */
  predicate RoomyPage(pageWidth: real, pageHeight: real)
  {
    pageWidth > 2.0 * Margin && pageHeight > 2.0 * Margin
  }

  /**
   * Whether the image is constrained by the available width: its width /
   * height ratio exceeds that of the available area (not that of the page).
   */
  predicate WidthConstrained(pageWidth: real, pageHeight: real, imgWidth: real, imgHeight: real)
    requires RoomyPage(pageWidth, pageHeight) && imgHeight > 0.0
  {
    imgWidth / imgHeight > AvailableWidth(pageWidth) / AvailableHeight(pageHeight)
  }

  /**
   * The draw rectangle for a fixed-size page: the image scaled so that it
   * fills the available width or the available height, and centred.
   */
  function FitWithinMargins(pageWidth: real, pageHeight: real, imgWidth: real, imgHeight: real): (r: Rect)
    requires RoomyPage(pageWidth, pageHeight)
    requires imgWidth > 0.0 && imgHeight > 0.0
    ensures 0.0 < r.width <= AvailableWidth(pageWidth)
    ensures 0.0 < r.height <= AvailableHeight(pageHeight)
    ensures r.width * imgHeight == r.height * imgWidth
    ensures r.width / r.height == imgWidth / imgHeight
    ensures 2.0 * r.x + r.width == pageWidth && 2.0 * r.y + r.height == pageHeight
    ensures r.x >= Margin && r.y >= Margin
    ensures r.x + r.width <= pageWidth - Margin && r.y + r.height <= pageHeight - Margin
  {
    var size := ScaledSize(AvailableWidth(pageWidth), AvailableHeight(pageHeight), imgWidth, imgHeight);
    ScaledSizeFits(AvailableWidth(pageWidth), AvailableHeight(pageHeight), imgWidth, imgHeight);
    Rect((pageWidth - size.0) / 2.0, (pageHeight - size.1) / 2.0, size.0, size.1)
  }

  /** The width and height the image is drawn at inside the available area. */
  function ScaledSize(availableWidth: real, availableHeight: real, imgWidth: real, imgHeight: real): (real, real)
    requires availableWidth > 0.0 && availableHeight > 0.0
    requires imgWidth > 0.0 && imgHeight > 0.0
  {
    var imgRatio := imgWidth / imgHeight;
    assert imgRatio > 0.0;
    if imgRatio > availableWidth / availableHeight then (availableWidth, availableWidth / imgRatio)
    else (availableHeight * imgRatio, availableHeight)
  }

  /** The scaled size is positive, fits the available area and keeps the image's proportions. */
  lemma ScaledSizeFits(availableWidth: real, availableHeight: real, imgWidth: real, imgHeight: real)
    requires availableWidth > 0.0 && availableHeight > 0.0
    requires imgWidth > 0.0 && imgHeight > 0.0
    ensures var s := ScaledSize(availableWidth, availableHeight, imgWidth, imgHeight);
            && 0.0 < s.0 <= availableWidth && 0.0 < s.1 <= availableHeight
            && s.0 * imgHeight == s.1 * imgWidth
            && s.0 / s.1 == imgWidth / imgHeight
  {
    var s := ScaledSize(availableWidth, availableHeight, imgWidth, imgHeight);
    if imgWidth / imgHeight > availableWidth / availableHeight {
      WidthBranch(availableWidth, availableHeight, imgWidth, imgHeight, s.1);
    } else {
      HeightBranch(availableWidth, availableHeight, imgWidth, imgHeight, s.0);
    }
  }

  lemma WidthBranch(aw: real, ah: real, iw: real, ih: real, h: real)
    requires aw > 0.0 && ah > 0.0 && iw > 0.0 && ih > 0.0
    requires iw / ih > aw / ah && h == aw / (iw / ih)
    ensures 0.0 < h <= ah
    ensures aw * ih == h * iw
    ensures aw / h == iw / ih
  {
    var ratio := iw / ih;
    assert ratio * ih == iw;
    assert aw / ratio == aw * ih / iw;
    assert aw * ih < ah * iw by {
      assert iw / ih * (ah * ih) > aw / ah * (ah * ih);
    }
  }

  lemma HeightBranch(aw: real, ah: real, iw: real, ih: real, w: real)
    requires aw > 0.0 && ah > 0.0 && iw > 0.0 && ih > 0.0
    requires !(iw / ih > aw / ah) && w == ah * (iw / ih)
    ensures 0.0 < w <= aw
    ensures w * ih == ah * iw
    ensures w / ah == iw / ih
  {
    var ratio := iw / ih;
    assert ratio * ih == iw;
    assert ah * ratio <= aw by {
      assert ratio <= aw / ah;
      assert ah * ratio <= ah * (aw / ah);
    }
  }

  /**
   * Exactly one axis constrains the fit: the image spans the whole available
   * width when it is wider (relative to its height) than the available area,
   * and the whole available height otherwise.
   */
  lemma ConstrainingAxis(pageWidth: real, pageHeight: real, imgWidth: real, imgHeight: real)
    requires RoomyPage(pageWidth, pageHeight)
    requires imgWidth > 0.0 && imgHeight > 0.0
    ensures WidthConstrained(pageWidth, pageHeight, imgWidth, imgHeight) ==>
              FitWithinMargins(pageWidth, pageHeight, imgWidth, imgHeight).width == AvailableWidth(pageWidth)
    ensures WidthConstrained(pageWidth, pageHeight, imgWidth, imgHeight) ==>
              FitWithinMargins(pageWidth, pageHeight, imgWidth, imgHeight).height < AvailableHeight(pageHeight)
    ensures !WidthConstrained(pageWidth, pageHeight, imgWidth, imgHeight) ==>
              FitWithinMargins(pageWidth, pageHeight, imgWidth, imgHeight).height == AvailableHeight(pageHeight)
  {
  }

  /**
   * The fit is the largest undistorted rectangle that stays inside the
   * margins: any other rectangle with the image's proportions that fits the
   * available area is no wider and no higher.
   */
  lemma FitIsLargest(pageWidth: real, pageHeight: real, imgWidth: real, imgHeight: real, w: real, h: real)
    requires RoomyPage(pageWidth, pageHeight)
    requires imgWidth > 0.0 && imgHeight > 0.0
    requires w > 0.0 && h > 0.0 && w * imgHeight == h * imgWidth
    requires w <= AvailableWidth(pageWidth) && h <= AvailableHeight(pageHeight)
    ensures w <= FitWithinMargins(pageWidth, pageHeight, imgWidth, imgHeight).width
    ensures h <= FitWithinMargins(pageWidth, pageHeight, imgWidth, imgHeight).height
  {
    var r := FitWithinMargins(pageWidth, pageHeight, imgWidth, imgHeight);
    ConstrainingAxis(pageWidth, pageHeight, imgWidth, imgHeight);
    // Two rectangles of the same proportions: one side ordered orders the other.
    assert r.width * imgHeight == r.height * imgWidth;
    if WidthConstrained(pageWidth, pageHeight, imgWidth, imgHeight) {
      assert w <= r.width;
      assert h * imgWidth <= r.height * imgWidth by {
        assert w * imgHeight <= r.width * imgHeight;
      }
    } else {
      assert h <= r.height;
      assert w * imgHeight <= r.width * imgHeight by {
        assert h * imgWidth <= r.height * imgWidth;
      }
    }
  }

  /** A 2000 x 1000 px image on an A4 page is drawn 190 x 95 mm at (10, 101). */
  lemma LandscapeImageOnA4()
    ensures FitWithinMargins(210.0, 297.0, 2000.0, 1000.0) == Rect(10.0, 101.0, 190.0, 95.0)
  {
    ConstrainingAxis(210.0, 297.0, 2000.0, 1000.0);
  }
}
