/**
 * generatePDF: one page per picked image, in list order. Each image is
 * decoded, turned by its rotation, and either drawn centred inside a 10 mm
 * margin on an A4 or Letter page, or given a page of exactly its own size
 * ('fit'). The document is handed to the download sink only when every
 * image decoded; any failure rejects the whole run.
 */
module PdfGenerator {
  import opened Geometry
  import opened Raster
  import opened ItemList
  import opened JsPdf

  /** The page-size setting: 'a4', 'letter' or 'fit'. */
  datatype Format = A4 | Letter | Fit

  /** The format jsPDF is opened with: 'fit' opens an A4 document. */
  function PaperWidth(format: Format): real
  {
    match format
    case Letter => 215.9
    case _ => 210.0
  }

  function PaperHeight(format: Format): real
  {
    match format
    case Letter => 279.4
    case _ => 297.0
  }

  /** What the browser made of one file: its pixel size, or a failure (FileReader or Image error). */
  datatype DecodeResult = DecodeFailed | Loaded(size: PixelSize)

  /** Outcome of a run: the document handed to save(), or a rejected promise. */
  datatype Outcome = Saved(pages: seq<Page>) | Failed

  /** The code divides by the image height; the model demands non-empty images. */
  predicate PositiveSizes(sizes: seq<DecodeResult>)
  {
    forall k :: 0 <= k < |sizes| && sizes[k].Loaded? ==> sizes[k].size.width > 0 && sizes[k].size.height > 0
  }

  predicate AllLoaded(sizes: seq<DecodeResult>)
  {
    forall k :: 0 <= k < |sizes| ==> sizes[k].Loaded?
  }

  /** The image placed on an item's page: the decoded file, turned by the item's rotation. */
  function PageImage(item: Item, size: PixelSize): Image
  {
    RotatedImage(Image(size.width, size.height, Decoded(item.file)), item.rotation)
  }

  /** 'fit': a page of the image's own size in millimetres, fully covered by the image. */
  function FitPage(img: Image): Page
  {
    var widthMm := PxToMm(img.width as real);
    var heightMm := PxToMm(img.height as real);
    Page(widthMm, heightMm, OrientationOf(widthMm, heightMm), [Placement(img, Rect(0.0, 0.0, widthMm, heightMm))])
  }

  /** A4 or Letter: a portrait page of the paper size with the image fitted inside the margins. */
  function FixedPage(paperWidth: real, paperHeight: real, img: Image): Page
    requires RoomyPage(paperWidth, paperHeight)
    requires img.width > 0 && img.height > 0
  {
    Page(paperWidth, paperHeight, Portrait,
         [Placement(img, FitWithinMargins(paperWidth, paperHeight, img.width as real, img.height as real))])
  }

  function PlannedPage(format: Format, img: Image): Page
    requires img.width > 0 && img.height > 0
  {
    if format == Fit then FitPage(img) else FixedPage(PaperWidth(format), PaperHeight(format), img)
  }

  /** The pages of the first n images, in order. */
  function Planned(images: seq<Item>, sizes: seq<DecodeResult>, format: Format, n: nat): (pages: seq<Page>)
    requires n <= |images| == |sizes| && PositiveSizes(sizes)
    requires forall k :: 0 <= k < n ==> sizes[k].Loaded?
    ensures |pages| == n
    ensures forall k :: 0 <= k < n ==> pages[k] == PlannedPage(format, PageImage(images[k], sizes[k].size))
  {
    if n == 0 then []
    else
      var size := sizes[n - 1].size;
      Planned(images, sizes, format, n - 1) + [PlannedPage(format, PageImage(images[n - 1], size))]
  }

  /**
   * The document a run produces: nothing when some file fails to decode;
   * otherwise the planned pages. With no images at all, a fixed format keeps
   * jsPDF's initial blank page and 'fit' has none.
   */
  function ExpectedOutcome(images: seq<Item>, sizes: seq<DecodeResult>, format: Format): (outcome: Outcome)
    requires |images| == |sizes| && PositiveSizes(sizes)
    ensures outcome.Failed? <==> exists k :: 0 <= k < |sizes| && sizes[k].DecodeFailed?
    ensures outcome.Saved? && |images| > 0 ==> |outcome.pages| == |images|
  {
    if !AllLoaded(sizes) then Failed
    else if format != Fit && |images| == 0 then Saved([Page(PaperWidth(format), PaperHeight(format), Portrait, [])])
    else Saved(Planned(images, sizes, format, |images|))
  }

  /** The 'fit' step for one image: a page of the image's size, covered by the image. */
  method AddFittedPage(doc: Doc, img: Image)
    modifies doc
    ensures doc.pages == old(doc.pages) + [FitPage(img)]
  {
    var widthMm := PxToMm(img.width as real);
    var heightMm := PxToMm(img.height as real);
    doc.AddSizedPage(widthMm, heightMm, if widthMm > heightMm then Landscape else Portrait);
    ghost var blank := Page(widthMm, heightMm, OrientationOf(widthMm, heightMm), []);
    assert doc.pages == old(doc.pages) + [blank];
    doc.AddImage(img, 0.0, 0.0, widthMm, heightMm);
    assert (old(doc.pages) + [blank])[..|old(doc.pages)|] == old(doc.pages);
    assert blank.WithImage(Placement(img, Rect(0.0, 0.0, widthMm, heightMm))) == FitPage(img);
  }

  /**
   * The A4/Letter step for one image, on the blank current page: scale it to
   * the area inside the margins, keeping its proportions, and centre it.
   */
  method DrawCentred(doc: Doc, img: Image)
    requires img.width > 0 && img.height > 0
    requires RoomyPage(doc.formatWidth, doc.formatHeight)
    requires doc.pages != [] && doc.pages[|doc.pages| - 1] == doc.DefaultPage()
    modifies doc
    ensures doc.pages == old(doc.pages[..|doc.pages| - 1]) + [FixedPage(doc.formatWidth, doc.formatHeight, img)]
  {
    var pageWidth := doc.CurrentPageWidth();
    var pageHeight := doc.CurrentPageHeight();
    var r := FitWithinMargins(pageWidth, pageHeight, img.width as real, img.height as real);
    doc.AddImage(img, r.x, r.y, r.width, r.height);
    assert doc.DefaultPage().WithImage(Placement(img, r)) == FixedPage(doc.formatWidth, doc.formatHeight, img);
  }

  /**
   * The page step of the loop for one turned image: with 'fit' a new page of
   * the image's size; otherwise the first image goes on the document's
   * initial page and every later one on a newly added page.
   */
  method AddImagePage(doc: Doc, format: Format, img: Image, first: bool)
    requires img.width > 0 && img.height > 0
    requires doc.formatWidth == PaperWidth(format) && doc.formatHeight == PaperHeight(format)
    requires format != Fit && first ==> doc.pages == [doc.DefaultPage()]
    modifies doc
    ensures format != Fit && first ==> doc.pages == [PlannedPage(format, img)]
    ensures !(format != Fit && first) ==> doc.pages == old(doc.pages) + [PlannedPage(format, img)]
  {
    if format == Fit {
      AddFittedPage(doc, img);
    } else {
      if !first {
        doc.AddPage();
      }
      DrawCentred(doc, img);
    }
  }

  /**
   * generatePDF(images, settings): opens the document, drops its first page
   * for 'fit', and for each image in order decodes it, turns it, and puts it
   * on its page; at the end the document is saved. A decoding failure
   * rejects the run before anything is saved.
   */
  method GeneratePdf(images: seq<Item>, sizes: seq<DecodeResult>, format: Format) returns (outcome: Outcome)
    requires |images| == |sizes| && PositiveSizes(sizes)
    ensures outcome == ExpectedOutcome(images, sizes, format)
  {
    var doc := new Doc(PaperWidth(format), PaperHeight(format));
    if format == Fit {
      doc.DeletePage(1);
    }
    for i := 0 to |images|
      invariant forall k :: 0 <= k < i ==> sizes[k].Loaded?
      invariant doc.formatWidth == PaperWidth(format) && doc.formatHeight == PaperHeight(format)
      invariant doc.pages == (if format != Fit && i == 0 then [doc.DefaultPage()] else [])
                             + Planned(images, sizes, format, i)
    {
      if sizes[i].DecodeFailed? {
        assert !AllLoaded(sizes);
        return Failed;
      }
      var source := Image(sizes[i].size.width, sizes[i].size.height, Decoded(images[i].file));
      var rotated := GetRotatedImage(source, images[i].rotation);
      assert rotated == PageImage(images[i], sizes[i].size);
      assert Planned(images, sizes, format, i + 1)
          == Planned(images, sizes, format, i) + [PlannedPage(format, rotated)];
      AddImagePage(doc, format, rotated, i == 0);
    }
    assert AllLoaded(sizes);
    outcome := Saved(doc.pages);
  }

  // ---------------------------------------------------------------------
  // Properties of the document a run produces

  /**
   * Page order is list order: when a run over a non-empty list succeeds,
   * page k shows exactly one image, image k turned by its rotation.
   */
  lemma PageShowsItsImage(images: seq<Item>, sizes: seq<DecodeResult>, format: Format, k: nat)
    requires |images| == |sizes| && PositiveSizes(sizes)
    requires ExpectedOutcome(images, sizes, format).Saved? && k < |images|
    ensures var page := ExpectedOutcome(images, sizes, format).pages[k];
            |page.drawn| == 1 && page.drawn[0].image == PageImage(images[k], sizes[k].size)
  {
    RotatedSize(Image(sizes[k].size.width, sizes[k].size.height, Decoded(images[k].file)), images[k].rotation);
  }

  /** With no images, 'fit' saves no page at all and A4/Letter save one blank page. */
  lemma EmptyDocument(format: Format)
    ensures ExpectedOutcome([], [], format) ==
              if format == Fit then Saved([]) else Saved([Page(PaperWidth(format), PaperHeight(format), Portrait, [])])
  {
  }

  /**
   * A page planned for A4 or Letter has the paper's size and portrait
   * orientation, and its one image keeps its proportions, stays inside the
   * 10 mm margins and is centred.
   */
  lemma FixedPageInsideMargins(paperWidth: real, paperHeight: real, img: Image)
    requires RoomyPage(paperWidth, paperHeight)
    requires img.width > 0 && img.height > 0
    ensures var page := FixedPage(paperWidth, paperHeight, img);
            var r := page.drawn[0].at;
            && page.width == paperWidth && page.height == paperHeight && page.orientation == Portrait
            && page.drawn == [Placement(img, r)]
            && r.width * (img.height as real) == r.height * (img.width as real)
            && Margin <= r.x && r.x + r.width <= paperWidth - Margin
            && Margin <= r.y && r.y + r.height <= paperHeight - Margin
            && 2.0 * r.x + r.width == paperWidth && 2.0 * r.y + r.height == paperHeight
  {
    var r := FitWithinMargins(paperWidth, paperHeight, img.width as real, img.height as real);
    assert FixedPage(paperWidth, paperHeight, img).drawn == [Placement(img, r)];
  }

  /** On A4 or Letter, page k of a saved document is the fixed page of image k. */
  lemma FixedPageLayout(images: seq<Item>, sizes: seq<DecodeResult>, format: Format, k: nat)
    requires |images| == |sizes| && PositiveSizes(sizes)
    requires format != Fit && ExpectedOutcome(images, sizes, format).Saved? && k < |images|
    ensures PageImage(images[k], sizes[k].size).width > 0 && PageImage(images[k], sizes[k].size).height > 0
    ensures ExpectedOutcome(images, sizes, format).pages[k]
         == FixedPage(PaperWidth(format), PaperHeight(format), PageImage(images[k], sizes[k].size))
  {
    assert AllLoaded(sizes);
    RotatedSize(Image(sizes[k].size.width, sizes[k].size.height, Decoded(images[k].file)), images[k].rotation);
  }

  /**
   * With 'fit' every page is the turned image's size in millimetres, landscape
   * exactly when it is wider than high, and the image covers it from (0, 0).
   */
  lemma FitPageLayout(images: seq<Item>, sizes: seq<DecodeResult>, k: nat)
    requires |images| == |sizes| && PositiveSizes(sizes)
    requires ExpectedOutcome(images, sizes, Fit).Saved? && k < |images|
    ensures var page := ExpectedOutcome(images, sizes, Fit).pages[k];
            var img := PageImage(images[k], sizes[k].size);
            && page.width == PxToMm(img.width as real) && page.height == PxToMm(img.height as real)
            && (page.orientation == Landscape <==> page.width > page.height)
            && page.drawn == [Placement(img, Rect(0.0, 0.0, page.width, page.height))]
  {
    RotatedSize(Image(sizes[k].size.width, sizes[k].size.height, Decoded(images[k].file)), images[k].rotation);
  }

  /** The image on an item's page has the decoded size, sides swapped for 90 and 270 degrees. */
  lemma PageImageSize(item: Item, size: PixelSize)
    requires ValidRotation(item.rotation)
    ensures item.rotation == 90 || item.rotation == 270 ==>
              PageImage(item, size).width == size.height && PageImage(item, size).height == size.width
    ensures item.rotation == 0 || item.rotation == 180 ==>
              PageImage(item, size).width == size.width && PageImage(item, size).height == size.height
  {
    RotatedSize(Image(size.width, size.height, Decoded(item.file)), item.rotation);
  }

  /** A 1000 x 500 px image with 'fit' gets a landscape page of 264.583 x 132.2915 mm. */
  lemma LandscapeFitPage(c: Content)
    ensures FitPage(Image(1000, 500, c)) ==
              Page(264.583, 132.2915, Landscape, [Placement(Image(1000, 500, c), Rect(0.0, 0.0, 264.583, 132.2915))])
  {
  }
}
