/**
 * The part of a jsPDF document the generator relies on, as a sequence of
 * page records: a new document opens with one blank page of its format,
 * pages can be deleted or appended, and an image is drawn on the current
 * page. In the generator the current page is always the last one, since
 * pages are only ever appended after the first deletion; that is how it is
 * modelled here.
 */
module JsPdf {
  import opened Geometry
  import opened Raster

  /** An image drawn on a page inside a rectangle (millimetres). */
  datatype Placement = Placement(image: Image, at: Rect)

  datatype Page = Page(width: real, height: real, orientation: Orientation, drawn: seq<Placement>)
  {
    /** The page with one more image drawn on top of what it shows. */
    function WithImage(p: Placement): Page
    {
      this.(drawn := drawn + [p])
    }
  }

  class Doc {
    /** Page size of the document's format, in millimetres, portrait. */
    const formatWidth: real
    const formatHeight: real
    var pages: seq<Page>

    /** The blank page `addPage()` appends when given no size. */
    function DefaultPage(): Page
    {
      Page(formatWidth, formatHeight, Portrait, [])
    }

    /** new jsPDF({ orientation: 'p', unit: 'mm', format }): one blank page. */
    constructor (formatWidth: real, formatHeight: real)
      ensures this.formatWidth == formatWidth && this.formatHeight == formatHeight
      ensures pages == [DefaultPage()]
    {
      this.formatWidth, this.formatHeight := formatWidth, formatHeight;
      pages := [Page(formatWidth, formatHeight, Portrait, [])];
    }

    /** deletePage(n), pages numbered from 1. */
    method DeletePage(n: nat)
      requires 1 <= n <= |pages|
      modifies this
      ensures pages == old(pages[..n - 1] + pages[n..])
    {
      pages := pages[..n - 1] + pages[n..];
    }

    /** addPage(): a blank page of the document's format. */
    method AddPage()
      modifies this
      ensures pages == old(pages) + [DefaultPage()]
    {
      pages := pages + [DefaultPage()];
    }

    /** addPage([width, height], orientation): a blank page of the given size. */
    method AddSizedPage(width: real, height: real, orientation: Orientation)
      modifies this
      ensures pages == old(pages) + [Page(width, height, orientation, [])]
    {
      pages := pages + [Page(width, height, orientation, [])];
    }

    /** internal.pageSize: the size of the current page. */
    function CurrentPageWidth(): real
      reads this
      requires pages != []
    {
      pages[|pages| - 1].width
    }

    function CurrentPageHeight(): real
      reads this
      requires pages != []
    {
      pages[|pages| - 1].height
    }

    /** addImage(image, 'JPEG', x, y, width, height) on the current page. */
    method AddImage(image: Image, x: real, y: real, width: real, height: real)
      requires pages != []
      modifies this
      ensures pages == old(pages[..|pages| - 1] + [pages[|pages| - 1].WithImage(Placement(image, Rect(x, y, width, height)))])
    {
      pages := pages[..|pages| - 1] + [pages[|pages| - 1].WithImage(Placement(image, Rect(x, y, width, height)))];
    }
  }
}
