# image-to-pdf: a verified model of the page-composition engine and the item list

The application turns an ordered list of user-picked images into one PDF.
Each image can be turned in steps of 90 degrees, and the pages are either
A4/Letter, with the image scaled into a 10 mm margin and centred, or sized
to the image itself ("Fit to Image"). This project models two parts of it
in Dafny:

- **The PDF generator** (`src/utils/pdfGenerator.js`):
  - `pxToMm`;
  - the size rule of `getRotatedImage`, on a canvas whose width and height it sets;
  - the page geometry of `generatePDF`;
  - its loop, which builds a jsPDF document page by page and saves it.
- **The application state** (`src/App.jsx`): the item list and the pure
  updaters that the event handlers pass to `setItems`. These are drop,
  remove, rotate, drag-to-reorder and clear. Also modelled: the page-size
  setting and the `isGenerating` flag around a generation run.

Files:

| file | module | what |
|---|---|---|
| geometry.dfy | `Geometry` | millimetre conversion, margins, aspect-preserving centred fit, orientation |
| raster.dfy | `Raster` | images as size plus abstract content, the rotation rule, the scratch canvas |
| items.dfy | `ItemList` | the item record and the `setItems` updaters (`filter`, `map`, `findIndex`, `arrayMove`) |
| jspdf.dfy | `JsPdf` | the jsPDF document as a class holding a sequence of page records |
| pdf_generator.dfy | `PdfGenerator` | the page planned for each image, the document a run produces, the generation loop |
| app.dfy | `App` | the `Session` class: one method per event handler |

Design:

- Lengths are exact `real`s. The constant 0.264583 mm/px is exact in `real`.
- jsPDF is opened with `format: 'a4'` for 'fit', so its page sizes appear as two constants: A4 = 210 × 297 mm and Letter = 215.9 × 279.4 mm.
- What the generator computes is stated once, as the function `ExpectedOutcome`. The method `GeneratePdf` runs the code's loop over a `Doc` object and is proved to produce exactly that outcome.
- The lemmas about `ExpectedOutcome` carry the promises:
  - one page per image, in list order;
  - image inside the margins, undistorted and centred;
  - exact page size under 'fit'.
- `Session` keeps the invariant `Valid()`: every rotation is in {0, 90, 180, 270}, and no generation is running between handlers. Every handler preserves it.

Behaviour of the code that the model keeps as written:

- Millimetres use 0.264583 mm/px. Against 96 px per inch (25.4/96 mm/px), `PxToMmAgainstReferenceScale` proves the shortfall is exactly px/3000000 mm.
- The generator does not reject zero-size images or rotations outside {0, 90, 180, 270}.
  - A zero height makes the code divide by zero. Positive sizes are therefore a precondition, not an error result.
  - Any integer rotation is accepted. The size rule applies to it as written.
- The generator does not reject an empty list. With A4/Letter it would save jsPDF's initial blank page. With 'fit' it would save a document with no page. Only `handleGeneratePDF` guards against the empty list.
- A decoding failure rejects the whole run, and nothing is saved. The rejection carries no item index.

## Model

| member | source | states |
|---|---|---|
| `Geometry.PxToMm` | src/utils/pdfGenerator.js:78-80 | a non-negative pixel count gives a non-negative length, and a positive count gives a positive length |
| `Geometry.PxToMmStrictlyIncreasing` | src/utils/pdfGenerator.js:78-80 | the conversion is strictly increasing |
| `Geometry.PxToMmAgainstReferenceScale` | src/utils/pdfGenerator.js:78-80 | the result is px·25.4/96 − px/3000000, so it never exceeds the 96 px/inch length for px ≥ 0 |
| `Geometry.OrientationOf` | src/utils/pdfGenerator.js:40 | landscape exactly when width > height, otherwise portrait |
| `Geometry.ScaledSizeFits` | src/utils/pdfGenerator.js:50-66 | the drawn size is positive, within the available width and height, and has the image's width/height ratio |
| `Geometry.FitWithinMargins` | src/utils/pdfGenerator.js:46-69 | on a page larger than twice the margin, the rectangle keeps the image's proportions, stays at least 10 mm from every edge and is centred (2x + w = page width, 2y + h = page height) |
| `Geometry.ConstrainingAxis` | src/utils/pdfGenerator.js:51-66 | the width branch is taken iff the image's ratio exceeds the available area's ratio (not the page's); it fills the available width and leaves height to spare; otherwise the available height is filled; when the ratios are equal both sides are filled |
| `Geometry.FitIsLargest` | src/utils/pdfGenerator.js:56-66 | no undistorted rectangle that fits inside the margins is wider or higher than the computed one |
| `Geometry.LandscapeImageOnA4` | src/utils/pdfGenerator.js:46-69 | a 2000 × 1000 px image on A4 is drawn 190 × 95 mm at (10, 101) |
| `Raster.RotatedSize` | src/utils/pdfGenerator.js:100-116 | width and height are exchanged iff rotation % 180 ≠ 0, otherwise kept; rotation 0 returns the source itself and no other rotation does |
| `Raster.QuarterTurnsSize` | src/utils/pdfGenerator.js:110-116 | after n successive 90° turns the sides are exchanged iff n is odd |
| `Raster.FourQuarterTurnsRestoreSize` | src/utils/pdfGenerator.js:110-116 | four successive 90° turns restore the original width and height |
| `Raster.RotationMatchesQuarterTurns` | src/utils/pdfGenerator.js:110-116 | rotating by 90·n for n < 4 gives the same size as n successive quarter turns |
| `Raster.Canvas.constructor` | src/utils/pdfGenerator.js:106 | a new canvas has the HTML default size 300 × 150 |
| `Raster.GetRotatedImage` | src/utils/pdfGenerator.js:100-126 | rotation 0 returns the source unchanged; any other rotation returns a new rendering of the turned source content, whose canvas has the sides exchanged iff rotation % 180 ≠ 0 |
| `ItemList.NewItems` | src/App.jsx:76-80 | one item per file, in file order, with the file, its supplied id and rotation 0 |
| `ItemList.DropKeepsExisting` | src/App.jsx:81 | after a drop, the old list is unchanged as a prefix, the length grows by the number of files, and all rotations stay valid |
| `ItemList.Without` | src/App.jsx:85 | no kept item has the removed id, and every item with another id keeps its multiplicity |
| `ItemList.WithoutConcat` | src/App.jsx:85 | removal distributes over concatenation, so kept items keep their relative order |
| `ItemList.WithoutAbsent` | src/App.jsx:85 | removing an id that no item has leaves the list unchanged |
| `ItemList.RemoveIsIdempotent` | src/App.jsx:85 | removing the same id twice equals removing it once |
| `ItemList.WithoutKeepsValid` | src/App.jsx:85 | removal keeps every rotation in {0, 90, 180, 270} |
| `ItemList.Rotate` | src/App.jsx:91 | id and file are kept; a valid rotation steps 0→90→180→270→0 |
| `ItemList.FourTurnsRestoreItem` | src/App.jsx:91 | four turns return an item with a valid rotation to itself |
| `ItemList.RotatedWhere` | src/App.jsx:89-94 | same length; items with the id are turned, every other item is unchanged |
| `ItemList.RotatedWhereKeepsValid` | src/App.jsx:89-94 | turning keeps every rotation in {0, 90, 180, 270} |
| `ItemList.FourRotationsRestoreList` | src/App.jsx:89-94 | rotating the same id four times restores the list |
| `ItemList.FindIndex` | src/App.jsx:68-69 | the index of the first item with the id, or −1 iff no item has it |
| `ItemList.ArrayMove` | src/App.jsx:70 | same length, a permutation, the moved element lands at the target index, and the other elements keep their relative order |
| `ItemList.ArrayMoveUndo` | src/App.jsx:70 | moving back from the target to the source index restores the list |
| `ItemList.ArrayMoveInPlace` | src/App.jsx:70 | moving an element to its own index changes nothing |
| `ItemList.Moved` | src/App.jsx:67-71 | the dragged item lands at the drop target's index; the list is a permutation; the other items keep their relative order |
| `ItemList.MovedKeepsValid` | src/App.jsx:67-71 | a move keeps every rotation in {0, 90, 180, 270} |
| `JsPdf.Doc.constructor` | src/utils/pdfGenerator.js:4-8 | a new document has one blank portrait page of its format |
| `JsPdf.Doc.DeletePage` | src/utils/pdfGenerator.js:18 | the n-th page (counting from 1) is removed and the others are kept in order |
| `JsPdf.Doc.AddPage` | src/utils/pdfGenerator.js:44 | a blank page of the document's format is appended |
| `JsPdf.Doc.AddSizedPage` | src/utils/pdfGenerator.js:40 | a blank page of the given size and orientation is appended |
| `JsPdf.Doc.AddImage` | src/utils/pdfGenerator.js:41 | the image is drawn at the rectangle on the current (last) page; no other page changes |
| `PdfGenerator.Planned` | src/utils/pdfGenerator.js:21-72 | the pages of the first n images: n pages, page k planned from image k turned by its rotation |
| `PdfGenerator.ExpectedOutcome` | src/utils/pdfGenerator.js:3-76 | the run fails iff some file fails to decode (the only failure modelled); a successful run over n ≥ 1 images saves exactly n pages |
| `PdfGenerator.AddFittedPage` | src/utils/pdfGenerator.js:36-41 | appends the 'fit' page of the image |
| `PdfGenerator.DrawCentred` | src/utils/pdfGenerator.js:46-71 | the blank current page becomes the A4/Letter page showing the image fitted and centred |
| `PdfGenerator.AddImagePage` | src/utils/pdfGenerator.js:36-72 | 'fit' appends a page; A4/Letter puts the first image on the initial page and appends a page for each later one |
| `PdfGenerator.GeneratePdf` | src/utils/pdfGenerator.js:3-76 | the loop over the images produces exactly `ExpectedOutcome`: the saved pages, or a failure |
| `PdfGenerator.PageShowsItsImage` | src/utils/pdfGenerator.js:21-41 | page k of a saved document shows exactly one image, image k turned by its rotation |
| `PdfGenerator.EmptyDocument` | src/utils/pdfGenerator.js:4-19 | with no images, 'fit' saves no page and A4/Letter save one blank page |
| `PdfGenerator.FixedPageLayout` | src/utils/pdfGenerator.js:42-72 | on A4/Letter, page k of a saved document is the fixed page of image k, which has positive size |
| `PdfGenerator.FixedPageInsideMargins` | src/utils/pdfGenerator.js:42-72 | an A4/Letter page has the paper size and is portrait; it shows one image, which keeps its proportions, stays inside the 10 mm margins and is centred |
| `PdfGenerator.FitPageLayout` | src/utils/pdfGenerator.js:36-41 | with 'fit' every page measures the turned image in mm; it is landscape iff wider than high; the image covers it from (0, 0) |
| `PdfGenerator.PageImageSize` | src/utils/pdfGenerator.js:33-34 | the image on an item's page has the decoded size, with the sides exchanged for 90 and 270 degrees |
| `PdfGenerator.LandscapeFitPage` | src/utils/pdfGenerator.js:36-41 | a 1000 × 500 px image under 'fit' gets a landscape page of 264.583 × 132.2915 mm, covered by the image |
| `App.Report` | src/App.jsx:100-106 | a run ends in a download of the saved pages iff it succeeded, otherwise in an alert |
| `App.Session.constructor` | src/App.jsx:37-39 | the session starts with no items, format A4 and the flag down |
| `App.Session.HandleFilesDrop` | src/App.jsx:75-82 | the list becomes the old list followed by the new items; rotations stay valid |
| `App.Session.HandleRemove` | src/App.jsx:84-86 | the list becomes the old list without the items that have the id |
| `App.Session.HandleRotate` | src/App.jsx:88-95 | the items with the id turn by 90° and the rest are unchanged; rotations stay valid |
| `App.Session.HandleDragEnd` | src/App.jsx:63-73 | dropping an item on itself, or outside any item, leaves the list unchanged; otherwise the item is moved as in `Moved` |
| `App.Session.ClearAll` | src/App.jsx:134 | the list becomes empty |
| `App.Session.ChooseFormat` | src/components/PdfControls.jsx:28 | the page-size setting becomes the chosen one |
| `App.Session.HandleGeneratePdf` | src/App.jsx:97-108 | with an empty list nothing happens; otherwise the flag goes up, the run ends in a download or an alert, and, for a run that finishes, the flag goes down again either way |

## Left out

- Decoding and rendering in the browser are not modelled: `readFileAsDataURL` (FileReader), `getImageProperties` (Image onload), the canvas translate/rotate/draw and the JPEG encode at quality 0.95. The decoded pixel size of each file is a parameter (`sizes`), and `DecodeFailed` stands for a FileReader or Image error. Pixel content is abstract: a page records which file it shows and the rotation applied, not the pixels.
- jsPDF internals are left out, beyond the page records it keeps. Its page-size table gives A4 in points, which is not exactly 210 × 297 mm; the model uses 210 × 297 and 215.9 × 279.4. jsPDF's own page-format rules are not modelled, including how `addPage` squares a size with the orientation. For 'fit' pages the orientation always agrees with the size (`FitPageLayout`), so the orientation swap never fires.
- FitPageLayout: jsPDF's limits on page size are not modelled; every 'fit' page is exactly the turned image's size in mm, however large the image.
- `doc.save` and the browser download are modelled only as the `Downloaded` event carrying the pages. The PDF byte stream is not modelled.
- IEEE double rounding is not modelled: all geometry is exact real arithmetic.
- `generateId` (`Math.random`) is left out; ids are supplied parameters. Nothing in the code makes them unique. `FindIndex` and `Moved` use the first match, as `findIndex` does.
- `HandleDragEnd` requires that the dragged item's id, and the drop target's id when there is one, are in the list. dnd-kit only reports ids of rendered items. The `-1` index behaviour of `arrayMove` for a missing id is not modelled.
- `HandleDragEnd` models a drop outside any item (`over` is null) as "no change". In the code, reading `over.id` throws before the list is updated. The uncaught error is not modelled.
- `HandleGeneratePdf` runs to completion as one step. The code awaits, and the interface stays live in the meantime, so other handlers could run during generation; that interleaving is not modelled. `generatePDF` works on the list as it was when the run started, which is what the model does.
- ExpectedOutcome: counts only decoding failures as failures. With rotation 0 the file's own data URL is handed to `addImage`, while turned images are always JPEG; if jsPDF throws on data it cannot embed, the code ends the run in the alert even though every file decoded. jsPDF's handling of image data is not modelled, so that failure is not either.
- HandleGeneratePdf: assumes every run settles. `getRotatedImage` builds its promise with `resolve` only: if the second image load fails, or its `onload` throws (for example when `getContext` returns null for an oversized canvas), the promise never settles, `generatePDF` never returns, the `finally` block never runs and `isGenerating` stays true. The model proves the flag goes down again only for runs that finish.
- `console.error` is not modelled. The alert is the `Alerted` event.
- Theme handling (localStorage, matchMedia), the preview modal, the dnd-kit sensors and the presentational components are left out. They hold no state the core depends on.
