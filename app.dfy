/**
 * The application state behind the page: the picked items, the
 * page-size setting and the "generating" flag, with one method per event
 * handler. Each handler applies one of the pure updaters of ItemList to the
 * item list, as the code does through its state setter.
 */
module App {
  import opened Raster
  import opened ItemList
  import opened JsPdf
  import opened PdfGenerator

  datatype Option<T> = None | Some(value: T)

  /** What the user sees happen outside the item list. */
  datatype Event =
    | FlagSet(generating: bool)   // the convert button switches between idle and busy
    | Downloaded(pages: seq<Page>)  // doc.save('converted-images.pdf')
    | Alerted                       // "Failed to generate PDF. See console."

  /** The event that reports how a generation run ended. */
  function Report(outcome: Outcome): (e: Event)
    ensures e.Downloaded? <==> outcome.Saved?
    ensures outcome.Saved? ==> e.pages == outcome.pages
    ensures outcome.Failed? ==> e == Alerted
  {
    match outcome
    case Saved(pages) => Downloaded(pages)
    case Failed => Alerted
  }

  class Session {
    var items: seq<Item>
    var format: Format
    var isGenerating: bool
    var events: seq<Event>

    /**
     * Between two handlers: every rotation is 0, 90, 180 or 270 (items start
     * at 0 and only ever turn by 90 modulo 360), and no generation is running.
     */
    ghost predicate Valid()
      reads this
    {
      AllValidRotations(items) && !isGenerating
    }

    /** useState([]), useState(false), useState({ format: 'a4' }). */
    constructor ()
      ensures Valid()
      ensures items == [] && format == A4 && !isGenerating && events == []
    {
      items, format, isGenerating, events := [], A4, false, [];
    }

    /** handleFilesDrop(files): one item per file, rotation 0, after the existing ones. */
    method HandleFilesDrop(files: seq<FileRef>, ids: seq<Id>)
      requires Valid()
      requires |ids| == |files|
      modifies this`items
      ensures Valid()
      ensures items == old(items) + NewItems(files, ids)
    {
      DropKeepsExisting(items, files, ids);
      items := items + NewItems(files, ids);
    }

    /** handleRemove(id): drop every item with that id. */
    method HandleRemove(id: Id)
      requires Valid()
      modifies this`items
      ensures Valid()
      ensures items == Without(old(items), id)
    {
      WithoutKeepsValid(items, id);
      items := Without(items, id);
    }

    /** handleRotate(id): turn every item with that id a further 90 degrees. */
    method HandleRotate(id: Id)
      requires Valid()
      modifies this`items
      ensures Valid()
      ensures items == RotatedWhere(old(items), id)
    {
      RotatedWhereKeepsValid(items, id);
      items := RotatedWhere(items, id);
    }

    /**
     * handleDragEnd({ active, over }): nothing when the item is dropped on
     * itself; when it is dropped outside any item (`over` is null) reading
     * `over.id` throws before the list is touched; otherwise the dragged item
     * moves to the position of the one it was dropped on.
     */
    method HandleDragEnd(activeId: Id, over: Option<Id>)
      requires Valid()
      requires Contains(items, activeId)
      requires over.Some? ==> Contains(items, over.value)
      modifies this`items
      ensures Valid()
      ensures over.None? || over.value == activeId ==> items == old(items)
      ensures over.Some? && over.value != activeId ==> items == Moved(old(items), activeId, over.value)
    {
      if over.Some? && activeId != over.value {
        MovedKeepsValid(items, activeId, over.value);
        items := Moved(items, activeId, over.value);
      }
    }

    /** The "Clear All" button: setItems([]). */
    method ClearAll()
      requires Valid()
      modifies this`items
      ensures Valid()
      ensures items == []
    {
      items := [];
    }

    /** A page-size button: onSettingsChange({ ...settings, format }). */
    method ChooseFormat(f: Format)
      requires Valid()
      modifies this`format
      ensures Valid()
      ensures format == f
    {
      format := f;
    }

    /**
     * handleGeneratePDF(): nothing happens with an empty list. Otherwise the
     * flag goes up, the document is generated from the current items and
     * setting, the run ends in a download or an alert, and the flag goes down
     * again whichever way it ended. `sizes` is what the browser decodes from
     * each item's file.
     */
    method HandleGeneratePdf(sizes: seq<DecodeResult>)
      requires Valid()
      requires |sizes| == |items| && PositiveSizes(sizes)
      modifies this`isGenerating, this`events
      ensures Valid()
      ensures items == [] ==> events == old(events)
      ensures items != [] ==>
                events == old(events) + [FlagSet(true), Report(ExpectedOutcome(items, sizes, format)), FlagSet(false)]
    {
      if |items| == 0 {
        return;
      }
      isGenerating := true;
      events := events + [FlagSet(true)];
      var outcome := GeneratePdf(items, sizes, format);
      match outcome {
        case Saved(pages) => events := events + [Downloaded(pages)];
        case Failed => events := events + [Alerted];
      }
      isGenerating := false;
      events := events + [FlagSet(false)];
    }
  }
}
