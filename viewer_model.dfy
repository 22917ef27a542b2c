/** The viewer's state as a value, and what each user action does to it.
    The class in module Viewer keeps the same state in fields and is proved
    to follow these functions. */
module ViewerModel {
  import opened Wrappers
  import opened Labels
  import opened Titles

  /** A page as the PDF library renders it at its default resolution. */
  datatype Pixmap = Pixmap(width: nat, height: nat, samples: seq<bv8>)

  /** An RGB image built from a pixmap's samples. */
  datatype Image = Image(width: nat, height: nat, rgb: seq<bv8>)

  /** An opened PDF document: one pixmap per page, in page order, and the
      document's metadata. */
  datatype Document = Document(pixmaps: seq<Pixmap>, metadata: map<string, string>)

  /** The two zoom factors the viewer uses: 1.0 and 1.5. */
  datatype ZoomFactor = Normal | Enlarged {
    /** The factor in per cent. */
    function Percent(): nat {
      if Normal? then 100 else 150
    }
  }

  /** What the canvas shows: a page image drawn at a zoom factor. */
  datatype Frame = Frame(image: Image, zoom: ZoomFactor)

  /** All the state of the viewer: the fields of the application object and
      the texts and picture of the widgets it updates. */
  datatype ViewState = ViewState(
    pages: seq<Image>,
    current: int,
    zoomFactor: ZoomFactor,
    isZoomed: bool,
    titleText: string,
    titleLabel: string,
    pageLabel: string,
    canvas: Option<Frame>)

  /** Image.frombytes("RGB", [width, height], samples). */
  function FromPixmap(pix: Pixmap): Image {
    Image(pix.width, pix.height, pix.samples)
  }

  /** The page images of a document: one per pixmap, in the same order. */
  function Rasterize(pixmaps: seq<Pixmap>): (r: seq<Image>)
    ensures |r| == |pixmaps|
    ensures forall i :: 0 <= i < |r| ==> r[i] == FromPixmap(pixmaps[i])
    decreases |pixmaps|
  {
    if pixmaps == [] then []
    else Rasterize(pixmaps[..|pixmaps| - 1]) + [FromPixmap(pixmaps[|pixmaps| - 1])]
  }

  /** The zoom factor that goes with the zoom flag. */
  function FactorFor(zoomed: bool): ZoomFactor {
    if zoomed then Enlarged else Normal
  }

  /** The state right after start-up: no pages, first page, no zoom, an empty
      title label and a page label that reads "1/1 pages". */
  function Initial(): ViewState {
    ViewState([], 0, Normal, false, "", "", "1/1 pages", None)
  }

  /** The invariant of the viewer: the cursor is on an existing page (or 0
      when there are none), the zoom factor agrees with the zoom flag, and
      while a document with pages is loaded the canvas shows the current page
      at the current zoom and the page label names it. */
  predicate Inv(s: ViewState) {
    && 0 <= s.current
    && (s.pages == [] ==> s.current == 0)
    && (s.pages != [] ==>
          && s.current < |s.pages|
          && s.pageLabel == PageLabel(s.current, |s.pages|)
          && s.canvas == Some(Frame(s.pages[s.current], s.zoomFactor)))
    && s.zoomFactor == FactorFor(s.isZoomed)
  }

  lemma InitialInv()
    ensures Inv(Initial())
  {
  }

  /** display_page: with pages loaded, draw the current page at the current
      zoom and rewrite the page label; with none, do nothing. */
  function Display(s: ViewState): (r: ViewState)
    requires s.pages != [] ==> 0 <= s.current < |s.pages|
    ensures s.pages == [] ==> r == s
    ensures s.pages != [] ==> r.pageLabel == PageLabel(s.current, |s.pages|)
    ensures s.pages != [] ==> r.canvas == Some(Frame(s.pages[s.current], s.zoomFactor))
    ensures r.(pageLabel := s.pageLabel, canvas := s.canvas) == s
  {
    if s.pages != [] then
      var img := s.pages[s.current];
      s.(canvas := Some(Frame(img, s.zoomFactor)),
         pageLabel := PageLabel(s.current, |s.pages|))
    else s
  }

  /** Showing the current page again changes nothing once it is shown. */
  lemma DisplayShown(s: ViewState)
    requires Inv(s)
    ensures Display(s) == s
  {
  }

  /** next_page: one page forward unless already on the last page. */
  function Next(s: ViewState): (r: ViewState)
    requires Inv(s)
    ensures Inv(r)
    ensures r.pages == s.pages && r.zoomFactor == s.zoomFactor && r.isZoomed == s.isZoomed
    ensures r.titleText == s.titleText && r.titleLabel == s.titleLabel
    ensures s.current < |s.pages| - 1 ==> r.current == s.current + 1
    ensures s.current >= |s.pages| - 1 ==> r == s
  {
    if s.pages != [] && s.current < |s.pages| - 1 then
      Display(s.(current := s.current + 1))
    else s
  }

  /** previous_page: one page back unless already on the first page. */
  function Previous(s: ViewState): (r: ViewState)
    requires Inv(s)
    ensures Inv(r)
    ensures r.pages == s.pages && r.zoomFactor == s.zoomFactor && r.isZoomed == s.isZoomed
    ensures r.titleText == s.titleText && r.titleLabel == s.titleLabel
    ensures s.current > 0 ==> r.current == s.current - 1
    ensures s.current == 0 ==> r == s
  {
    if s.pages != [] && s.current > 0 then
      Display(s.(current := s.current - 1))
    else s
  }

  /** toggle_zoom: flip between normal size and 1.5 times, with or without a
      document, then redraw. */
  function ToggleZoom(s: ViewState): (r: ViewState)
    requires Inv(s)
    ensures Inv(r)
    ensures r.isZoomed == !s.isZoomed
    ensures r.zoomFactor == (if s.isZoomed then Normal else Enlarged)
    ensures r.zoomFactor.Percent() == if r.isZoomed then 150 else 100
    ensures s.pages == [] ==> r.pageLabel == s.pageLabel && r.canvas == s.canvas
    ensures r.pages == s.pages && r.current == s.current
    ensures r.titleText == s.titleText && r.titleLabel == s.titleLabel
  {
    var zoomed := if !s.isZoomed then s.(zoomFactor := Enlarged, isZoomed := true)
                  else s.(zoomFactor := Normal, isZoomed := false);
    Display(zoomed)
  }

  /** load_pdf for the path the file dialog returned ("" when cancelled) and
      the outcome of opening that file (None when the PDF library raised).
      A cancelled dialog or a failed open leaves the state as it was; a
      document that opens replaces the pages and resets cursor, zoom and
      title. */
  function Load(s: ViewState, filepath: string, openResult: Option<Document>): (r: ViewState)
    ensures filepath == [] || openResult.None? ==> r == s
    ensures filepath != [] && openResult.Some? ==>
      && r.pages == Rasterize(openResult.value.pixmaps)
      && r.current == 0 && r.zoomFactor == Normal && !r.isZoomed
      && r.titleText == ExtractPdfTitle(filepath, openResult.value.metadata)
      && r.titleLabel == TitleLabel(r.titleText)
      && Inv(r)
    ensures filepath != [] && openResult.Some? && openResult.value.pixmaps == [] ==>
      r.pageLabel == s.pageLabel && r.canvas == s.canvas
    ensures Inv(s) ==> Inv(r)
  {
    if filepath != [] && openResult.Some? then
      var doc := openResult.value;
      var reset := s.(pages := Rasterize(doc.pixmaps), current := 0,
                      zoomFactor := Normal, isZoomed := false,
                      titleText := ExtractPdfTitle(filepath, doc.metadata));
      Display(reset.(titleLabel := TitleLabel(reset.titleText)))
    else s
  }

  /** The user actions the viewer reacts to. */
  datatype Action =
    | OpenClicked(filepath: string, openResult: Option<Document>)
    | NextClicked
    | PreviousClicked
    | CanvasClicked

  function Step(s: ViewState, a: Action): (r: ViewState)
    requires Inv(s)
    ensures Inv(r)
  {
    match a
    case OpenClicked(filepath, openResult) => Load(s, filepath, openResult)
    case NextClicked => Next(s)
    case PreviousClicked => Previous(s)
    case CanvasClicked => ToggleZoom(s)
  }

  /** The state after a sequence of user actions. */
  function Run(s: ViewState, actions: seq<Action>): (r: ViewState)
    requires Inv(s)
    ensures Inv(r)
    decreases |actions|
  {
    if actions == [] then s else Run(Step(s, actions[0]), actions[1..])
  }

  /** From start-up, any sequence of actions keeps the cursor on an existing
      page and the zoom factor in step with the zoom flag. */
  lemma {:induction false} CursorStaysInBounds(actions: seq<Action>)
    ensures Inv(Run(Initial(), actions))
    ensures var r := Run(Initial(), actions);
      && 0 <= r.current && (r.pages != [] ==> r.current < |r.pages|) && (r.pages == [] ==> r.current == 0)
      && r.zoomFactor == FactorFor(r.isZoomed)
  {
    InitialInv();
  }

  predicate IsNavigation(a: Action) {
    a.NextClicked? || a.PreviousClicked?
  }

  /** Paging back and forth never changes the document, the zoom or the
      title. */
  lemma {:induction false} NavigationKeepsDocument(s: ViewState, actions: seq<Action>)
    requires Inv(s)
    requires forall i :: 0 <= i < |actions| ==> IsNavigation(actions[i])
    ensures var r := Run(s, actions);
      && r.pages == s.pages && r.zoomFactor == s.zoomFactor && r.isZoomed == s.isZoomed
      && r.titleText == s.titleText && r.titleLabel == s.titleLabel
    decreases |actions|
  {
    if actions != [] {
      NavigationKeepsDocument(Step(s, actions[0]), actions[1..]);
    }
  }

  /** next_page called k times. */
  function Forward(s: ViewState, k: nat): (r: ViewState)
    requires Inv(s)
    ensures Inv(r)
    decreases k
  {
    if k == 0 then s else Forward(Next(s), k - 1)
  }

  /** previous_page called k times. */
  function Backward(s: ViewState, k: nat): (r: ViewState)
    requires Inv(s)
    ensures Inv(r)
    decreases k
  {
    if k == 0 then s else Backward(Previous(s), k - 1)
  }

  /** k steps forward end on page current + k, or on the last page if that
      comes first. */
  lemma {:induction false} ForwardStopsAtLastPage(s: ViewState, k: nat)
    requires Inv(s) && s.pages != []
    ensures Forward(s, k).current == if s.current + k < |s.pages| then s.current + k else |s.pages| - 1
    decreases k
  {
    if k > 0 {
      var t := Next(s);
      assert t.pages == s.pages;
      assert t.current == if s.current < |s.pages| - 1 then s.current + 1 else s.current;
      ForwardStopsAtLastPage(t, k - 1);
    }
  }

  /** k steps back end on page current - k, or on the first page if that
      comes first. */
  lemma {:induction false} BackwardStopsAtFirstPage(s: ViewState, k: nat)
    requires Inv(s)
    ensures Backward(s, k).current == if s.current >= k then s.current - k else 0
    decreases k
  {
    if k > 0 {
      var t := Previous(s);
      assert t.current == if s.current > 0 then s.current - 1 else 0;
      BackwardStopsAtFirstPage(t, k - 1);
    }
  }

  /** A step back undoes a step forward that moved, and a step forward undoes
      a step back that moved: the whole state, labels and canvas included,
      is restored. */
  lemma NextThenPrevious(s: ViewState)
    requires Inv(s) && s.current < |s.pages| - 1
    ensures Previous(Next(s)) == s
  {
  }

  lemma PreviousThenNext(s: ViewState)
    requires Inv(s) && s.current > 0
    ensures Next(Previous(s)) == s
  {
  }

  /** Two clicks on the canvas restore the state they started from. */
  lemma ToggleZoomTwice(s: ViewState)
    requires Inv(s)
    ensures ToggleZoom(ToggleZoom(s)) == s
  {
  }

  /** Opening the same file gives the same viewer whatever was shown before,
      except that with a zero-page document the page label and canvas keep
      what they showed. */
  lemma LoadForgetsPriorState(s1: ViewState, s2: ViewState, filepath: string, doc: Document)
    requires filepath != []
    ensures var r1, r2 := Load(s1, filepath, Some(doc)), Load(s2, filepath, Some(doc));
      r1.(pageLabel := r2.pageLabel, canvas := r2.canvas) == r2
    ensures doc.pixmaps != [] ==> Load(s1, filepath, Some(doc)) == Load(s2, filepath, Some(doc))
  {
  }

  /** Open a three-page document: the label reads "1/3 pages"; two clicks
      forward give "3/3 pages", and a third click leaves it there. */
  lemma ThreePageScenario(s: ViewState, filepath: string, p: Pixmap)
    requires Inv(s) && filepath != []
    ensures var shown := Load(s, filepath, Some(Document([p, p, p], map[])));
      && shown.pageLabel == "1/3 pages"
      && Forward(shown, 2).pageLabel == "3/3 pages"
      && Next(Forward(shown, 2)) == Forward(shown, 2)
  {
    var shown := Load(s, filepath, Some(Document([p, p, p], map[])));
    ThreePageLabels();
    ForwardStopsAtLastPage(shown, 2);
  }
}
