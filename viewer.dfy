/** The viewer application object: the fields it updates in place and the
    methods behind its buttons and canvas click. Each method is proved to
    move the fields exactly as the matching function of ViewerModel moves
    the state value. */
module Viewer {
  import opened Wrappers
  import opened Labels
  import opened Titles
  import opened ViewerModel

  class PdfViewer {
    var pages: seq<Image>
    var current: int
    var zoomFactor: ZoomFactor
    var isZoomed: bool
    var titleText: string
    /** Text of the title label widget. */
    var titleLabel: string
    /** Text of the page-number label widget. */
    var pageLabel: string
    /** What the canvas currently shows. */
    var canvas: Option<Frame>

    /** The fields as one value. */
    function State(): ViewState
      reads this
    {
      ViewState(pages, current, zoomFactor, isZoomed, titleText, titleLabel, pageLabel, canvas)
    }

    ghost predicate Valid()
      reads this
    {
      Inv(State())
    }

    constructor ()
      ensures Valid() && State() == Initial()
    {
      pages := [];
      current := 0;
      zoomFactor := Normal;
      isZoomed := false;
      titleText := "";
      titleLabel := titleText;
      pageLabel := "1/1 pages";
      canvas := None;
    }

    /** extract_pages: render each page of the document, in order, and
        collect the images. */
    method ExtractPages(doc: Document) returns (rendered: seq<Image>)
      ensures rendered == Rasterize(doc.pixmaps)
    {
      rendered := [];
      for pageNum := 0 to |doc.pixmaps|
        invariant rendered == Rasterize(doc.pixmaps[..pageNum])
      {
        var pix := doc.pixmaps[pageNum];
        var img := FromPixmap(pix);
        assert doc.pixmaps[..pageNum + 1][..pageNum] == doc.pixmaps[..pageNum];
        rendered := rendered + [img];
      }
      assert doc.pixmaps[..|doc.pixmaps|] == doc.pixmaps;
    }

    /** update_title_label. */
    method UpdateTitleLabel()
      modifies this
      ensures State() == old(State()).(titleLabel := TitleLabel(titleText))
    {
      titleLabel := titleText + LabelSuffix;
    }

    /** display_page. */
    method DisplayPage()
      requires pages != [] ==> 0 <= current < |pages|
      modifies this
      ensures State() == Display(old(State()))
    {
      if pages != [] {
        var img := pages[current];
        canvas := Some(Frame(img, zoomFactor));
        pageLabel := Decimal(current + 1) + "/" + Decimal(|pages|) + " pages";
      }
    }

    /** next_page. */
    method NextPage()
      requires Valid()
      modifies this
      ensures Valid() && State() == Next(old(State()))
    {
      if pages != [] && current < |pages| - 1 {
        current := current + 1;
        DisplayPage();
      }
    }

    /** previous_page. */
    method PreviousPage()
      requires Valid()
      modifies this
      ensures Valid() && State() == Previous(old(State()))
    {
      if pages != [] && current > 0 {
        current := current - 1;
        DisplayPage();
      }
    }

    /** toggle_zoom. */
    method ToggleZoom()
      requires Valid()
      modifies this
      ensures Valid() && State() == ViewerModel.ToggleZoom(old(State()))
    {
      if !isZoomed {
        zoomFactor := Enlarged;
        isZoomed := true;
      } else {
        zoomFactor := Normal;
        isZoomed := false;
      }
      DisplayPage();
    }

    /** load_pdf, given the path the file dialog returned ("" when it was
        cancelled) and the outcome of opening that file with the PDF library
        (None when it raised). `raised` tells whether the library's error
        escaped the handler. */
    method LoadPdf(filepath: string, openResult: Option<Document>) returns (raised: bool)
      modifies this
      ensures State() == Load(old(State()), filepath, openResult)
      ensures raised <==> filepath != [] && openResult.None?
      ensures old(Valid()) ==> Valid()
    {
      raised := false;
      if filepath != [] {
        match openResult
        case None =>
          raised := true;
        case Some(doc) =>
          var rendered := ExtractPages(doc);
          pages := rendered;
          current := 0;
          zoomFactor := Normal;
          isZoomed := false;
          titleText := ExtractPdfTitle(filepath, doc.metadata);
          UpdateTitleLabel();
          DisplayPage();
      }
    }
  }

  /** Scenario on the object: open a three-page file, page forward three
      times; the label reads "3/3 pages" at the end. */
  method ThreePageSession(p: Pixmap) returns (viewer: PdfViewer)
    ensures viewer.Valid() && viewer.current == 2 && viewer.pageLabel == "3/3 pages"
  {
    viewer := new PdfViewer();
    var raised := viewer.LoadPdf("/tmp/three.pdf", Some(Document([p, p, p], map[])));
    assert viewer.pageLabel == PageLabel(0, 3);
    viewer.NextPage();
    viewer.NextPage();
    viewer.NextPage();
    ThreePageLabels();
  }
}
