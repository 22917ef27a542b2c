# PDF viewer state machine

A model of the viewer logic of `PDFViewerApp` (PDF_Apps/main.py), a desktop PDF
viewer: the list of rendered pages, the page cursor moved by the next and
previous buttons, the zoom toggle bound to a canvas click, the reset performed
when a file is opened, the document title derived from metadata or the file
name, and the texts of the title and page-number labels.

Layout:

- `wrappers.dfy` — `Option`.
- `labels.dfy` (module `Labels`) — Python's `str()` on non-negative integers
  (`Decimal`) with its inverse, and the page label
  `"{current_page + 1}/{n} pages"`, proved to identify both numbers.
- `titles.dfy` (module `Titles`) — base name of a path, the 30-character cut
  with `"..."`, the metadata-or-file-name title and the title label that
  appends `".pdf"`.
- `viewer_model.dfy` (module `ViewerModel`) — the whole viewer state as a
  value (`ViewState`), its invariant `Inv`, one function per action
  (`Display`, `Next`, `Previous`, `ToggleZoom`, `Load`), runs of user actions,
  and the lemmas about them.
- `viewer.dfy` (module `Viewer`) — class `PdfViewer`, whose fields are those of
  the application object plus the texts of its two labels and the picture on
  its canvas; each method updates the fields step by step as the source does
  and is proved to produce exactly the state the matching `ViewerModel`
  function gives.

Inputs from outside the program are parameters: the path the file dialog
returns (`""` when cancelled), the outcome of opening the file with the PDF
library (`None` when the library raises), and the opened document as a
sequence of page pixmaps plus a metadata map.

Two behaviours of the code worth naming: `previous_page` checks that pages
are loaded as well as `current_page > 0` (the two are equivalent under the
invariant); a file that the PDF library cannot open raises out of `load_pdf`,
and because `extract_pages` opens the file before any field is assigned, the
state is left as it was (`LoadPdf` returns `raised = true` for this case).

## Model

| member | source | states |
|---|---|---|
| `Labels.Decimal` | PDF_Apps/main.py:137 | `str(n)`: at least one character, all decimal digits, no leading zero: a leading `0` only in `"0"` itself, for n = 0 |
| `Labels.ParseDecimalOfDecimal` | PDF_Apps/main.py:137 | reading the rendered digits back gives the number again |
| `Labels.DecimalInjective` | PDF_Apps/main.py:137 | distinct numbers render as distinct strings |
| `Labels.PageLabel` | PDF_Apps/main.py:137 | the page label starts with the one-based page number followed by `/` and ends with `" pages"` |
| `Labels.PageLabelInjective` | PDF_Apps/main.py:137 | two page labels are equal only when the cursor and the page count are both equal |
| `Labels.ThreePageLabels` | PDF_Apps/main.py:137 | first and last page of three pages read `"1/3 pages"` and `"3/3 pages"` |
| `Titles.BaseName` | PDF_Apps/main.py:90 | result is a suffix of the path, holds no `/`, and is preceded by `/` unless it is the whole path |
| `Titles.BaseNameOfJoin` | PDF_Apps/main.py:90 | the base name of `dir/name`, and of a bare `name`, is `name` |
| `Titles.Shorten` | PDF_Apps/main.py:91-94 | at most 33 characters; a title of at most 30 is unchanged; a longer one becomes its first 30 characters plus `"..."` (exactly 33) |
| `Titles.ShortenIdempotent` | PDF_Apps/main.py:91-94 | cutting an already cut title changes nothing |
| `Titles.MetadataTitle` | PDF_Apps/main.py:88-89 | non-empty exactly when the `"title"` entry is present and non-empty, and then equal to it |
| `Titles.ExtractPdfTitle` | PDF_Apps/main.py:84-94 | the cut candidate title (metadata title, else base name): at most 33 characters |
| `Titles.TitleFromMetadata` | PDF_Apps/main.py:88-94 | a present, non-empty metadata title is the one shown (cut) |
| `Titles.TitleFromFileName` | PDF_Apps/main.py:89-94 | without a usable metadata title the title is the cut base name and holds no `/` |
| `Titles.TitleLabel` | PDF_Apps/main.py:98 | the label is the title followed by `".pdf"`, always |
| `Titles.DoubleSuffix` | PDF_Apps/main.py:89-98 | a file-name title that already ends in `.pdf` gives a label ending in `.pdf.pdf` |
| `Titles.ShortenNoSeparator` | PDF_Apps/main.py:91-94 | cutting a title that holds no `/` gives one that holds none |
| `Titles.MetadataTitleExample` | PDF_Apps/main.py:84-98 | metadata title `"Report"` gives the label `"Report.pdf"` |
| `Titles.LongTitleExample` | PDF_Apps/main.py:91-94 | a 40-character title is cut to its first 30 characters plus `"..."` |
| `ViewerModel.Rasterize` | PDF_Apps/main.py:100-109 | one image per page, in page order, each built from that page's pixmap |
| `ViewerModel.InitialInv` | PDF_Apps/main.py:16-20 | the start-up state (no pages, cursor 0, not zoomed) satisfies the invariant |
| `ViewerModel.Display` | PDF_Apps/main.py:111-137 | with pages, the canvas shows the current page at the current zoom and the page label names it; with none, nothing changes; nothing else ever changes |
| `ViewerModel.DisplayShown` | PDF_Apps/main.py:111-137 | redrawing a state that satisfies the invariant changes nothing |
| `ViewerModel.Next` | PDF_Apps/main.py:145-149 | keeps the invariant; advances the cursor by exactly one when not on the last page, else is a no-op; never changes pages, zoom or title |
| `ViewerModel.Previous` | PDF_Apps/main.py:151-155 | keeps the invariant; moves the cursor back by exactly one when not on page 0, else is a no-op; never changes pages, zoom or title |
| `ViewerModel.ToggleZoom` | PDF_Apps/main.py:157-165 | keeps the invariant; flips the zoom flag, factor 1.5 (150 %) when zoomed and 1.0 (100 %) when not, with or without pages; cursor, pages and title unchanged; with no pages, page label and canvas unchanged too |
| `ViewerModel.Load` | PDF_Apps/main.py:73-82 | cancelled dialog or failed open: state unchanged; else pages replaced by the rendered document, cursor 0, zoom reset, title and title label derived, invariant established; a zero-page document leaves page label and canvas as they were |
| `ViewerModel.Step` | PDF_Apps/main.py:27-62 | each button or canvas click keeps the invariant |
| `ViewerModel.Run` | PDF_Apps/main.py:27-62 | any sequence of user actions keeps the invariant |
| `ViewerModel.CursorStaysInBounds` | PDF_Apps/main.py:145-155 | from start-up, after any actions the whole invariant holds: the cursor is on an existing page (or 0 with none), the zoom factor matches the flag, and canvas and page label show the current page |
| `ViewerModel.NavigationKeepsDocument` | PDF_Apps/main.py:145-155 | any run of next/previous clicks leaves pages, zoom and title untouched |
| `ViewerModel.Forward` | PDF_Apps/main.py:145-149 | repeated next clicks keep the invariant |
| `ViewerModel.Backward` | PDF_Apps/main.py:151-155 | repeated previous clicks keep the invariant |
| `ViewerModel.ForwardStopsAtLastPage` | PDF_Apps/main.py:145-149 | k next clicks land on page `min(current + k, n - 1)` |
| `ViewerModel.BackwardStopsAtFirstPage` | PDF_Apps/main.py:151-155 | k previous clicks land on page `max(current - k, 0)` |
| `ViewerModel.NextThenPrevious` | PDF_Apps/main.py:145-155 | a previous click undoes a next click that moved, restoring the whole state |
| `ViewerModel.PreviousThenNext` | PDF_Apps/main.py:145-155 | a next click undoes a previous click that moved, restoring the whole state |
| `ViewerModel.ToggleZoomTwice` | PDF_Apps/main.py:157-165 | two zoom toggles restore the state |
| `ViewerModel.LoadForgetsPriorState` | PDF_Apps/main.py:73-82 | opening a file gives the same state whatever came before (with zero pages, apart from the stale page label and canvas) |
| `ViewerModel.ThreePageScenario` | PDF_Apps/main.py:73-149 | opening three pages shows `"1/3 pages"`; two next clicks show `"3/3 pages"`; a third changes nothing |
| `Viewer.PdfViewer.constructor` | PDF_Apps/main.py:16-20 | fields start as no pages, cursor 0, factor 1.0, not zoomed, empty title, page label `"1/1 pages"`, invariant holds |
| `Viewer.PdfViewer.ExtractPages` | PDF_Apps/main.py:100-109 | the appending loop returns exactly `Rasterize` of the document's pixmaps |
| `Viewer.PdfViewer.UpdateTitleLabel` | PDF_Apps/main.py:96-98 | sets the title label to `TitleLabel(title_text)` and nothing else |
| `Viewer.PdfViewer.DisplayPage` | PDF_Apps/main.py:111-137 | the fields change as `Display` says |
| `Viewer.PdfViewer.NextPage` | PDF_Apps/main.py:145-149 | the fields change as `Next` says; invariant kept |
| `Viewer.PdfViewer.PreviousPage` | PDF_Apps/main.py:151-155 | the fields change as `Previous` says; invariant kept |
| `Viewer.PdfViewer.ToggleZoom` | PDF_Apps/main.py:157-165 | the fields change as `ViewerModel.ToggleZoom` says; invariant kept |
| `Viewer.PdfViewer.LoadPdf` | PDF_Apps/main.py:73-82 | the fields change as `Load` says; `raised` exactly when a chosen file fails to open; invariant kept |
| `Viewer.ThreePageSession` | PDF_Apps/main.py:145-149 | on the object: open three pages, three next clicks, the cursor is on page index 2 and the label reads `"3/3 pages"` |

## Left out

- Widget construction, layout, theme, event binding and the main loop (PDF_Apps/main.py:8-65, 175-177): toolkit plumbing; the click handlers are the `Action` cases.
- The file dialog: its result is the `filepath` parameter.
- Opening the file, reading metadata and rendering pages with the PDF and image libraries: foreign calls; the opened document is a parameter (page pixmaps and a metadata map) and an image is its pixmap's width, height and samples.
- `extract_pdf_title` opens the file a second time; the model assumes this second open yields the same document as the first (a failure only of the second open is not modelled).
- The fit-to-window size computation and centering (PDF_Apps/main.py:117-128, 134): floating-point division and `int()` truncation on live widget geometry; the canvas is modelled as the page image and zoom factor it shows.
- `display_page` is assumed to complete. If the fit computation or the resize (PDF_Apps/main.py:119-129) raises — a page of height 0 divides by zero at line 119, and a very wide or very narrow page truncates a size to 0 before the resize at line 129 — the source has already changed the cursor, the zoom or the pages but skips the canvas and page-label update; the model, and the invariant `Inv` that ties the page label and canvas to the current page, does not capture this path.
- Image resizing, scroll region, scrollbar and the mouse-wheel handler (PDF_Apps/main.py:129-130, 140-143, 167-172): rendering side effects; apart from the exceptions named above, they touch none of the modelled state.
- `load_image` (PDF_Apps/main.py:67-71): file I/O for the button icons.
- `Titles.BaseName`: follows POSIX `os.path.basename` (text after the last `/`); backslash separators and drive letters of Windows paths are not modelled.
- Metadata values are strings; a metadata entry holding `None` is not modelled (it behaves like a missing entry in the source).
