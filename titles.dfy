/** How the viewer derives the document title it shows: the metadata title,
    else the file's base name, cut to 30 characters plus "...", and the
    title text that appends ".pdf" to it. */
module Titles {

  /** Titles longer than this are cut. */
  const MaxTitleLength: nat := 30
  /** Appended to a cut title. */
  const Ellipsis: string := "..."
  /** Appended to every title in the title text. */
  const LabelSuffix: string := ".pdf"

  /** No directory separator occurs in `s`. */
  predicate NoSeparator(s: string) {
    forall i :: 0 <= i < |s| ==> s[i] != '/'
  }

  /** os.path.basename for '/'-separated paths: the part after the last '/',
      which is the whole path when it has none and empty when it ends in '/'. */
  function BaseName(path: string): (r: string)
    ensures |r| <= |path| && r == path[|path| - |r|..]
    ensures NoSeparator(r)
    ensures |r| < |path| ==> path[|path| - |r| - 1] == '/'
    decreases |path|
  {
    if path == [] || path[|path| - 1] == '/' then []
    else BaseName(path[..|path| - 1]) + [path[|path| - 1]]
  }

  /** The file name after the last directory separator is the base name. */
  lemma {:induction false} BaseNameOfJoin(dir: string, name: string)
    requires NoSeparator(name)
    ensures BaseName(dir + "/" + name) == name
    ensures BaseName(name) == name
    decreases |name|
  {
    if name != [] {
      var init := name[..|name| - 1];
      assert dir + "/" + name == (dir + "/" + init) + [name[|name| - 1]];
      assert name == init + [name[|name| - 1]];
      BaseNameOfJoin(dir, init);
    } else {
      assert (dir + "/" + name)[|dir|] == '/';
    }
  }

  /** The length limit on the displayed title: longer candidates keep their
      first 30 characters and get "..." appended. */
  function Shorten(title: string): (r: string)
    ensures |r| <= MaxTitleLength + |Ellipsis|
    ensures |title| <= MaxTitleLength ==> r == title
    ensures |title| > MaxTitleLength ==>
      |r| == MaxTitleLength + |Ellipsis| && r[..MaxTitleLength] == title[..MaxTitleLength] && r[MaxTitleLength..] == Ellipsis
  {
    if |title| > MaxTitleLength then title[..MaxTitleLength] + Ellipsis else title
  }

  /** Shortening a shortened title changes nothing. */
  lemma ShortenIdempotent(title: string)
    ensures Shorten(Shorten(title)) == Shorten(title)
  {
    if |title| > MaxTitleLength {
      var r := Shorten(title);
      assert r[..MaxTitleLength] + Ellipsis == r;
    }
  }

  /** The value of the "title" metadata entry, if it is present and non-empty
      (Python's `metadata.get("title", None)` followed by `if not title`). */
  function MetadataTitle(metadata: map<string, string>): (t: string)
    ensures t != [] <==> "title" in metadata && metadata["title"] != []
    ensures t != [] ==> t == metadata["title"]
  {
    if "title" in metadata then metadata["title"] else []
  }

  /** The title before shortening: the metadata title, or else the base
      name of the path. */
  function CandidateTitle(filepath: string, metadata: map<string, string>): (t: string)
  {
    var title := MetadataTitle(metadata);
    if title == [] then BaseName(filepath) else title
  }

  /** extract_pdf_title: the shortened candidate title. */
  function ExtractPdfTitle(filepath: string, metadata: map<string, string>): (r: string)
    ensures |r| <= MaxTitleLength + |Ellipsis|
  {
    Shorten(CandidateTitle(filepath, metadata))
  }

  /** A present, non-empty metadata title wins over the file name. */
  lemma TitleFromMetadata(filepath: string, metadata: map<string, string>)
    requires "title" in metadata && metadata["title"] != []
    ensures ExtractPdfTitle(filepath, metadata) == Shorten(metadata["title"])
  {
  }

  /** Cutting a title adds no directory separator. */
  lemma ShortenNoSeparator(title: string)
    requires NoSeparator(title)
    ensures NoSeparator(Shorten(title))
  {
    if |title| > MaxTitleLength {
      var r := Shorten(title);
      forall i | 0 <= i < |r|
        ensures r[i] != '/'
      {
        if i < MaxTitleLength {
          assert r[i] == title[i];
        }
      }
    }
  }

  /** Without a usable metadata title, the title comes from the file name:
      it is the base name shortened, and holds no directory separator. */
  lemma TitleFromFileName(filepath: string, metadata: map<string, string>)
    requires "title" !in metadata || metadata["title"] == []
    ensures ExtractPdfTitle(filepath, metadata) == Shorten(BaseName(filepath))
    ensures NoSeparator(ExtractPdfTitle(filepath, metadata))
  {
    assert CandidateTitle(filepath, metadata) == BaseName(filepath);
    ShortenNoSeparator(BaseName(filepath));
  }

  /** update_title_label: the label text is the title followed by ".pdf". */
  function TitleLabel(title: string): (r: string)
    ensures |r| == |title| + |LabelSuffix|
    ensures r[..|title|] == title && r[|title|..] == LabelSuffix
  {
    title + LabelSuffix
  }

  /** The suffix is appended even when the title came from a file name that
      already ends in ".pdf", so such a label ends in ".pdf.pdf". */
  lemma DoubleSuffix(filepath: string, metadata: map<string, string>, stem: string)
    requires "title" !in metadata || metadata["title"] == []
    requires BaseName(filepath) == stem + LabelSuffix
    requires |stem| + |LabelSuffix| <= MaxTitleLength
    ensures TitleLabel(ExtractPdfTitle(filepath, metadata)) == stem + LabelSuffix + LabelSuffix
  {
    TitleFromFileName(filepath, metadata);
  }

  /** A metadata title "Report" gives the label "Report.pdf". */
  lemma MetadataTitleExample()
    ensures TitleLabel(ExtractPdfTitle("/home/user/report-final.pdf", map["title" := "Report"])) == "Report.pdf"
  {
    TitleFromMetadata("/home/user/report-final.pdf", map["title" := "Report"]);
  }

  /** A 40-character title is cut to its first 30 characters and "...". */
  lemma LongTitleExample()
    ensures ExtractPdfTitle("a.pdf", map["title" := "Forty characters of title text, exactly."])
      == "Forty characters of title text..."
  {
    TitleFromMetadata("a.pdf", map["title" := "Forty characters of title text, exactly."]);
  }
}
