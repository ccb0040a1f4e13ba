/** The export panel: the JSON download of the tour configuration and the
    small zip bundle, each saved under a name derived from the tour title. */
module ExportPanel {
  import opened TourTypes
  import opened Lists

  /** The characters the regular-expression class `\s` matches in
      JavaScript: the white-space and line-terminator code points. */
  predicate IsWhitespace(c: char) {
    ('\t' <= c <= '\r') || c == ' ' || c == '\U{A0}' || c == '\U{1680}'
    || ('\U{2000}' <= c <= '\U{200A}') || c == '\U{2028}' || c == '\U{2029}'
    || c == '\U{202F}' || c == '\U{205F}' || c == '\U{3000}' || c == '\U{FEFF}'
  }

  /** The class holds the ASCII blanks and the no-break space, and none of
      the letters, digits or punctuation a file name is made of. */
  lemma WhitespaceClass(c: char)
    ensures c == ' ' || c == '\t' || c == '\n' || c == '\r' || c == '\U{A0}' ==> IsWhitespace(c)
    ensures ('a' <= c <= 'z') || ('A' <= c <= 'Z') || ('0' <= c <= '9') || c == '_' || c == '-' || c == '.' ==> !IsWhitespace(c)
  {
  }

  predicate IsNotWhitespace(c: char) {
    !IsWhitespace(c)
  }

  predicate IsNotUnderscore(c: char) {
    c != '_'
  }

  /** `title.replace(/\s+/g, "_")` read left to right: `inRun` says whether
      the character before `s` was whitespace, so only the first character
      of each maximal whitespace run yields an underscore. */
  function StemFrom(s: string, inRun: bool): (r: string)
    ensures |r| <= |s|
  {
    if s == [] then []
    else if IsWhitespace(s[0]) then (if inRun then [] else "_") + StemFrom(s[1..], true)
    else [s[0]] + StemFrom(s[1..], false)
  }

  /** The file-name stem of a tour title. */
  function Stem(title: string): (r: string)
    ensures |r| <= |title|
  {
    StemFrom(title, false)
  }

  /** The stem holds no whitespace. */
  lemma {:induction false} StemHasNoWhitespace(s: string, inRun: bool)
    ensures forall i :: 0 <= i < |StemFrom(s, inRun)| ==> !IsWhitespace(StemFrom(s, inRun)[i])
  {
    if s != [] {
      StemHasNoWhitespace(s[1..], IsWhitespace(s[0]));
    }
  }

  function JsonFilename(title: string): (r: string)
    ensures r == Stem(title) + "_tour_config.json"
    ensures forall i :: 0 <= i < |r| ==> !IsWhitespace(r[i])
  {
    StemHasNoWhitespace(title, false);
    Stem(title) + "_tour_config.json"
  }

  function ZipFilename(title: string): (r: string)
    ensures r == Stem(title) + "_tour_export.zip"
    ensures forall i :: 0 <= i < |r| ==> !IsWhitespace(r[i])
  {
    StemHasNoWhitespace(title, false);
    Stem(title) + "_tour_export.zip"
  }

  // ---------------------------------------------------------------------
  // Properties of the stem.
  // ---------------------------------------------------------------------

  /** A title without whitespace is its own stem. */
  lemma {:induction false} StemOfPlainTitle(title: string, inRun: bool)
    requires forall i :: 0 <= i < |title| ==> !IsWhitespace(title[i])
    ensures StemFrom(title, inRun) == title
  {
    if title != [] {
      StemOfPlainTitle(title[1..], false);
    }
  }

  /** Inside a run, further whitespace adds nothing. */
  lemma {:induction false} StemInsideRun(run: string)
    requires forall i :: 0 <= i < |run| ==> IsWhitespace(run[i])
    ensures StemFrom(run, true) == []
  {
    if run != [] {
      StemInsideRun(run[1..]);
    }
  }

  /** A non-empty run of whitespace alone becomes a single underscore. */
  lemma StemOfWhitespaceRun(run: string)
    requires run != [] && forall i :: 0 <= i < |run| ==> IsWhitespace(run[i])
    ensures Stem(run) == "_"
  {
    StemInsideRun(run[1..]);
  }

  /** The step of StemKeepsText for a string that starts with whitespace. */
  lemma KeepsTextAfterSpace(s: string, inRun: bool)
    requires s != [] && IsWhitespace(s[0])
    requires Filter(StemFrom(s[1..], true), IsNotUnderscore)
          == Filter(Filter(s[1..], IsNotWhitespace), IsNotUnderscore)
    ensures Filter(StemFrom(s, inRun), IsNotUnderscore)
         == Filter(Filter(s, IsNotWhitespace), IsNotUnderscore)
  {
    var lead: string := if inRun then [] else "_";
    assert StemFrom(s, inRun) == lead + StemFrom(s[1..], true);
    assert Filter(lead, IsNotUnderscore) == [] by {
      FilterSingleton('_', IsNotUnderscore);
    }
    FilterAppend(lead, StemFrom(s[1..], true), IsNotUnderscore);
    assert Filter(s, IsNotWhitespace) == Filter(s[1..], IsNotWhitespace);
  }

  /** The step of StemKeepsText for a string that starts with another
      character. */
  lemma KeepsTextAfterChar(s: string, inRun: bool)
    requires s != [] && !IsWhitespace(s[0])
    requires Filter(StemFrom(s[1..], false), IsNotUnderscore)
          == Filter(Filter(s[1..], IsNotWhitespace), IsNotUnderscore)
    ensures Filter(StemFrom(s, inRun), IsNotUnderscore)
         == Filter(Filter(s, IsNotWhitespace), IsNotUnderscore)
  {
    var c, rest := s[0], s[1..];
    assert StemFrom(s, inRun) == [c] + StemFrom(rest, false);
    FilterAppend([c], StemFrom(rest, false), IsNotUnderscore);
    assert Filter(s, IsNotWhitespace) == [c] + Filter(rest, IsNotWhitespace);
    FilterAppend([c], Filter(rest, IsNotWhitespace), IsNotUnderscore);
  }

  /** Nothing but whitespace disappears, and nothing but underscores appears:
      apart from underscores, the stem is the title's non-whitespace
      characters in their original order. */
  lemma {:induction false} StemKeepsText(s: string, inRun: bool)
    ensures Filter(StemFrom(s, inRun), IsNotUnderscore)
         == Filter(Filter(s, IsNotWhitespace), IsNotUnderscore)
  {
    if s == [] {
    } else if IsWhitespace(s[0]) {
      StemKeepsText(s[1..], true);
      KeepsTextAfterSpace(s, inRun);
    } else {
      StemKeepsText(s[1..], false);
      KeepsTextAfterChar(s, inRun);
    }
  }

  /** Whether the text read so far ends inside a whitespace run. */
  function EndsInRun(a: string, inRun: bool): bool {
    if a == [] then inRun else IsWhitespace(a[|a| - 1])
  }

  /** The replacement works left to right: the stem of joined strings is the
      stem of the first part followed by the stem of the second, read on from
      the state the first part ended in. */
  lemma {:induction false} StemFromAppend(a: string, b: string, inRun: bool)
    ensures StemFrom(a + b, inRun) == StemFrom(a, inRun) + StemFrom(b, EndsInRun(a, inRun))
    decreases |a|
  {
    if a == [] {
      assert a + b == b;
    } else {
      var next := IsWhitespace(a[0]);
      assert (a + b)[0] == a[0] && (a + b)[1..] == a[1..] + b;
      StemFromAppend(a[1..], b, next);
      assert EndsInRun(a[1..], next) == EndsInRun(a, inRun);
    }
  }

  /** Titles joined where the first part ends in a non-whitespace character
      have the stems of their parts joined. */
  lemma StemAppend(a: string, b: string)
    requires a == [] || !IsWhitespace(a[|a| - 1])
    ensures Stem(a + b) == Stem(a) + Stem(b)
  {
    StemFromAppend(a, b, false);
  }

  /** Where whitespace meets whitespace at the joint, the two runs merge into
      one underscore: the second part loses its leading underscore. */
  lemma StemAppendMergesRuns(a: string, b: string)
    requires a != [] && IsWhitespace(a[|a| - 1])
    requires b != [] && IsWhitespace(b[0])
    ensures Stem(b) != [] && Stem(a + b) == Stem(a) + Stem(b)[1..]
  {
    var tail := StemFrom(b[1..], true);
    assert EndsInRun(a, false);
    assert Stem(a + b) == Stem(a) + StemFrom(b, true) by {
      StemFromAppend(a, b, false);
    }
    assert StemFrom(b, true) == tail;
    assert Stem(b) == "_" + tail;
    assert Stem(b)[1..] == tail;
  }

  // ---------------------------------------------------------------------
  // The two download handlers.
  // ---------------------------------------------------------------------

  /** The title of the generated page: the tour title, or a fixed one when
      there is no tour or the title is empty. */
  function PageTitle(tour: Option<Tour>): (r: string)
    ensures r != ""
    ensures tour.Some? && tour.value.title != "" ==> r == tour.value.title
    ensures r == "Virtual Tour" || (tour.Some? && r == tour.value.title)
  {
    if tour.Some? && tour.value.title != "" then tour.value.title else "Virtual Tour"
  }

  /** What the bundle's files hold: the page (with its title), the fixed
      stylesheet, the tour configuration, and the fixed viewer script. */
  datatype BundleContent = Page(title: string) | Stylesheet | TourConfig(tour: Tour) | TourScript

  datatype BundleEntry = BundleEntry(path: string, content: BundleContent)

  datatype Download =
    | JsonFile(filename: string, tour: Tour)
    | ZipFile(filename: string, entries: seq<BundleEntry>)

  /** `handleJSONExport`: nothing without a tour; otherwise the tour itself,
      saved under the configuration file name. */
  function JsonExport(tour: Option<Tour>): (r: Option<Download>)
    ensures r.None? <==> tour.None?
    ensures tour.Some? ==> r.value.JsonFile? && r.value.tour == tour.value
    ensures tour.Some? ==> r.value.filename == JsonFilename(tour.value.title)
  {
    if tour.Some? then Some(JsonFile(JsonFilename(tour.value.title), tour.value)) else None
  }

  /** `handleZipExport`: nothing without a tour; otherwise exactly four files,
      saved under the bundle file name. */
  function ZipExport(tour: Option<Tour>): (r: Option<Download>)
    ensures r.None? <==> tour.None?
    ensures tour.Some? ==> r.value.ZipFile? && r.value.filename == ZipFilename(tour.value.title)
    ensures tour.Some? ==> r.value.entries == [BundleEntry("index.html", Page(PageTitle(tour))),
                                               BundleEntry("styles.css", Stylesheet),
                                               BundleEntry("tour-config.js", TourConfig(tour.value)),
                                               BundleEntry("tour.js", TourScript)]
  {
    if tour.None? then None
    else
      Some(ZipFile(ZipFilename(tour.value.title),
                   [BundleEntry("index.html", Page(PageTitle(tour))),
                    BundleEntry("styles.css", Stylesheet),
                    BundleEntry("tour-config.js", TourConfig(tour.value)),
                    BundleEntry("tour.js", TourScript)]))
  }

  predicate IsImagePath(path: string) {
    |path| >= 7 && path[..7] == "images/"
  }

  /** Unlike the full export, the bundle carries no panorama image. */
  lemma ZipHasNoImages(tour: Tour)
    ensures forall e :: e in ZipExport(Some(tour)).value.entries ==> !IsImagePath(e.path)
  {
    var paths := ["index.html", "styles.css", "tour-config.js", "tour.js"];
    forall p | p in paths ensures !IsImagePath(p) {
      assert p[1] != "images/"[1] || p[0] != "images/"[0];
    }
  }
}
