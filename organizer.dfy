/** The smart file organizer: it sorts the files of one source directory into
    category folders (Documents, Images, Screenshots, Receipts, ...) beside
    them, choosing a category from the file's name, extension, MIME type and
    extracted text, renaming on collision and keeping a bounded history of
    the moves it made.

    Everything the program learns from the outside world (whether a file
    exists, the MIME type `mimetypes` guesses, the text a read, OCR or PDF
    scan yields, whether a move succeeds, which names a category folder
    already holds) is an input here. */
module Organizer {
  import opened Wrappers
  import opened Names
  import opened Retention
  import opened Runs

  // ---------------------------------------------------------------------
  // Observations
  // ---------------------------------------------------------------------

  /** One entry of the source directory and what the outside world reports
      about it: `content` is a UTF-8 read of the file (None when it fails),
      `ocrText` what OCR returns (None when PIL or tesseract is missing or
      fails), `pdfText` what the PDF scan returns before truncation,
      `moveOk` whether moving it succeeds, and `saveOk` whether the history
      save that follows its move succeeds. */
  datatype FileEntry = FileEntry(
    name: string,
    parent: string,
    isFile: bool,
    present: bool,
    mimeGuess: Option<string>,
    content: Option<string>,
    ocrText: Option<string>,
    pdfText: Option<string>,
    moveOk: bool,
    saveOk: bool)

  /** The facts `categorize` looks at; `category` is filled in last. */
  datatype FileInfo = FileInfo(
    name: string,
    mimeType: string,
    extension: string,
    extractedText: Option<string>,
    category: Option<Folder>)

  // ---------------------------------------------------------------------
  // ContentExtractor
  // ---------------------------------------------------------------------

  datatype Extractor = TextReader | ImageOcr | PdfScanner

  const Extractors: map<string, Extractor> := map[
    "text/plain" := TextReader,
    "text/markdown" := TextReader,
    "text/html" := TextReader,
    "text/css" := TextReader,
    "text/javascript" := TextReader,
    "application/json" := TextReader,
    "application/xml" := TextReader,
    "image/png" := ImageOcr,
    "image/jpeg" := ImageOcr,
    "image/webp" := ImageOcr,
    "image/gif" := ImageOcr,
    "application/pdf" := PdfScanner]

  /** Extensions read as text when the MIME type has no extractor of its own. */
  const TextExtensions: set<string> := {
    ".txt", ".md", ".json", ".xml", ".yaml", ".yml", ".csv", ".log", ".py",
    ".js", ".html", ".css", ".sh", ".bash", ".zsh", ".conf", ".cfg", ".ini"}

  /** Which extractor `extract` runs: the MIME type decides first; only
      when it has no extractor does the lower-cased suffix choose the text
      reader. OCR and the PDF scanner are reached by MIME type alone. */
  function ExtractorFor(mime: string, name: string): (r: Option<Extractor>)
    ensures r == Some(PdfScanner) <==> mime == "application/pdf"
    ensures r == Some(ImageOcr) <==> mime in {"image/png", "image/jpeg", "image/webp", "image/gif"}
    ensures r.None? <==> mime !in Extractors && Lower(Suffix(name)) !in TextExtensions
  {
    if mime in Extractors then Some(Extractors[mime])
    else if Lower(Suffix(name)) in TextExtensions then Some(TextReader)
    else None
  }

  /** Python's `s[:n]` applied to an optional string. */
  function Truncated(s: Option<string>, n: nat): (r: Option<string>)
    ensures r.Some? <==> s.Some?
    ensures r.Some? ==> |r.value| == (if |s.value| <= n then |s.value| else n) && r.value <= s.value
  {
    match s
    case None => None
    case Some(t) => Some(if |t| <= n then t else t[..n])
  }

  /** `ContentExtractor.extract`: the chosen extractor's output, cut to
      5000 characters (2000 for OCR); nothing when no extractor applies. */
  function Extract(entry: FileEntry, mime: string): (r: Option<string>)
    ensures ExtractorFor(mime, entry.name).None? ==> r.None?
    ensures r.Some? ==> |r.value| <= 5000
    ensures ExtractorFor(mime, entry.name) == Some(ImageOcr) ==> r == Truncated(entry.ocrText, 2000)
    ensures ExtractorFor(mime, entry.name) == Some(PdfScanner) ==> r == Truncated(entry.pdfText, 5000)
    ensures ExtractorFor(mime, entry.name) == Some(TextReader) ==> r == Truncated(entry.content, 5000)
  {
    match ExtractorFor(mime, entry.name)
    case None => None
    case Some(TextReader) => Truncated(entry.content, 5000)
    case Some(ImageOcr) => Truncated(entry.ocrText, 2000)
    case Some(PdfScanner) => Truncated(entry.pdfText, 5000)
  }

  // ---------------------------------------------------------------------
  // FileCategorizer
  // ---------------------------------------------------------------------

  const ImageExtensions: set<string> := {".jpg", ".jpeg", ".png", ".gif", ".webp", ".bmp", ".svg", ".ico"}

  /** The folders `categorize` chooses from: the `CATEGORIES` keys in
      declaration order, then the two it names outside the table. */
  datatype Folder =
    | Documents | Spreadsheets | Presentations | Images | Screenshots | Videos | Audio
    | Archives | Code | Web | Data | Executables | Fonts | Ebooks | Receipts | Miscellaneous
  {
    /** The folder's name in the source directory. */
    function Name(): string {
      match this
      case Documents => "Documents"
      case Spreadsheets => "Spreadsheets"
      case Presentations => "Presentations"
      case Images => "Images"
      case Screenshots => "Screenshots"
      case Videos => "Videos"
      case Audio => "Audio"
      case Archives => "Archives"
      case Code => "Code"
      case Web => "Web"
      case Data => "Data"
      case Executables => "Executables"
      case Fonts => "Fonts"
      case Ebooks => "Ebooks"
      case Receipts => "Receipts"
      case Miscellaneous => "Miscellaneous"
    }
  }

  /** `CATEGORIES`, in declaration order. */
  const Categories: seq<Listing<Folder>> := [
    Listing(Documents, {".pdf", ".doc", ".docx", ".odt", ".rtf", ".tex"}),
    Listing(Spreadsheets, {".xls", ".xlsx", ".ods", ".csv", ".tsv"}),
    Listing(Presentations, {".ppt", ".pptx", ".odp", ".key"}),
    Listing(Images, ImageExtensions),
    Listing(Screenshots, {}),
    Listing(Videos, {".mp4", ".avi", ".mov", ".mkv", ".webm", ".flv"}),
    Listing(Audio, {".mp3", ".wav", ".flac", ".aac", ".ogg", ".m4a"}),
    Listing(Archives, {".zip", ".tar", ".gz", ".bz2", ".7z", ".rar", ".xz"}),
    Listing(Code, {".py", ".js", ".ts", ".java", ".cpp", ".c", ".h", ".go", ".rs", ".rb", ".php"}),
    Listing(Web, {".html", ".htm", ".css", ".scss", ".sass", ".less"}),
    Listing(Data, {".json", ".xml", ".yaml", ".yml", ".sql", ".db"}),
    Listing(Executables, {".exe", ".msi", ".dmg", ".pkg", ".deb", ".rpm", ".appimage"}),
    Listing(Fonts, {".ttf", ".otf", ".woff", ".woff2", ".eot"}),
    Listing(Ebooks, {".epub", ".mobi", ".azw", ".azw3"})]

  const ScreenshotPatterns: seq<string> := [
    "screenshot", "screen shot", "screencapture", "capture",
    "img_", "image_", "photo_", "pic_", "screen"]

  const ReceiptPatterns: seq<string> := [
    "receipt", "invoice", "bill", "payment", "order", "purchase",
    "transaction", "total", "tax", "subtotal", "amount due"]

  /** Extensions the `text/` branch calls code. */
  const CodeExtensions: seq<string> := [".py", ".js", ".ts", ".java", ".cpp", ".c", ".go", ".rs"]

  predicate LooksLikeScreenshot(name: string) {
    ContainsAny(Lower(name), ScreenshotPatterns)
  }

  /** `extracted_text or ''`, lower-cased, mentions a receipt keyword. */
  predicate MentionsReceipt(text: Option<string>) {
    ContainsAny(Lower(text.GetOr("")), ReceiptPatterns)
  }

  /** `FileCategorizer.categorize`: screenshot names, then receipt images,
      then the extension table, then the MIME type, then `Miscellaneous`. */
  function Categorize(info: FileInfo): Folder {
    var ext := Lower(info.extension);
    if LooksLikeScreenshot(info.name) then Screenshots
    else if ext in ImageExtensions && MentionsReceipt(info.extractedText) then Receipts
    else match FirstListing(Categories, ext)
      case Some(c) => c
      case None =>
        var mime := info.mimeType;
        if mime == "" then Miscellaneous
        else if StartsWith(mime, "image/") then Images
        else if StartsWith(mime, "video/") then Videos
        else if StartsWith(mime, "audio/") then Audio
        else if mime == "application/pdf" then
          if MentionsReceipt(info.extractedText) then Receipts else Documents
        else if StartsWith(mime, "text/") then
          if ext in CodeExtensions then Code else Documents
        else Miscellaneous
  }

  /** A screenshot-like name wins over everything else, and it is the only
      way to the Screenshots folder: the table lists no extension for it. */
  lemma ScreenshotsExactly(info: FileInfo)
    ensures Categorize(info) == Screenshots <==> LooksLikeScreenshot(info.name)
  {
    TableHasNoScreenshots(Lower(info.extension));
  }

  /** No extension leads the table to Screenshots. */
  lemma TableHasNoScreenshots(ext: string)
    ensures FirstListing(Categories, ext) != Some(Screenshots)
  {
    forall i | 0 <= i < |Categories| && Categories[i].category == Screenshots
      ensures Categories[i].exts == {}
    {
      assert i == 4;
    }
    FirstListingNever(Categories, ext, Screenshots);
  }

  /** An image that is not a screenshot goes to Receipts when its text
      mentions a receipt keyword. */
  lemma ReceiptImage(info: FileInfo)
    requires !LooksLikeScreenshot(info.name)
    requires Lower(info.extension) in ImageExtensions
    requires MentionsReceipt(info.extractedText)
    ensures Categorize(info) == Receipts
  {
  }

  /** Otherwise a listed extension decides, and the first category in
      declaration order that lists it wins. */
  lemma ExtensionTableDecides(info: FileInfo, i: nat)
    requires !LooksLikeScreenshot(info.name)
    requires !(Lower(info.extension) in ImageExtensions && MentionsReceipt(info.extractedText))
    requires i < |Categories| && Lower(info.extension) in Categories[i].exts
    requires forall j :: 0 <= j < i ==> Lower(info.extension) !in Categories[j].exts
    ensures Categorize(info) == Categories[i].category
  {
    FirstListingIsFirst(Categories, Lower(info.extension), i);
  }

  /** An unlisted extension leaves the decision to the MIME type: `image/`,
      `video/` and `audio/` types go to Images, Videos and Audio. */
  lemma MediaMimeTypes(info: FileInfo)
    requires !LooksLikeScreenshot(info.name)
    requires forall i :: 0 <= i < |Categories| ==> Lower(info.extension) !in Categories[i].exts
    ensures StartsWith(info.mimeType, "image/") ==> Categorize(info) == Images
    ensures StartsWith(info.mimeType, "video/") ==> Categorize(info) == Videos
    ensures StartsWith(info.mimeType, "audio/") ==> Categorize(info) == Audio
  {
    var mime := info.mimeType;
    assert Lower(info.extension) !in Categories[3].exts;
    assert FirstListing(Categories, Lower(info.extension)).None?;
    if StartsWith(mime, "video/") {
      assert mime[0] == 'v';
    }
    if StartsWith(mime, "audio/") {
      assert mime[0] == 'a';
    }
  }

  /** With an unlisted extension and a MIME type of none of those kinds, a PDF is a
      receipt exactly when its text says so and a document otherwise, text
      is code for the listed code extensions and a document otherwise (the
      code case never arises: see `TextMimeIsDocument`), and
      a MIME type no branch knows gives Miscellaneous. */
  lemma MimeTypeDecides(info: FileInfo)
    requires !LooksLikeScreenshot(info.name)
    requires forall i :: 0 <= i < |Categories| ==> Lower(info.extension) !in Categories[i].exts
    ensures info.mimeType == "application/pdf" ==>
      (Categorize(info) == Receipts <==> MentionsReceipt(info.extractedText))
    ensures info.mimeType == "application/pdf" && !MentionsReceipt(info.extractedText) ==>
      Categorize(info) == Documents
    ensures StartsWith(info.mimeType, "text/") ==>
      Categorize(info) == (if Lower(info.extension) in CodeExtensions then Code else Documents)
    ensures info.mimeType == "" ==> Categorize(info) == Miscellaneous
    ensures (!StartsWith(info.mimeType, "image/") && !StartsWith(info.mimeType, "video/")
             && !StartsWith(info.mimeType, "audio/") && !StartsWith(info.mimeType, "text/")
             && info.mimeType != "application/pdf") ==> Categorize(info) == Miscellaneous
  {
    var mime := info.mimeType;
    assert Lower(info.extension) !in Categories[3].exts;
    assert FirstListing(Categories, Lower(info.extension)).None?;
    if mime == "application/pdf" {
      assert !StartsWith(mime, "image/") && !StartsWith(mime, "video/") by { assert mime[0] == 'a'; }
      assert !StartsWith(mime, "audio/") by { assert mime[1] == 'p'; }
    }
    if StartsWith(mime, "text/") {
      assert mime[0] == 't';
      assert !StartsWith(mime, "image/") && !StartsWith(mime, "video/") && !StartsWith(mime, "audio/");
      assert mime != "application/pdf";
    }
  }

  /** The `text/` branch never answers Code: every extension it checks is
      already claimed by the table's Code row, so a file that reaches the
      MIME test has none of them, and its text type makes it a Document. */
  lemma TextMimeIsDocument(info: FileInfo)
    requires !LooksLikeScreenshot(info.name)
    requires forall i :: 0 <= i < |Categories| ==> Lower(info.extension) !in Categories[i].exts
    ensures Lower(info.extension) !in CodeExtensions
    ensures StartsWith(info.mimeType, "text/") ==> Categorize(info) == Documents
  {
    assert Categories[8].category == Code;
    assert forall x :: x in CodeExtensions ==> x in Categories[8].exts;
    MimeTypeDecides(info);
  }

  /** A `.pdf` file that is not a screenshot is always a Document: the table
      claims the extension before the PDF receipt test is reached. */
  lemma PdfExtensionIsDocument(info: FileInfo)
    requires !LooksLikeScreenshot(info.name)
    requires Lower(info.extension) == ".pdf"
    ensures Categorize(info) == Documents
  {
    FirstListingIsFirst(Categories, ".pdf", 0);
  }

  // ---------------------------------------------------------------------
  // FileOrganizer: ignore rules
  // ---------------------------------------------------------------------

  const LogName: string := ".organizer.log.json"

  const IgnoredPatterns: seq<string> := [
    LogName, ".DS_Store", "Thumbs.db", ".localized", ".git", ".gitignore",
    ".env", ".venv", "node_modules", "__pycache__",
    "*.tmp", "*.temp", "*.part", "*.crdownload"]

  /** `fnmatch` for the two pattern shapes in the list: `*.ext` matches every
      name ending in `.ext`, any other pattern only the identical name. */
  predicate Matches(name: string, pattern: string) {
    if |pattern| >= 1 && pattern[0] == '*' then EndsWith(name, pattern[1..]) else name == pattern
  }

  /** `FileOrganizer._should_ignore`: a pattern matches, or the name is hidden. */
  predicate ShouldIgnore(name: string) {
    || (exists k :: 0 <= k < |IgnoredPatterns| && Matches(name, IgnoredPatterns[k]))
    || (StartsWith(name, ".") && name != LogName)
  }

  /** Hidden names, three plain names and four partial-download suffixes. */
  predicate IgnoredShape(name: string) {
    || StartsWith(name, ".")
    || name == "Thumbs.db" || name == "node_modules" || name == "__pycache__"
    || EndsWith(name, ".tmp") || EndsWith(name, ".temp")
    || EndsWith(name, ".part") || EndsWith(name, ".crdownload")
  }

  lemma PatternShape(name: string, k: nat)
    requires k < |IgnoredPatterns| && Matches(name, IgnoredPatterns[k])
    ensures IgnoredShape(name)
  {
    var p := IgnoredPatterns[k];
    if k == 2 || k == 8 || k == 9 {
      assert name == p;
    } else if k < 10 {
      assert p[0] == '.' && name == p;
      assert StartsWith(name, ".");
    } else if k == 10 {
      assert p[1..] == ".tmp";
    } else if k == 11 {
      assert p[1..] == ".temp";
    } else if k == 12 {
      assert p[1..] == ".part";
    } else {
      assert p[1..] == ".crdownload";
    }
  }

  /** Only hidden names, three plain names and the four partial-download
      suffixes are ignored. */
  lemma IgnoredHasShape(name: string)
    requires ShouldIgnore(name)
    ensures IgnoredShape(name)
  {
    if !StartsWith(name, ".") {
      var k :| 0 <= k < |IgnoredPatterns| && Matches(name, IgnoredPatterns[k]);
      PatternShape(name, k);
    }
  }

  /** Every name of those shapes is ignored, the log file through its own
      pattern and the other hidden names through the hidden-name rule. */
  lemma ShapeIsIgnored(name: string)
    requires IgnoredShape(name)
    ensures ShouldIgnore(name)
  {
    if name == LogName {
      assert Matches(name, IgnoredPatterns[0]);
    } else if StartsWith(name, ".") {
    } else if name == "Thumbs.db" {
      assert Matches(name, IgnoredPatterns[2]);
    } else if name == "node_modules" {
      assert Matches(name, IgnoredPatterns[8]);
    } else if name == "__pycache__" {
      assert Matches(name, IgnoredPatterns[9]);
    } else if EndsWith(name, ".tmp") {
      assert Matches(name, IgnoredPatterns[10]);
    } else if EndsWith(name, ".temp") {
      assert Matches(name, IgnoredPatterns[11]);
    } else if EndsWith(name, ".part") {
      assert Matches(name, IgnoredPatterns[12]);
    } else {
      assert Matches(name, IgnoredPatterns[13]);
    }
  }

  /** `_should_ignore` holds of exactly the names of those shapes. */
  lemma IgnoredExactly(name: string)
    ensures ShouldIgnore(name) <==> IgnoredShape(name)
  {
    if ShouldIgnore(name) {
      IgnoredHasShape(name);
    }
    if IgnoredShape(name) {
      ShapeIsIgnored(name);
    }
  }

  // ---------------------------------------------------------------------
  // FileOrganizer: analysis and destinations
  // ---------------------------------------------------------------------

  /** `_analyze_file`: the MIME guess (octet-stream when there is none), the
      suffix, the extracted text, and the category decided from them. */
  function AnalyzeFile(entry: FileEntry): (r: FileInfo)
    ensures r.name == entry.name && r.extension == Suffix(entry.name)
    ensures r.mimeType != ""
    ensures entry.mimeGuess.Some? && entry.mimeGuess.value != "" ==> r.mimeType == entry.mimeGuess.value
    ensures entry.mimeGuess.None? || entry.mimeGuess.value == "" ==> r.mimeType == "application/octet-stream"
    ensures r.extractedText == Extract(entry, r.mimeType)
    ensures r.category == Some(Categorize(r.(category := None)))
  {
    var mime := if entry.mimeGuess.Some? && entry.mimeGuess.value != "" then entry.mimeGuess.value
                else "application/octet-stream";
    var info := FileInfo(entry.name, mime, Suffix(entry.name), Extract(entry, mime), None);
    info.(category := Some(Categorize(info)))
  }

  /** The category `organize_file` compares with the parent folder. */
  function CategoryOf(entry: FileEntry): string {
    AnalyzeFile(entry).category.GetOr(Miscellaneous).Name()
  }

  /** Where a move would put a file: its category folder and a name. */
  datatype Destination = Destination(folder: string, name: string)

  /** `_get_destination`: the category folder (Miscellaneous if none) and
      the first of `name`, `stem_001suffix`, `stem_002suffix`, ... that the
      folder does not already hold (`taken`). */
  method GetDestination(info: FileInfo, taken: set<string>) returns (dest: Destination)
    ensures dest.folder == info.category.GetOr(Miscellaneous).Name()
    ensures FirstFree(info.name, 3, taken, dest.name)
    ensures info.name !in taken ==> dest.name == info.name
  {
    var category := info.category.GetOr(Miscellaneous).Name();
    var name := FirstFreeName(info.name, taken, 3);
    dest := Destination(category, name);
  }

  /** One entry of the organization history. */
  datatype Record = Record(source: string, destFolder: string, destName: string, category: string, dryRun: bool)

  /** How many records carry category `c`. */
  function CountCategory(rs: seq<Record>, c: string): nat {
    if rs == [] then 0
    else CountCategory(rs[..|rs| - 1], c) + (if rs[|rs| - 1].category == c then 1 else 0)
  }

  /** The per-category summary `organize_all` builds: a key for each
      category that occurs, with the number of records carrying it. */
  method TallyCategories(results: seq<Record>) returns (counts: map<string, nat>)
    ensures forall c :: c in counts <==> CountCategory(results, c) > 0
    ensures forall c :: c in counts ==> counts[c] == CountCategory(results, c)
  {
    counts := map[];
    for i := 0 to |results|
      invariant forall c :: c in counts <==> CountCategory(results[..i], c) > 0
      invariant forall c :: c in counts ==> counts[c] == CountCategory(results[..i], c)
    {
      assert results[..i + 1][..i] == results[..i];
      var c := results[i].category;
      counts := counts[c := (if c in counts then counts[c] else 0) + 1];
    }
    assert results[..|results|] == results;
  }

  /** Entries `organize_all` hands to `organize_file`: files that are not ignored. */
  function ToOrganize(listing: seq<FileEntry>): (r: seq<FileEntry>)
    ensures |r| <= |listing|
    ensures forall e :: e in r <==> e in listing && e.isFile && !ShouldIgnore(e.name)
  {
    if listing == [] then []
    else
      var last := listing[|listing| - 1];
      ToOrganize(listing[..|listing| - 1]) + (if last.isFile && !ShouldIgnore(last.name) then [last] else [])
  }

  /** The listing loop of `organize_all`: files that are not ignored, in order. */
  method FilesToOrganize(listing: seq<FileEntry>) returns (files: seq<FileEntry>)
    ensures files == ToOrganize(listing)
  {
    files := [];
    for i := 0 to |listing|
      invariant files == ToOrganize(listing[..i])
    {
      assert listing[..i + 1][..i] == listing[..i];
      var item := listing[i];
      if item.isFile && !ShouldIgnore(item.name) {
        files := files + [item];
      }
    }
    assert listing[..|listing|] == listing;
  }

  function Taken(folders: map<string, set<string>>, category: string): set<string> {
    if category in folders then folders[category] else {}
  }

  // ---------------------------------------------------------------------
  // FileOrganizer: what organizing a file and a directory yields
  // ---------------------------------------------------------------------

  /** Whether `organize_file` returns a record for `entry`: the file exists,
      is not ignored, is not already in its category folder and, in a live
      run, moving it succeeds. */
  predicate Moves(dryRun: bool, entry: FileEntry) {
    && entry.present && !ShouldIgnore(entry.name)
    && entry.parent != CategoryOf(entry)
    && (dryRun || entry.moveOk)
  }

  /** The category folders once a live move has put `r.destName` into `r.destFolder`. */
  function Place(folders: map<string, set<string>>, r: Record): map<string, set<string>> {
    folders[r.destFolder := Taken(folders, r.destFolder) + {r.destName}]
  }

  /** `r` is the record `organize_file` returns for `entry` when the category
      folders hold `folders`: the source, its category as destination folder,
      the run's mode and the first free name in that folder. */
  ghost predicate RecordFor(dryRun: bool, folders: map<string, set<string>>, entry: FileEntry, r: Record) {
    && r.source == entry.name
    && r.category == CategoryOf(entry)
    && r.destFolder == CategoryOf(entry)
    && r.dryRun == dryRun
    && FirstFree(entry.name, 3, Taken(folders, CategoryOf(entry)), r.destName)
  }

  /** At most one record fits a file and a state of the folders. */
  lemma RecordForUnique(dryRun: bool)
    ensures forall f, e, a, b :: RecordFor(dryRun, f, e, a) && RecordFor(dryRun, f, e, b) ==> a == b
  {
    forall f, e, a, b | RecordFor(dryRun, f, e, a) && RecordFor(dryRun, f, e, b)
      ensures a == b
    {
      FirstFreeUnique(e.name, 3, Taken(f, CategoryOf(e)), a.destName, b.destName);
    }
  }

  /** `Moves` and `RecordFor` as the values the loop specification takes. */
  function MovesIn(dryRun: bool): FileEntry -> bool {
    e => Moves(dryRun, e)
  }

  ghost function RecordIn(dryRun: bool): (map<string, set<string>>, FileEntry, Record) -> bool {
    (f, e, r) => RecordFor(dryRun, f, e, r)
  }

  /** How one record changes the category folders: a live move adds its
      name to its folder, a dry run changes nothing. */
  function Advance(dryRun: bool): (map<string, set<string>>, Record) -> map<string, set<string>> {
    (f, r) => if dryRun then f else Place(f, r)
  }

  lemma AdvanceIs(dryRun: bool, f: map<string, set<string>>, r: Record)
    ensures Advance(dryRun)(f, r) == if dryRun then f else Place(f, r)
  {
  }

  /** `results` is what the `organize_all` loop collects from `files` when the
      category folders start as `folders`: one record for each file that
      moves, in order, each naming the first free name in the folders as
      the earlier live moves left them. */
  ghost predicate Organized(dryRun: bool, folders: map<string, set<string>>, files: seq<FileEntry>, results: seq<Record>) {
    Collected(MovesIn(dryRun), RecordIn(dryRun), Advance(dryRun), folders, files, results)
  }

  /** The files of `files` that `organize_file` returns a record for, in order. */
  function Moving(dryRun: bool, files: seq<FileEntry>): (r: seq<FileEntry>)
    ensures |r| <= |files|
  {
    Select(MovesIn(dryRun), files)
  }

  /** Exactly the files that move are among `Moving`. */
  lemma MovingExactly(dryRun: bool, files: seq<FileEntry>)
    ensures forall e :: e in Moving(dryRun, files) <==> e in files && Moves(dryRun, e)
  {
    SelectExactly(MovesIn(dryRun), files);
  }

  /** One pass of the loop keeps `Organized`: a file that does not move adds
      nothing, one that moves adds the record computed against the folders
      the earlier records left; those folders then advance by that record. */
  lemma OrganizedStep(dryRun: bool, start: map<string, set<string>>, seen: seq<FileEntry>, results: seq<Record>,
                      entry: FileEntry, results': seq<Record>)
    requires Organized(dryRun, start, seen, results)
    requires !Moves(dryRun, entry) ==> results' == results
    requires Moves(dryRun, entry) ==>
      && |results'| == |results| + 1 && results'[..|results|] == results
      && RecordFor(dryRun, Fold(Advance(dryRun), start, results), entry, results'[|results|])
    ensures Organized(dryRun, start, seen + [entry], results')
    ensures Fold(Advance(dryRun), start, results') ==
      if Moves(dryRun, entry) && !dryRun then Place(Fold(Advance(dryRun), start, results), results'[|results|])
      else Fold(Advance(dryRun), start, results)
  {
    if Moves(dryRun, entry) {
      CollectedTake(MovesIn(dryRun), RecordIn(dryRun), Advance(dryRun), start, seen, results, entry, results');
      AdvanceIs(dryRun, Fold(Advance(dryRun), start, results), results'[|results|]);
    } else {
      CollectedSkip(MovesIn(dryRun), RecordIn(dryRun), Advance(dryRun), start, seen, results, entry);
    }
  }

  /** The `k`-th record belongs to the `k`-th moving file. */
  lemma OrganizedRecords(dryRun: bool, folders: map<string, set<string>>, files: seq<FileEntry>, results: seq<Record>)
    requires Organized(dryRun, folders, files, results)
    ensures |results| == |Moving(dryRun, files)|
    ensures forall k :: 0 <= k < |results| ==>
      && results[k].source == Moving(dryRun, files)[k].name
      && results[k].category == CategoryOf(Moving(dryRun, files)[k])
      && results[k].dryRun == dryRun
  {
    CollectedMatches(MovesIn(dryRun), RecordIn(dryRun), Advance(dryRun), folders, files, results);
    forall k | 0 <= k < |results|
      ensures results[k].source == Moving(dryRun, files)[k].name
      ensures results[k].category == CategoryOf(Moving(dryRun, files)[k])
      ensures results[k].dryRun == dryRun
    {
      assert RecordIn(dryRun)(Fold(Advance(dryRun), folders, results[..k]), Moving(dryRun, files)[k], results[k]);
    }
  }

  /** The loop's outcome is determined by the files and the initial folders. */
  lemma OrganizedUnique(dryRun: bool, folders: map<string, set<string>>, files: seq<FileEntry>,
                        r1: seq<Record>, r2: seq<Record>)
    requires Organized(dryRun, folders, files, r1) && Organized(dryRun, folders, files, r2)
    ensures r1 == r2
  {
    RecordForUnique(dryRun);
    CollectedUnique(MovesIn(dryRun), RecordIn(dryRun), Advance(dryRun), folders, files, r1, r2);
  }

  /** The log file after the live records `results` of the files `moved`
      (paired from the end), starting from `log` with the history `history`:
      each record whose file's save succeeds rewrites the file with the
      newest 100 entries of the history as it then stood; a failed save
      leaves it as it was. */
  function SavedLog(log: Option<seq<Record>>, history: seq<Record>, moved: seq<FileEntry>, results: seq<Record>)
    : Option<seq<Record>>
  {
    if results == [] || moved == [] then log
    else if moved[|moved| - 1].saveOk then Some(KeepLast(history + results, 100))
    else SavedLog(log, history, moved[..|moved| - 1], results[..|results| - 1])
  }

  /** One more record extends `SavedLog` by its own save. */
  lemma SavedLogStep(log: Option<seq<Record>>, history: seq<Record>, moved: seq<FileEntry>, results: seq<Record>,
                     e: FileEntry, results': seq<Record>)
    requires |results'| == |results| + 1 && results'[..|results|] == results
    ensures SavedLog(log, history, moved + [e], results') ==
      if e.saveOk then Some(KeepLast(history + results', 100)) else SavedLog(log, history, moved, results)
  {
    assert (moved + [e])[..|moved|] == moved;
  }

  /** One pass of the loop advances the log file by the pass's own save, if any. */
  lemma SavedLogAdvance(dryRun: bool, log: Option<seq<Record>>, history: seq<Record>, seen: seq<FileEntry>,
                        results: seq<Record>, entry: FileEntry, results': seq<Record>)
    requires !Moves(dryRun, entry) ==> results' == results
    requires Moves(dryRun, entry) ==> |results'| == |results| + 1 && results'[..|results|] == results
    ensures SavedLog(log, history, Moving(dryRun, seen + [entry]), results') ==
      if Moves(dryRun, entry) && entry.saveOk then Some(KeepLast(history + results', 100))
      else SavedLog(log, history, Moving(dryRun, seen), results)
  {
    var sel := Moving(dryRun, seen);
    SelectStep(MovesIn(dryRun), seen, entry);
    if Moves(dryRun, entry) {
      assert Moving(dryRun, seen + [entry]) == sel + [entry];
      SavedLogStep(log, history, sel, results, entry, results');
    } else {
      assert Moving(dryRun, seen + [entry]) == sel;
    }
  }

  /** The log file holds the newest 100 entries of the history as it stood
      at the last successful save (the `k`-th record's), and is unchanged
      when no save succeeded (`k == -1`). */
  lemma {:induction false} SavedLogIsLastSave(log: Option<seq<Record>>, history: seq<Record>,
                                              moved: seq<FileEntry>, results: seq<Record>, k: int)
    requires |moved| == |results|
    requires -1 <= k < |moved|
    requires k >= 0 ==> moved[k].saveOk
    requires forall j :: k < j < |moved| ==> !moved[j].saveOk
    ensures SavedLog(log, history, moved, results) ==
      if k < 0 then log else Some(KeepLast(history + results[..k + 1], 100))
  {
    if results != [] {
      var n := |results| - 1;
      if k == n {
        assert results[..n + 1] == results;
      } else {
        var m, rs := moved[..n], results[..n];
        assert forall j :: k < j < |m| ==> m[j] == moved[j];
        SavedLogIsLastSave(log, history, m, rs, k);
        if k >= 0 {
          assert rs[..k + 1] == results[..k + 1];
        }
      }
    }
  }

  // ---------------------------------------------------------------------
  // FileOrganizer: state
  // ---------------------------------------------------------------------

  class FileOrganizer {
    const dryRun: bool
    /** The in-memory history; it is never truncated. */
    var history: seq<Record>
    /** What `.organizer.log.json` holds; None when it is missing or unreadable. */
    var logFile: Option<seq<Record>>
    /** The names already present in each category folder of the source directory. */
    var folders: map<string, set<string>>

    /** `__init__` with `_load_history`: the history starts as the saved
        file's content, or empty when there is none. */
    constructor (dryRun: bool, logFile: Option<seq<Record>>, folders: map<string, set<string>>)
      ensures this.dryRun == dryRun && this.logFile == logFile && this.folders == folders
      ensures history == logFile.GetOr([])
    {
      this.dryRun := dryRun;
      this.logFile := logFile;
      this.folders := folders;
      history := logFile.GetOr([]);
    }

    /** `_save_history`: the file receives the last 100 records; a failed
        write leaves it as it was. */
    method SaveHistory(writeOk: bool)
      modifies this`logFile
      ensures logFile == if writeOk then Some(KeepLast(history, 100)) else old(logFile)
    {
      if writeOk {
        logFile := Some(KeepLast(history, 100));
      }
    }

    /** `organize_file`: nothing happens to a missing or ignored file, to one
        already in its category folder, or (live) to one whose move fails.
        Otherwise the record names the first free destination; a live run
        also moves the file there, appends the record and saves the history,
        while a dry run changes nothing. */
    method OrganizeFile(entry: FileEntry) returns (r: Option<Record>)
      modifies this
      ensures r.None? <==> !Moves(dryRun, entry)
      ensures r.Some? ==> RecordFor(dryRun, old(folders), entry, r.value)
      ensures history == if r.Some? && !dryRun then old(history) + [r.value] else old(history)
      ensures folders == if r.Some? && !dryRun then Place(old(folders), r.value) else old(folders)
      ensures logFile == if r.Some? && !dryRun && entry.saveOk then Some(KeepLast(history, 100)) else old(logFile)
    {
      if !entry.present || ShouldIgnore(entry.name) {
        return None;
      }
      var info := AnalyzeFile(entry);
      var category := info.category.value.Name();
      if entry.parent == category {
        return None;
      }
      var dest := GetDestination(info, Taken(folders, category));
      if !dryRun {
        if !entry.moveOk {
          return None;
        }
        folders := folders[dest.folder := Taken(folders, dest.folder) + {dest.name}];
      }
      var record := Record(entry.name, dest.folder, dest.name, category, dryRun);
      if !dryRun {
        history := history + [record];
        SaveHistory(entry.saveOk);
      }
      r := Some(record);
    }

    /** One pass of the `organize_all` loop: the record `organize_file`
        returns, if any, joins the results. */
    method OrganizeNext(entry: FileEntry, results: seq<Record>) returns (results': seq<Record>)
      modifies this
      ensures !Moves(dryRun, entry) ==> results' == results
      ensures Moves(dryRun, entry) ==>
        && |results'| == |results| + 1 && results'[..|results|] == results
        && RecordFor(dryRun, old(folders), entry, results'[|results|])
      ensures history == old(history) + (if dryRun then [] else results'[|results|..])
      ensures folders == if Moves(dryRun, entry) && !dryRun then Place(old(folders), results'[|results|]) else old(folders)
      ensures logFile == if Moves(dryRun, entry) && !dryRun && entry.saveOk then Some(KeepLast(history, 100)) else old(logFile)
    {
      var result := OrganizeFile(entry);
      results' := results;
      if result.Some? {
        results' := results + [result.value];
      }
    }

    /** The loop of `organize_all`: each file goes through `organize_file`
        in turn and the records that come back are collected. */
    method OrganizeFiles(files: seq<FileEntry>) returns (results: seq<Record>)
      modifies this
      ensures Organized(dryRun, old(folders), files, results)
      ensures history == old(history) + (if dryRun then [] else results)
      ensures folders == Fold(Advance(dryRun), old(folders), results)
      ensures dryRun ==> folders == old(folders)
      ensures logFile == if dryRun then old(logFile) else SavedLog(old(logFile), old(history), Moving(dryRun, files), results)
    {
      results := [];
      for j := 0 to |files|
        invariant Organized(dryRun, old(folders), files[..j], results)
        invariant history == old(history) + (if dryRun then [] else results)
        invariant folders == Fold(Advance(dryRun), old(folders), results)
        invariant dryRun ==> folders == old(folders)
        invariant logFile == if dryRun then old(logFile) else SavedLog(old(logFile), old(history), Moving(dryRun, files[..j]), results)
      {
        PrefixStep(files, j);
        ghost var before := results;
        results := OrganizeNext(files[j], results);
        OrganizedStep(dryRun, old(folders), files[..j], before, files[j], results);
        SavedLogAdvance(dryRun, old(logFile), old(history), files[..j], before, files[j], results);
        AppendRest(old(history), before, results);
      }
      PrefixAll(files);
    }

    /** `organize_all`: every listed file that is not ignored goes through
        `organize_file`, in listing order; the records that come back are the
        result, a live run's history grows by exactly those records and its
        folders by their destinations, and the category summary counts them. */
    method OrganizeAll(sourceExists: bool, listing: seq<FileEntry>)
      returns (results: seq<Record>, counts: map<string, nat>)
      modifies this
      ensures !sourceExists ==> results == [] && history == old(history) && folders == old(folders) && logFile == old(logFile)
      ensures sourceExists ==> Organized(dryRun, old(folders), ToOrganize(listing), results)
      ensures sourceExists ==> |results| == |Moving(dryRun, ToOrganize(listing))|
      ensures sourceExists ==> forall k :: 0 <= k < |results| ==> results[k].source == Moving(dryRun, ToOrganize(listing))[k].name
      ensures |results| <= |ToOrganize(listing)|
      ensures forall k :: 0 <= k < |results| ==> results[k].dryRun == dryRun
      ensures history == old(history) + (if dryRun then [] else results)
      ensures folders == Fold(Advance(dryRun), old(folders), results)
      ensures dryRun ==> folders == old(folders)
      ensures logFile == if !sourceExists || dryRun then old(logFile)
                         else SavedLog(old(logFile), old(history), Moving(dryRun, ToOrganize(listing)), results)
      ensures forall c :: c in counts <==> CountCategory(results, c) > 0
      ensures forall c :: c in counts ==> counts[c] == CountCategory(results, c)
    {
      results := [];
      counts := map[];
      if !sourceExists {
        return;
      }
      var files := FilesToOrganize(listing);
      results := OrganizeFiles(files);
      OrganizedRecords(dryRun, old(folders), files, results);
      counts := TallyCategories(results);
    }
  }
}
