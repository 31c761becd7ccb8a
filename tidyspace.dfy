/** TidySpace, the workspace cleaner: it looks at the files of a folder such
    as Downloads, suggests keeping, moving or deleting each one from its
    category and age, carries the suggestions out (or only logs them in a
    dry run), counts what it did and keeps a bounded action log.

    Ages, sizes, the current year and month, the names already present in a
    destination folder and whether a filesystem call succeeds are inputs. */
module TidySpace {
  import opened Wrappers
  import opened Names
  import opened Retention

  // ---------------------------------------------------------------------
  // FileCategorizer
  // ---------------------------------------------------------------------

  const ImageExts: set<string> := {".jpg", ".jpeg", ".png", ".gif", ".webp", ".bmp", ".svg", ".ico"}
  const DocExts: set<string> := {".pdf", ".doc", ".docx", ".txt", ".md", ".rtf", ".odt"}
  const ArchiveExts: set<string> := {".zip", ".tar", ".gz", ".tgz", ".bz2", ".rar", ".7z"}
  const InstallerExts: set<string> := {".dmg", ".pkg", ".deb", ".rpm", ".exe", ".msi", ".appimage"}
  const CodeExts: set<string> := {".py", ".js", ".ts", ".java", ".cpp", ".c", ".h", ".go", ".rs", ".rb", ".php"}
  const VideoExts: set<string> := {".mp4", ".mov", ".avi", ".mkv", ".flv", ".wmv"}
  const AudioExts: set<string> := {".mp3", ".wav", ".flac", ".aac", ".ogg", ".m4a"}

  /** The categories `get_category` returns. */
  datatype Category = Images | Documents | Archives | Installers | Code | Videos | Audio | Other {
    /** The category as the program writes it. */
    function Name(): string {
      match this
      case Images => "images"
      case Documents => "documents"
      case Archives => "archives"
      case Installers => "installers"
      case Code => "code"
      case Videos => "videos"
      case Audio => "audio"
      case Other => "other"
    }
  }

  /** The order in which `get_category` tries the extension sets. */
  const CategoryOrder: seq<Listing<Category>> := [
    Listing(Images, ImageExts), Listing(Documents, DocExts),
    Listing(Archives, ArchiveExts), Listing(Installers, InstallerExts),
    Listing(Code, CodeExts), Listing(Videos, VideoExts), Listing(Audio, AudioExts)]

  /** Every category once, in the order of the extension sets. */
  const AllCategories: seq<Category> := [Images, Documents, Archives, Installers, Code, Videos, Audio, Other]

  /** The category of a lower-cased extension: the extension sets tried in turn. */
  function CategoryOfExt(ext: string): Category {
    if ext in ImageExts then Images
    else if ext in DocExts then Documents
    else if ext in ArchiveExts then Archives
    else if ext in InstallerExts then Installers
    else if ext in CodeExts then Code
    else if ext in VideoExts then Videos
    else if ext in AudioExts then Audio
    else Other
  }

  /** `FileCategorizer.get_category`: the category of the lower-cased suffix. */
  function GetCategory(name: string): Category {
    CategoryOfExt(Lower(Suffix(name)))
  }

  /** The if-chain is the first-match lookup in `CategoryOrder`, with
      `other` when no set lists the extension. */
  lemma CategoryIsFirstMatch(ext: string)
    ensures CategoryOfExt(ext) == FirstListing(CategoryOrder, ext).GetOr(Other)
  {
    var t := CategoryOrder;
    assert t[0].exts == ImageExts && t[1].exts == DocExts && t[2].exts == ArchiveExts;
    assert t[3].exts == InstallerExts && t[4].exts == CodeExts && t[5].exts == VideoExts && t[6].exts == AudioExts;
    if ext in ImageExts {
      FirstListingIsFirst(t, ext, 0);
    } else if ext in DocExts {
      FirstListingIsFirst(t, ext, 1);
    } else if ext in ArchiveExts {
      FirstListingIsFirst(t, ext, 2);
    } else if ext in InstallerExts {
      FirstListingIsFirst(t, ext, 3);
    } else if ext in CodeExts {
      FirstListingIsFirst(t, ext, 4);
    } else if ext in VideoExts {
      FirstListingIsFirst(t, ext, 5);
    } else if ext in AudioExts {
      FirstListingIsFirst(t, ext, 6);
    } else {
      assert forall i :: 0 <= i < |t| ==> ext !in t[i].exts;
    }
  }

  /** Names that differ only in letter case get the same category. */
  lemma GetCategoryIgnoresCase(a: string, b: string)
    requires Lower(a) == Lower(b)
    ensures GetCategory(a) == GetCategory(b)
  {
    SuffixLower(a);
    SuffixLower(b);
    assert Lower(Suffix(a)) == Lower(Suffix(b));
  }

  const ScreenshotPatterns: seq<string> := ["screenshot", "screen shot", "screencapture", "capture", "img_"]

  /** `FileCategorizer.is_screenshot`. */
  predicate IsScreenshot(name: string) {
    ContainsAny(Lower(name), ScreenshotPatterns)
  }

  /** "screencapture" adds nothing: any name containing it contains "capture". */
  lemma ScreenshotPatternsReduce(name: string)
    ensures IsScreenshot(name) <==> ContainsAny(Lower(name), ["screenshot", "screen shot", "capture", "img_"])
  {
    var s := Lower(name);
    var reduced := ["screenshot", "screen shot", "capture", "img_"];
    if ContainsAny(s, ScreenshotPatterns) {
      var k :| 0 <= k < 5 && HasSubstring(s, ScreenshotPatterns[k]);
      if k == 2 {
        assert "capture" <= "screencapture"[6..];
        SubstringTransitive(s, "screencapture", "capture");
        assert HasSubstring(s, reduced[2]);
      } else {
        var j := if k < 2 then k else k - 1;
        assert reduced[j] == ScreenshotPatterns[k];
        assert HasSubstring(s, reduced[j]);
      }
    }
    if ContainsAny(s, reduced) {
      var k :| 0 <= k < 4 && HasSubstring(s, reduced[k]);
      var j := if k < 2 then k else k + 1;
      assert ScreenshotPatterns[j] == reduced[k];
      assert HasSubstring(s, ScreenshotPatterns[j]);
    }
  }

  // ---------------------------------------------------------------------
  // Configuration
  // ---------------------------------------------------------------------

  /** The part of the configuration the modelled operations read;
      None stands for a configuration without `global_exclusions`. */
  datatype Config = Config(globalExclusions: Option<seq<string>>)

  const DefaultConfig: Config := Config(Some([".DS_Store", "Thumbs.db", ".localized"]))

  /** `TidySpace.should_exclude`: the name is one of the exclusions. */
  predicate ShouldExclude(config: Config, name: string) {
    name in config.globalExclusions.GetOr([])
  }

  /** Exclusion compares whole names: the defaults exclude exactly three
      names, and a configuration without the list excludes nothing. */
  lemma ExclusionIsExactName(name: string)
    ensures ShouldExclude(DefaultConfig, name) <==> name == ".DS_Store" || name == "Thumbs.db" || name == ".localized"
    ensures !ShouldExclude(Config(None), name)
  {
  }

  // ---------------------------------------------------------------------
  // suggest_action
  // ---------------------------------------------------------------------

  /** The three actions `suggest_action` chooses between. */
  datatype Action = Keep | Move | Delete {
    /** The action as the program writes it. */
    function Name(): string {
      match this
      case Keep => "keep"
      case Move => "move"
      case Delete => "delete"
    }
  }

  datatype Date = Date(year: nat, month: nat)

  /** Which rule produced a suggestion (the reason text, without the
      formatted age). */
  datatype Reason =
    | RecentScreenshot | OldScreenshot | OldInstaller | OldArchive
    | OldImage | OldDocument | VeryOldFile | NoRule

  datatype Suggestion = Suggestion(action: Action, destination: Option<string>, reason: Reason)

  /** `{year}/{month:02d}`. */
  function YearMonth(now: Date): string {
    Digits(now.year) + "/" + ZeroPad(now.month, 2)
  }

  /** `TidySpace.suggest_action` for a file of the given age in days.
      Destinations are the configured paths before `~` is expanded. */
  function SuggestAction(name: string, age: real, now: Date): (r: Suggestion)
    ensures r.destination.Some? <==> r.action == Move
  {
    var category := GetCategory(name);
    if IsScreenshot(name) then
      if age > 7.0 then Suggestion(Move, Some("~/Pictures/Screenshots/" + YearMonth(now)), OldScreenshot)
      else Suggestion(Keep, None, RecentScreenshot)
    else if category == Installers && age > 30.0 then Suggestion(Delete, None, OldInstaller)
    else if category == Archives && age > 60.0 then
      Suggestion(Move, Some("~/Archives/Downloads/" + Digits(now.year)), OldArchive)
    else if category == Images && age > 30.0 then
      Suggestion(Move, Some("~/Pictures/Downloads/" + YearMonth(now)), OldImage)
    else if category == Documents && age > 90.0 then
      Suggestion(Move, Some("~/Documents/Downloaded"), OldDocument)
    else if age > 180.0 then
      Suggestion(Move, Some("~/Archives/OldFiles/" + Digits(now.year)), VeryOldFile)
    else Suggestion(Keep, None, NoRule)
  }

  /** A screenshot is moved exactly when it is older than 7 days and is
      never deleted, whatever its extension. */
  lemma ScreenshotsFirst(name: string, age: real, now: Date)
    requires IsScreenshot(name)
    ensures SuggestAction(name, age, now).action == Move <==> age > 7.0
    ensures SuggestAction(name, age, now).action != Delete
  {
  }

  /** The age rules for other files, as a table in priority order: a rule
      fires when the category matches (or the rule has none) and the age is
      strictly above its threshold. */
  datatype AgeRule = AgeRule(category: Option<Category>, threshold: real, action: Action, reason: Reason)

  const AgeRules: seq<AgeRule> := [
    AgeRule(Some(Installers), 30.0, Delete, OldInstaller),
    AgeRule(Some(Archives), 60.0, Move, OldArchive),
    AgeRule(Some(Images), 30.0, Move, OldImage),
    AgeRule(Some(Documents), 90.0, Move, OldDocument),
    AgeRule(None, 180.0, Move, VeryOldFile)]

  predicate Fires(rule: AgeRule, category: Category, age: real) {
    (rule.category.None? || rule.category.value == category) && age > rule.threshold
  }

  /** For a file that is not a screenshot the first rule that fires decides
      the action and the reason. */
  lemma FirstFiringRuleWins(name: string, age: real, now: Date, i: nat)
    requires !IsScreenshot(name)
    requires i < |AgeRules| && Fires(AgeRules[i], GetCategory(name), age)
    requires forall j :: 0 <= j < i ==> !Fires(AgeRules[j], GetCategory(name), age)
    ensures SuggestAction(name, age, now).action == AgeRules[i].action
    ensures SuggestAction(name, age, now).reason == AgeRules[i].reason
  {
    var c := GetCategory(name);
    if i > 0 { assert !Fires(AgeRules[0], c, age); }
    if i > 1 { assert !Fires(AgeRules[1], c, age); }
    if i > 2 { assert !Fires(AgeRules[2], c, age); }
    if i > 3 { assert !Fires(AgeRules[3], c, age); }
  }

  /** When no rule fires (an age at a threshold does not fire it) the file
      is kept. */
  lemma NoRuleKeeps(name: string, age: real, now: Date)
    requires !IsScreenshot(name)
    requires forall j :: 0 <= j < |AgeRules| ==> !Fires(AgeRules[j], GetCategory(name), age)
    ensures SuggestAction(name, age, now) == Suggestion(Keep, None, NoRule)
  {
    var c := GetCategory(name);
    assert !Fires(AgeRules[0], c, age);
    assert !Fires(AgeRules[1], c, age);
    assert !Fires(AgeRules[2], c, age);
    assert !Fires(AgeRules[3], c, age);
    assert !Fires(AgeRules[4], c, age);
  }

  // ---------------------------------------------------------------------
  // Directory listings
  // ---------------------------------------------------------------------

  /** What `stat` reports: the size in bytes and the age in days. */
  datatype Stat = Stat(size: nat, age: real)

  /** One entry of a directory listing; `stat` is None when `stat` fails. */
  datatype DirEntry = DirEntry(name: string, isFile: bool, stat: Option<Stat>)

  function SizeOf(e: DirEntry): nat {
    if e.stat.Some? then e.stat.value.size else 0
  }

  function AgeOf(e: DirEntry): real {
    if e.stat.Some? then e.stat.value.age else 0.0
  }

  /** An entry both scans count: a file, not excluded, whose `stat` succeeds. */
  predicate Counted(config: Config, e: DirEntry) {
    e.isFile && !ShouldExclude(config, e.name) && e.stat.Some?
  }

  // ---------------------------------------------------------------------
  // find_duplicates
  // ---------------------------------------------------------------------

  /** The counted entries of `xs` of size `s`, in listing order. */
  function SameSize(config: Config, xs: seq<DirEntry>, s: nat): seq<DirEntry> {
    if xs == [] then []
    else
      var last := xs[|xs| - 1];
      SameSize(config, xs[..|xs| - 1], s) + (if Counted(config, last) && SizeOf(last) == s then [last] else [])
  }

  lemma {:induction false} SameSizeMembers(config: Config, xs: seq<DirEntry>, s: nat)
    ensures forall e :: e in SameSize(config, xs, s) ==> e in xs && Counted(config, e) && SizeOf(e) == s
  {
    if xs != [] {
      SameSizeMembers(config, xs[..|xs| - 1], s);
    }
  }

  /** Two counted entries of one size put that size's group at two or more
      entries, with the first of them in it. */
  lemma {:induction false} SharedSizeGroup(config: Config, xs: seq<DirEntry>, i: nat, j: nat)
    requires i < |xs| && j < |xs| && i != j
    requires Counted(config, xs[i]) && Counted(config, xs[j]) && SizeOf(xs[i]) == SizeOf(xs[j])
    ensures |SameSize(config, xs, SizeOf(xs[i]))| >= 2
    ensures xs[i] in SameSize(config, xs, SizeOf(xs[i]))
  {
    var n := |xs| - 1;
    var init := xs[..n];
    if i == n {
      assert init[j] == xs[j];
      SizeGroupHas(config, init, j);
    } else if j == n {
      assert init[i] == xs[i];
      SizeGroupHas(config, init, i);
    } else {
      assert init[i] == xs[i] && init[j] == xs[j];
      SharedSizeGroup(config, init, i, j);
    }
  }

  lemma {:induction false} SizeGroupHas(config: Config, xs: seq<DirEntry>, i: nat)
    requires i < |xs| && Counted(config, xs[i])
    ensures xs[i] in SameSize(config, xs, SizeOf(xs[i]))
  {
    var n := |xs| - 1;
    if i < n {
      assert xs[..n][i] == xs[i];
      SizeGroupHas(config, xs[..n], i);
    }
  }

  /** Appending an entry adds it to its own size's group and to no other. */
  lemma SameSizeAppend(config: Config, xs: seq<DirEntry>, e: DirEntry)
    ensures forall s ::
              SameSize(config, xs + [e], s) ==
              SameSize(config, xs, s) + (if Counted(config, e) && SizeOf(e) == s then [e] else [])
  {
    assert (xs + [e])[..|xs|] == xs;
  }

  /** The sizes of the counted entries of `xs`, each once, in order of
      first appearance. */
  function SizesSeen(config: Config, xs: seq<DirEntry>): seq<nat> {
    if xs == [] then []
    else
      var sizes := SizesSeen(config, xs[..|xs| - 1]);
      var last := xs[|xs| - 1];
      if Counted(config, last) && SizeOf(last) !in sizes then sizes + [SizeOf(last)] else sizes
  }

  lemma SizesSeenAppend(config: Config, xs: seq<DirEntry>, e: DirEntry)
    ensures SizesSeen(config, xs + [e]) ==
            if Counted(config, e) && SizeOf(e) !in SizesSeen(config, xs) then SizesSeen(config, xs) + [SizeOf(e)]
            else SizesSeen(config, xs)
  {
    assert (xs + [e])[..|xs|] == xs;
  }

  /** A size is seen exactly when some counted entry has it, and no size is
      seen twice. */
  lemma {:induction false} SizesSeenExactly(config: Config, xs: seq<DirEntry>)
    ensures forall s :: s in SizesSeen(config, xs) <==> SameSize(config, xs, s) != []
    ensures forall a, b :: 0 <= a < b < |SizesSeen(config, xs)| ==> SizesSeen(config, xs)[a] != SizesSeen(config, xs)[b]
  {
    if xs != [] {
      SizesSeenExactly(config, xs[..|xs| - 1]);
    }
  }

  /** What `find_duplicates` promises of its groups: each holds two or more
      entries and is the whole of its size's group, no two share an entry,
      and every counted entry whose size another counted entry shares is in
      a group. */
  ghost predicate DuplicateGroups(config: Config, listing: seq<DirEntry>, groups: seq<seq<DirEntry>>) {
    && (forall k :: 0 <= k < |groups| ==>
          |groups[k]| >= 2 && groups[k] == SameSize(config, listing, SizeOf(groups[k][0])))
    && (forall k1, k2, e :: 0 <= k1 < |groups| && 0 <= k2 < |groups| && k1 != k2 && e in groups[k1] ==> e !in groups[k2])
    && (forall i, j :: 0 <= i < |listing| && 0 <= j < |listing| && i != j
          && Counted(config, listing[i]) && Counted(config, listing[j])
          && SizeOf(listing[i]) == SizeOf(listing[j])
          ==> exists k :: 0 <= k < |groups| && listing[i] in groups[k])
  }

  /** The first loop of `find_duplicates`: the counted entries filed under
      their size, and the sizes in order of first appearance. */
  method GroupBySize(config: Config, listing: seq<DirEntry>) returns (bySize: map<nat, seq<DirEntry>>, order: seq<nat>)
    ensures forall s :: s in bySize <==> s in order
    ensures order == SizesSeen(config, listing)
    ensures forall a, b :: 0 <= a < b < |order| ==> order[a] != order[b]
    ensures forall s :: s in bySize ==> bySize[s] != [] && bySize[s] == SameSize(config, listing, s)
    ensures forall s :: s !in bySize ==> SameSize(config, listing, s) == []
  {
    bySize, order := map[], [];
    for i := 0 to |listing|
      invariant forall s :: s in bySize <==> s in order
      invariant order == SizesSeen(config, listing[..i])
      invariant forall s :: s in bySize ==> bySize[s] != []
      invariant forall s :: SameSize(config, listing[..i], s) == if s in bySize then bySize[s] else []
    {
      var e := listing[i];
      assert listing[..i + 1] == listing[..i] + [e];
      SameSizeAppend(config, listing[..i], e);
      SizesSeenAppend(config, listing[..i], e);
      if e.isFile && !ShouldExclude(config, e.name) && e.stat.Some? {
        var size := e.stat.value.size;
        if size in bySize {
          bySize := bySize[size := bySize[size] + [e]];
        } else {
          bySize := bySize[size := [e]];
          order := order + [size];
        }
      }
    }
    assert listing[..|listing|] == listing;
    SizesSeenExactly(config, listing);
  }

  /** Whole size groups of two or more, for distinct sizes, covering every
      size shared by two counted entries, are what `DuplicateGroups` asks. */
  lemma GroupsAreDuplicates(config: Config, listing: seq<DirEntry>, bySize: map<nat, seq<DirEntry>>,
                             groups: seq<seq<DirEntry>>, sizes: seq<nat>)
    requires forall s :: s in bySize ==> bySize[s] == SameSize(config, listing, s)
    requires forall s :: s !in bySize ==> SameSize(config, listing, s) == []
    requires |sizes| == |groups|
    requires forall k :: 0 <= k < |groups| ==> sizes[k] in bySize && |groups[k]| >= 2 && groups[k] == bySize[sizes[k]]
    requires forall k1, k2 :: 0 <= k1 < k2 < |sizes| ==> sizes[k1] != sizes[k2]
    requires forall s :: s in bySize && |bySize[s]| >= 2 ==> s in sizes
    ensures DuplicateGroups(config, listing, groups)
  {
    assert forall s :: |SameSize(config, listing, s)| >= 2 ==> s in sizes;
    forall k | 0 <= k < |groups|
      ensures groups[k] == SameSize(config, listing, SizeOf(groups[k][0]))
    {
      SameSizeMembers(config, listing, sizes[k]);
    }
    forall k1, k2, e | 0 <= k1 < |groups| && 0 <= k2 < |groups| && k1 != k2 && e in groups[k1]
      ensures e !in groups[k2]
    {
      SameSizeMembers(config, listing, sizes[k1]);
      SameSizeMembers(config, listing, sizes[k2]);
    }
    forall i, j | 0 <= i < |listing| && 0 <= j < |listing| && i != j
        && Counted(config, listing[i]) && Counted(config, listing[j])
        && SizeOf(listing[i]) == SizeOf(listing[j])
      ensures exists k :: 0 <= k < |groups| && listing[i] in groups[k]
    {
      var s := SizeOf(listing[i]);
      SharedSizeGroup(config, listing, i, j);
      var k :| 0 <= k < |sizes| && sizes[k] == s;
      assert listing[i] in groups[k];
    }
  }

  /** The sizes whose groups hold more than one entry, in order. */
  function LargeSizes(bySize: map<nat, seq<DirEntry>>, order: seq<nat>): seq<nat>
    requires forall s :: s in order ==> s in bySize
  {
    if order == [] then []
    else
      var last := order[|order| - 1];
      LargeSizes(bySize, order[..|order| - 1]) + (if |bySize[last]| > 1 then [last] else [])
  }

  /** `[group for group in files_by_size.values() if len(group) > 1]`. */
  function LargeGroups(bySize: map<nat, seq<DirEntry>>, order: seq<nat>): seq<seq<DirEntry>>
    requires forall s :: s in order ==> s in bySize
  {
    if order == [] then []
    else
      var last := order[|order| - 1];
      LargeGroups(bySize, order[..|order| - 1]) + (if |bySize[last]| > 1 then [bySize[last]] else [])
  }

  /** Each group kept holds more than one entry and is its size's group. */
  lemma {:induction false} LargeGroupsKept(bySize: map<nat, seq<DirEntry>>, order: seq<nat>)
    requires forall s :: s in order ==> s in bySize
    ensures |LargeGroups(bySize, order)| == |LargeSizes(bySize, order)|
    ensures forall k :: 0 <= k < |LargeSizes(bySize, order)| ==>
              LargeSizes(bySize, order)[k] in order
              && |LargeGroups(bySize, order)[k]| >= 2
              && LargeGroups(bySize, order)[k] == bySize[LargeSizes(bySize, order)[k]]
  {
    if order != [] {
      var init := order[..|order| - 1];
      assert forall s :: s in init ==> s in order;
      LargeGroupsKept(bySize, init);
    }
  }

  /** No size is kept twice when the order lists each size once. */
  lemma {:induction false} LargeSizesDistinct(bySize: map<nat, seq<DirEntry>>, order: seq<nat>)
    requires forall s :: s in order ==> s in bySize
    requires forall a, b :: 0 <= a < b < |order| ==> order[a] != order[b]
    ensures forall k1, k2 :: 0 <= k1 < k2 < |LargeSizes(bySize, order)| ==>
              LargeSizes(bySize, order)[k1] != LargeSizes(bySize, order)[k2]
  {
    if order != [] {
      var init := order[..|order| - 1];
      assert forall s :: s in init ==> s in order;
      LargeSizesDistinct(bySize, init);
      LargeGroupsKept(bySize, init);
      assert order[|order| - 1] !in init;
    }
  }

  /** Every listed size with more than one entry is kept. */
  lemma {:induction false} LargeSizesCover(bySize: map<nat, seq<DirEntry>>, order: seq<nat>)
    requires forall s :: s in order ==> s in bySize
    ensures forall s :: s in order && |bySize[s]| >= 2 ==> s in LargeSizes(bySize, order)
  {
    if order != [] {
      var init := order[..|order| - 1];
      assert forall s :: s in init ==> s in order;
      LargeSizesCover(bySize, init);
      assert forall s :: s in order ==> s in init || s == order[|order| - 1];
    }
  }

  /** `TidySpace.find_duplicates`: counted entries grouped by size in a
      dictionary that remembers first-insertion order, then the groups with
      more than one entry. */
  method FindDuplicates(config: Config, listing: seq<DirEntry>) returns (groups: seq<seq<DirEntry>>)
    ensures DuplicateGroups(config, listing, groups)
  {
    var bySize, order := GroupBySize(config, listing);
    groups := LargeGroups(bySize, order);
    LargeGroupsKept(bySize, order);
    LargeSizesDistinct(bySize, order);
    LargeSizesCover(bySize, order);
    GroupsAreDuplicates(config, listing, bySize, groups, LargeSizes(bySize, order));
  }

  // ---------------------------------------------------------------------
  // analyze_directory
  // ---------------------------------------------------------------------

  /** A `{"count", "size"}` entry of `by_category`. */
  datatype Tally = Tally(count: nat, size: nat)

  function Add(a: Tally, b: Tally): Tally {
    Tally(a.count + b.count, a.size + b.size)
  }

  /** `by_category[c]` as the defaultdict reads it: zero when absent. */
  function Get(m: map<Category, Tally>, c: Category): Tally {
    if c in m then m[c] else Tally(0, 0)
  }

  /** The sum of the tallies of the categories in `cats`. */
  function SumTally(m: map<Category, Tally>, cats: seq<Category>): Tally {
    if cats == [] then Tally(0, 0) else Add(Get(m, cats[0]), SumTally(m, cats[1..]))
  }

  lemma {:induction false} SumTallyOutside(m: map<Category, Tally>, cats: seq<Category>, c: Category, t: Tally)
    requires c !in cats
    ensures SumTally(m[c := t], cats) == SumTally(m, cats)
  {
    if cats != [] {
      SumTallyOutside(m, cats[1..], c, t);
    }
  }

  /** The sum reads a map only through `Get`. */
  lemma {:induction false} SumTallyAgree(m1: map<Category, Tally>, m2: map<Category, Tally>, cats: seq<Category>)
    requires forall c :: Get(m1, c) == Get(m2, c)
    ensures SumTally(m1, cats) == SumTally(m2, cats)
  {
    if cats != [] {
      SumTallyAgree(m1, m2, cats[1..]);
    }
  }

  lemma {:induction false} SumTallyEmpty(cats: seq<Category>)
    ensures SumTally(map[], cats) == Tally(0, 0)
  {
    if cats != [] {
      SumTallyEmpty(cats[1..]);
    }
  }

  /** No category is listed twice. */
  predicate Distinct(cats: seq<Category>) {
    cats == [] || (cats[0] !in cats[1..] && Distinct(cats[1..]))
  }

  lemma CategoryListed(c: Category)
    ensures c in AllCategories
  {
    match c
    case Images => assert AllCategories[0] == c;
    case Documents => assert AllCategories[1] == c;
    case Archives => assert AllCategories[2] == c;
    case Installers => assert AllCategories[3] == c;
    case Code => assert AllCategories[4] == c;
    case Videos => assert AllCategories[5] == c;
    case Audio => assert AllCategories[6] == c;
    case Other => assert AllCategories[7] == c;
  }

  /** A category's place in `AllCategories`. */
  function Rank(c: Category): nat {
    match c
    case Images => 0
    case Documents => 1
    case Archives => 2
    case Installers => 3
    case Code => 4
    case Videos => 5
    case Audio => 6
    case Other => 7
  }

  /** Categories whose ranks count up one by one are listed once each. */
  lemma {:induction false} RanksDistinct(cats: seq<Category>, base: nat)
    requires forall i :: 0 <= i < |cats| ==> Rank(cats[i]) == base + i
    ensures Distinct(cats)
  {
    if cats != [] {
      assert forall i :: 0 <= i < |cats[1..]| ==> Rank(cats[1..][i]) == base + 1 + i;
      RanksDistinct(cats[1..], base + 1);
    }
  }

  lemma AllCategoriesDistinct()
    ensures Distinct(AllCategories)
  {
    RanksDistinct(AllCategories, 0);
  }

  /** Replacing one category's tally changes the sum by the difference. */
  lemma {:induction false} SumTallyUpdate(m: map<Category, Tally>, cats: seq<Category>, c: Category, t: Tally)
    requires c in cats && Distinct(cats)
    ensures SumTally(m[c := t], cats).count + Get(m, c).count == SumTally(m, cats).count + t.count
    ensures SumTally(m[c := t], cats).size + Get(m, c).size == SumTally(m, cats).size + t.size
  {
    var rest := cats[1..];
    var m' := m[c := t];
    if cats[0] == c {
      SumTallyOutside(m, rest, c, t);
      assert SumTally(m', cats) == Add(t, SumTally(m', rest));
      assert SumTally(m, cats) == Add(Get(m, c), SumTally(m, rest));
    } else {
      assert c in rest;
      SumTallyUpdate(m, rest, c, t);
      assert Get(m', cats[0]) == Get(m, cats[0]);
      assert SumTally(m', cats) == Add(Get(m, cats[0]), SumTally(m', rest));
      assert SumTally(m, cats) == Add(Get(m, cats[0]), SumTally(m, rest));
    }
  }

  /** The entries `analyze_directory` counts, in listing order. */
  function Kept(config: Config, xs: seq<DirEntry>): seq<DirEntry> {
    if xs == [] then []
    else
      var last := xs[|xs| - 1];
      Kept(config, xs[..|xs| - 1]) + (if Counted(config, last) then [last] else [])
  }

  function SizeSum(xs: seq<DirEntry>): nat {
    if xs == [] then 0 else SizeSum(xs[..|xs| - 1]) + SizeOf(xs[|xs| - 1])
  }

  /** Count and total size of the entries of `xs` in category `c`. */
  function TallyOf(xs: seq<DirEntry>, c: Category): Tally {
    if xs == [] then Tally(0, 0)
    else
      var last := xs[|xs| - 1];
      Add(TallyOf(xs[..|xs| - 1], c), if GetCategory(last.name) == c then Tally(1, SizeOf(last)) else Tally(0, 0))
  }

  /** An `old_files` entry. */
  datatype OldFile = OldFile(name: string, age: real, size: nat)

  function OldFileOf(e: DirEntry): OldFile {
    OldFile(e.name, AgeOf(e), SizeOf(e))
  }

  /** The entries of `xs` older than 30 days, in order. */
  function OldFiles(xs: seq<DirEntry>): seq<OldFile> {
    if xs == [] then []
    else
      var last := xs[|xs| - 1];
      OldFiles(xs[..|xs| - 1]) + (if AgeOf(last) > 30.0 then [OldFileOf(last)] else [])
  }

  /** A `suggested_actions` entry. */
  datatype Planned = Planned(name: string, action: Action, destination: Option<string>, reason: Reason, size: nat)

  function PlanOf(e: DirEntry, now: Date): Planned {
    var s := SuggestAction(e.name, AgeOf(e), now);
    Planned(e.name, s.action, s.destination, s.reason, SizeOf(e))
  }

  /** The suggestions for `xs` other than `keep`, in order. */
  function PlannedOf(xs: seq<DirEntry>, now: Date): seq<Planned> {
    if xs == [] then []
    else
      var last := xs[|xs| - 1];
      PlannedOf(xs[..|xs| - 1], now) + (if PlanOf(last, now).action != Keep then [PlanOf(last, now)] else [])
  }

  /** The counted entries of a non-empty listing: those before its last
      entry, then the last one if it counts. */
  lemma KeptLast(config: Config, xs: seq<DirEntry>)
    requires xs != []
    ensures Counted(config, xs[|xs| - 1]) ==> Kept(config, xs) == Kept(config, xs[..|xs| - 1]) + [xs[|xs| - 1]]
    ensures !Counted(config, xs[|xs| - 1]) ==> Kept(config, xs) == Kept(config, xs[..|xs| - 1])
  {
    var init := Kept(config, xs[..|xs| - 1]);
    assert init + [] == init;
  }

  /** How each aggregate grows by one entry. */
  lemma AppendEntry(ys: seq<DirEntry>, e: DirEntry, now: Date)
    ensures SizeSum(ys + [e]) == SizeSum(ys) + SizeOf(e)
    ensures forall c :: TallyOf(ys + [e], c) == Add(TallyOf(ys, c), if GetCategory(e.name) == c then Tally(1, SizeOf(e)) else Tally(0, 0))
    ensures OldFiles(ys + [e]) == OldFiles(ys) + (if AgeOf(e) > 30.0 then [OldFileOf(e)] else [])
    ensures PlannedOf(ys + [e], now) == PlannedOf(ys, now) + (if PlanOf(e, now).action != Keep then [PlanOf(e, now)] else [])
  {
    assert (ys + [e])[..|ys|] == ys;
  }

  lemma {:induction false} KeptExactly(config: Config, xs: seq<DirEntry>)
    ensures forall e :: e in Kept(config, xs) <==> e in xs && Counted(config, e)
  {
    if xs != [] {
      var n := |xs| - 1;
      KeptExactly(config, xs[..n]);
      assert xs == xs[..n] + [xs[n]];
    }
  }

  lemma {:induction false} OldFilesOf(xs: seq<DirEntry>)
    ensures forall o :: o in OldFiles(xs) <==> exists e :: e in xs && AgeOf(e) > 30.0 && o == OldFileOf(e)
  {
    if xs != [] {
      var n := |xs| - 1;
      OldFilesOf(xs[..n]);
      assert xs == xs[..n] + [xs[n]];
    }
  }

  /** `old_files` holds exactly the counted files older than 30 days. */
  lemma OldFilesExactly(config: Config, listing: seq<DirEntry>)
    ensures forall o :: o in OldFiles(Kept(config, listing)) <==>
      exists e :: e in listing && Counted(config, e) && AgeOf(e) > 30.0 && o == OldFileOf(e)
  {
    KeptExactly(config, listing);
    OldFilesOf(Kept(config, listing));
  }

  /** `suggested_actions` never holds a `keep`, and holds every counted
      file whose suggestion is not `keep`. */
  lemma {:induction false} PlannedNeverKeep(xs: seq<DirEntry>, now: Date)
    ensures forall p :: p in PlannedOf(xs, now) ==> p.action != Keep
    ensures forall e :: e in xs && SuggestAction(e.name, AgeOf(e), now).action != Keep ==> PlanOf(e, now) in PlannedOf(xs, now)
  {
    if xs != [] {
      var n := |xs| - 1;
      PlannedNeverKeep(xs[..n], now);
      assert xs == xs[..n] + [xs[n]];
    }
  }

  /** What the scan loop of `analyze_directory` accumulates. */
  datatype Summary = Summary(
    totalFiles: nat,
    totalSize: nat,
    byCategory: map<Category, Tally>,
    oldFiles: seq<OldFile>,
    suggested: seq<Planned>)

  /** One counted entry added to the running summary. */
  function Step(acc: Summary, e: DirEntry, now: Date): Summary {
    var c := GetCategory(e.name);
    var t := Get(acc.byCategory, c);
    Summary(
      acc.totalFiles + 1,
      acc.totalSize + SizeOf(e),
      acc.byCategory[c := Tally(t.count + 1, t.size + SizeOf(e))],
      acc.oldFiles + (if AgeOf(e) > 30.0 then [OldFileOf(e)] else []),
      acc.suggested + (if PlanOf(e, now).action != Keep then [PlanOf(e, now)] else []))
  }

  lemma StepTotals(acc: Summary, e: DirEntry, now: Date)
    ensures Step(acc, e, now).totalFiles == acc.totalFiles + 1
    ensures Step(acc, e, now).totalSize == acc.totalSize + SizeOf(e)
    ensures Get(Step(acc, e, now).byCategory, GetCategory(e.name)) == Add(Get(acc.byCategory, GetCategory(e.name)), Tally(1, SizeOf(e)))
    ensures forall k :: k != GetCategory(e.name) ==> Get(Step(acc, e, now).byCategory, k) == Get(acc.byCategory, k)
  {
  }

  /** The summary after the loop has seen the entries of `xs`. */
  function Scan(config: Config, xs: seq<DirEntry>, now: Date): Summary {
    if xs == [] then Summary(0, 0, map[], [], [])
    else
      var last := xs[|xs| - 1];
      var acc := Scan(config, xs[..|xs| - 1], now);
      if Counted(config, last) then Step(acc, last, now) else acc
  }

  /** The scan's totals and lists are those of the counted entries. */
  lemma {:induction false} ScanTotals(config: Config, xs: seq<DirEntry>, now: Date)
    ensures Scan(config, xs, now).totalFiles == |Kept(config, xs)|
    ensures Scan(config, xs, now).totalSize == SizeSum(Kept(config, xs))
    ensures Scan(config, xs, now).oldFiles == OldFiles(Kept(config, xs))
    ensures Scan(config, xs, now).suggested == PlannedOf(Kept(config, xs), now)
  {
    if xs != [] {
      var n := |xs| - 1;
      ScanTotals(config, xs[..n], now);
      KeptLast(config, xs);
      if Counted(config, xs[n]) {
        AppendEntry(Kept(config, xs[..n]), xs[n], now);
      }
    }
  }

  /** Every category's tally is the count and size of the counted entries
      in it, and only categories that `get_category` returns appear. */
  lemma {:induction false} ScanTallies(config: Config, xs: seq<DirEntry>, now: Date)
    ensures forall c :: Get(Scan(config, xs, now).byCategory, c) == TallyOf(Kept(config, xs), c)
  {
    if xs != [] {
      var n := |xs| - 1;
      ScanTallies(config, xs[..n], now);
      KeptLast(config, xs);
      if Counted(config, xs[n]) {
        AppendEntry(Kept(config, xs[..n]), xs[n], now);
      }
    }
  }

  /** The loop's step from one prefix of the listing to the next. */
  lemma ScanStep(config: Config, xs: seq<DirEntry>, i: nat, now: Date)
    requires i < |xs|
    ensures Counted(config, xs[i]) ==> Scan(config, xs[..i + 1], now) == Step(Scan(config, xs[..i], now), xs[i], now)
    ensures !Counted(config, xs[i]) ==> Scan(config, xs[..i + 1], now) == Scan(config, xs[..i], now)
  {
    assert xs[..i + 1][..i] == xs[..i];
  }

  /** Counting one more file of category `c` keeps the tallies adding up. */
  lemma TallyAddsUp(m: map<Category, Tally>, cats: seq<Category>, c: Category, size: nat, files: nat, bytes: nat)
    requires Distinct(cats) && c in cats
    requires SumTally(m, cats).count == files && SumTally(m, cats).size == bytes
    ensures SumTally(m[c := Add(Get(m, c), Tally(1, size))], cats).count == files + 1
    ensures SumTally(m[c := Add(Get(m, c), Tally(1, size))], cats).size == bytes + size
  {
    var t' := Add(Get(m, c), Tally(1, size));
    SumTallyUpdate(m, cats, c, t');
    var x := SumTally(m[c := t'], cats);
    assert x.count == files + 1;
    assert x.size == bytes + size;
  }

  /** A step keeps the category tallies adding up to the totals. */
  lemma StepAddsUp(acc: Summary, e: DirEntry, now: Date, cats: seq<Category>)
    requires Distinct(cats) && GetCategory(e.name) in cats
    requires SumTally(acc.byCategory, cats).count == acc.totalFiles
    requires SumTally(acc.byCategory, cats).size == acc.totalSize
    ensures SumTally(Step(acc, e, now).byCategory, cats).count == acc.totalFiles + 1
    ensures SumTally(Step(acc, e, now).byCategory, cats).size == acc.totalSize + SizeOf(e)
  {
    var c := GetCategory(e.name);
    var m := acc.byCategory;
    TallyAddsUp(m, cats, c, SizeOf(e), acc.totalFiles, acc.totalSize);
    StepTotals(acc, e, now);
    SumTallyAgree(Step(acc, e, now).byCategory, m[c := Add(Get(m, c), Tally(1, SizeOf(e)))], cats);
  }

  /** The category tallies add up to the totals, summed over any list that
      names every category once. */
  lemma {:induction false} ScanAddsUp(config: Config, xs: seq<DirEntry>, now: Date, cats: seq<Category>)
    requires Distinct(cats) && forall c: Category :: c in cats
    ensures SumTally(Scan(config, xs, now).byCategory, cats).count == Scan(config, xs, now).totalFiles
    ensures SumTally(Scan(config, xs, now).byCategory, cats).size == Scan(config, xs, now).totalSize
  {
    if xs == [] {
      SumTallyEmpty(cats);
    } else {
      var n := |xs| - 1;
      ScanAddsUp(config, xs[..n], now, cats);
      if Counted(config, xs[n]) {
        StepAddsUp(Scan(config, xs[..n], now), xs[n], now, cats);
      }
    }
  }

  /** What the scan of a whole listing amounts to. */
  lemma ScanOfListing(config: Config, listing: seq<DirEntry>, now: Date)
    ensures var r := Scan(config, listing, now);
      && r.totalFiles == |Kept(config, listing)| && r.totalSize == SizeSum(Kept(config, listing))
      && SumTally(r.byCategory, AllCategories).count == r.totalFiles
      && SumTally(r.byCategory, AllCategories).size == r.totalSize
      && (forall c :: Get(r.byCategory, c) == TallyOf(Kept(config, listing), c))
      && r.oldFiles == OldFiles(Kept(config, listing))
      && r.suggested == PlannedOf(Kept(config, listing), now)
  {
    ScanTotals(config, listing, now);
    ScanTallies(config, listing, now);
    AllCategoriesDistinct();
    forall c: Category ensures c in AllCategories {
      CategoryListed(c);
    }
    ScanAddsUp(config, listing, now, AllCategories);
  }

  datatype Findings = Findings(
    totalFiles: nat,
    totalSize: nat,
    byCategory: map<Category, Tally>,
    oldFiles: seq<OldFile>,
    duplicates: seq<seq<DirEntry>>,
    suggested: seq<Planned>)

  const NoFindings: Findings := Findings(0, 0, map[], [], [], [])

  /** The body of the scan loop for a counted entry: the totals, the
      entry's category tally, the old-file list and the planned actions
      gain what `Step` adds (`StepTotals` spells out the counts). */
  method CountEntry(acc: Summary, e: DirEntry, now: Date) returns (r: Summary)
    requires e.stat.Some?
    ensures r == Step(acc, e, now)
  {
    var size := e.stat.value.size;
    var age := e.stat.value.age;
    var category := GetCategory(e.name);
    var t := Get(acc.byCategory, category);
    r := acc.(totalFiles := acc.totalFiles + 1, totalSize := acc.totalSize + size,
              byCategory := acc.byCategory[category := Tally(t.count + 1, t.size + size)]);
    if age > 30.0 {
      r := r.(oldFiles := r.oldFiles + [OldFile(e.name, age, size)]);
    }
    var s := SuggestAction(e.name, age, now);
    assert PlanOf(e, now) == Planned(e.name, s.action, s.destination, s.reason, size);
    if s.action != Keep {
      r := r.(suggested := r.suggested + [Planned(e.name, s.action, s.destination, s.reason, size)]);
    }
  }

  /** The scan loop of `analyze_directory`: every file that is not excluded
      and whose `stat` succeeds is counted, tallied under its category,
      listed when older than 30 days and planned when its suggestion is not
      `keep`. */
  method ScanListing(config: Config, listing: seq<DirEntry>, now: Date) returns (r: Summary)
    ensures r.totalFiles == |Kept(config, listing)| && r.totalSize == SizeSum(Kept(config, listing))
    ensures SumTally(r.byCategory, AllCategories).count == r.totalFiles
    ensures SumTally(r.byCategory, AllCategories).size == r.totalSize
    ensures forall c :: Get(r.byCategory, c) == TallyOf(Kept(config, listing), c)
    ensures r.oldFiles == OldFiles(Kept(config, listing))
    ensures r.suggested == PlannedOf(Kept(config, listing), now)
  {
    r := Summary(0, 0, map[], [], []);
    for i := 0 to |listing|
      invariant r == Scan(config, listing[..i], now)
    {
      ScanStep(config, listing, i, now);
      var e := listing[i];
      if !e.isFile || ShouldExclude(config, e.name) || e.stat.None? {
        continue;
      }
      r := CountEntry(r, e, now);
    }
    assert listing[..|listing|] == listing;
    ScanOfListing(config, listing, now);
  }

  /** `TidySpace.analyze_directory`: the scan's totals, per-category
      tallies, old files and planned actions, plus the duplicate groups;
      nothing for a missing directory. */
  method AnalyzeDirectory(config: Config, present: bool, listing: seq<DirEntry>, now: Date) returns (f: Findings)
    ensures !present ==> f == NoFindings
    ensures present ==> f.totalFiles == |Kept(config, listing)| && f.totalSize == SizeSum(Kept(config, listing))
    ensures SumTally(f.byCategory, AllCategories).count == f.totalFiles
    ensures SumTally(f.byCategory, AllCategories).size == f.totalSize
    ensures present ==> forall c :: Get(f.byCategory, c) == TallyOf(Kept(config, listing), c)
    ensures present ==> f.oldFiles == OldFiles(Kept(config, listing))
    ensures present ==> f.suggested == PlannedOf(Kept(config, listing), now)
    ensures present ==> DuplicateGroups(config, listing, f.duplicates)
  {
    if !present {
      SumTallyEmpty(AllCategories);
      return NoFindings;
    }
    var r := ScanListing(config, listing, now);
    var duplicates := FindDuplicates(config, listing);
    f := Findings(r.totalFiles, r.totalSize, r.byCategory, r.oldFiles, duplicates, r.suggested);
  }

  // ---------------------------------------------------------------------
  // The cleaner's state: execute_action and _save_log
  // ---------------------------------------------------------------------

  datatype Status = DryRun | Succeeded | Failed

  /** One `actions_log` entry; a failed action records no destination. */
  datatype LogEntry = LogEntry(action: string, source: string, destination: Option<string>, status: Status)

  /** The `moved`, `deleted` and `errors` counters. */
  datatype Stats = Stats(moved: nat, deleted: nat, errors: nat)

  class TidySpace {
    const dryRun: bool
    var actionsLog: seq<LogEntry>
    var stats: Stats
    /** What the log file holds; None when it is missing or not valid JSON. */
    var logFile: Option<seq<LogEntry>>

    constructor (dryRun: bool, logFile: Option<seq<LogEntry>>)
      ensures this.dryRun == dryRun && this.logFile == logFile
      ensures actionsLog == [] && stats == Stats(0, 0, 0)
    {
      this.dryRun := dryRun;
      this.logFile := logFile;
      actionsLog := [];
      stats := Stats(0, 0, 0);
    }

    /** `execute_action` on the file called `source`. A dry run only logs
        `WOULD_<ACTION>`. A live delete, or a move with a destination whose
        folder holds `taken`, runs the filesystem calls; `fsOk` says whether
        they succeed. A move goes to the first free name of `source`,
        `stem_1suffix`, `stem_2suffix`, ... and `movedTo` reports it. */
    method ExecuteAction(source: string, action: Action, destination: Option<string>, taken: set<string>, fsOk: bool)
      returns (ok: bool, movedTo: Option<string>)
      modifies this`actionsLog, this`stats
      ensures dryRun ==>
        && ok && movedTo.None? && stats == old(stats)
        && actionsLog == old(actionsLog) + [LogEntry("WOULD_" + Upper(action.Name()), source, destination, DryRun)]
      ensures !dryRun && (action == Delete || (action == Move && destination.Some?)) && !fsOk ==>
        && !ok && movedTo.None?
        && stats == old(stats).(errors := old(stats).errors + 1)
        && actionsLog == old(actionsLog) + [LogEntry(action.Name(), source, None, Failed)]
      ensures !dryRun && action == Delete && fsOk ==>
        && ok && movedTo.None?
        && stats == old(stats).(deleted := old(stats).deleted + 1)
        && actionsLog == old(actionsLog) + [LogEntry(action.Name(), source, destination, Succeeded)]
      ensures !dryRun && action == Move && destination.Some? && fsOk ==>
        && ok && movedTo.Some? && FirstFree(source, 1, taken, movedTo.value)
        && stats == old(stats).(moved := old(stats).moved + 1)
        && actionsLog == old(actionsLog) + [LogEntry(action.Name(), source, destination, Succeeded)]
      ensures !dryRun && (action == Keep || (action == Move && destination.None?)) ==>
        && ok && movedTo.None? && stats == old(stats)
        && actionsLog == old(actionsLog) + [LogEntry(action.Name(), source, destination, Succeeded)]
    {
      movedTo := None;
      if dryRun {
        actionsLog := actionsLog + [LogEntry("WOULD_" + Upper(action.Name()), source, destination, DryRun)];
        return true, None;
      }
      if action == Delete {
        if !fsOk {
          ok := Fail(action, source);
          return;
        }
        stats := stats.(deleted := stats.deleted + 1);
      } else if action == Move && destination.Some? {
        if !fsOk {
          ok := Fail(action, source);
          return;
        }
        var target := FirstFreeName(source, taken, 1);
        movedTo := Some(target);
        stats := stats.(moved := stats.moved + 1);
      }
      actionsLog := actionsLog + [LogEntry(action.Name(), source, destination, Succeeded)];
      ok := true;
    }

    /** The `except` branch of `execute_action`. */
    method Fail(action: Action, source: string) returns (ok: bool)
      modifies this`actionsLog, this`stats
      ensures !ok
      ensures actionsLog == old(actionsLog) + [LogEntry(action.Name(), source, None, Failed)]
      ensures stats == old(stats).(errors := old(stats).errors + 1)
    {
      actionsLog := actionsLog + [LogEntry(action.Name(), source, None, Failed)];
      stats := stats.(errors := stats.errors + 1);
      ok := false;
    }

    /** `_save_log`: the file receives its old entries (none when it is
        missing or does not parse) followed by this run's, cut to the last
        1000. `saveOk` is false when creating the directory, reading the
        old file or writing fails; the file is then as it was. */
    method SaveLog(saveOk: bool)
      modifies this`logFile
      ensures saveOk ==> logFile == Some(KeepLast(old(logFile).GetOr([]) + actionsLog, 1000))
      ensures !saveOk ==> logFile == old(logFile)
    {
      if !saveOk {
        return;
      }
      var existing := logFile.GetOr([]);
      existing := existing + actionsLog;
      logFile := Some(KeepLast(existing, 1000));
    }
  }
}
