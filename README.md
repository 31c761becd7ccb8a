# File organizer and TidySpace, modelled in Dafny

This project models the decision logic of two file-management tools in the
repository.

- **The smart file organizer**, `projects/file-organizer/organizer.py`:
  - it sorts the files of one directory into category folders;
  - a folder is chosen by name pattern, by a table of extensions, by MIME
    type and by text extracted from the file;
  - it skips ignored names and files that are already in their folder;
  - it finds a free name in the target folder (`stem_001.ext`, `stem_002.ext`, ...);
  - a live run appends each move to a history, and the history file keeps
    the newest 100 records.
- **TidySpace**, `projects/tidyspace/tidyspace.py`:
  - it sorts files into coarser categories by extension and flags screenshots;
  - it suggests an action for each file (keep, move to an archive folder,
    delete) from its category and age;
  - it groups files that share a size as duplicate candidates;
  - it totals a directory scan per category;
  - it runs actions, with collision names `stem_1.ext`, `stem_2.ext`, ...,
    counters and an action log;
  - its log file keeps the newest 1000 entries.

The project has six modules:

- `Wrappers` holds `Option`.
- `Names` holds the string machinery the tools share:
  - ASCII case mapping;
  - Python's `Path.stem`/`Path.suffix`;
  - decimal counters with zero padding;
  - a first-match lookup in an ordered table;
  - the collision-naming loop.
- `Retention` holds Python's `xs[-n:]`.
- `Runs` holds the specification of a loop that visits items in order and
  collects an output for some of them, each output depending on the state
  the earlier outputs left (the organizer's per-file loop).
- `Organizer` models the organizer.
- `TidySpace` models TidySpace.

The filesystem, the clock, MIME guessing, OCR, PDF parsing and file
hashing are not computed. They enter as values:

- a `FileEntry` carries the name, the MIME guess, the texts an extractor
  would produce, whether the file exists, whether its move succeeds and
  whether the history save after that move succeeds;
- a directory is a sequence of entries;
- a folder's contents are a set of names;
- a log file is an `Option` of its entries (`None` when it is missing or
  does not parse).

The objects whose fields the tools update are classes:

- `FileOrganizer`, with its history, log file and folders;
- `TidySpace`, with its action log, counters and log file.

Loops that the source writes as loops are methods whose contracts tie them
to reference functions.

## Model

| member | source | states |
|---|---|---|
| Names.Lower | projects/tidyspace/tidyspace.py:68 | lower-casing keeps the length and maps every character through the ASCII lower-case map |
| Names.Upper | projects/tidyspace/tidyspace.py:183 | upper-casing keeps the length and maps every character through the ASCII upper-case map |
| Names.SubstringTransitive | projects/tidyspace/tidyspace.py:87-91 | a string containing `p` contains every substring of `p` |
| Names.Suffix | projects/file-organizer/organizer.py:326 | `Path.suffix`: from the last dot on, unless that dot leads or ends the name (definition; its properties are in `StemSuffixSplit`) |
| Names.Stem | projects/file-organizer/organizer.py:325 | `Path.stem`: the name without its suffix (definition; its properties are in `StemSuffixSplit`) |
| Names.StemSuffixSplit | projects/file-organizer/organizer.py:325-326 | stem followed by suffix is the whole name; a suffix is empty or a dot plus at least one character with no further dot, after a non-empty stem |
| Names.LastDotLower | projects/tidyspace/tidyspace.py:68 | lower-casing does not move the last dot |
| Names.SuffixLower | projects/tidyspace/tidyspace.py:68 | the suffix of the lower-cased name is the lower-cased suffix |
| Names.Digits | projects/file-organizer/organizer.py:330 | `str(n)`: decimal digits only, a single digit exactly below ten, and a leading zero only for zero |
| Names.DigitsRoundTrip | projects/file-organizer/organizer.py:330 | reading back the decimal digits of a counter gives the counter |
| Names.ParseZeros | projects/file-organizer/organizer.py:330 | a run of zeros reads as 0 |
| Names.ParseIgnoresLeadingZeros | projects/file-organizer/organizer.py:330 | leading zeros do not change the value read |
| Names.ZeroPad | projects/file-organizer/organizer.py:330 | `{counter:03d}`: exactly `width` characters unless the counter's digits need more, and then exactly those; decimal digits only. With `ZeroPadRoundTrip` this fixes the text |
| Names.ZeroPadRoundTrip | projects/file-organizer/organizer.py:330 | a counter padded to any width (`:03d`) reads back as the counter |
| Names.FirstListing | projects/file-organizer/organizer.py:199-201 | the lookup finds nothing exactly when no row lists the extension; a found category belongs to a row that lists it |
| Names.FirstListingIsFirst | projects/file-organizer/organizer.py:199-201 | when row `i` is the first row that lists the extension, the lookup returns row `i`'s category |
| Names.FirstListingNever | projects/file-organizer/organizer.py:160 | a category whose rows list no extensions is never returned |
| Names.Candidate | projects/file-organizer/organizer.py:325-331 | the `c`-th name the collision loop tries: the name itself, then `stem_<c>suffix` with the counter padded to `width` (3 here, 1 at projects/tidyspace/tidyspace.py:205) (definition; see `CandidateInjective`) |
| Names.CandidateInjective | projects/file-organizer/organizer.py:328-332 | different counters yield different candidate names |
| Names.FirstFreeUnique | projects/file-organizer/organizer.py:328-332 | the first free candidate is unique |
| Names.FirstFreeName | projects/file-organizer/organizer.py:324-334 | the collision loop ends; it yields the first candidate not taken, and the name itself when that is free |
| Retention.KeepLast | projects/file-organizer/organizer.py:268 | `xs[-n:]` has `min(len, n)` elements and is a suffix of `xs` |
| Retention.KeepLastForgetsOlder | projects/tidyspace/tidyspace.py:364-368 | once at least `n` entries are appended, no older entry is kept |
| Retention.KeepLastIdempotent | projects/tidyspace/tidyspace.py:368 | truncating twice is truncating once |
| Retention.KeepLastShort | projects/tidyspace/tidyspace.py:368 | a log of at most `n` entries is kept whole |
| Organizer.ExtractorFor | projects/file-organizer/organizer.py:70-100 | the PDF scanner runs exactly for `application/pdf`; OCR runs exactly for the four image MIME types; the text reader decides by lower-cased suffix only when the MIME type has no extractor; otherwise no extractor runs |
| Organizer.Truncated | projects/file-organizer/organizer.py:106 | `s[:n]` is present exactly when `s` is, is a prefix of it, and has `min(len(s), n)` characters |
| Organizer.Extract | projects/file-organizer/organizer.py:86-149 | no extractor gives no text; OCR text is cut to 2000 characters; text-file and PDF text to 5000 |
| Organizer.Categorize | projects/file-organizer/organizer.py:181-226 | `categorize`: screenshot name, receipt image, extension table, MIME type, Miscellaneous, in that order (definition; `ScreenshotsExactly`, `ReceiptImage`, `ExtensionTableDecides`, `MediaMimeTypes` and `MimeTypeDecides` state its behaviour) |
| Organizer.ScreenshotsExactly | projects/file-organizer/organizer.py:160-189 | a file goes to Screenshots if and only if its lower-cased name contains a screenshot pattern |
| Organizer.TableHasNoScreenshots | projects/file-organizer/organizer.py:155-170 | no extension leads the category table to Screenshots |
| Organizer.ReceiptImage | projects/file-organizer/organizer.py:191-196 | a non-screenshot image whose text mentions a receipt keyword goes to Receipts |
| Organizer.ExtensionTableDecides | projects/file-organizer/organizer.py:198-201 | otherwise the first category in table order that lists the lower-cased extension wins |
| Organizer.MediaMimeTypes | projects/file-organizer/organizer.py:203-211 | for an unlisted extension: an `image/`, `video/` or `audio/` MIME type gives Images, Videos or Audio |
| Organizer.MimeTypeDecides | projects/file-organizer/organizer.py:203-226 | for an unlisted extension: a PDF is Receipts exactly when its text has a receipt keyword and Documents otherwise; `text/` is Code for the code extensions and Documents otherwise (the Code case never arises, see `TextMimeIsDocument`); no MIME type or an unknown one gives Miscellaneous |
| Organizer.TextMimeIsDocument | projects/file-organizer/organizer.py:218-222 | for an unlisted extension, the extension is none of the eight the `text/` branch checks (the table's Code row at organizer.py:164 claims them all), so a `text/` file is always a Document and `return 'Code'` at organizer.py:221 is never reached |
| Organizer.PdfExtensionIsDocument | projects/file-organizer/organizer.py:155-156 | a non-screenshot `.pdf` file is always a Document, because the table claims `.pdf` before the PDF receipt test |
| Organizer.Matches | projects/file-organizer/organizer.py:276 | `fnmatch` for the two pattern shapes the ignore list uses: `*.ext` matches names ending in `.ext`, any other pattern only the identical name (definition) |
| Organizer.ShouldIgnore | projects/file-organizer/organizer.py:272-281 | `_should_ignore`: some pattern matches, or the name is hidden and is not the log file (definition; characterised by `IgnoredExactly`) |
| Organizer.PatternShape | projects/file-organizer/organizer.py:235-250 | a name matching an ignored pattern is hidden, one of three plain names, or ends in a partial-download suffix |
| Organizer.IgnoredHasShape | projects/file-organizer/organizer.py:272-281 | every ignored name has one of those shapes |
| Organizer.ShapeIsIgnored | projects/file-organizer/organizer.py:272-281 | every name of those shapes is ignored, including the log file through its own pattern |
| Organizer.IgnoredExactly | projects/file-organizer/organizer.py:272-281 | `_should_ignore` holds exactly for hidden names, `Thumbs.db`, `node_modules`, `__pycache__` and names ending `.tmp`, `.temp`, `.part`, `.crdownload` |
| Organizer.AnalyzeFile | projects/file-organizer/organizer.py:296-317 | the file info keeps the name and suffix, its MIME type is the guess, or `application/octet-stream` when the guess is missing or empty; the extracted text is what `extract` gives for that MIME type; its category is what `categorize` decides from the rest |
| Organizer.CategoryOf | projects/file-organizer/organizer.py:345-349 | the category `organize_file` compares with the parent folder's name: the analysed file's category (definition) |
| Organizer.GetDestination | projects/file-organizer/organizer.py:319-334 | the destination folder is the category (Miscellaneous when there is none); the name is the first free one of `name`, `stem_001suffix`, ... |
| Organizer.TallyCategories | projects/file-organizer/organizer.py:420-424 | the summary has a key exactly for each category that occurs among the results, mapped to its number of results |
| Organizer.ToOrganize | projects/file-organizer/organizer.py:400-404 | a listed entry is among the files to organize exactly when it is a file and is not ignored |
| Organizer.FilesToOrganize | projects/file-organizer/organizer.py:400-404 | the listing loop keeps exactly the non-ignored files, in listing order |
| Organizer.FileOrganizer.constructor | projects/file-organizer/organizer.py:231-262 | the history starts as the saved file's records, or empty when there is none |
| Organizer.FileOrganizer.SaveHistory | projects/file-organizer/organizer.py:264-270 | the file receives the last 100 records; a save that fails leaves it unchanged (a write failing part-way is not modelled, see below) |
| Organizer.FileOrganizer.OrganizeFile | projects/file-organizer/organizer.py:336-386 | no record exactly when the file is missing, is ignored, is already in its category folder, or (in a live run) its move fails. A record (`RecordFor`) names the source, the category as folder and category, the run's mode, and the first free name in that folder. A live run adds the name to the folder (`Place`), appends the record to the history and, when that file's save succeeds, leaves the last 100 history entries in the log file. A dry run changes nothing. |
| Organizer.FileOrganizer.OrganizeNext | projects/file-organizer/organizer.py:415-418 | one pass of the loop: a file that `organize_file` skips adds nothing; otherwise its record (as `RecordFor` describes it) is appended, and history, folders and log file change as for `OrganizeFile` |
| Organizer.FileOrganizer.OrganizeFiles | projects/file-organizer/organizer.py:415-418 | the whole loop: the results are `Organized` from the files and the initial folders; the history grows by exactly the results in a live run; the folders advance by each live record; in a live run the log file is `SavedLog` of the moving files' saves, and a dry run leaves it alone |
| Organizer.FileOrganizer.OrganizeAll | projects/file-organizer/organizer.py:388-431 | a missing directory gives no results and changes neither history, folders nor log file. Otherwise the results are `Organized` from the non-ignored files in listing order. The `k`-th result's source is the `k`-th of those files that moves. A live run's history grows by exactly the results, and a dry run leaves the folders as they were. In a live run the log file is `SavedLog` of the moving files' own saves (see `SavedLogIsLastSave`); a dry run leaves it alone. The category summary counts the results. |
| Organizer.Moves | projects/file-organizer/organizer.py:338-369 | when `organize_file` returns a record: the file exists, is not ignored, is not already in its category folder, and (live) its move succeeds (definition) |
| Organizer.MovingExactly | projects/file-organizer/organizer.py:415-418 | a file is among `Moving` exactly when it is listed and moves |
| Organizer.Place | projects/file-organizer/organizer.py:365 | a live move adds the destination name to its category folder (definition) |
| Organizer.RecordFor | projects/file-organizer/organizer.py:353-380 | the record for a file: its name as source, its category as folder and category, the run's mode and the first free name in that folder (definition) |
| Organizer.RecordForUnique | projects/file-organizer/organizer.py:319-334 | at most one record fits a file and a state of the folders |
| Organizer.Organized | projects/file-organizer/organizer.py:415-418 | the loop's outcome: one record per file that moves, in order, each against the folders as the earlier live moves left them (definition, over `Runs.Collected`) |
| Organizer.Moving | projects/file-organizer/organizer.py:415-418 | the files that yield a record, in order: at most as many as the files (membership in `MovingExactly`) |
| Organizer.OrganizedStep | projects/file-organizer/organizer.py:415-418 | one pass keeps `Organized`, and the folders advance by the new record only in a live run |
| Organizer.OrganizedRecords | projects/file-organizer/organizer.py:415-418 | the `k`-th result is the record of the `k`-th moving file: its source, its category and the run's mode |
| Organizer.OrganizedUnique | projects/file-organizer/organizer.py:388-431 | the results are determined by the files and the initial folders |
| Organizer.SavedLog | projects/file-organizer/organizer.py:382-384 | the log file after a run's live records: each record whose file's save succeeds rewrites it with the newest 100 history entries as they then stood (definition) |
| Organizer.SavedLogStep | projects/file-organizer/organizer.py:382-384 | one more record rewrites the log file when its own save succeeds, and leaves it otherwise |
| Organizer.SavedLogAdvance | projects/file-organizer/organizer.py:415-418 | one pass of the loop changes the log file only through a moving file whose save succeeds |
| Organizer.SavedLogIsLastSave | projects/file-organizer/organizer.py:264-270 | the log file holds the newest 100 entries of the history as it stood at the last successful save, and is unchanged when no save succeeded (a failed save is taken to leave the file as it was) |
| Runs.Select | projects/file-organizer/organizer.py:415-418 | the selected items, in order: no more than the items (membership in `SelectExactly`) |
| Runs.SelectExactly | projects/file-organizer/organizer.py:415-418 | the selection holds exactly the items the predicate accepts |
| Runs.SelectStep | projects/file-organizer/organizer.py:415-418 | one more item joins the selection exactly when the predicate accepts it |
| Runs.CollectedTake | projects/file-organizer/organizer.py:416-418 | an item that yields an output appends it, and the state advances by it |
| Runs.CollectedSkip | projects/file-organizer/organizer.py:416-418 | an item that yields nothing leaves the outputs unchanged |
| Runs.CollectedMatches | projects/file-organizer/organizer.py:415-418 | the `k`-th output belongs to the `k`-th selected item and to the state after the first `k` outputs |
| Runs.CollectedUnique | projects/file-organizer/organizer.py:415-418 | when each item and state allow at most one output, the outputs are determined |
| TidySpace.CategoryIsFirstMatch | projects/tidyspace/tidyspace.py:57-84 | the category is the first of images, documents, archives, installers, code, videos, audio whose extension set holds the lower-cased suffix, and `other` otherwise |
| TidySpace.GetCategory | projects/tidyspace/tidyspace.py:66-84 | `get_category`: the category of the lower-cased suffix (definition; see `CategoryIsFirstMatch`) |
| TidySpace.GetCategoryIgnoresCase | projects/tidyspace/tidyspace.py:66-68 | names equal up to case get the same category |
| TidySpace.IsScreenshot | projects/tidyspace/tidyspace.py:87-91 | `is_screenshot`: the lower-cased name contains one of the five patterns (definition) |
| TidySpace.ScreenshotPatternsReduce | projects/tidyspace/tidyspace.py:87-91 | a name is a screenshot exactly when its lower-cased form contains `screenshot`, `screen shot`, `capture` or `img_`; the `screencapture` pattern adds nothing, since it contains `capture` |
| TidySpace.ShouldExclude | projects/tidyspace/tidyspace.py:107-110 | `should_exclude`: the name is one of the configured `global_exclusions`, none when the key is missing (definition) |
| TidySpace.ExclusionIsExactName | projects/tidyspace/tidyspace.py:48 | with the default configuration, exactly `.DS_Store`, `Thumbs.db` and `.localized` are excluded; a configuration without exclusions excludes nothing |
| TidySpace.SuggestAction | projects/tidyspace/tidyspace.py:137-176 | a suggestion has a destination exactly when its action is a move |
| TidySpace.ScreenshotsFirst | projects/tidyspace/tidyspace.py:146-150 | a screenshot is never deleted, and it is moved exactly when it is older than 7 days |
| TidySpace.FirstFiringRuleWins | projects/tidyspace/tidyspace.py:152-174 | otherwise the first age rule that fires for the category decides the action and the reason |
| TidySpace.NoRuleKeeps | projects/tidyspace/tidyspace.py:176 | when no rule fires, the file is kept |
| TidySpace.SameSizeMembers | projects/tidyspace/tidyspace.py:125-131 | a size group holds only counted entries of the listing that have that size |
| TidySpace.SharedSizeGroup | projects/tidyspace/tidyspace.py:125-131 | two counted entries with the same size end up in a group of at least two |
| TidySpace.SizeGroupHas | projects/tidyspace/tidyspace.py:125-131 | every counted entry is in the group of its size |
| TidySpace.SameSizeAppend | projects/tidyspace/tidyspace.py:129-130 | scanning one more entry extends its size's group by that entry and leaves the other groups alone |
| TidySpace.SizesSeen | projects/tidyspace/tidyspace.py:125-131 | the sizes of the counted entries in order of first appearance, the key order of the `defaultdict` (definition) |
| TidySpace.SizesSeenAppend | projects/tidyspace/tidyspace.py:129-130 | scanning one more entry appends its size to the first-seen order exactly when it is counted and its size is new |
| TidySpace.SizesSeenExactly | projects/tidyspace/tidyspace.py:125-131 | a size is seen exactly when a counted entry has it, and no size is seen twice |
| TidySpace.GroupBySize | projects/tidyspace/tidyspace.py:123-131 | the keys are exactly the sizes in first-seen order (`SizesSeen`), with no repeats; each key maps to the non-empty list of counted entries of that size, in order; sizes that are not keys have no entries |
| TidySpace.GroupsAreDuplicates | projects/tidyspace/tidyspace.py:134 | keeping the groups with at least two entries gives duplicate groups: each group is a whole size class, groups are disjoint, and every entry that shares its size is in one |
| TidySpace.LargeGroupsKept | projects/tidyspace/tidyspace.py:134 | each kept group is the group of its size and has at least two entries |
| TidySpace.LargeSizesDistinct | projects/tidyspace/tidyspace.py:134 | no size is kept twice |
| TidySpace.LargeSizesCover | projects/tidyspace/tidyspace.py:134 | every size with at least two entries is kept |
| TidySpace.FindDuplicates | projects/tidyspace/tidyspace.py:121-135 | the result consists of duplicate groups: whole same-size classes of counted files, disjoint, covering every file that shares its size |
| TidySpace.SumTallyUpdate | projects/tidyspace/tidyspace.py:257-258 | replacing one category's tally changes the sums over all categories by exactly the difference |
| TidySpace.AllCategoriesDistinct | projects/tidyspace/tidyspace.py:57-84 | the list of categories has no repeats |
| TidySpace.KeptExactly | projects/tidyspace/tidyspace.py:245-247 | the scanned entries are exactly the listed regular files that are not excluded and whose `stat` succeeds |
| TidySpace.OldFilesExactly | projects/tidyspace/tidyspace.py:260-265 | a file is reported old exactly when it is scanned and older than 30 days |
| TidySpace.PlannedNeverKeep | projects/tidyspace/tidyspace.py:267-275 | every planned action is other than keep, and every scanned file whose suggestion is not keep is planned |
| TidySpace.StepTotals | projects/tidyspace/tidyspace.py:253-258 | one scanned file adds 1 to the file count and its size to the byte total and to its own category, and no other category changes |
| TidySpace.ScanTotals | projects/tidyspace/tidyspace.py:245-276 | the scan's totals, old files and plan are the reference sums over the scanned entries |
| TidySpace.ScanTallies | projects/tidyspace/tidyspace.py:253-258 | each category's tally is the count and size of the scanned entries in it |
| TidySpace.ScanAddsUp | projects/tidyspace/tidyspace.py:255-258 | the per-category counts and sizes add up to the totals |
| TidySpace.ScanOfListing | projects/tidyspace/tidyspace.py:245-276 | the scan of the whole listing meets all of the above at once |
| TidySpace.CountEntry | projects/tidyspace/tidyspace.py:250-275 | the loop body for a counted file adds to the running summary exactly what `Step` adds |
| TidySpace.ScanListing | projects/tidyspace/tidyspace.py:245-276 | the loop's totals, category tallies, old files and plan equal the reference definitions over the scanned files, and the categories add up to the totals |
| TidySpace.AnalyzeDirectory | projects/tidyspace/tidyspace.py:231-281 | a missing directory gives empty findings; otherwise the findings are the scan plus duplicate groups, and the categories add up to the totals |
| TidySpace.TidySpace.constructor | projects/tidyspace/tidyspace.py:97-101 | an empty action log and all counters at zero |
| TidySpace.TidySpace.ExecuteAction | projects/tidyspace/tidyspace.py:178-229 | a dry run logs `WOULD_<ACTION>` and succeeds without counting. A live delete or move either fails (error counted, failure logged with no destination) or succeeds: a delete counts a deletion; a move goes to the first free name among `name`, `stem_1suffix`, ... and counts a move. Keep, or a move without a destination, only logs success. |
| TidySpace.TidySpace.Fail | projects/tidyspace/tidyspace.py:220-229 | a failure logs the action without a destination and counts one error |
| TidySpace.TidySpace.SaveLog | projects/tidyspace/tidyspace.py:351-372 | when saving succeeds, the file receives its earlier entries (none when missing or unparsable) followed by this run's, cut to the last 1000; when it fails, the file is unchanged |

## Left out

- **Effects as inputs:** filesystem effects are inputs. These are existence, `iterdir`, `mkdir`, `shutil.move`, `unlink`, reading and writing JSON, and the `print` output. Whether a move or a save succeeds is a boolean: `moveOk` and `saveOk` on each organizer `FileEntry` (each moved file triggers its own history save), the parameter of `SaveHistory`, and the parameter of `SaveLog`.
- Organizer.FileOrganizer.SaveHistory: a failed save leaves the file as it was. In the source, `open(self.log_file, 'w')` empties the file before `json.dump` writes (projects/file-organizer/organizer.py:267-268). A write that fails part-way, on a full disk say, is caught and only printed (269-270), and the run goes on. The file is then empty or holds broken JSON, and a later `_load_history` reads it as an empty history (256-262). The model does not capture that outcome, so `SavedLog` and `SavedLogIsLastSave` describe the log file only when every failed save failed before truncating it.
- TidySpace.TidySpace.SaveLog: in the source a failure raises out of `run`. This covers creating the directory, reading the old file with any error other than a JSON decode error, and writing; none of these sit in a `try` (projects/tidyspace/tidyspace.py:354-372). The model takes the failure as `saveOk == false` and leaves the file unchanged. It does not model the exception that ends `run`, nor a file that `open(..., 'w')` has already emptied when the write fails part-way.
- **Uncaught exceptions in the organizer:** `stat` in `_analyze_file` and `mkdir` in `organize_file` are outside any `try`, so in the source a failure there propagates out of `organize_file` and ends `organize_all`. The model assumes both succeed. Only a failing move is modelled, and it skips that file as the source's `except` does.
- **Clock:** the clock is left out. File ages are inputs, and timestamps are not recorded in history or log entries.
- **Extraction internals:** MIME guessing, OCR, PDF text scanning and file hashing are left out. Their results are fields of `FileEntry`, and `Extract` models only which extractor runs and the truncation.
- **Pattern matching:** `fnmatch` is modelled only for the two shapes the ignore list uses (`*.ext` and an exact name). No other glob syntax is modelled. Matching is case-sensitive, as `fnmatch` is on POSIX systems, macOS included. On Windows, `fnmatch` folds case through `os.path.normcase`, so the ignore rules would also catch differently-cased names there.
- **Case mapping:** case mapping is ASCII only. Python's Unicode `lower`/`upper` is not modelled.
- **Names, not paths:** files are named by their base name rather than their full path. `expand_path` (`~` expansion) is not modelled.
- **Organizer records:** a record carries the source name, the destination folder and name, the category and the dry-run flag. The action string (always `moved`) and the `file_info` dictionary are left out.
- **Organizer summary:** the per-category summary of `organize_all` is returned as a map rather than printed in sorted order.
- **Organizer modes:** watch mode (`watch` and its event handler) and the command-line `main` are left out, since they are outside the core. `_compute_hash` is left out because hashing is not modelled, and `FileInfo.to_dict` because the record omits `file_info`.
- **TidySpace reasons:** a suggestion's reason is the rule that fired (`Reason`), not the text. The formatted age in `Old installer (N days)` and the other reason strings is not modelled.
- **TidySpace failure log:** a failed action's log entry records the action, the source and the failure. The exception text `str(e)` is not modelled.
- **TidySpace actions:** actions are an enumeration (`keep`, `move`, `delete`) rather than free strings. `ExecuteAction` logs the action's name, so a string the source never passes cannot be expressed.
- **TidySpace driver:** `clean_directory`, `run`, `_format_size` and the command-line `main` are left out. They only sequence the modelled operations and format or print output. `get_file_age_days` reads the clock, so the age is an input.
- **TidySpace duplicates:** `find_duplicates` is modelled as grouping by size, which is all the code does. Its docstring also mentions name similarity, but the code never compares names. A file whose `stat` fails is skipped, as in the source.
