# A verified model of the file organizer

The file organizer (`Code/filearrange.py`) tidies one folder. It holds a fixed
table of seven categories (Images, Documents, Audio, Video, Archives, Code and
the catch-all Others), each with a list of lower-case file extensions. One run
does the following:

- checks that the target exists and is a directory;
- creates a folder for every category that does not exist yet, unless this is
  a dry run;
- walks the target's top-level entries. Each directory is skipped, and every
  entry is skipped when the target's own name is a category name. Each regular
  file is filed under the category of its suffix, matched case-insensitively.
  The file keeps its name when that name is free in the category folder.
  Otherwise it takes `stem(k)suffix` for the least counter `k >= 1` whose name
  is free;
- moves the file there in a live run, and only reports the move in a dry run;
- prints a summary of moved and skipped entries. A failed move counts as
  skipped.

The model has three modules:

- `Categories` (`categories.dfy`): the table, ASCII lower-casing, and
  `GetCategory`, which is the table search of `get_category`.
- `Resolver` (`resolver.dfy`): the decimal rendering of the counter, the
  numbered candidate names, and `ResolveName`, which is the duplicate-name
  loop. `ResolveName` is a method with the source's `while` loop. It is proved
  equal to the function `Resolution` and to meet the predicate
  `IsResolution`: the name is free, it is the file's own name when that is
  free, and otherwise it is the least free numbered candidate.
- `Organizer` (`organizer.dfy`): the target folder as a class `Folder`. Its
  fields are the target's validity flag, its own name, its top level (child
  name to `File(stem, suffix)`, `Dir` or `Other`) and the names inside each
  category folder. The methods are:
  - `EnsureCategoryFolders`, the setup loop;
  - `EnsureFolder`, one step of that loop;
  - `VisitEntry`, one pass of the listing loop's body;
  - `FileEntry`, which handles one regular file;
  - `OrganizeFiles`, the whole run.

  The listing loop of `OrganizeFiles` is proved to compute the pure function
  `Walk` over the listing. The properties of a run are lemmas about `Walk`:
  - what the top level and the category folders become;
  - what the counters count;
  - that no move overwrites a file;
  - that a dry run changes nothing.

Two behaviours of the code are modelled as written:

- The listing is taken after the category folders are created. In a live run
  every category folder is therefore listed as a directory and counted as
  skipped. So a live run over a folder whose own name is not a category name,
  holding only `photo.JPG`, `notes.txt`, `archive.zip`, `script.py` and
  `mystery.xyz`, moves the five files (when every move succeeds) but reports at
  least 7 skipped entries, not 0: the seven folders it has just created
  (`CategoryFoldersSkipped`). A target named like a category, such as `Code`,
  moves none of the five files and reports all 12 entries as skipped
  (`WalkParentIsCategory`). The bound of 7 holds
  whatever the target's own name is, over a listing that covers the whole top
  level without repeats. The one exception is a top-level entry that already
  carries a category name but is not a directory, such as a regular file called
  `Images`. The existence test at line 40 then creates no folder of that name.
  Unless the target's own name is a category name (then every entry is
  skipped), the guard does not skip that entry, so the count can be lower. The
  other category folders are still skipped one by one
  (`CategoryNamesListedSkipped`).
- The second half of the guard at line 48 tests the parent of a top-level
  entry, which is the target folder itself. So it skips every entry when the
  target's own name is a category name, such as a folder called `Code`, and
  no other entry (`WalkParentIsCategory`).

## Model

| member | source | states |
|---|---|---|
| Categories.MatchIndex | Code/filearrange.py:25-27 | the search returns the first row whose list holds the extension, or the table length when none does; no earlier row holds it |
| Categories.GetCategory | Code/filearrange.py:23-28 | the category returned is always one of the seven category names |
| Categories.OthersExactlyWhenUnlisted | Code/filearrange.py:25-28 | the catch-all is returned if and only if the lower-cased extension is in no list |
| Categories.ListedExtension | Code/filearrange.py:25-27 | an extension whose lower-cased form is listed under a category is filed under that category, whatever its case |
| Categories.ListedExtensionClassified | Code/filearrange.py:13-27 | every extension in the table is filed under the category that lists it |
| Categories.CaseInsensitive | Code/filearrange.py:26 | classification of an extension equals classification of its lower-cased form |
| Categories.LowerIdempotent | Code/filearrange.py:26 | lower-casing twice is lower-casing once |
| Categories.ExtensionListsDisjoint | Code/filearrange.py:13-21 | no extension is listed under two categories, so the first match is the only match |
| Categories.ExtensionsAreLowerCase | Code/filearrange.py:13-21 | every listed extension is its own lower-cased form, so comparing a lower-cased suffix against the lists is enough |
| Categories.ExtensionLengths | Code/filearrange.py:13-21 | every listed extension, dot included, has three to five characters |
| Categories.CategoryNamesOfRows | Code/filearrange.py:13-21 | the names collected row by row from the table are exactly the seven category names |
| Categories.CategoryCount | Code/filearrange.py:13-21 | there are seven distinct category names |
| Categories.UpperCaseExample | Code/filearrange.py:23-27 | `.JPG` and `.jpg` are both filed under Images |
| Categories.EmptyExample | Code/filearrange.py:23-28 | a file without a suffix falls into Others |
| Categories.LongExtensionIsOther | Code/filearrange.py:23-28 | a suffix longer than five characters falls into Others, whatever its case |
| Resolver.Decimal | Code/filearrange.py:60 | the counter's rendering is a non-empty string of decimal digits without a leading zero |
| Resolver.ParseDecimalOfDecimal | Code/filearrange.py:60 | reading a rendered counter back gives the counter (round trip) |
| Resolver.DecimalInjective | Code/filearrange.py:60 | distinct counters render differently |
| Resolver.NumberedNameInjective | Code/filearrange.py:60 | distinct counters give distinct candidate names for the same stem and suffix |
| Resolver.NumberedName | Code/filearrange.py:60 | a candidate name is the stem, then `(`, then the counter's digits, then `)`, then the suffix: it starts with the stem and ends with the suffix |
| Resolver.NumberedSize | Code/filearrange.py:58-62 | the first n candidates are n distinct names |
| Resolver.TakenCandidatesBound | Code/filearrange.py:59-62 | if the first n candidates all exist in the folder, the folder holds at least n names, so the counter loop stops |
| Resolver.FirstFree | Code/filearrange.py:58-62 | the loop's search from counter k on ends, with a candidate name the folder does not hold |
| Resolver.FirstFreeIsFirst | Code/filearrange.py:58-62 | the first free candidate from counter k on is free, and every candidate before it is taken |
| Resolver.Resolution | Code/filearrange.py:55-62 | the destination name is never one the folder holds, and is the file's own name whenever that is free |
| Resolver.ResolutionIsResolution | Code/filearrange.py:55-62 | the computed destination is free; it is the file's own name when that is free, and otherwise the least free numbered candidate |
| Resolver.ResolutionUnique | Code/filearrange.py:55-62 | at most one name meets that promise, so the destination is determined by the folder's contents |
| Resolver.ResolveName | Code/filearrange.py:55-62 | the loop returns the resolution of the name against the folder's names and meets the promise above |
| Resolver.FirstCollisionExample | Code/filearrange.py:55-62 | a folder holding `a.txt` sends another `a.txt` to `a(1).txt` |
| Resolver.SecondCollisionExample | Code/filearrange.py:55-62 | a folder holding `a.txt` and `a(1).txt` sends another `a.txt` to `a(2).txt` |
| Organizer.WithFolders | Code/filearrange.py:39-41 | after setup every category name is at the top level; existing entries keep their kind; the only new entries are category folders, all directories |
| Organizer.WithEmptyFolders | Code/filearrange.py:39-41 | after setup the category folders are the existing ones plus one per missing name; existing folders keep their contents; new folders are empty |
| Organizer.WithFoldersStep | Code/filearrange.py:39-41 | one setup step adds a missing folder as an empty directory and changes nothing when an entry of that name exists |
| Organizer.WithFoldersIdempotent | Code/filearrange.py:39-41 | running the setup a second time changes nothing |
| Organizer.Folder.EnsureFolder | Code/filearrange.py:40-41 | one category folder is created empty exactly when it is missing and this is not a dry run; otherwise nothing changes |
| Organizer.Folder.EnsureCategoryFolders | Code/filearrange.py:38-41 | the top level and the folder contents become the setup's result in a live run and are unchanged in a dry run; the state stays well formed |
| Organizer.SkippedAtGuard | Code/filearrange.py:48-50 | the guard always skips a directory, and skips any other entry, a regular file included, exactly when the target's own name is a category name |
| Organizer.ListingPartition | Code/filearrange.py:46-52 | every listed entry is either skipped by the guard, filed as a regular file, or passed over, and only one of the three |
| Organizer.OthersIgnored | Code/filearrange.py:46-52 | when the target's own name is not a category name, entries that are neither files nor directories are neither skipped nor filed |
| Organizer.ParentIsCategorySkipsAll | Code/filearrange.py:48-50 | when the target's own name is a category name, the guard skips every entry and nothing is filed |
| Organizer.SkippedNames | Code/filearrange.py:46-50 | a name is in the set if and only if it is listed and the guard skips it |
| Organizer.GuardSkipsCount | Code/filearrange.py:46-50 | over a listing without repeats, the guard's skip count is the number of entries it skips |
| Organizer.CategoryNamesListedSkipped | Code/filearrange.py:39-50 | after a live setup, a category name `c` is among the entries the guard skips in a listing that covers the top level, unless an entry named `c` that is not a directory was already there; other names shadowed by files do not matter |
| Organizer.CategoryNamesSkipped | Code/filearrange.py:39-50 | when no entry that is not a directory carries a category name, all seven names are among the skipped entries of a listing that covers the top level, so there are at least as many skipped entries as category names |
| Organizer.CategoryFoldersSkipped | Code/filearrange.py:38-50 | a live run over a listing that covers the top level without repeats reports at least 7 skipped entries, whatever the target's own name, unless an entry that is not a directory already carries a category name |
| Organizer.ReportCounts | Code/filearrange.py:64-73 | moved and failed reports add up to at most all reports, and to all of them when none is a dry-run preview |
| Organizer.NoOverwrite | Code/filearrange.py:55-70 | when every move picks a name not yet in the folder, the folder grows by exactly one name per move |
| Organizer.FileReport | Code/filearrange.py:52-73 | the report on a regular file names the file and a category key. Its destination is not yet in that folder. It is a preview exactly in a dry run. It is a move only when the move succeeded and the category folder is a directory |
| Organizer.FileReportFacts | Code/filearrange.py:52-73 | a file's report names its category and a destination meeting the resolver's promise. It is a preview exactly in a dry run. It is a move exactly when the move succeeds and the category folder is a directory |
| Organizer.Folder.FileEntry | Code/filearrange.py:52-73 | a successful move takes the file off the top level and adds its destination name to the category folder; any other outcome changes nothing; the report is the one `FileReportFacts` describes |
| Organizer.VisitBounds | Code/filearrange.py:46-73 | one visit of the loop (`Visit`) only appends to the reports, at most one report. It adds at most one to the two counters together and decreases neither. It adds no top-level entry and no category folder |
| Organizer.WalkBounds | Code/filearrange.py:46-73 | over any sequence of entries, the loop (`Walk`) only appends to the reports, at most one per entry. Moved plus skipped grows by at most the number of entries. No top-level entry or category folder appears |
| Organizer.Folder.VisitEntry | Code/filearrange.py:46-73 | one pass of the loop body skips, files or passes over the entry. The new state, counters and reports are those of `Visit` |
| Organizer.WalkState | Code/filearrange.py:46-73 | after the walk, the top level is the listed entries minus the moved files. Each category folder holds its setup contents plus the names moved into it. Only listed entries move. There are no more reports than listed entries; `WalkCounts` gives one report per eligible file over a listing without repeats |
| Organizer.WalkCounts | Code/filearrange.py:43-73 | the reports are about exactly the eligible regular files, in listing order. Moved counts the moves. Skipped counts the guard's skips plus the failed moves |
| Organizer.WalkReportsOk | Code/filearrange.py:52-73 | each report names a listed regular file and its category. Its destination is resolved against the folder as it stood at that point. In a live run it is a move exactly when the move succeeded |
| Organizer.WalkNoOverwrite | Code/filearrange.py:55-70 | no move overwrites a file: each category folder grows by exactly the number of files moved into it |
| Organizer.WalkTotals | Code/filearrange.py:43-73 | moved plus skipped is at most the number of listed entries; in a live run, moved, skipped and passed-over entries add up to all of them |
| Organizer.WalkKeepsNonFiles | Code/filearrange.py:46-52 | directories and other non-file entries stay at the top level as they were |
| Organizer.WalkDryRun | Code/filearrange.py:40-65 | a dry run changes neither the top level nor any folder and moves nothing. It previews exactly the eligible files and counts only the guard's skips |
| Organizer.WalkParentIsCategory | Code/filearrange.py:48-50 | when the target's own name is a category name, the walk changes nothing, reports nothing and skips every entry |
| Organizer.Folder.OrganizeFiles | Code/filearrange.py:30-77 | an invalid target is reported and left unchanged. Otherwise the run creates the category folders and then ends in the state and with the summary counters and reports of `Walk` over the listing; the state stays well formed |

## Left out

- The command-line front end (lines 79-91) is not modelled. `OrganizeFiles` takes the dry-run flag directly.
- The console text is not modelled. Each per-file line (lines 65, 69, 72) is a `Report` with its action, file, category and destination. The summary (lines 75-77) is the `Summary` outcome.
- Path resolution and the existence check (lines 32-36) are not modelled. The target is given by its validity flag and its own name. Symbolic links are not modelled: an entry's kind is what `is_dir`/`is_file` would answer.
- The file move itself (line 68) is an input. `moveOk[j]` says whether the `j`-th move attempt succeeds, and an attempt past the end of `moveOk` fails. A move into a category name that is not a directory always fails. The reason for a failure is not modelled.
- A failed move is assumed to change nothing. A move across filesystems copies the file and then deletes the original. If that deletion fails, a copy is left at the destination while the file stays at the top level. The model does not capture this.
- Names are compared exactly, as on a case-sensitive filesystem. On a case-insensitive filesystem, the existence test at line 59 finds `Notes.txt` when asked for `notes.txt` and so picks a numbered name; the model does not.
- A failing folder creation (line 41) would end the program with an exception. It is not modelled: creation always succeeds.
- Other failures outside the `try` at lines 67-73 would also end the run with an exception, and are not modelled: the model always ends a run on a valid target with a summary. One is a listing that fails (line 46), for example on a target that can be written but not read; the category folders would then already exist. Another is a kind test or existence test that fails (lines 48, 52 and 59), as `is_dir`, `is_file` and `exists` do on a permission error before Python 3.13; the moves made so far would be kept and no summary printed. The model's listing and its kind and existence tests always answer.
- How the path library splits a name into stem and suffix is not modelled. Each file carries its stem and suffix, and the object invariant only requires that they make up its name.
- `Categories.Lower` lower-cases ASCII letters only. Unicode case mapping is not modelled.
- The listing order of the directory is an input (`order`). The lemmas about counts and reports require it to be free of repeats, as a directory listing is.
- Concurrent changes to the folder between the existence checks and the moves are not modelled.
