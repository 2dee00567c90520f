/** The organizer: one run over a target folder. It creates the category
    folders, then walks the folder's listing and moves each top-level regular
    file into the folder of its category under a collision-free name, counting
    moved and skipped entries. The filesystem is abstract: the top level of the
    target as a map from child name to kind, and the names inside each category
    folder. The listing order and the outcome of each move are inputs. */
module Organizer {
  import opened Categories
  import opened Resolver

  /** What a directory entry is. A regular file carries the stem and suffix
      that the path library splits its name into. */
  datatype Kind = File(stem: string, suffix: string) | Dir | Other

  /** What the run did with one eligible file (the per-file console line). */
  datatype Action = WouldMove | Moved | MoveFailed

  /** One per-file report: the file, its category and its resolved destination name. */
  datatype Report = Report(action: Action, item: string, category: string, target: string)

  /** The end of a run: an invalid target, or the summary counters. */
  datatype Outcome = InvalidDirectory | Summary(moved: nat, skipped: nat)

  /** No entry occurs twice in `order`, as in a directory listing. */
  ghost predicate NoDuplicates(order: seq<string>)
  {
    forall p, q :: 0 <= p < q < |order| ==> order[p] != order[q]
  }

  // ---------------------------------------------------------------------------
  // Setup: the category folders

  /** The top level after creating a folder for each of `names` that is missing. */
  function WithFolders(entries: map<string, Kind>, names: set<string>): (r: map<string, Kind>)
    ensures forall c :: c in names ==> c in r
    ensures forall n :: n in entries ==> n in r && r[n] == entries[n]
    ensures forall n :: n in r && n !in entries ==> n in names && r[n] == Dir
  {
    map n | n in entries.Keys + names :: if n in entries then entries[n] else Dir
  }

  /** The category folders' contents after creating the missing ones of `names`
      empty. */
  function WithEmptyFolders(entries: map<string, Kind>, contents: map<string, set<string>>, names: set<string>): (r: map<string, set<string>>)
    ensures r.Keys == contents.Keys + (names - entries.Keys)
    ensures forall c :: c in contents ==> r[c] == contents[c]
    ensures forall c :: c in r && c !in contents ==> r[c] == {}
  {
    map c | c in contents.Keys + (names - entries.Keys) :: if c in contents then contents[c] else {}
  }

  /** The top level that the listing sees: with every category folder in a live
      run, untouched in a dry run. */
  function ListedEntries(entries: map<string, Kind>, dryRun: bool): map<string, Kind>
  {
    if dryRun then entries else WithFolders(entries, CategoryNames)
  }

  /** The category folders' contents that the listing sees. */
  function ListedContents(entries: map<string, Kind>, contents: map<string, set<string>>, dryRun: bool): map<string, set<string>>
  {
    if dryRun then contents else WithEmptyFolders(entries, contents, CategoryNames)
  }

  /** Creating one more folder `c`: nothing changes when `c` is already at the
      top level, and otherwise `c` is added as an empty directory. */
  lemma WithFoldersStep(entries: map<string, Kind>, contents: map<string, set<string>>, names: set<string>, c: string)
    requires contents.Keys <= entries.Keys
    ensures c in WithFolders(entries, names) ==>
      WithFolders(entries, names + {c}) == WithFolders(entries, names) &&
      WithEmptyFolders(entries, contents, names + {c}) == WithEmptyFolders(entries, contents, names)
    ensures c !in WithFolders(entries, names) ==>
      WithFolders(entries, names + {c}) == WithFolders(entries, names)[c := Dir] &&
      WithEmptyFolders(entries, contents, names + {c}) == WithEmptyFolders(entries, contents, names)[c := {}]
  {
  }

  /** Creating the folders a second time changes nothing. */
  lemma WithFoldersIdempotent(entries: map<string, Kind>, contents: map<string, set<string>>, names: set<string>)
    ensures WithFolders(WithFolders(entries, names), names) == WithFolders(entries, names)
    ensures WithEmptyFolders(WithFolders(entries, names), WithEmptyFolders(entries, contents, names), names)
         == WithEmptyFolders(entries, contents, names)
  {
  }

  // ---------------------------------------------------------------------------
  // The listing: which entries are skipped and which are filed

  /** The entry is skipped by the guard: it is a directory, or the target
      folder's own name is a category name. A directory is always skipped; any
      other entry, a regular file included, only for the target's name. */
  predicate SkippedAtGuard(kinds: map<string, Kind>, parentIsCategory: bool, x: string): (b: bool)
    ensures x in kinds && kinds[x].Dir? ==> b
    ensures !(x in kinds && kinds[x].Dir?) ==> (b <==> parentIsCategory)
  {
    parentIsCategory || (x in kinds && kinds[x].Dir?)
  }

  /** The entry is a regular file that the run files away. */
  predicate Eligible(kinds: map<string, Kind>, parentIsCategory: bool, x: string)
  {
    !SkippedAtGuard(kinds, parentIsCategory, x) && x in kinds && kinds[x].File?
  }

  /** How many listed entries the guard skips. */
  function GuardSkips(order: seq<string>, kinds: map<string, Kind>, parentIsCategory: bool): nat
    decreases |order|
  {
    if order == [] then 0
    else GuardSkips(order[..|order| - 1], kinds, parentIsCategory)
         + (if SkippedAtGuard(kinds, parentIsCategory, order[|order| - 1]) then 1 else 0)
  }

  /** The listed entries that are filed away, in listing order. */
  function EligibleItems(order: seq<string>, kinds: map<string, Kind>, parentIsCategory: bool): seq<string>
    decreases |order|
  {
    if order == [] then []
    else EligibleItems(order[..|order| - 1], kinds, parentIsCategory)
         + (if Eligible(kinds, parentIsCategory, order[|order| - 1]) then [order[|order| - 1]] else [])
  }

  /** How many listed entries are neither skipped nor filed: the entries that are
      neither regular files nor directories. */
  function IgnoredCount(order: seq<string>, kinds: map<string, Kind>, parentIsCategory: bool): nat
    decreases |order|
  {
    if order == [] then 0
    else IgnoredCount(order[..|order| - 1], kinds, parentIsCategory)
         + (if !SkippedAtGuard(kinds, parentIsCategory, order[|order| - 1])
               && !Eligible(kinds, parentIsCategory, order[|order| - 1]) then 1 else 0)
  }

  /** Every listed entry is skipped by the guard, filed, or ignored, and only one
      of the three. */
  lemma {:induction false} ListingPartition(order: seq<string>, kinds: map<string, Kind>, parentIsCategory: bool)
    ensures GuardSkips(order, kinds, parentIsCategory) + |EligibleItems(order, kinds, parentIsCategory)|
            + IgnoredCount(order, kinds, parentIsCategory) == |order|
    decreases |order|
  {
    if order != [] {
      ListingPartition(order[..|order| - 1], kinds, parentIsCategory);
    }
  }

  /** Entries that are neither files nor directories are ignored. */
  lemma {:induction false} OthersIgnored(order: seq<string>, kinds: map<string, Kind>)
    requires forall x :: x in order ==> x in kinds && kinds[x].Other?
    ensures GuardSkips(order, kinds, false) == 0
    ensures EligibleItems(order, kinds, false) == []
    ensures IgnoredCount(order, kinds, false) == |order|
    decreases |order|
  {
    if order != [] {
      assert order[..|order| - 1] <= order;
      OthersIgnored(order[..|order| - 1], kinds);
    }
  }

  /** When the target folder's own name is a category name, the guard skips
      every entry and nothing is filed. */
  lemma {:induction false} ParentIsCategorySkipsAll(order: seq<string>, kinds: map<string, Kind>)
    ensures GuardSkips(order, kinds, true) == |order|
    ensures EligibleItems(order, kinds, true) == []
    decreases |order|
  {
    if order != [] {
      ParentIsCategorySkipsAll(order[..|order| - 1], kinds);
    }
  }

  // ---------------------------------------------------------------------------
  // Reports and what they add up to

  /** The files the reports are about, in order. */
  function Items(reports: seq<Report>): (r: seq<string>)
    ensures |r| == |reports|
    decreases |reports|
  {
    if reports == [] then [] else Items(reports[..|reports| - 1]) + [reports[|reports| - 1].item]
  }

  /** How many reports have the given action. */
  function CountAction(reports: seq<Report>, a: Action): nat
    decreases |reports|
  {
    if reports == [] then 0
    else CountAction(reports[..|reports| - 1], a) + (if reports[|reports| - 1].action == a then 1 else 0)
  }

  /** The files that were moved. */
  function MovedItems(reports: seq<Report>): set<string>
    decreases |reports|
  {
    if reports == [] then {}
    else MovedItems(reports[..|reports| - 1])
         + (if reports[|reports| - 1].action == Moved then {reports[|reports| - 1].item} else {})
  }

  /** The names that moves placed in category folder `c`. */
  function PlacedIn(reports: seq<Report>, c: string): set<string>
    decreases |reports|
  {
    if reports == [] then {}
    else PlacedIn(reports[..|reports| - 1], c)
         + (var r := reports[|reports| - 1]; if r.action == Moved && r.category == c then {r.target} else {})
  }

  /** How many moves went into category folder `c`. */
  function MovedInto(reports: seq<Report>, c: string): nat
    decreases |reports|
  {
    if reports == [] then 0
    else MovedInto(reports[..|reports| - 1], c)
         + (var r := reports[|reports| - 1]; if r.action == Moved && r.category == c then 1 else 0)
  }

  /** Moved and failed reports together are at most all reports, and all of
      them when no report is a preview. */
  lemma {:induction false} ReportCounts(reports: seq<Report>)
    ensures CountAction(reports, Moved) + CountAction(reports, MoveFailed) <= |reports|
    ensures (forall j :: 0 <= j < |reports| ==> reports[j].action != WouldMove) ==>
              CountAction(reports, Moved) + CountAction(reports, MoveFailed) == |reports|
    decreases |reports|
  {
    if reports != [] {
      ReportCounts(reports[..|reports| - 1]);
    }
  }

  /** The names in category folder `c`; none when `c` is not a directory. */
  function TakenIn(contents: map<string, set<string>>, c: string): set<string>
  {
    if c in contents then contents[c] else {}
  }

  /** The names already in folder `c` before the `j`-th report: its contents
      after setup and the names that earlier moves placed there. */
  function TakenBefore(contents0: map<string, set<string>>, reports: seq<Report>, j: nat, c: string): set<string>
    requires j <= |reports|
  {
    if c in contents0 then contents0[c] + PlacedIn(reports[..j], c) else {}
  }

  /** Each move into `c` among `reports` picks a name not yet in the folder,
      which held `base` before the first report. */
  ghost predicate FreshMoves(base: set<string>, reports: seq<Report>, c: string)
  {
    forall j :: 0 <= j < |reports| && reports[j].action == Moved && reports[j].category == c ==>
      reports[j].target !in base + PlacedIn(reports[..j], c)
  }

  /** No overwrite: when every move into `c` picks a name not yet in the folder,
      the folder grows by exactly one entry per move. */
  lemma NoOverwrite(base: set<string>, reports: seq<Report>, c: string)
    requires FreshMoves(base, reports, c)
    ensures |base + PlacedIn(reports, c)| == |base| + MovedInto(reports, c)
  {
    NoOverwriteUpTo(base, reports, c, |reports|);
    assert reports[..|reports|] == reports;
  }

  /** `NoOverwrite` for the first `n` reports. */
  lemma {:induction false} NoOverwriteUpTo(base: set<string>, reports: seq<Report>, c: string, n: nat)
    requires n <= |reports|
    requires FreshMoves(base, reports, c)
    ensures |base + PlacedIn(reports[..n], c)| == |base| + MovedInto(reports[..n], c)
    decreases n
  {
    if n > 0 {
      NoOverwriteUpTo(base, reports, c, n - 1);
      FreshMoveStep(base, reports, c, n);
    }
  }

  /** The `n`-th report adds a new name to folder `c` exactly when it moves a
      file there. */
  lemma FreshMoveStep(base: set<string>, reports: seq<Report>, c: string, n: nat)
    requires 0 < n <= |reports|
    requires FreshMoves(base, reports, c)
    ensures |base + PlacedIn(reports[..n], c)| - |base + PlacedIn(reports[..n - 1], c)|
            == MovedInto(reports[..n], c) - MovedInto(reports[..n - 1], c)
  {
    var prefix := reports[..n];
    assert prefix[..n - 1] == reports[..n - 1];
    var r := reports[n - 1];
    if r.action == Moved && r.category == c {
      assert r.target !in base + PlacedIn(reports[..n - 1], c);
      assert base + PlacedIn(prefix, c) == (base + PlacedIn(reports[..n - 1], c)) + {r.target};
    } else {
      assert base + PlacedIn(prefix, c) == base + PlacedIn(reports[..n - 1], c);
    }
  }

  /** Appending one report extends each of the report functions by that report. */
  lemma AppendReport(prev: seq<Report>, r: Report)
    ensures Items(prev + [r]) == Items(prev) + [r.item]
    ensures forall a :: CountAction(prev + [r], a) == CountAction(prev, a) + (if r.action == a then 1 else 0)
    ensures MovedItems(prev + [r]) == MovedItems(prev) + (if r.action == Moved then {r.item} else {})
    ensures forall c :: PlacedIn(prev + [r], c) ==
              PlacedIn(prev, c) + (if r.action == Moved && r.category == c then {r.target} else {})
  {
    assert (prev + [r])[..|prev|] == prev;
  }

  /** A successful move keeps the top level equal to the listed entries minus
      the moved files, and each category folder equal to its contents after
      setup plus the names moves placed there. */
  lemma MoveStep(kinds0: map<string, Kind>, contents0: map<string, set<string>>, prev: seq<Report>, r: Report,
                 entries: map<string, Kind>, contents: map<string, set<string>>)
    requires entries == kinds0 - MovedItems(prev)
    requires contents.Keys == contents0.Keys
    requires forall c :: c in contents0 ==> contents[c] == contents0[c] + PlacedIn(prev, c)
    requires r.action == Moved && r.category in contents
    ensures entries - {r.item} == kinds0 - MovedItems(prev + [r])
    ensures contents[r.category := contents[r.category] + {r.target}].Keys == contents0.Keys
    ensures forall c :: c in contents0 ==>
              contents[r.category := contents[r.category] + {r.target}][c] == contents0[c] + PlacedIn(prev + [r], c)
  {
    AppendReport(prev, r);
  }

  /** A report that moves nothing leaves the moved files and placed names as they were. */
  lemma NoMoveStep(prev: seq<Report>, r: Report)
    requires r.action != Moved
    ensures MovedItems(prev + [r]) == MovedItems(prev)
    ensures forall c :: PlacedIn(prev + [r], c) == PlacedIn(prev, c)
  {
    AppendReport(prev, r);
  }

  /** What the `j`-th report promises about the file it is about: the file was a
      regular file of the listing, it was filed under the category of its suffix
      under a name resolved against the folder as it stood at that point, and in
      a live run the move succeeded exactly when the oracle allowed it and the
      category folder is a directory. */
  ghost predicate ReportOk(kinds0: map<string, Kind>, contents0: map<string, set<string>>, reports: seq<Report>,
                           j: nat, dryRun: bool, moveOk: seq<bool>)
    requires j < |reports|
  {
    var r := reports[j];
    r.item in kinds0 && kinds0[r.item].File? &&
    r.category == GetCategory(kinds0[r.item].suffix) &&
    IsResolution(TakenBefore(contents0, reports, j, r.category), r.item, kinds0[r.item].stem, kinds0[r.item].suffix, r.target) &&
    (dryRun ==> r.action == WouldMove) &&
    (!dryRun ==> r.action != WouldMove && (r.action == Moved <==> j < |moveOk| && moveOk[j] && r.category in contents0))
  }

  /** The promises of earlier reports survive appending a report that keeps its own. */
  lemma ReportsOkAppend(kinds0: map<string, Kind>, contents0: map<string, set<string>>, prev: seq<Report>, r: Report,
                        dryRun: bool, moveOk: seq<bool>)
    requires forall j :: 0 <= j < |prev| ==> ReportOk(kinds0, contents0, prev, j, dryRun, moveOk)
    requires ReportOk(kinds0, contents0, prev + [r], |prev|, dryRun, moveOk)
    ensures forall j :: 0 <= j < |prev| + 1 ==> ReportOk(kinds0, contents0, prev + [r], j, dryRun, moveOk)
  {
    forall j | 0 <= j < |prev|
      ensures ReportOk(kinds0, contents0, prev + [r], j, dryRun, moveOk)
    {
      ReportOkAppend(kinds0, contents0, prev, r, j, dryRun, moveOk);
    }
  }

  /** The promise of the `j`-th report survives appending a report. */
  lemma ReportOkAppend(kinds0: map<string, Kind>, contents0: map<string, set<string>>, prev: seq<Report>, r: Report,
                       j: nat, dryRun: bool, moveOk: seq<bool>)
    requires j < |prev| && ReportOk(kinds0, contents0, prev, j, dryRun, moveOk)
    ensures ReportOk(kinds0, contents0, prev + [r], j, dryRun, moveOk)
  {
    assert (prev + [r])[..j] == prev[..j];
    assert (prev + [r])[j] == prev[j];
    assert TakenBefore(contents0, prev + [r], j, prev[j].category) == TakenBefore(contents0, prev, j, prev[j].category);
  }

  /** Each move into folder `c` picked a name that was not yet in it. */
  lemma TargetsAreFree(kinds0: map<string, Kind>, contents0: map<string, set<string>>, reports: seq<Report>,
                       dryRun: bool, moveOk: seq<bool>, c: string)
    requires forall j :: 0 <= j < |reports| ==> ReportOk(kinds0, contents0, reports, j, dryRun, moveOk)
    requires c in contents0
    ensures FreshMoves(contents0[c], reports, c)
  {
    forall j | 0 <= j < |reports| && reports[j].action == Moved && reports[j].category == c
      ensures reports[j].target !in contents0[c] + PlacedIn(reports[..j], c)
    {
      assert ReportOk(kinds0, contents0, reports, j, dryRun, moveOk);
    }
  }

  // ---------------------------------------------------------------------------
  // The walk over the listing, as a function of the listing

  /** The state a run carries through the listing: the top level, the category
      folders' contents, the reports so far and the two counters. */
  datatype Run = Run(entries: map<string, Kind>, contents: map<string, set<string>>,
                     reports: seq<Report>, moved: nat, skipped: nat)

  /** The state before the first entry: the top level and folders after setup. */
  function Start(kinds0: map<string, Kind>, contents0: map<string, set<string>>): Run
  {
    Run(kinds0, contents0, [], 0, 0)
  }

  /** The report on one regular file: its category from its suffix, the name
      resolved against the category folder as it stands (an absent folder holds
      nothing), and the action — a preview in a dry run, else a move when the
      move succeeds (`ok`) and the category folder is a directory, else a
      failure. */
  function FileReport(entries: map<string, Kind>, contents: map<string, set<string>>, item: string,
                      dryRun: bool, ok: bool): (r: Report)
    requires item in entries && entries[item].File?
    ensures r.item == item && r.category in CategoryNames
    ensures r.target !in TakenIn(contents, r.category)
    ensures r.action == WouldMove <==> dryRun
    ensures r.action == Moved ==> ok && r.category in contents
  {
    var kind := entries[item];
    var category := GetCategory(kind.suffix);
    var target := Resolution(TakenIn(contents, category), item, kind.stem, kind.suffix);
    var action := if dryRun then WouldMove else if ok && category in contents then Moved else MoveFailed;
    Report(action, item, category, target)
  }

  /** The report on a file keeps the promises of a report. */
  lemma FileReportFacts(entries: map<string, Kind>, contents: map<string, set<string>>, item: string,
                        dryRun: bool, ok: bool)
    requires item in entries && entries[item].File?
    ensures var r := FileReport(entries, contents, item, dryRun, ok);
      r.item == item && r.category == GetCategory(entries[item].suffix) && r.category in CategoryNames &&
      IsResolution(TakenIn(contents, r.category), item, entries[item].stem, entries[item].suffix, r.target) &&
      (r.action == WouldMove <==> dryRun) &&
      (r.action == Moved <==> !dryRun && ok && r.category in contents)
  {
    var kind := entries[item];
    ResolutionIsResolution(TakenIn(contents, GetCategory(kind.suffix)), item, kind.stem, kind.suffix);
  }

  /** One entry of the listing: skipped when it is a directory or the target's
      own name is a category name; filed when it is a regular file, the move
      being the `j`-th attempt for `j` the number of reports so far (a missing
      oracle entry counts as a failure); passed over otherwise. */
  function Visit(st: Run, item: string, parentIsCategory: bool, dryRun: bool, moveOk: seq<bool>): Run
  {
    if SkippedAtGuard(st.entries, parentIsCategory, item) then st.(skipped := st.skipped + 1)
    else if item in st.entries && st.entries[item].File? then
      var ok := |st.reports| < |moveOk| && moveOk[|st.reports|];
      var r := FileReport(st.entries, st.contents, item, dryRun, ok);
      if r.action == Moved then
        Run(st.entries - {item}, st.contents[r.category := st.contents[r.category] + {r.target}],
            st.reports + [r], st.moved + 1, st.skipped)
      else
        Run(st.entries, st.contents, st.reports + [r], st.moved,
            if r.action == MoveFailed then st.skipped + 1 else st.skipped)
    else st
  }

  /** The state after visiting the entries of `order` in turn. */
  function Walk(start: Run, order: seq<string>, parentIsCategory: bool, dryRun: bool, moveOk: seq<bool>): Run
    decreases |order|
  {
    if order == [] then start
    else Visit(Walk(start, order[..|order| - 1], parentIsCategory, dryRun, moveOk), order[|order| - 1],
               parentIsCategory, dryRun, moveOk)
  }

  /** Visiting one entry only appends to the reports, at most one report; it
      adds at most one to the counters together and never decreases either;
      and it adds no top-level entry and no category folder. */
  lemma VisitBounds(st: Run, item: string, parentIsCategory: bool, dryRun: bool, moveOk: seq<bool>)
    ensures var r := Visit(st, item, parentIsCategory, dryRun, moveOk);
      st.reports <= r.reports && |r.reports| <= |st.reports| + 1 &&
      st.moved <= r.moved && st.skipped <= r.skipped && r.moved + r.skipped <= st.moved + st.skipped + 1 &&
      r.entries.Keys <= st.entries.Keys && r.contents.Keys == st.contents.Keys
  {
    if !SkippedAtGuard(st.entries, parentIsCategory, item) && item in st.entries && st.entries[item].File? {
      VisitFile(st, item, parentIsCategory, dryRun, moveOk);
    }
  }

  /** Over any sequence of entries, the reports only grow, by at most one per
      entry; each entry adds at most one to the counters together; and no
      top-level entry or category folder appears. */
  lemma {:induction false} WalkBounds(start: Run, order: seq<string>, parentIsCategory: bool, dryRun: bool, moveOk: seq<bool>)
    ensures var r := Walk(start, order, parentIsCategory, dryRun, moveOk);
      start.reports <= r.reports && |r.reports| <= |start.reports| + |order| &&
      start.moved <= r.moved && start.skipped <= r.skipped &&
      r.moved + r.skipped <= start.moved + start.skipped + |order| &&
      r.entries.Keys <= start.entries.Keys && r.contents.Keys == start.contents.Keys
    decreases |order|
  {
    if order != [] {
      var init := order[..|order| - 1];
      WalkBounds(start, init, parentIsCategory, dryRun, moveOk);
      VisitBounds(Walk(start, init, parentIsCategory, dryRun, moveOk), order[|order| - 1], parentIsCategory, dryRun, moveOk);
    }
  }

  /** Visiting a regular file that passes the guard reports on it and, when
      the report is a move, takes it off the top level into its folder. */
  lemma VisitFile(st: Run, item: string, parentIsCategory: bool, dryRun: bool, moveOk: seq<bool>)
    requires !SkippedAtGuard(st.entries, parentIsCategory, item) && item in st.entries && st.entries[item].File?
    ensures var r := FileReport(st.entries, st.contents, item, dryRun, |st.reports| < |moveOk| && moveOk[|st.reports|]);
      Visit(st, item, parentIsCategory, dryRun, moveOk) ==
        if r.action == Moved then
          Run(st.entries - {item}, st.contents[r.category := st.contents[r.category] + {r.target}],
              st.reports + [r], st.moved + 1, st.skipped)
        else
          Run(st.entries, st.contents, st.reports + [r], st.moved,
              if r.action == MoveFailed then st.skipped + 1 else st.skipped)
  {
  }

  /** Walking one more entry of `order` visits it after the walk so far. */
  lemma WalkSnoc(start: Run, order: seq<string>, i: nat, parentIsCategory: bool, dryRun: bool, moveOk: seq<bool>)
    requires i < |order|
    ensures Walk(start, order[..i + 1], parentIsCategory, dryRun, moveOk)
            == Visit(Walk(start, order[..i], parentIsCategory, dryRun, moveOk), order[i], parentIsCategory, dryRun, moveOk)
  {
    assert order[..i + 1][..i] == order[..i];
  }

  /** The walk keeps the top level equal to the listed entries minus the moved
      files and each category folder equal to its contents after setup plus the
      names moves placed there; only listed entries are moved, and there is at
      most one report per entry. */
  lemma {:induction false} WalkState(kinds0: map<string, Kind>, contents0: map<string, set<string>>, order: seq<string>,
                                     parentIsCategory: bool, dryRun: bool, moveOk: seq<bool>)
    ensures var w := Walk(Start(kinds0, contents0), order, parentIsCategory, dryRun, moveOk);
      w.entries == kinds0 - MovedItems(w.reports) &&
      w.contents.Keys == contents0.Keys &&
      (forall c :: c in contents0 ==> w.contents[c] == contents0[c] + PlacedIn(w.reports, c)) &&
      (forall x :: x in MovedItems(w.reports) ==> x in order) &&
      |w.reports| <= |order|
    decreases |order|
  {
    if order != [] {
      var init, item := order[..|order| - 1], order[|order| - 1];
      WalkState(kinds0, contents0, init, parentIsCategory, dryRun, moveOk);
      var st := Walk(Start(kinds0, contents0), init, parentIsCategory, dryRun, moveOk);
      var w := Visit(st, item, parentIsCategory, dryRun, moveOk);
      assert order == init + [item];
      if !SkippedAtGuard(st.entries, parentIsCategory, item) && item in st.entries && st.entries[item].File? {
        var ok := |st.reports| < |moveOk| && moveOk[|st.reports|];
        var r := FileReport(st.entries, st.contents, item, dryRun, ok);
        if r.action == Moved {
          MoveStep(kinds0, contents0, st.reports, r, st.entries, st.contents);
        } else {
          NoMoveStep(st.reports, r);
        }
        AppendReport(st.reports, r);
      }
    }
  }

  /** An entry not yet visited is still at the top level as it was listed. */
  lemma Unvisited(kinds0: map<string, Kind>, contents0: map<string, set<string>>, order: seq<string>,
                  parentIsCategory: bool, dryRun: bool, moveOk: seq<bool>, x: string)
    requires x !in order
    ensures var w := Walk(Start(kinds0, contents0), order, parentIsCategory, dryRun, moveOk);
      (x in w.entries <==> x in kinds0) && (x in kinds0 ==> w.entries[x] == kinds0[x])
  {
    WalkState(kinds0, contents0, order, parentIsCategory, dryRun, moveOk);
  }

  /** Over a listing, the walk reports on exactly the eligible files, in order;
      the moved counter counts the moves, and the skipped counter the entries the
      guard skips plus the failed moves. */
  lemma {:induction false} WalkCounts(kinds0: map<string, Kind>, contents0: map<string, set<string>>, order: seq<string>,
                                      parentIsCategory: bool, dryRun: bool, moveOk: seq<bool>)
    requires NoDuplicates(order)
    ensures var w := Walk(Start(kinds0, contents0), order, parentIsCategory, dryRun, moveOk);
      Items(w.reports) == EligibleItems(order, kinds0, parentIsCategory) &&
      w.moved == CountAction(w.reports, Moved) &&
      w.skipped == GuardSkips(order, kinds0, parentIsCategory) + CountAction(w.reports, MoveFailed)
    decreases |order|
  {
    if order != [] {
      var init, item := order[..|order| - 1], order[|order| - 1];
      WalkCounts(kinds0, contents0, init, parentIsCategory, dryRun, moveOk);
      assert item !in init;
      Unvisited(kinds0, contents0, init, parentIsCategory, dryRun, moveOk, item);
      var st := Walk(Start(kinds0, contents0), init, parentIsCategory, dryRun, moveOk);
      VisitTally(kinds0, st, item, parentIsCategory, dryRun, moveOk);
    }
  }

  /** Visiting an entry that is at the top level as listed reports on it exactly
      when it is eligible, and counts what it does. */
  lemma VisitTally(kinds0: map<string, Kind>, st: Run, item: string, parentIsCategory: bool, dryRun: bool, moveOk: seq<bool>)
    requires SkippedAtGuard(st.entries, parentIsCategory, item) == SkippedAtGuard(kinds0, parentIsCategory, item)
    requires Eligible(st.entries, parentIsCategory, item) == Eligible(kinds0, parentIsCategory, item)
    ensures var w := Visit(st, item, parentIsCategory, dryRun, moveOk);
      Items(w.reports) == Items(st.reports) + (if Eligible(kinds0, parentIsCategory, item) then [item] else []) &&
      w.moved - st.moved == CountAction(w.reports, Moved) - CountAction(st.reports, Moved) &&
      w.skipped - st.skipped == (if SkippedAtGuard(kinds0, parentIsCategory, item) then 1 else 0)
                                + CountAction(w.reports, MoveFailed) - CountAction(st.reports, MoveFailed)
  {
    if Eligible(kinds0, parentIsCategory, item) {
      var ok := |st.reports| < |moveOk| && moveOk[|st.reports|];
      VisitFile(st, item, parentIsCategory, dryRun, moveOk);
      AppendReport(st.reports, FileReport(st.entries, st.contents, item, dryRun, ok));
    }
  }

  /** Over a listing, every report keeps the promises of a report (`ReportOk`). */
  lemma {:induction false} WalkReportsOk(kinds0: map<string, Kind>, contents0: map<string, set<string>>, order: seq<string>,
                                         parentIsCategory: bool, dryRun: bool, moveOk: seq<bool>)
    requires NoDuplicates(order)
    ensures var w := Walk(Start(kinds0, contents0), order, parentIsCategory, dryRun, moveOk);
      forall j :: 0 <= j < |w.reports| ==> ReportOk(kinds0, contents0, w.reports, j, dryRun, moveOk)
    decreases |order|
  {
    if order != [] {
      var init, item := order[..|order| - 1], order[|order| - 1];
      WalkReportsOk(kinds0, contents0, init, parentIsCategory, dryRun, moveOk);
      WalkState(kinds0, contents0, init, parentIsCategory, dryRun, moveOk);
      assert item !in init;
      Unvisited(kinds0, contents0, init, parentIsCategory, dryRun, moveOk, item);
      var st := Walk(Start(kinds0, contents0), init, parentIsCategory, dryRun, moveOk);
      if !SkippedAtGuard(st.entries, parentIsCategory, item) && item in st.entries && st.entries[item].File? {
        var ok := |st.reports| < |moveOk| && moveOk[|st.reports|];
        var r := FileReport(st.entries, st.contents, item, dryRun, ok);
        FileReportFacts(st.entries, st.contents, item, dryRun, ok);
        AppendReport(st.reports, r);
        assert (st.reports + [r])[..|st.reports|] == st.reports;
        assert TakenBefore(contents0, st.reports + [r], |st.reports|, r.category) == TakenIn(st.contents, r.category);
        assert ReportOk(kinds0, contents0, st.reports + [r], |st.reports|, dryRun, moveOk);
        ReportsOkAppend(kinds0, contents0, st.reports, r, dryRun, moveOk);
      }
    }
  }

  /** Over a listing, no move overwrites anything: each category folder grows
      by exactly one name per file moved into it. */
  lemma WalkNoOverwrite(kinds0: map<string, Kind>, contents0: map<string, set<string>>, order: seq<string>,
                        parentIsCategory: bool, dryRun: bool, moveOk: seq<bool>)
    requires NoDuplicates(order)
    ensures var w := Walk(Start(kinds0, contents0), order, parentIsCategory, dryRun, moveOk);
      forall c :: c in contents0 ==> c in w.contents && |w.contents[c]| == |contents0[c]| + MovedInto(w.reports, c)
  {
    var w := Walk(Start(kinds0, contents0), order, parentIsCategory, dryRun, moveOk);
    WalkState(kinds0, contents0, order, parentIsCategory, dryRun, moveOk);
    WalkReportsOk(kinds0, contents0, order, parentIsCategory, dryRun, moveOk);
    forall c | c in contents0
      ensures c in w.contents && |w.contents[c]| == |contents0[c]| + MovedInto(w.reports, c)
    {
      TargetsAreFree(kinds0, contents0, w.reports, dryRun, moveOk, c);
      NoOverwrite(contents0[c], w.reports, c);
    }
  }

  /** Over a listing, the summary counts at most one outcome per entry; in a
      live run every entry is moved, skipped or passed over, exactly once. */
  lemma WalkTotals(kinds0: map<string, Kind>, contents0: map<string, set<string>>, order: seq<string>,
                   parentIsCategory: bool, dryRun: bool, moveOk: seq<bool>)
    requires NoDuplicates(order)
    ensures var w := Walk(Start(kinds0, contents0), order, parentIsCategory, dryRun, moveOk);
      w.moved + w.skipped <= |order| &&
      (!dryRun ==> w.moved + w.skipped + IgnoredCount(order, kinds0, parentIsCategory) == |order|)
  {
    var w := Walk(Start(kinds0, contents0), order, parentIsCategory, dryRun, moveOk);
    WalkCounts(kinds0, contents0, order, parentIsCategory, dryRun, moveOk);
    WalkReportsOk(kinds0, contents0, order, parentIsCategory, dryRun, moveOk);
    ListingPartition(order, kinds0, parentIsCategory);
    ReportCounts(w.reports);
    if !dryRun {
      forall j | 0 <= j < |w.reports|
        ensures w.reports[j].action != WouldMove
      {
        assert ReportOk(kinds0, contents0, w.reports, j, dryRun, moveOk);
      }
    }
  }

  /** Directories and entries that are neither files nor directories stay at
      the top level as they were. */
  lemma {:induction false} WalkKeepsNonFiles(kinds0: map<string, Kind>, contents0: map<string, set<string>>,
                                             order: seq<string>, parentIsCategory: bool, dryRun: bool, moveOk: seq<bool>)
    ensures var w := Walk(Start(kinds0, contents0), order, parentIsCategory, dryRun, moveOk);
      forall x :: x in kinds0 && !kinds0[x].File? ==> x in w.entries && w.entries[x] == kinds0[x]
    decreases |order|
  {
    if order != [] {
      WalkKeepsNonFiles(kinds0, contents0, order[..|order| - 1], parentIsCategory, dryRun, moveOk);
    }
  }

  /** A dry run changes nothing, moves nothing and previews every eligible
      file; only the guard's skips are counted. */
  lemma {:induction false} WalkDryRun(kinds0: map<string, Kind>, contents0: map<string, set<string>>, order: seq<string>,
                                      parentIsCategory: bool, moveOk: seq<bool>)
    ensures var w := Walk(Start(kinds0, contents0), order, parentIsCategory, true, moveOk);
      w.entries == kinds0 && w.contents == contents0 && w.moved == 0 &&
      w.skipped == GuardSkips(order, kinds0, parentIsCategory) &&
      Items(w.reports) == EligibleItems(order, kinds0, parentIsCategory) &&
      (forall j :: 0 <= j < |w.reports| ==> w.reports[j].action == WouldMove)
    decreases |order|
  {
    if order != [] {
      var init, item := order[..|order| - 1], order[|order| - 1];
      WalkDryRun(kinds0, contents0, init, parentIsCategory, moveOk);
      DryVisit(kinds0, contents0, Walk(Start(kinds0, contents0), init, parentIsCategory, true, moveOk),
               item, parentIsCategory, moveOk);
    }
  }

  /** Visiting one entry in a dry run changes nothing, moves nothing, counts a
      skip only at the guard, and previews the entry exactly when it is eligible. */
  lemma DryVisit(kinds0: map<string, Kind>, contents0: map<string, set<string>>, st: Run, item: string,
                 parentIsCategory: bool, moveOk: seq<bool>)
    requires st.entries == kinds0 && st.contents == contents0 && st.moved == 0
    requires forall j :: 0 <= j < |st.reports| ==> st.reports[j].action == WouldMove
    ensures var w := Visit(st, item, parentIsCategory, true, moveOk);
      w.entries == kinds0 && w.contents == contents0 && w.moved == 0 &&
      w.skipped == st.skipped + (if SkippedAtGuard(kinds0, parentIsCategory, item) then 1 else 0) &&
      Items(w.reports) == Items(st.reports) + (if Eligible(kinds0, parentIsCategory, item) then [item] else []) &&
      (forall j :: 0 <= j < |w.reports| ==> w.reports[j].action == WouldMove)
  {
    if Eligible(kinds0, parentIsCategory, item) {
      var r := FileReport(st.entries, st.contents, item, true, |st.reports| < |moveOk| && moveOk[|st.reports|]);
      VisitFile(st, item, parentIsCategory, true, moveOk);
      AppendReport(st.reports, r);
    }
  }

  /** When the target's own name is a category name, every entry is skipped and
      nothing is filed or changed. */
  lemma {:induction false} WalkParentIsCategory(kinds0: map<string, Kind>, contents0: map<string, set<string>>,
                                                order: seq<string>, dryRun: bool, moveOk: seq<bool>)
    ensures Walk(Start(kinds0, contents0), order, true, dryRun, moveOk) == Run(kinds0, contents0, [], 0, |order|)
    decreases |order|
  {
    if order != [] {
      WalkParentIsCategory(kinds0, contents0, order[..|order| - 1], dryRun, moveOk);
    }
  }

  /** The listed entries the guard skips, as a set. */
  function SkippedNames(order: seq<string>, kinds: map<string, Kind>, parentIsCategory: bool): (r: set<string>)
    ensures forall x :: x in r <==> x in order && SkippedAtGuard(kinds, parentIsCategory, x)
    decreases |order|
  {
    if order == [] then {}
    else
      assert order == order[..|order| - 1] + [order[|order| - 1]];
      SkippedNames(order[..|order| - 1], kinds, parentIsCategory)
      + (if SkippedAtGuard(kinds, parentIsCategory, order[|order| - 1]) then {order[|order| - 1]} else {})
  }

  /** Over a listing, the guard's skips are as many as the entries it skips. */
  lemma {:induction false} GuardSkipsCount(order: seq<string>, kinds: map<string, Kind>, parentIsCategory: bool)
    requires NoDuplicates(order)
    ensures GuardSkips(order, kinds, parentIsCategory) == |SkippedNames(order, kinds, parentIsCategory)|
    decreases |order|
  {
    if order != [] {
      var init := order[..|order| - 1];
      GuardSkipsCount(init, kinds, parentIsCategory);
      assert order[|order| - 1] !in init;
    }
  }

  /** After a live setup, a listing that covers the top level lists the
      category folder `c` as an entry the guard skips, unless an entry named `c`
      that is not a directory was already there. */
  lemma CategoryNamesListedSkipped(entries0: map<string, Kind>, order: seq<string>, parentIsCategory: bool, c: string)
    requires forall x :: x in ListedEntries(entries0, false) ==> x in order
    requires c in CategoryNames && (c in entries0 ==> entries0[c].Dir?)
    ensures c in SkippedNames(order, ListedEntries(entries0, false), parentIsCategory)
  {
  }

  /** In a live run whose listing covers the top level, the skipped counter
      counts the seven category folders themselves, so it is never below 7,
      unless an entry that is not a directory already carried a category name. */
  lemma CategoryFoldersSkipped(entries0: map<string, Kind>, contents0: map<string, set<string>>, order: seq<string>,
                               parentIsCategory: bool, moveOk: seq<bool>)
    requires NoDuplicates(order)
    requires forall x :: x in ListedEntries(entries0, false) ==> x in order
    requires forall c :: c in CategoryNames && c in entries0 ==> entries0[c].Dir?
    ensures Walk(Start(ListedEntries(entries0, false), ListedContents(entries0, contents0, false)),
                 order, parentIsCategory, false, moveOk).skipped >= 7
  {
    CategoryCount();
    var kinds0 := ListedEntries(entries0, false);
    WalkCounts(kinds0, ListedContents(entries0, contents0, false), order, parentIsCategory, false, moveOk);
    GuardSkipsCount(order, kinds0, parentIsCategory);
    CategoryNamesSkipped(entries0, order, parentIsCategory);
  }

  /** When no entry that is not a directory carries a category name, all the
      category names are among the skipped entries, so there are at least as
      many skipped entries as category names. */
  lemma CategoryNamesSkipped(entries0: map<string, Kind>, order: seq<string>, parentIsCategory: bool)
    requires forall x :: x in ListedEntries(entries0, false) ==> x in order
    requires forall c :: c in CategoryNames && c in entries0 ==> entries0[c].Dir?
    ensures CategoryNames <= SkippedNames(order, ListedEntries(entries0, false), parentIsCategory)
    ensures |CategoryNames| <= |SkippedNames(order, ListedEntries(entries0, false), parentIsCategory)|
  {
    var s := SkippedNames(order, ListedEntries(entries0, false), parentIsCategory);
    forall c | c in CategoryNames
      ensures c in s
    {
      CategoryNamesListedSkipped(entries0, order, parentIsCategory, c);
    }
    assert s == CategoryNames + (s - CategoryNames);
  }

  // ---------------------------------------------------------------------------
  // The target folder

  /** `contents` describes exactly the category folders that are directories,
      and every file's stem and suffix make up its name. */
  ghost predicate WellFormed(entries: map<string, Kind>, contents: map<string, set<string>>)
  {
    (forall c :: c in contents ==> c in CategoryNames && c in entries && entries[c].Dir?) &&
    (forall c :: c in CategoryNames && c in entries && entries[c].Dir? ==> c in contents) &&
    (forall n :: n in entries && entries[n].File? ==> entries[n].stem + entries[n].suffix == n)
  }

  /** Creating a missing category folder, empty, keeps the state well formed. */
  lemma CreateFolderWellFormed(entries: map<string, Kind>, contents: map<string, set<string>>, c: string)
    requires WellFormed(entries, contents) && c in CategoryNames && c !in entries
    ensures WellFormed(entries[c := Dir], contents[c := {}])
  {
  }

  /** Moving a file into an existing category folder keeps the state well formed. */
  lemma MoveWellFormed(entries: map<string, Kind>, contents: map<string, set<string>>, item: string, c: string, t: string)
    requires WellFormed(entries, contents) && item in entries && entries[item].File? && c in contents
    ensures WellFormed(entries - {item}, contents[c := contents[c] + {t}])
  {
  }

  class Folder {
    /** The target exists and is a directory. */
    var isDirectory: bool
    /** The target folder's own name (its last path component). */
    var name: string
    /** The top level of the target: child name to kind. */
    var entries: map<string, Kind>
    /** The names inside each category folder that is a directory. */
    var contents: map<string, set<string>>

    /** The object invariant. */
    ghost predicate Valid()
      reads this
    {
      WellFormed(entries, contents)
    }

    constructor (isDirectory: bool, name: string, entries: map<string, Kind>, contents: map<string, set<string>>)
      requires WellFormed(entries, contents)
      ensures Valid()
      ensures this.isDirectory == isDirectory && this.name == name
      ensures this.entries == entries && this.contents == contents
    {
      this.isDirectory := isDirectory;
      this.name := name;
      this.entries := entries;
      this.contents := contents;
    }

    /** Creates each category folder that does not exist yet, in table order,
        unless this is a dry run. Existing entries, whatever their kind, and the
        contents of existing folders are left as they are. */
    method EnsureCategoryFolders(dryRun: bool)
      requires Valid()
      modifies this
      ensures Valid()
      ensures isDirectory == old(isDirectory) && name == old(name)
      ensures entries == ListedEntries(old(entries), dryRun)
      ensures contents == ListedContents(old(entries), old(contents), dryRun)
    {
      for k := 0 to |CATEGORIES|
        invariant Valid()
        invariant isDirectory == old(isDirectory) && name == old(name)
        invariant dryRun ==> entries == old(entries) && contents == old(contents)
        invariant !dryRun ==> entries == WithFolders(old(entries), NamesOf(CATEGORIES[..k]))
        invariant !dryRun ==> contents == WithEmptyFolders(old(entries), old(contents), NamesOf(CATEGORIES[..k]))
      {
        var category := CATEGORIES[k].name;
        NamesOfStep(CATEGORIES, k);
        CategoryRowNames(k);
        WithFoldersStep(old(entries), old(contents), NamesOf(CATEGORIES[..k]), category);
        EnsureFolder(category, dryRun);
      }
      CategoryNamesOfRows();
    }

    /** Creates the folder `category` when it does not exist and this is not a
        dry run; an existing entry of that name is left as it is. */
    method EnsureFolder(category: string, dryRun: bool)
      requires Valid() && category in CategoryNames
      modifies this
      ensures Valid()
      ensures isDirectory == old(isDirectory) && name == old(name)
      ensures !dryRun && category !in old(entries) ==>
                entries == old(entries)[category := Dir] && contents == old(contents)[category := {}]
      ensures dryRun || category in old(entries) ==> entries == old(entries) && contents == old(contents)
    {
      if category !in entries && !dryRun {
        CreateFolderWellFormed(entries, contents, category);
        entries := entries[category := Dir];
        contents := contents[category := {}];
      }
    }

    /** Files one regular file (a top-level entry that passed the guard): finds
        its category and a collision-free name in the category folder, then in
        a dry run only reports the intended move, and in a live run moves the
        file there when the move succeeds (`moveOk`, and the category folder is
        a directory) and reports the failure otherwise. */
    method FileEntry(item: string, dryRun: bool, moveOk: bool) returns (report: Report)
      requires Valid()
      requires item in entries && entries[item].File?
      modifies this
      ensures Valid()
      ensures isDirectory == old(isDirectory) && name == old(name)
      ensures report == FileReport(old(entries), old(contents), item, dryRun, moveOk)
      ensures report.action == Moved ==>
                report.category in old(contents) &&
                entries == old(entries) - {item} &&
                contents == old(contents)[report.category := old(contents)[report.category] + {report.target}]
      ensures report.action != Moved ==> entries == old(entries) && contents == old(contents)
    {
      var kind := entries[item];
      var category := GetCategory(kind.suffix);
      var taken := TakenIn(contents, category);
      var target := ResolveName(taken, item, kind.stem, kind.suffix);
      if dryRun {
        report := Report(WouldMove, item, category, target);
      } else if moveOk && category in contents {
        MoveWellFormed(entries, contents, item, category, target);
        entries := entries - {item};
        contents := contents[category := contents[category] + {target}];
        report := Report(Moved, item, category, target);
      } else {
        report := Report(MoveFailed, item, category, target);
      }
    }

    /** Visits one listed entry with the counters and reports so far: skips a
        directory, or every entry when the target's own name is a category
        name; files a regular file; passes over anything else. */
    method VisitEntry(item: string, parentIsCategory: bool, dryRun: bool, moveOk: seq<bool>,
                      moved: nat, skipped: nat, reports: seq<Report>)
      returns (nextMoved: nat, nextSkipped: nat, nextReports: seq<Report>)
      requires Valid()
      modifies this
      ensures Valid()
      ensures isDirectory == old(isDirectory) && name == old(name)
      ensures Run(entries, contents, nextReports, nextMoved, nextSkipped)
              == Visit(Run(old(entries), old(contents), reports, moved, skipped), item, parentIsCategory, dryRun, moveOk)
    {
      nextMoved, nextSkipped, nextReports := moved, skipped, reports;
      ghost var st := Run(entries, contents, reports, moved, skipped);
      if (item in entries && entries[item].Dir?) || parentIsCategory {
        nextSkipped := skipped + 1;
      } else if item in entries && entries[item].File? {
        var ok := |reports| < |moveOk| && moveOk[|reports|];
        var report := FileEntry(item, dryRun, ok);
        VisitFile(st, item, parentIsCategory, dryRun, moveOk);
        if report.action == Moved {
          nextMoved := moved + 1;
        } else if report.action == MoveFailed {
          nextSkipped := skipped + 1;
        }
        nextReports := reports + [report];
      }
    }

    /** One run of the organizer. `order` is the order in which the listing
        yields the top-level entries (taken after the category folders are
        created); `moveOk[j]` says whether the `j`-th move attempt succeeds
        (an attempt beyond the end of `moveOk` fails).
        An invalid target changes nothing and reports nothing. Otherwise the
        run creates the category folders and then walks the listing as `Walk`
        does, ending with its summary counters. */
    method OrganizeFiles(dryRun: bool, order: seq<string>, moveOk: seq<bool>) returns (outcome: Outcome, reports: seq<Report>)
      requires Valid()
      modifies this
      ensures Valid()
      ensures isDirectory == old(isDirectory) && name == old(name)
      ensures !isDirectory ==> outcome == InvalidDirectory && reports == []
      ensures !isDirectory ==> entries == old(entries) && contents == old(contents)
      ensures isDirectory ==>
                (var w := Walk(Start(ListedEntries(old(entries), dryRun), ListedContents(old(entries), old(contents), dryRun)),
                               order, name in CategoryNames, dryRun, moveOk);
                 outcome == Summary(w.moved, w.skipped) && reports == w.reports &&
                 entries == w.entries && contents == w.contents)
    {
      if !isDirectory {
        return InvalidDirectory, [];
      }
      EnsureCategoryFolders(dryRun);
      ghost var start := Start(entries, contents);
      var parentIsCategory := name in CategoryNames;
      var moved, skipped := 0, 0;
      reports := [];
      for i := 0 to |order|
        invariant Valid()
        invariant isDirectory == old(isDirectory) && name == old(name)
        invariant Run(entries, contents, reports, moved, skipped) == Walk(start, order[..i], parentIsCategory, dryRun, moveOk)
      {
        WalkSnoc(start, order, i, parentIsCategory, dryRun, moveOk);
        moved, skipped, reports := VisitEntry(order[i], parentIsCategory, dryRun, moveOk, moved, skipped, reports);
      }
      assert order[..|order|] == order;
      outcome := Summary(moved, skipped);
    }
  }
}
