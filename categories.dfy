/** The extension classifier: the fixed category table and the case-insensitive
    lookup that files an extension under one category name. */
module Categories {

  /** One row of the table: a folder name and the extensions filed under it
      (lower case, leading dot included). */
  datatype Category = Category(name: string, extensions: seq<string>)

  /** The table, in dictionary order; the catch-all comes last with no extensions. */
  const CATEGORIES: seq<Category> := [
    Category("Images", [".jpg", ".jpeg", ".png", ".gif", ".bmp", ".svg", ".webp"]),
    Category("Documents", [".pdf", ".doc", ".docx", ".xls", ".xlsx", ".txt", ".md"]),
    Category("Audio", [".mp3", ".wav", ".flac", ".aac", ".m4a"]),
    Category("Video", [".mp4", ".mkv", ".mov", ".avi", ".flv"]),
    Category("Archives", [".zip", ".tar", ".gz", ".rar", ".7z"]),
    Category("Code", [".py", ".js", ".html", ".css", ".json", ".sh"]),
    Category("Others", [])
  ]

  /** The name returned when no list holds the extension. */
  const OTHERS: string := "Others"

  /** The keys of the table: the names of the category folders. */
  const CategoryNames: set<string> := {"Images", "Documents", "Audio", "Video", "Archives", "Code", "Others"}

  /** The names of a prefix of the table, collected row by row. */
  function NamesOf(rows: seq<Category>): set<string>
    decreases |rows|
  {
    if rows == [] then {} else NamesOf(rows[..|rows| - 1]) + {rows[|rows| - 1].name}
  }

  /** Collecting one more row adds that row's name. */
  lemma NamesOfStep(rows: seq<Category>, k: nat)
    requires k < |rows|
    ensures NamesOf(rows[..k + 1]) == NamesOf(rows[..k]) + {rows[k].name}
  {
    assert rows[..k + 1][..k] == rows[..k];
  }

  /** Every row's name is a category name. */
  lemma CategoryRowNames(k: nat)
    requires k < |CATEGORIES|
    ensures CATEGORIES[k].name in CategoryNames
  {
  }

  /** The names of the rows are the category names. */
  lemma CategoryNamesOfRows()
    ensures NamesOf(CATEGORIES[..|CATEGORIES|]) == CategoryNames
  {
    assert CATEGORIES[..0] == [];
    NamesOfStep(CATEGORIES, 0);
    NamesOfStep(CATEGORIES, 1);
    NamesOfStep(CATEGORIES, 2);
    NamesOfStep(CATEGORIES, 3);
    NamesOfStep(CATEGORIES, 4);
    NamesOfStep(CATEGORIES, 5);
    NamesOfStep(CATEGORIES, 6);
  }

  /** There are seven category names. */
  lemma CategoryCount()
    ensures |CategoryNames| == 7
  {
    assert "Images"[0] != "Others"[0] && "Audio"[0] != "Video"[0];
  }

  /** ASCII lower-casing of one character; every other character is kept. */
  function LowerChar(ch: char): char
  {
    if 'A' <= ch <= 'Z' then (ch as int + 32) as char else ch
  }

  /** ASCII lower-casing of a string, character by character. */
  function Lower(s: string): string
  {
    seq(|s|, i requires 0 <= i < |s| => LowerChar(s[i]))
  }

  /** Lower-casing twice is lower-casing once. */
  lemma LowerIdempotent(s: string)
    ensures Lower(Lower(s)) == Lower(s)
  {
    assert forall i :: 0 <= i < |s| ==> Lower(Lower(s))[i] == Lower(s)[i];
  }

  /** The position of the first row whose list holds `ext`, or `|table|` when no
      row does: the search of the loop over the table's items. */
  function MatchIndex(table: seq<Category>, ext: string): (i: nat)
    ensures i <= |table|
    ensures i < |table| ==> ext in table[i].extensions
    ensures forall j :: 0 <= j < i ==> ext !in table[j].extensions
    decreases |table|
  {
    if table == [] then 0
    else if ext in table[0].extensions then 0
    else 1 + MatchIndex(table[1..], ext)
  }

  /** The category of a file extension: the name of the first row whose list
      holds the lower-cased extension, or the catch-all; it is always a key of
      the table. */
  function GetCategory(ext: string): (r: string)
    ensures r in CategoryNames
  {
    var i := MatchIndex(CATEGORIES, Lower(ext));
    if i < |CATEGORIES| then
      CategoryRowNames(i);
      CATEGORIES[i].name
    else OTHERS
  }

  /** The catch-all is returned exactly when the lower-cased extension is in no list. */
  lemma OthersExactlyWhenUnlisted(ext: string)
    ensures GetCategory(ext) == OTHERS <==> forall i :: 0 <= i < |CATEGORIES| ==> Lower(ext) !in CATEGORIES[i].extensions
  {
    var i := MatchIndex(CATEGORIES, Lower(ext));
    if i < |CATEGORIES| - 1 {
      assert CATEGORIES[i].name[0] != OTHERS[0];
    }
  }

  // The table-wide facts below are proved one row at a time: a single proof
  // over the whole table literal is too large for the solver, so each row has
  // a small lemma of its own.

  /** No extension is listed under two categories, so the first match is the only one. */
  lemma ExtensionListsDisjoint()
    ensures forall i, j, e :: 0 <= i < j < |CATEGORIES| && e in CATEGORIES[i].extensions ==> e !in CATEGORIES[j].extensions
  {
    ImagesListedOnce();
    DocumentsListedOnce();
    AudioListedOnce();
    VideoListedOnce();
    ArchivesListedOnce();
  }

  /** No extension of the Images row is listed under a later row. */
  lemma ImagesListedOnce()
    ensures forall j, e :: 0 < j < |CATEGORIES| && e in CATEGORIES[0].extensions ==> e !in CATEGORIES[j].extensions
  {
  }

  /** No extension of the Documents row is listed under a later row. */
  lemma DocumentsListedOnce()
    ensures forall j, e :: 1 < j < |CATEGORIES| && e in CATEGORIES[1].extensions ==> e !in CATEGORIES[j].extensions
  {
  }

  /** No extension of the Audio row is listed under a later row. */
  lemma AudioListedOnce()
    ensures forall j, e :: 2 < j < |CATEGORIES| && e in CATEGORIES[2].extensions ==> e !in CATEGORIES[j].extensions
  {
  }

  /** No extension of the Video row is listed under a later row. */
  lemma VideoListedOnce()
    ensures forall j, e :: 3 < j < |CATEGORIES| && e in CATEGORIES[3].extensions ==> e !in CATEGORIES[j].extensions
  {
  }

  /** No extension of the Archives row is listed under a later row. */
  lemma ArchivesListedOnce()
    ensures forall j, e :: 4 < j < |CATEGORIES| && e in CATEGORIES[4].extensions ==> e !in CATEGORIES[j].extensions
  {
  }

  /** A string without upper-case ASCII letters is its own lower-case form. */
  lemma LowerOfLowerCase(s: string)
    requires forall k :: 0 <= k < |s| ==> !('A' <= s[k] <= 'Z')
    ensures Lower(s) == s
  {
  }

  /** Every extension in the table is written in lower case. */
  lemma ExtensionsAreLowerCase()
    ensures forall i, e :: 0 <= i < |CATEGORIES| && e in CATEGORIES[i].extensions ==> Lower(e) == e
  {
    ImagesLowerCase();
    DocumentsLowerCase();
    AudioLowerCase();
    VideoLowerCase();
    ArchivesLowerCase();
    CodeLowerCase();
  }

  /** The extensions of the Images row are written in lower case. */
  lemma ImagesLowerCase()
    ensures forall e :: e in CATEGORIES[0].extensions ==> Lower(e) == e
  {
    forall e | e in CATEGORIES[0].extensions
      ensures Lower(e) == e
    {
      LowerOfLowerCase(e);
    }
  }

  /** The extensions of the Documents row are written in lower case. */
  lemma DocumentsLowerCase()
    ensures forall e :: e in CATEGORIES[1].extensions ==> Lower(e) == e
  {
    forall e | e in CATEGORIES[1].extensions
      ensures Lower(e) == e
    {
      LowerOfLowerCase(e);
    }
  }

  /** The extensions of the Audio row are written in lower case. */
  lemma AudioLowerCase()
    ensures forall e :: e in CATEGORIES[2].extensions ==> Lower(e) == e
  {
    forall e | e in CATEGORIES[2].extensions
      ensures Lower(e) == e
    {
      LowerOfLowerCase(e);
    }
  }

  /** The extensions of the Video row are written in lower case. */
  lemma VideoLowerCase()
    ensures forall e :: e in CATEGORIES[3].extensions ==> Lower(e) == e
  {
    forall e | e in CATEGORIES[3].extensions
      ensures Lower(e) == e
    {
      LowerOfLowerCase(e);
    }
  }

  /** The extensions of the Archives row are written in lower case. */
  lemma ArchivesLowerCase()
    ensures forall e :: e in CATEGORIES[4].extensions ==> Lower(e) == e
  {
    forall e | e in CATEGORIES[4].extensions
      ensures Lower(e) == e
    {
      LowerOfLowerCase(e);
    }
  }

  /** The extensions of the Code row are written in lower case. */
  lemma CodeLowerCase()
    ensures forall e :: e in CATEGORIES[5].extensions ==> Lower(e) == e
  {
    forall e | e in CATEGORIES[5].extensions
      ensures Lower(e) == e
    {
      LowerOfLowerCase(e);
    }
  }

  /** Every listed extension is filed under the category whose list holds it. */
  lemma ListedExtensionClassified(i: nat, e: string)
    requires i < |CATEGORIES| && e in CATEGORIES[i].extensions
    ensures GetCategory(e) == CATEGORIES[i].name
  {
    ExtensionsAreLowerCase();
    ListedExtension(e, i);
  }

  /** An extension whose lower-cased form is listed under a category is filed
      under that category, whatever its case. */
  lemma ListedExtension(ext: string, i: nat)
    requires i < |CATEGORIES| && Lower(ext) in CATEGORIES[i].extensions
    ensures GetCategory(ext) == CATEGORIES[i].name
  {
    ExtensionListsDisjoint();
  }

  /** Classification ignores case. */
  lemma CaseInsensitive(ext: string)
    ensures GetCategory(ext) == GetCategory(Lower(ext))
  {
    LowerIdempotent(ext);
  }

  /** An upper-case spelling of a listed extension is filed like the lower-case one. */
  lemma UpperCaseExample()
    ensures GetCategory(".JPG") == GetCategory(".jpg") == "Images"
  {
    assert Lower(".JPG") == ".jpg";
    ListedExtension(".JPG", 0);
    ListedExtensionClassified(0, ".jpg");
  }

  /** Every listed extension is three to five characters long. */
  lemma ExtensionLengths()
    ensures forall i, e :: 0 <= i < |CATEGORIES| && e in CATEGORIES[i].extensions ==> 3 <= |e| <= 5
  {
  }

  /** The empty extension falls into the catch-all. */
  lemma EmptyExample()
    ensures GetCategory("") == OTHERS
  {
    assert Lower("") == "";
    ExtensionLengths();
  }

  /** An extension longer than any listed one falls into the catch-all, whatever its case. */
  lemma LongExtensionIsOther(ext: string)
    requires |ext| > 5
    ensures GetCategory(ext) == OTHERS
  {
    assert |Lower(ext)| == |ext|;
    ExtensionLengths();
  }
}
