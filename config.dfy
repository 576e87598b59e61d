/**
 * The extension table of the organizer: an ordered list of
 * (category, extensions) pairs. The order is the insertion order of the
 * dictionary literal, which is the order the classifier scans.
 */
module Config {

  /** The fallback category for extensions no list contains. */
  const Others: string := "Others"

  const FileCategories: seq<(string, seq<string>)> := [
    ("Documents", [".pdf", ".doc", ".docx", ".txt", ".rtf", ".odt", ".xls", ".xlsx", ".ods",
                   ".ppt", ".pptx", ".odp", ".md", ".csv"]),
    ("Images", [".jpg", ".jpeg", ".png", ".gif", ".bmp", ".tiff", ".svg", ".webp", ".heic"]),
    ("Audio", [".mp3", ".wav", ".aac", ".flac", ".ogg", ".m4a", ".wma"]),
    ("Videos", [".mp4", ".mov", ".avi", ".mkv", ".flv", ".wmv", ".webm", ".mpeg", ".mpg"]),
    ("Archives", [".zip", ".rar", ".7z", ".tar", ".gz", ".bz2", ".xz"]),
    ("Scripts", [".py", ".js", ".ts", ".sh", ".bat", ".ps1", ".rb", ".php", ".pl", ".java",
                 ".c", ".cpp", ".cs"]),
    ("Ebooks", [".epub", ".mobi", ".azw3"]),
    ("Fonts", [".ttf", ".otf", ".woff", ".woff2"]),
    ("Others", [])
  ]

  /** The key set of the table. */
  function CategoryNames(): (names: set<string>)
    ensures forall i :: 0 <= i < |FileCategories| ==> FileCategories[i].0 in names
    ensures forall c :: c in names ==> exists i :: 0 <= i < |FileCategories| && FileCategories[i].0 == c
    ensures names == {"Documents", "Images", "Audio", "Videos", "Archives", "Scripts", "Ebooks", "Fonts", "Others"}
  {
    var names := set i | 0 <= i < |FileCategories| :: FileCategories[i].0;
    assert FileCategories[0].0 in names && FileCategories[1].0 in names && FileCategories[2].0 in names;
    assert FileCategories[3].0 in names && FileCategories[4].0 in names && FileCategories[5].0 in names;
    assert FileCategories[6].0 in names && FileCategories[7].0 in names && FileCategories[8].0 in names;
    assert names <= {"Documents", "Images", "Audio", "Videos", "Archives", "Scripts", "Ebooks", "Fonts", "Others"};
    names
  }

  /** ASCII lower-casing of one character. */
  function LowerChar(c: char): (d: char)
    ensures 'A' <= c <= 'Z' ==> 'a' <= d <= 'z' && d as int - c as int == 'a' as int - 'A' as int
    ensures !('A' <= c <= 'Z') ==> d == c
  {
    if 'A' <= c <= 'Z' then (c as int - 'A' as int + 'a' as int) as char else c
  }

  /** ASCII lower-casing of a string, character by character. */
  function Lower(s: string): (t: string)
    ensures |t| == |s|
    ensures forall i :: 0 <= i < |s| ==> t[i] == LowerChar(s[i])
    ensures IsLower(t)
  {
    seq(|s|, i requires 0 <= i < |s| => LowerChar(s[i]))
  }

  predicate IsLower(s: string) {
    forall i :: 0 <= i < |s| ==> !('A' <= s[i] <= 'Z')
  }

  /** The table's keys in scan order. */
  lemma CategoryOrder()
    ensures |FileCategories| == 9
    ensures FileCategories[0].0 == "Documents" && FileCategories[1].0 == "Images"
    ensures FileCategories[2].0 == "Audio" && FileCategories[3].0 == "Videos"
    ensures FileCategories[4].0 == "Archives" && FileCategories[5].0 == "Scripts"
    ensures FileCategories[6].0 == "Ebooks" && FileCategories[7].0 == "Fonts"
    ensures FileCategories[8].0 == Others
  {
  }

  /** "Others" is the last key, its list is empty, and no other key is "Others". */
  lemma OthersIsEmptyFallback()
    ensures FileCategories[|FileCategories| - 1] == (Others, [])
    ensures forall i :: 0 <= i < |FileCategories| - 1 ==> FileCategories[i].0 != Others
  {
  }

  /** The union with {"Others"} taken before the traversal adds nothing. */
  lemma OthersAlreadyKey()
    ensures CategoryNames() + {Others} == CategoryNames()
  {
    assert FileCategories[8].0 == Others;
  }

  /** Every listed extension begins with a dot. */
  lemma ExtensionsStartWithDot()
    ensures forall i, k :: 0 <= i < |FileCategories| && 0 <= k < |FileCategories[i].1| ==>
              |FileCategories[i].1[k]| > 1 && FileCategories[i].1[k][0] == '.'
  {
  }

  /** Every extension listed in rows `lo` up to (not including) `hi` is lower case. */
  ghost predicate RowsLower(lo: nat, hi: nat)
    requires lo <= hi <= |FileCategories|
  {
    forall i, k :: lo <= i < hi && 0 <= k < |FileCategories[i].1| ==> IsLower(FileCategories[i].1[k])
  }

  lemma EarlyRowsLower()
    ensures RowsLower(0, 3)
  {
  }

  lemma LateRowsLower()
    ensures RowsLower(3, 9)
  {
  }

  /** Every listed extension is already lower case, so lower-casing leaves it unchanged. */
  lemma ExtensionsLowercase()
    ensures forall i, k :: 0 <= i < |FileCategories| && 0 <= k < |FileCategories[i].1| ==>
              IsLower(FileCategories[i].1[k])
  {
    EarlyRowsLower();
    LateRowsLower();
    forall i, k | 0 <= i < |FileCategories| && 0 <= k < |FileCategories[i].1|
      ensures IsLower(FileCategories[i].1[k])
    {
      if i < 3 { assert RowsLower(0, 3); } else { assert RowsLower(3, 9); }
    }
  }

  /** Extensions of row `i` appear in none of the rows `lo` up to (not including) `hi`. */
  ghost predicate RowsDisjoint(i: nat, lo: nat, hi: nat)
    requires i < lo <= hi <= |FileCategories|
  {
    forall j, k :: lo <= j < hi && 0 <= k < |FileCategories[i].1| ==>
      FileCategories[i].1[k] !in FileCategories[j].1
  }

  lemma DocumentsListedOnce()
    ensures RowsDisjoint(0, 1, 5)
  {
  }

  lemma DocumentsListedOnceLate()
    ensures RowsDisjoint(0, 5, 9)
  {
  }

  lemma ImagesListedOnce()
    ensures RowsDisjoint(1, 2, 5)
  {
  }

  lemma ImagesListedOnceLate()
    ensures RowsDisjoint(1, 5, 9)
  {
  }

  lemma AudioListedOnce()
    ensures RowsDisjoint(2, 3, 9)
  {
  }

  lemma VideosListedOnce()
    ensures RowsDisjoint(3, 4, 9)
  {
  }

  lemma ArchivesListedOnce()
    ensures RowsDisjoint(4, 5, 9)
  {
  }

  lemma ScriptsListedOnce()
    ensures RowsDisjoint(5, 6, 9)
  {
  }

  lemma EbooksListedOnce()
    ensures RowsDisjoint(6, 7, 9)
  {
  }

  lemma FontsListedOnce()
    ensures RowsDisjoint(7, 8, 9)
  {
  }

  /** No extension is listed under two categories. */
  lemma ExtensionsDisjoint()
    ensures forall i, j, k :: 0 <= i < j < |FileCategories| && 0 <= k < |FileCategories[i].1| ==>
              FileCategories[i].1[k] !in FileCategories[j].1
  {
    DocumentsListedOnce(); DocumentsListedOnceLate(); ImagesListedOnce(); ImagesListedOnceLate();
    AudioListedOnce(); VideosListedOnce(); ArchivesListedOnce(); ScriptsListedOnce();
    EbooksListedOnce(); FontsListedOnce();
    forall i, j, k | 0 <= i < j < |FileCategories| && 0 <= k < |FileCategories[i].1|
      ensures FileCategories[i].1[k] !in FileCategories[j].1
    {
      if i < 2 && j < 5 {
        assert RowsDisjoint(i, i + 1, 5);
      } else if i < 2 {
        assert RowsDisjoint(i, 5, 9);
      } else {
        assert RowsDisjoint(i, i + 1, 9);
      }
    }
  }
}
