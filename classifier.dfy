/**
 * The classifier: a file's suffix, lower-cased, is looked up in the
 * extension table row by row, and the first row whose list holds it names
 * the category; a suffix no row holds falls back to "Others".
 */
module Classifier {
  import opened Config

  /**
   * The first row at or after `i` whose extension list holds `ext`, or
   * `|t|` when there is none.
   */
  function FirstMatchFrom(t: seq<(string, seq<string>)>, ext: string, i: nat): (m: nat)
    requires i <= |t|
    ensures i <= m <= |t|
    ensures m < |t| ==> ext in t[m].1
    ensures forall j :: i <= j < m ==> ext !in t[j].1
    decreases |t| - i
  {
    if i == |t| then |t|
    else if ext in t[i].1 then i
    else FirstMatchFrom(t, ext, i + 1)
  }

  /** The category the organizer assigns to a file with this suffix. */
  function Classify(suffix: string): string
  {
    var m := FirstMatchFrom(FileCategories, Lower(suffix), 0);
    if m < |FileCategories| then FileCategories[m].0 else Others
  }

  /** The scan itself: the table in order, returning at the first list holding the suffix. */
  method GetCategory(suffix: string) returns (category: string)
    ensures category == Classify(suffix)
  {
    var ext := Lower(suffix);
    for i := 0 to |FileCategories|
      invariant forall j :: 0 <= j < i ==> ext !in FileCategories[j].1
    {
      if ext in FileCategories[i].1 {
        return FileCategories[i].0;
      }
    }
    return Others;
  }

  /**
   * Every suffix, the empty one included, gets a key of the table, and it
   * gets "Others" exactly when no list holds its lower-cased form.
   */
  lemma ClassifyTotal(suffix: string)
    ensures Classify(suffix) in CategoryNames()
    ensures Classify(suffix) == Others <==>
              forall i :: 0 <= i < |FileCategories| ==> Lower(suffix) !in FileCategories[i].1
  {
    OthersIsEmptyFallback();
    OthersAlreadyKey();
  }

  /** The result is the category of the first row, in table order, whose list holds the suffix. */
  lemma ClassifyFirstMatch(suffix: string, i: nat)
    requires i < |FileCategories| && Lower(suffix) in FileCategories[i].1
    requires forall j :: 0 <= j < i ==> Lower(suffix) !in FileCategories[j].1
    ensures Classify(suffix) == FileCategories[i].0
  {
  }

  /** Two suffixes that differ only in the case of ASCII letters, character by character. */
  predicate SameIgnoringCase(a: string, b: string) {
    |a| == |b| && forall i :: 0 <= i < |a| ==> LowerChar(a[i]) == LowerChar(b[i])
  }

  /** Classification ignores letter case. */
  lemma ClassifyIgnoresCase(a: string, b: string)
    requires SameIgnoringCase(a, b)
    ensures Classify(a) == Classify(b)
  {
    assert Lower(a) == Lower(b);
  }

  lemma LowerOfLower(s: string)
    requires IsLower(s)
    ensures Lower(s) == s
  {
  }

  /**
   * For this table the scan order decides nothing: a suffix gets a category
   * other than "Others" exactly when that category's list holds it.
   */
  lemma ClassifyByMembership(suffix: string, i: nat)
    requires i < |FileCategories|
    ensures Lower(suffix) in FileCategories[i].1 <==>
              (Classify(suffix) == FileCategories[i].0 && FileCategories[i].0 != Others)
  {
    ExtensionsDisjoint();
    OthersIsEmptyFallback();
    CategoryOrder();
    var m := FirstMatchFrom(FileCategories, Lower(suffix), 0);
    if Lower(suffix) in FileCategories[i].1 {
      assert m == i;
    }
  }

  /** Each listed extension, and each of its case variants, is classified under its own row. */
  lemma ListedExtensionReachable(i: nat, k: nat, variant: string)
    requires i < |FileCategories| && k < |FileCategories[i].1|
    requires SameIgnoringCase(variant, FileCategories[i].1[k])
    ensures Classify(variant) == FileCategories[i].0
  {
    var ext := FileCategories[i].1[k];
    ExtensionsLowercase();
    LowerOfLower(ext);
    ClassifyByMembership(ext, i);
    ClassifyIgnoresCase(variant, ext);
  }

  /** A file without a suffix is filed under "Others". */
  lemma EmptySuffixIsOthers()
    ensures Classify("") == Others
  {
    ExtensionsStartWithDot();
    assert Lower("") == "";
    ClassifyTotal("");
  }
}
