/**
 * Two concrete runs: the counter suffix across files already on disk and
 * files planned earlier in the same run, and the one-level recursion
 * boundary of the category-folder skip rule.
 */
module OrganizerExamples {
  import opened Config
  import opened Decimal
  import opened Classifier
  import opened Storage
  import opened Organizer
  import opened OrganizerProperties

  const Txt: FileName := FileName("a", ".txt")

  lemma TxtIsDocument()
    ensures Classify(".txt") == "Documents"
  {
    assert SameIgnoringCase(".txt", FileCategories[0].1[3]);
    ListedExtensionReachable(0, 3, ".txt");
  }

  lemma CounterNames()
    ensures CandidateName(Txt, 1) == "a_1.txt" && CandidateName(Txt, 2) == "a_2.txt"
  {
    assert DecimalString(1) == "1" && DecimalString(2) == "2";
  }

  const Docs: Path := ["home", "Documents"]

  lemma CandidatePaths()
    ensures Candidate(Docs, Txt, 0) == ["home", "Documents", "a.txt"]
    ensures Candidate(Docs, Txt, 1) == ["home", "Documents", "a_1.txt"]
    ensures Candidate(Docs, Txt, 2) == ["home", "Documents", "a_2.txt"]
  {
    CounterNames();
    assert Txt.Text() == "a.txt";
  }

  /**
   * With `Documents/a.txt` on disk, a file `a.txt` is filed as
   * `Documents/a_1.txt`; a second `a.txt` met later in the same run, when
   * `a_1.txt` is planned, becomes `Documents/a_2.txt`.
   */
  lemma DuplicateNamesScenario(onDisk: set<Path>)
    requires onDisk == {["home"], ["home", "Documents"], ["home", "Documents", "a.txt"]}
    ensures Resolve(onDisk, Docs, Txt) == ["home", "Documents", "a_1.txt"]
    ensures Resolve(onDisk + {["home", "Documents", "a_1.txt"]}, Docs, Txt) == ["home", "Documents", "a_2.txt"]
  {
    CandidatePaths();
    ResolveIsLeastFree(onDisk, Docs, Txt, 1);
    ResolveIsLeastFree(onDisk + {["home", "Documents", "a_1.txt"]}, Docs, Txt, 2);
  }

  lemma FolderNames()
    ensures "notes" !in KnownCategories() && "Documents" in KnownCategories()
  {
    OthersAlreadyKey();
    CategoryOrder();
  }

  /**
   * The skip rule looks one level up only: a file in a sub-folder of a
   * category folder is organized again, one directly in it is not.
   */
  lemma NestedFileIsReorganized(s: State)
    requires ["home", "Documents", "notes", "readme.md"] in s.files
    ensures Eligible(s, Entry(["home", "Documents", "notes"], FileName("readme", ".md")))
    ensures !Eligible(s, Entry(["home", "Documents"], FileName("readme", ".md")))
  {
    FolderNames();
    assert FileName("readme", ".md").Text() == "readme.md";
    assert Entry(["home", "Documents", "notes"], FileName("readme", ".md")).Location() ==
           ["home", "Documents", "notes", "readme.md"];
  }

  lemma RunOfTwo(root: Path, dryRun: bool, init: State, items: seq<Entry>)
    requires |items| == 2
    ensures Run(root, dryRun, init, items) == Step(root, dryRun, Step(root, dryRun, init, items[0]), items[1])
  {
    RunUnfold(root, dryRun, init, items, 0);
    RunUnfold(root, dryRun, init, items, 1);
    assert items[..0] == [] && items[..2] == items;
  }

  const Blocker: Entry := Entry(["r"], FileName("Documents", ""))
  const Report: Entry := Entry(["r"], FileName("a", ".txt"))

  /** Where the two files of the scenario below sit. */
  lemma ScenarioPaths()
    ensures Blocker.Location() == ["r", "Documents"] && Report.Location() == ["r", "a.txt"]
    ensures ParentName(["r", "Documents"]) == "r" && ParentName(["r", "a.txt"]) == "r"
    ensures ["r"] + [Others] == ["r", "Others"] && ["r"] + ["Documents"] == ["r", "Documents"]
  {
    assert Blocker.name.Text() == "Documents" && Report.name.Text() == "a.txt";
  }

  lemma BlockerIsOther()
    ensures Classify(Blocker.name.suffix) == Others
  {
    EmptySuffixIsOthers();
  }

  lemma ReportIsDocument()
    ensures Classify(Report.name.suffix) == "Documents"
  {
    TxtIsDocument();
  }

  lemma RootIsNoCategory()
    ensures "r" !in KnownCategories()
  {
  }

  const Both: map<Path, Content> := map[["r", "Documents"] := [], ["r", "a.txt"] := []]

  /** The file `Documents` is filed under `Others`; a live run renames it away, a dry run leaves it. */
  lemma BlockerStep(dryRun: bool, init: State)
    requires init.files == Both && !init.aborted
    ensures var s := Step(["r"], dryRun, init, Blocker);
            && !s.aborted && |s.moves| == |init.moves| + 1
            && (dryRun ==> s.files == Both)
            && (!dryRun ==> ["r", "Documents"] !in s.files && ["r", "a.txt"] in s.files)
  {
    ScenarioPaths();
    BlockerIsOther();
    RootIsNoCategory();
    StepProcesses(["r"], dryRun, init, Blocker);
  }

  /** With the file `Documents` gone, `a.txt` is filed under `Documents`. */
  lemma ReportFiled(s: State)
    requires !s.aborted && ["r", "Documents"] !in s.files && ["r", "a.txt"] in s.files
    ensures var t := Step(["r"], false, s, Report);
            !t.aborted && |t.moves| == |s.moves| + 1
  {
    ScenarioPaths();
    ReportIsDocument();
    RootIsNoCategory();
    StepProcesses(["r"], false, s, Report);
  }

  /** With the file `Documents` still there, the folder `Documents` cannot be created. */
  lemma ReportBlocked(s: State)
    requires !s.aborted && s.files == Both
    ensures Step(["r"], true, s, Report) == s.(aborted := true)
  {
    ScenarioPaths();
    ReportIsDocument();
    RootIsNoCategory();
    StepBlocked(["r"], true, s, Report);
  }

  /**
   * A file named `Documents` (no suffix) directly in the root, then `a.txt`.
   * The live run files `Documents` under `Others`, which frees the path of
   * the folder `Documents` for `a.txt`: it completes with two decisions.
   */
  lemma LiveRunGoesOn(dirs: set<Path>)
    ensures var live := Run(["r"], false, Start(Both, dirs), [Blocker, Report]);
            !live.aborted && |live.moves| == 2
  {
    RunOfTwo(["r"], false, Start(Both, dirs), [Blocker, Report]);
    BlockerStep(false, Start(Both, dirs));
    ReportFiled(Step(["r"], false, Start(Both, dirs), Blocker));
  }

  /**
   * The same two files in a dry run: the file `Documents` stays, so creating
   * the folder `Documents` for `a.txt` fails and the dry run stops after one
   * decision where the live run makes two.
   */
  lemma DryRunStopsEarlier(dirs: set<Path>)
    ensures var dry := Run(["r"], true, Start(Both, dirs), [Blocker, Report]);
            dry.aborted && |dry.moves| == 1
  {
    RunOfTwo(["r"], true, Start(Both, dirs), [Blocker, Report]);
    BlockerStep(true, Start(Both, dirs));
    ReportBlocked(Step(["r"], true, Start(Both, dirs), Blocker));
  }
}
