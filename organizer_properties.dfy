/**
 * What one organizing pass guarantees: every destination was free, no two
 * files of a run share one, the planned set records exactly the
 * destinations, a live run keeps every file's content (at its old path or
 * at its destination), and a dry run moves nothing.
 */
module OrganizerProperties {
  import opened Config
  import opened Classifier
  import opened Storage
  import opened Organizer

  function Sources(moves: seq<Move>): set<Path> {
    set m | m in moves :: m.source
  }

  function Dests(moves: seq<Move>): set<Path> {
    set m | m in moves :: m.dest
  }

  ghost predicate DistinctDests(moves: seq<Move>) {
    forall i, j :: 0 <= i < j < |moves| ==> moves[i].dest != moves[j].dest
  }

  ghost predicate DistinctSources(moves: seq<Move>) {
    forall i, j :: 0 <= i < j < |moves| ==> moves[i].source != moves[j].source
  }

  /** The folders the organizer may create: one per known category, directly under the root. */
  function CategoryFolders(root: Path): set<Path> {
    set c | c in KnownCategories() :: root + [c]
  }

  /**
   * A decision files its source, which is not directly inside a category
   * folder, directly inside `root/category`.
   */
  ghost predicate WellPlaced(root: Path, m: Move) {
    && m.category in KnownCategories()
    && |m.dest| == |root| + 2
    && m.dest[..|root| + 1] == root + [m.category]
    && ParentName(m.dest) == m.category
    && ParentName(m.source) !in KnownCategories()
  }

  /** A live run so far: each moved file's content sits at its destination, every other file is untouched. */
  ghost predicate Conserved(before: map<Path, Content>, after: map<Path, Content>, moves: seq<Move>) {
    && DistinctSources(moves)
    && after.Keys == before.Keys - Sources(moves) + Dests(moves)
    && (forall m :: m in moves ==> m.source in before && m.dest in after && after[m.dest] == before[m.source])
    && (forall p :: p in before && p !in Sources(moves) ==> p in after && after[p] == before[p])
    && |after| == |before|
  }

  /** Every decision so far is well placed, moved an original file and went to a path free at the start. */
  ghost predicate Decisions(root: Path, init: State, moves: seq<Move>) {
    forall m :: m in moves ==>
      WellPlaced(root, m) && m.source in init.files && m.dest !in init.files && m.dest !in init.dirs
  }

  /** What holds between any two entries of a run that started in `init`. */
  ghost predicate Invariant(root: Path, dryRun: bool, init: State, s: State) {
    && s.planned == Dests(s.moves)
    && DistinctDests(s.moves)
    && Decisions(root, init, s.moves)
    && init.dirs <= s.dirs <= init.dirs + CategoryFolders(root)
    && (dryRun ==> s.files == init.files)
    && (!dryRun ==> Conserved(init.files, s.files, s.moves))
  }

  lemma DestsAppend(moves: seq<Move>, m: Move)
    ensures Dests(moves + [m]) == Dests(moves) + {m.dest}
    ensures Sources(moves + [m]) == Sources(moves) + {m.source}
  {
    assert forall x :: x in moves + [m] <==> x in moves || x == m;
  }

  /** Planning a destination not yet planned keeps the destinations pairwise distinct. */
  lemma AppendKeepsDestsDistinct(planned: set<Path>, moves: seq<Move>, m: Move)
    requires planned == Dests(moves) && DistinctDests(moves) && m.dest !in planned
    ensures planned + {m.dest} == Dests(moves + [m]) && DistinctDests(moves + [m])
  {
    DestsAppend(moves, m);
    var t := moves + [m];
    forall i, j | 0 <= i < j < |t| ensures t[i].dest != t[j].dest {
      if j == |moves| {
        assert moves[i] in moves;
      }
    }
  }

  /** A destination sits directly in a category folder, a source never does. */
  lemma DestIsNoSource(root: Path, m: Move, n: Move)
    requires WellPlaced(root, m) && WellPlaced(root, n)
    ensures m.dest != n.source
  {
  }

  /** Sources and destinations sit in folders of different kinds, so they never meet. */
  lemma SourcesAreNoDests(root: Path, init: State, moves: seq<Move>, src: Path, dest: Path)
    requires Decisions(root, init, moves)
    requires ParentName(src) !in KnownCategories() && ParentName(dest) in KnownCategories()
    ensures src !in Dests(moves) && dest !in Sources(moves)
  {
  }

  lemma AppendKeepsSourcesDistinct(moves: seq<Move>, m: Move)
    requires DistinctSources(moves) && m.source !in Sources(moves)
    ensures DistinctSources(moves + [m])
  {
    var t := moves + [m];
    forall i, j | 0 <= i < j < |t| ensures t[i].source != t[j].source {
      if j == |moves| {
        assert moves[i] in moves;
      }
    }
  }

  /** After the rename the files are the unmoved originals plus the destinations. */
  lemma AppendKeepsKeys(before: map<Path, Content>, files: map<Path, Content>, moves: seq<Move>, m: Move)
    requires files.Keys == before.Keys - Sources(moves) + Dests(moves)
    requires m.source in files && m.source !in Dests(moves)
    ensures m.source in before && m.source !in Sources(moves)
    ensures Renamed(files, m.source, m.dest).Keys == before.Keys - Sources(moves + [m]) + Dests(moves + [m])
  {
    DestsAppend(moves, m);
  }

  /** After the rename every moved file's content sits at its destination. */
  lemma AppendKeepsMovedContents(before: map<Path, Content>, files: map<Path, Content>, moves: seq<Move>, m: Move)
    requires forall n :: n in moves ==> n.source in before && n.dest in files && files[n.dest] == before[n.source]
    requires m.source in before && m.source in files && files[m.source] == before[m.source]
    requires m.source !in Dests(moves) && m.dest !in files
    ensures var after := Renamed(files, m.source, m.dest);
            forall n :: n in moves + [m] ==> n.source in before && n.dest in after && after[n.dest] == before[n.source]
  {
    var after := Renamed(files, m.source, m.dest);
    forall n | n in moves + [m] ensures n.source in before && n.dest in after && after[n.dest] == before[n.source] {
      if n != m {
        assert n in moves;
        assert n.dest in Dests(moves);
      }
    }
  }

  /** After the rename every file that was not moved still has its original content. */
  lemma AppendKeepsUnmoved(before: map<Path, Content>, files: map<Path, Content>, moves: seq<Move>, m: Move)
    requires forall p :: p in before && p !in Sources(moves) ==> p in files && files[p] == before[p]
    requires m.source in files && m.dest !in files
    ensures var after := Renamed(files, m.source, m.dest);
            forall p :: p in before && p !in Sources(moves + [m]) ==> p in after && after[p] == before[p]
  {
    DestsAppend(moves, m);
  }

  /** A live rename of an unmoved file onto a path that no file holds keeps every file's content. */
  lemma AppendKeepsFiles(before: map<Path, Content>, files: map<Path, Content>, moves: seq<Move>, m: Move)
    requires Conserved(before, files, moves)
    requires m.source in files && m.dest !in files
    requires m.source !in Dests(moves) && m.dest !in Sources(moves)
    ensures m.source in before && m.dest !in before
    ensures Conserved(before, Renamed(files, m.source, m.dest), moves + [m])
  {
    AppendKeepsKeys(before, files, moves, m);
    AppendKeepsSourcesDistinct(moves, m);
    AppendKeepsMovedContents(before, files, moves, m);
    AppendKeepsUnmoved(before, files, moves, m);
    RenameKeepsCount(files, m.source, m.dest);
  }

  /** `t` is `s` after the file `m.source` was filed at `m.dest`, a path free in `s`. */
  ghost predicate Appended(root: Path, dryRun: bool, s: State, t: State, m: Move) {
    && WellPlaced(root, m)
    && root + [m.category] in CategoryFolders(root)
    && m.source in s.files && m.dest !in s.files && m.dest !in s.dirs && m.dest !in s.planned
    && t.moves == s.moves + [m]
    && t.planned == s.planned + {m.dest}
    && t.dirs == s.dirs + {root + [m.category]}
    && t.files == if dryRun then s.files else Renamed(s.files, m.source, m.dest)
  }

  /**
   * An entry that is processed is filed under its category, at a path free
   * in the state before. Stated through `Appended`, the form the invariant
   * proof consumes.
   */
  lemma StepAppends(root: Path, dryRun: bool, s: State, e: Entry)
    requires !s.aborted && Eligible(s, e) && root + [Classify(e.name.suffix)] !in s.files
    ensures var category := Classify(e.name.suffix);
            var dest := Resolve(s.files.Keys + (s.dirs + {root + [category]}) + s.planned, root + [category], e.name);
            Appended(root, dryRun, s, Step(root, dryRun, s, e), Move(e.Location(), category, dest))
  {
    var category := Classify(e.name.suffix);
    var targetDir := root + [category];
    var dest := Resolve(s.files.Keys + (s.dirs + {targetDir}) + s.planned, targetDir, e.name);
    ClassifyTotal(e.name.suffix);
    assert targetDir in CategoryFolders(root);
    assert dest[..|root| + 1] == targetDir;
    assert ParentName(dest) == dest[|root|];
  }

  lemma AppendKeepsDecisions(root: Path, init: State, moves: seq<Move>, m: Move)
    requires Decisions(root, init, moves)
    requires WellPlaced(root, m) && m.source in init.files && m.dest !in init.files && m.dest !in init.dirs
    ensures Decisions(root, init, moves + [m])
  {
    forall n | n in moves + [m]
      ensures WellPlaced(root, n) && n.source in init.files && n.dest !in init.files && n.dest !in init.dirs
    {
      if n != m {
        assert n in moves;
      }
    }
  }

  /** Recording one more decision keeps the invariant. */
  lemma AppendPreserves(root: Path, dryRun: bool, init: State, s: State, t: State, m: Move)
    requires Invariant(root, dryRun, init, s) && Appended(root, dryRun, s, t, m)
    ensures Invariant(root, dryRun, init, t)
  {
    AppendKeepsDestsDistinct(s.planned, s.moves, m);
    SourcesAreNoDests(root, init, s.moves, m.source, m.dest);
    if !dryRun {
      AppendKeepsFiles(init.files, s.files, s.moves, m);
    }
    AppendKeepsDecisions(root, init, s.moves, m);
    assert init.dirs <= t.dirs <= init.dirs + CategoryFolders(root);
  }

  /** Processing one entry keeps the invariant. */
  lemma StepPreserves(root: Path, dryRun: bool, init: State, s: State, e: Entry)
    requires Invariant(root, dryRun, init, s)
    ensures Invariant(root, dryRun, init, Step(root, dryRun, s, e))
  {
    if !s.aborted && Eligible(s, e) && root + [Classify(e.name.suffix)] !in s.files {
      var category := Classify(e.name.suffix);
      var dest := Resolve(s.files.Keys + (s.dirs + {root + [category]}) + s.planned, root + [category], e.name);
      StepAppends(root, dryRun, s, e);
      AppendPreserves(root, dryRun, init, s, Step(root, dryRun, s, e), Move(e.Location(), category, dest));
    }
  }

  /** The invariant holds after any prefix of the enumeration. */
  lemma {:induction false} RunInvariant(root: Path, dryRun: bool, files: map<Path, Content>, dirs: set<Path>, items: seq<Entry>)
    ensures Invariant(root, dryRun, Start(files, dirs), Run(root, dryRun, Start(files, dirs), items))
    decreases |items|
  {
    if |items| > 0 {
      RunInvariant(root, dryRun, files, dirs, items[..|items| - 1]);
      StepPreserves(root, dryRun, Start(files, dirs),
                    Run(root, dryRun, Start(files, dirs), items[..|items| - 1]), items[|items| - 1]);
    }
  }

  // ---------------------------------------------------------------------------
  // What a whole run guarantees

  /**
   * Every destination of a run was neither a file nor a directory when the
   * run began, is not its own source, lies directly in `root/category`, and
   * no two files of the run share one; the planned set is exactly the
   * destinations.
   */
  lemma DestinationsFreeAndDistinct(root: Path, dryRun: bool, files: map<Path, Content>, dirs: set<Path>,
                                    items: seq<Entry>)
    ensures var s := Run(root, dryRun, Start(files, dirs), items);
            && s.planned == Dests(s.moves)
            && (forall i, j :: 0 <= i < j < |s.moves| ==> s.moves[i].dest != s.moves[j].dest)
            && (forall m :: m in s.moves ==>
                  && m.source in files && m.dest !in files && m.dest !in dirs && m.dest != m.source
                  && m.category in KnownCategories()
                  && |m.dest| == |root| + 2 && m.dest[..|root| + 1] == root + [m.category])
  {
    RunInvariant(root, dryRun, files, dirs, items);
    var s := Run(root, dryRun, Start(files, dirs), items);
    forall m | m in s.moves ensures m.dest != m.source {
      DestIsNoSource(root, m, m);
    }
  }

  /** Destinations that are pairwise distinct are as many as the decisions. */
  lemma {:induction false} DistinctDestsCount(moves: seq<Move>)
    requires DistinctDests(moves)
    ensures |Dests(moves)| == |moves|
  {
    if |moves| > 0 {
      var front, last := moves[..|moves| - 1], moves[|moves| - 1];
      assert moves == front + [last];
      DistinctDestsCount(front);
      DestsAppend(front, last);
      assert last.dest !in Dests(front);
    }
  }

  /** The planned set grows by one path per processed file and by nothing else. */
  lemma PlannedCountsDecisions(root: Path, dryRun: bool, files: map<Path, Content>, dirs: set<Path>,
                               items: seq<Entry>)
    ensures var s := Run(root, dryRun, Start(files, dirs), items);
            |s.planned| == |s.moves| <= |items|
  {
    RunInvariant(root, dryRun, files, dirs, items);
    DistinctDestsCount(Run(root, dryRun, Start(files, dirs), items).moves);
    RunMovesBound(root, dryRun, Start(files, dirs), items);
  }

  lemma {:induction false} RunMovesBound(root: Path, dryRun: bool, init: State, items: seq<Entry>)
    ensures |Run(root, dryRun, init, items).moves| <= |init.moves| + |items|
    decreases |items|
  {
    if |items| > 0 {
      RunMovesBound(root, dryRun, init, items[..|items| - 1]);
    }
  }

  /**
   * An entry is skipped, changing nothing, once the run has stopped, when
   * it is no regular file, or when it sits directly in a category folder.
   */
  lemma StepSkips(root: Path, dryRun: bool, s: State, e: Entry)
    requires s.aborted || e.Location() !in s.files || ParentName(e.Location()) in KnownCategories()
    ensures Step(root, dryRun, s, e) == s
  {
  }

  /** A regular file at `root/category` stops the run before anything else changes. */
  lemma StepBlocked(root: Path, dryRun: bool, s: State, e: Entry)
    requires !s.aborted && Eligible(s, e) && root + [Classify(e.name.suffix)] in s.files
    ensures Step(root, dryRun, s, e) == s.(aborted := true)
  {
  }

  /**
   * A processed entry adds one new path to the planned set and one decision
   * filing it under its category; its name is kept when that is free. This
   * is the reader-facing statement of one step, without the helper
   * predicate `Appended` that `StepAppends` uses.
   */
  lemma StepProcesses(root: Path, dryRun: bool, s: State, e: Entry)
    requires !s.aborted && Eligible(s, e) && root + [Classify(e.name.suffix)] !in s.files
    ensures var t := Step(root, dryRun, s, e);
            var category := Classify(e.name.suffix);
            && !t.aborted
            && |t.moves| == |s.moves| + 1
            && var m := t.moves[|s.moves|];
            && t.moves == s.moves + [m]
            && m.source == e.Location() && m.category == category
            && m.dest !in s.planned && t.planned == s.planned + {m.dest}
            && |t.planned| == |s.planned| + 1
            && m.dest !in s.files && m.dest !in s.dirs
            && |m.dest| == |root| + 2 && m.dest[..|root| + 1] == root + [category]
            && (root + [category, e.name.Text()] !in s.files.Keys + s.dirs + s.planned ==>
                  m.dest == root + [category, e.name.Text()])
            && t.dirs == s.dirs + {root + [category]}
            && t.files == if dryRun then s.files else Renamed(s.files, e.Location(), m.dest)
  {
    var category := Classify(e.name.suffix);
    var targetDir := root + [category];
    var occupied := s.files.Keys + (s.dirs + {targetDir}) + s.planned;
    var dest := Resolve(occupied, targetDir, e.name);
    StepAppends(root, dryRun, s, e);
    assert targetDir + [e.name.Text()] == root + [category, e.name.Text()];
    if root + [category, e.name.Text()] !in s.files.Keys + s.dirs + s.planned {
      ResolveKeepsFreeName(occupied, targetDir, e.name);
    }
  }

  /** A live run neither loses nor duplicates a file: each content is at exactly one path afterwards. */
  lemma LiveRunConservesFiles(root: Path, files: map<Path, Content>, dirs: set<Path>, items: seq<Entry>)
    ensures var s := Run(root, false, Start(files, dirs), items);
            && |s.files| == |files|
            && s.files.Keys == files.Keys - Sources(s.moves) + Dests(s.moves)
            && (forall m :: m in s.moves ==>
                  m.source in files && m.source !in s.files && m.dest in s.files && s.files[m.dest] == files[m.source])
            && (forall p :: p in files && p !in Sources(s.moves) ==> p in s.files && s.files[p] == files[p])
  {
    RunInvariant(root, false, files, dirs, items);
    var s := Run(root, false, Start(files, dirs), items);
    forall m | m in s.moves ensures m.source !in s.files {
      assert m.source in Sources(s.moves);
    }
  }

  /** A dry run moves no file; the only change on disk is the category folders it creates. */
  lemma DryRunMovesNoFile(root: Path, files: map<Path, Content>, dirs: set<Path>, items: seq<Entry>)
    ensures var s := Run(root, true, Start(files, dirs), items);
            s.files == files && dirs <= s.dirs <= dirs + CategoryFolders(root)
  {
    RunInvariant(root, true, files, dirs, items);
  }

  /** A file directly inside a category folder is never moved, in either mode. */
  lemma CategoryFolderFilesStay(root: Path, dryRun: bool, files: map<Path, Content>, dirs: set<Path>,
                                items: seq<Entry>, p: Path)
    requires p in files && ParentName(p) in KnownCategories()
    ensures var s := Run(root, dryRun, Start(files, dirs), items);
            p in s.files && s.files[p] == files[p]
  {
    RunInvariant(root, dryRun, files, dirs, items);
    var s := Run(root, dryRun, Start(files, dirs), items);
    assert p !in Sources(s.moves);
  }
}
