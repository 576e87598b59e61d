/**
 * The organization engine: one pass over a snapshot of the entries under a
 * root directory, moving each eligible file into `root/<category>` under a
 * name no file, directory or earlier decision of the run already holds.
 */
module Organizer {
  import opened Config
  import opened Decimal
  import opened Classifier
  import opened Storage

  /** A file name split into stem and suffix, as the path library splits it. */
  datatype FileName = FileName(stem: string, suffix: string) {
    function Text(): string {
      stem + suffix
    }
  }

  /** One entry of the recursive enumeration: the directory it sits in and its name. */
  datatype Entry = Entry(dir: Path, name: FileName) {
    function Location(): Path {
      dir + [name.Text()]
    }
  }

  /** The decision taken for one file; what the dry run reports and the log records. */
  datatype Move = Move(source: Path, category: string, dest: Path)

  // ---------------------------------------------------------------------------
  // Duplicate resolution

  /** The k-th name tried for `name`: the name itself, then `stem_k.suffix` for k = 1, 2, ... */
  function CandidateName(name: FileName, k: nat): string {
    if k == 0 then name.Text() else name.stem + "_" + DecimalString(k) + name.suffix
  }

  /** Every name tried keeps the file's stem in front and its suffix at the end. */
  lemma CandidateNameShape(name: FileName, k: nat)
    ensures var n := CandidateName(name, k);
            |n| >= |name.Text()| && n[..|name.stem|] == name.stem && n[|n| - |name.suffix|..] == name.suffix
  {
  }

  function Candidate(dir: Path, name: FileName, k: nat): Path {
    dir + [CandidateName(name, k)]
  }

  /** Distinct counters give distinct names. */
  lemma CandidateNamesDistinct(name: FileName, i: nat, j: nat)
    requires i != j
    ensures CandidateName(name, i) != CandidateName(name, j)
  {
    var x, y := CandidateName(name, i), CandidateName(name, j);
    if i != 0 && j != 0 && x == y {
      var a := |name.stem| + 1;
      assert x[a..|x| - |name.suffix|] == DecimalString(i);
      assert y[a..|y| - |name.suffix|] == DecimalString(j);
      DecimalStringInjective(i, j);
    }
  }

  /** The candidates tried before the k-th. */
  function Tried(dir: Path, name: FileName, k: nat): set<Path> {
    set j | 0 <= j < k :: Candidate(dir, name, j)
  }

  lemma TriedStep(dir: Path, name: FileName, k: nat)
    ensures Tried(dir, name, k + 1) == Tried(dir, name, k) + {Candidate(dir, name, k)}
    ensures Candidate(dir, name, k) !in Tried(dir, name, k)
  {
    if Candidate(dir, name, k) in Tried(dir, name, k) {
      var j :| 0 <= j < k && Candidate(dir, name, j) == Candidate(dir, name, k);
      assert Candidate(dir, name, j)[|dir|] == CandidateName(name, j);
      CandidateNamesDistinct(name, j, k);
    }
  }

  /**
   * The smallest counter from `k` on whose candidate is not occupied. It
   * exists because the occupied set is finite and the candidates are distinct.
   */
  function FreeIndexFrom(occupied: set<Path>, dir: Path, name: FileName, k: nat): (r: nat)
    requires Tried(dir, name, k) <= occupied
    ensures k <= r
    ensures Candidate(dir, name, r) !in occupied
    ensures forall j :: k <= j < r ==> Candidate(dir, name, j) in occupied
    decreases |occupied - Tried(dir, name, k)|
  {
    if Candidate(dir, name, k) !in occupied then k
    else
      TriedStep(dir, name, k);
      FreeIndexFrom(occupied, dir, name, k + 1)
  }

  /** The path a file named `name` gets in directory `dir`, given the occupied paths. */
  function Resolve(occupied: set<Path>, dir: Path, name: FileName): (p: Path)
    ensures p !in occupied
    ensures |p| == |dir| + 1 && p[..|dir|] == dir
  {
    Candidate(dir, name, FreeIndexFrom(occupied, dir, name, 0))
  }

  /** A free name is kept as it is. */
  lemma ResolveKeepsFreeName(occupied: set<Path>, dir: Path, name: FileName)
    requires dir + [name.Text()] !in occupied
    ensures Resolve(occupied, dir, name) == dir + [name.Text()]
  {
  }

  /** The result is the candidate with the smallest counter that is free. */
  lemma ResolveIsLeastFree(occupied: set<Path>, dir: Path, name: FileName, k: nat)
    requires Candidate(dir, name, k) !in occupied
    requires forall j :: 0 <= j < k ==> Candidate(dir, name, j) in occupied
    ensures Resolve(occupied, dir, name) == Candidate(dir, name, k)
  {
    var r := FreeIndexFrom(occupied, dir, name, 0);
  }

  /**
   * Try the name, then `stem_1.suffix`, `stem_2.suffix`, ... in the same
   * directory, until one is neither on disk nor already planned this run.
   */
  method ResolveDuplicate(fs: FileSystem, dir: Path, name: FileName, planned: set<Path>)
    returns (newPath: Path)
    ensures !fs.Exists(newPath) && newPath !in planned
    ensures newPath == Resolve(fs.files.Keys + fs.dirs + planned, dir, name)
  {
    ghost var occupied := fs.files.Keys + fs.dirs + planned;
    var counter: nat := 1;
    newPath := dir + [name.Text()];
    while fs.Exists(newPath) || newPath in planned
      invariant counter >= 1 && newPath == Candidate(dir, name, counter - 1)
      invariant Tried(dir, name, counter - 1) <= occupied
      decreases |occupied - Tried(dir, name, counter - 1)|
    {
      TriedStep(dir, name, counter - 1);
      newPath := dir + [name.stem + "_" + DecimalString(counter) + name.suffix];
      counter := counter + 1;
    }
    forall j | 0 <= j < counter - 1
      ensures Candidate(dir, name, j) in occupied
    {
      assert Candidate(dir, name, j) in Tried(dir, name, counter - 1);
    }
    ResolveIsLeastFree(occupied, dir, name, counter - 1);
  }

  // ---------------------------------------------------------------------------
  // The pass over the entries, as a function of the state before it

  /** The file system and the run's bookkeeping between two entries. */
  datatype State = State(
    files: map<Path, Content>,
    dirs: set<Path>,
    planned: set<Path>,
    moves: seq<Move>,
    aborted: bool)

  function Start(files: map<Path, Content>, dirs: set<Path>): State {
    State(files, dirs, {}, [], false)
  }

  /** The folder names the traversal leaves alone: the table's keys and "Others". */
  function KnownCategories(): (known: set<string>)
    ensures known == CategoryNames()
  {
    OthersAlreadyKey();
    CategoryNames() + {Others}
  }

  /** An entry is organized when it is a regular file not directly inside a category folder. */
  predicate Eligible(s: State, e: Entry) {
    e.Location() in s.files && ParentName(e.Location()) !in KnownCategories()
  }

  /**
   * One entry: skipped, or filed under its category. A category folder
   * that cannot be created (a regular file holds its path) ends the run.
   */
  function Step(root: Path, dryRun: bool, s: State, e: Entry): State {
    if s.aborted || !Eligible(s, e) then s
    else
      var category := Classify(e.name.suffix);
      var targetDir := root + [category];
      if targetDir in s.files then s.(aborted := true)
      else
        var dirs := s.dirs + {targetDir};
        var dest := Resolve(s.files.Keys + dirs + s.planned, targetDir, e.name);
        var files := if dryRun then s.files else Renamed(s.files, e.Location(), dest);
        State(files, dirs, s.planned + {dest}, s.moves + [Move(e.Location(), category, dest)], false)
  }

  /** The entries in enumeration order, one step each. */
  function Run(root: Path, dryRun: bool, init: State, items: seq<Entry>): State
    decreases |items|
  {
    if |items| == 0 then init
    else Step(root, dryRun, Run(root, dryRun, init, items[..|items| - 1]), items[|items| - 1])
  }

  /** Once the run has stopped, the remaining entries change nothing. */
  lemma {:induction false} RunStaysAborted(root: Path, dryRun: bool, init: State, items: seq<Entry>, n: nat)
    requires n <= |items| && Run(root, dryRun, init, items[..n]).aborted
    ensures Run(root, dryRun, init, items) == Run(root, dryRun, init, items[..n])
    decreases |items|
  {
    if n < |items| {
      var front := items[..|items| - 1];
      assert front[..n] == items[..n];
      RunStaysAborted(root, dryRun, init, front, n);
    } else {
      assert items[..n] == items;
    }
  }

  lemma RunUnfold(root: Path, dryRun: bool, init: State, items: seq<Entry>, i: nat)
    requires i < |items|
    ensures Run(root, dryRun, init, items[..i + 1]) == Step(root, dryRun, Run(root, dryRun, init, items[..i]), items[i])
  {
    assert items[..i + 1][..i] == items[..i];
  }

  /**
   * The state after an entry that is processed, written out with the
   * destination as a parameter, so that `Organize` can match it against the
   * path its own loop resolved.
   */
  lemma StepProcessed(root: Path, dryRun: bool, s: State, e: Entry, dest: Path)
    requires !s.aborted && Eligible(s, e)
    requires root + [Classify(e.name.suffix)] !in s.files
    requires dest == Resolve(s.files.Keys + (s.dirs + {root + [Classify(e.name.suffix)]}) + s.planned,
                             root + [Classify(e.name.suffix)], e.name)
    ensures Step(root, dryRun, s, e) ==
              State(if dryRun then s.files else Renamed(s.files, e.Location(), dest),
                    s.dirs + {root + [Classify(e.name.suffix)]}, s.planned + {dest},
                    s.moves + [Move(e.Location(), Classify(e.name.suffix), dest)], false)
  {
  }

  // ---------------------------------------------------------------------------
  // The engine

  /**
   * Organize the entries of `items` (the enumeration of everything under
   * `root`, in order). Returns false when the run stopped at a category
   * folder it could not create, together with the moves decided so far.
   */
  method Organize(fs: FileSystem, root: Path, dryRun: bool, items: seq<Entry>)
    returns (completed: bool, moves: seq<Move>)
    requires fs.Valid() && root in fs.dirs
    modifies fs
    ensures fs.Valid()
    ensures var s := Run(root, dryRun, Start(old(fs.files), old(fs.dirs)), items);
            fs.files == s.files && fs.dirs == s.dirs && moves == s.moves && completed == !s.aborted
  {
    ghost var init := Start(fs.files, fs.dirs);
    var categoryNames := KnownCategories();
    var planned: set<Path> := {};
    moves := [];
    for i := 0 to |items|
      invariant fs.Valid() && root in fs.dirs
      invariant Run(root, dryRun, init, items[..i]) == State(fs.files, fs.dirs, planned, moves, false)
    {
      var item := items[i];
      ghost var before := State(fs.files, fs.dirs, planned, moves, false);
      RunUnfold(root, dryRun, init, items, i);
      var source := item.Location();
      if !fs.IsFile(source) {
        continue;
      }
      if ParentName(source) in categoryNames {
        continue;
      }
      var category := GetCategory(item.name.suffix);
      var targetDir := root + [category];
      var ok := fs.EnsureFolder(targetDir);
      if !ok {
        RunStaysAborted(root, dryRun, init, items, i + 1);
        return false, moves;
      }
      var finalPath := ResolveDuplicate(fs, targetDir, item.name, planned);
      planned := planned + {finalPath};
      if !dryRun {
        fs.Rename(source, finalPath);
      }
      moves := moves + [Move(source, category, finalPath)];
      StepProcessed(root, dryRun, before, item, finalPath);
    }
    assert items[..|items|] == items;
    return true, moves;
  }
}
