/**
 * When a dry run shows what a live run would do. The dry run leaves every
 * file where it is, so it agrees with the live run as long as no moved file
 * could change a later decision: no regular file sits where a category
 * folder goes, and the enumeration lists each path once.
 */
module DryRunAgreement {
  import opened Config
  import opened Classifier
  import opened Storage
  import opened Organizer
  import opened OrganizerProperties

  /** The paths the enumeration lists. */
  function Locations(items: seq<Entry>): set<Path> {
    set e | e in items :: e.Location()
  }

  predicate DistinctLocations(items: seq<Entry>) {
    forall i, j :: 0 <= i < j < |items| ==> items[i].Location() != items[j].Location()
  }

  /** No regular file sits at `root/<category>` for any category. */
  predicate NoFileAtCategoryFolder(root: Path, files: map<Path, Content>) {
    forall c :: c in KnownCategories() ==> root + [c] !in files
  }

  /** The last entry of a list without repeated paths lists a path the earlier entries do not. */
  lemma LastIsNew(items: seq<Entry>)
    requires |items| > 0 && DistinctLocations(items)
    ensures var front := items[..|items| - 1];
            && DistinctLocations(front)
            && items[|items| - 1].Location() !in Locations(front)
            && Locations(front) + {items[|items| - 1].Location()} <= Locations(items)
  {
    var front, e := items[..|items| - 1], items[|items| - 1];
    forall i, j | 0 <= i < j < |front| ensures front[i].Location() != front[j].Location() {
      assert front[i] == items[i] && front[j] == items[j];
    }
    forall x | x in front ensures x in items && x.Location() != e.Location() {
      var i :| 0 <= i < |front| && front[i] == x;
      assert items[i] == x;
    }
  }

  /** Duplicate resolution looks only at the candidates of the name it resolves. */
  lemma ResolveSeesOnlyCandidates(a: set<Path>, b: set<Path>, dir: Path, name: FileName)
    requires forall k: nat :: Candidate(dir, name, k) in a <==> Candidate(dir, name, k) in b
    ensures Resolve(a, dir, name) == Resolve(b, dir, name)
  {
    var r := FreeIndexFrom(a, dir, name, 0);
    ResolveIsLeastFree(b, dir, name, r);
  }

  /** A live state and a dry state that have taken the same decisions so far, and neither stopped. */
  ghost predicate Mirrors(live: State, dry: State) {
    live.moves == dry.moves && live.planned == dry.planned && live.dirs == dry.dirs
    && !live.aborted && !dry.aborted
  }

  /** A file that was never a source is in the live state exactly when it was there at the start. */
  lemma LiveFileUnlessMoved(root: Path, init: State, live: State, p: Path)
    requires Invariant(root, false, init, live)
    requires p !in Sources(live.moves) && ParentName(p) !in KnownCategories()
    ensures p in live.files <==> p in init.files
  {
    assert p !in Dests(live.moves);
  }

  /** The two runs see the same occupied candidates for the destination of the next file. */
  lemma SameCandidatesTaken(root: Path, init: State, live: State, dry: State, category: string, name: FileName)
    requires Invariant(root, false, init, live) && Invariant(root, true, init, dry) && Mirrors(live, dry)
    requires category in KnownCategories()
    ensures var dir := root + [category];
            forall k: nat :: Candidate(dir, name, k) in live.files.Keys + (live.dirs + {dir}) + live.planned
                         <==> Candidate(dir, name, k) in dry.files.Keys + (dry.dirs + {dir}) + dry.planned
  {
    var dir := root + [category];
    forall k: nat
      ensures Candidate(dir, name, k) in live.files.Keys + (live.dirs + {dir}) + live.planned
          <==> Candidate(dir, name, k) in dry.files.Keys + (dry.dirs + {dir}) + dry.planned
    {
      var p := Candidate(dir, name, k);
      assert ParentName(p) == category;
      assert p !in Sources(live.moves);
    }
  }

  /** One more entry keeps the two runs in step. */
  lemma StepMirrors(root: Path, init: State, live: State, dry: State, e: Entry)
    requires Invariant(root, false, init, live) && Invariant(root, true, init, dry) && Mirrors(live, dry)
    requires NoFileAtCategoryFolder(root, init.files)
    requires e.Location() !in Sources(live.moves)
    ensures Mirrors(Step(root, false, live, e), Step(root, true, dry, e))
    ensures Sources(Step(root, false, live, e).moves) <= Sources(live.moves) + {e.Location()}
  {
    if ParentName(e.Location()) in KnownCategories() {
      StepSkips(root, false, live, e);
      StepSkips(root, true, dry, e);
    } else {
      LiveFileUnlessMoved(root, init, live, e.Location());
      if Eligible(live, e) {
        var category := Classify(e.name.suffix);
        var dir := root + [category];
        ClassifyTotal(e.name.suffix);
        assert dir !in Dests(live.moves);
        SameCandidatesTaken(root, init, live, dry, category, e.name);
        var dest := Resolve(live.files.Keys + (live.dirs + {dir}) + live.planned, dir, e.name);
        ResolveSeesOnlyCandidates(live.files.Keys + (live.dirs + {dir}) + live.planned,
                                  dry.files.Keys + (dry.dirs + {dir}) + dry.planned, dir, e.name);
        StepProcessed(root, false, live, e, dest);
        StepProcessed(root, true, dry, e, dest);
        DestsAppend(live.moves, Move(e.Location(), category, dest));
      } else {
        StepSkips(root, false, live, e);
        StepSkips(root, true, dry, e);
      }
    }
  }

  /**
   * When no regular file sits where a category folder goes and the
   * enumeration lists each path once, a dry run stops nowhere and decides
   * exactly the moves, destinations and folders of the live run.
   */
  lemma {:induction false} DryRunShowsLiveMoves(root: Path, files: map<Path, Content>, dirs: set<Path>,
                                                items: seq<Entry>)
    requires NoFileAtCategoryFolder(root, files) && DistinctLocations(items)
    ensures var live := Run(root, false, Start(files, dirs), items);
            var dry := Run(root, true, Start(files, dirs), items);
            && live.moves == dry.moves && live.planned == dry.planned && live.dirs == dry.dirs
            && !live.aborted && !dry.aborted
    ensures Sources(Run(root, false, Start(files, dirs), items).moves) <= Locations(items)
    decreases |items|
  {
    if |items| > 0 {
      var front, e := items[..|items| - 1], items[|items| - 1];
      LastIsNew(items);
      DryRunShowsLiveMoves(root, files, dirs, front);
      RunInvariant(root, false, files, dirs, front);
      RunInvariant(root, true, files, dirs, front);
      StepMirrors(root, Start(files, dirs), Run(root, false, Start(files, dirs), front),
                  Run(root, true, Start(files, dirs), front), e);
    }
  }
}
