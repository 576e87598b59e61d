# Smart File Organizer: a verified model of the organization engine

This project models the core of the Smart File Organizer in Dafny. The
organizer walks a directory tree. It moves every regular file that is not
directly inside a folder named after a category into a category folder
`root/<Category>` chosen by the file's extension. It renames the file
`stem_1.suffix`, `stem_2.suffix`, ... when its name is already taken. A dry
run decides the moves without performing them. It decides the same moves as
the live run when no regular file sits where a category folder goes and the
enumeration lists each path once; otherwise the two can differ.

The project has these modules:

- `Config` (`config.dfy`): the extension table in its declared order, with
  proofs about its shape. There are nine categories and `Others` is the
  empty last row. Every extension starts with a dot and is lower case, and
  no extension is listed under two categories.
- `Classifier` (`classifier.dfy`): the category lookup. `Classify` is the
  specification and `GetCategory` is the loop that scans the table.
- `Decimal` (`decimal.dfy`): decimal rendering of the duplicate counter,
  with its round trip. That round trip is why distinct counters give
  distinct names.
- `Storage` (`storage.dfy`): a `FileSystem` class with a map of regular
  files (path to bytes) and a set of directories. It has the two mutating
  operations the engine uses: creating a folder (`mkdir(exist_ok=True)`)
  and renaming a file.
- `Organizer` (`organizer.dfy`):
  - duplicate resolution, with the `Resolve` specification and the
    `ResolveDuplicate` loop;
  - one pass over the enumerated entries, specified by the fold `Run` of
    `Step`;
  - the imperative `Organize` method, proved to leave exactly the state
    `Run` describes.
- `OrganizerProperties` (`organizer_properties.dfy`): what a whole pass
  guarantees. Destinations are fresh and pairwise distinct. A live run
  neither loses nor duplicates a file. A dry run moves nothing. Files
  directly inside a category folder stay put.
- `DryRunAgreement` (`dry_run.dfy`): the conditions under which a dry run
  decides exactly the moves, destinations and folders of the live run.
- `OrganizerExamples` (`organizer_examples.dfy`): concrete instances. One
  shows the `a.txt`, `a_1.txt`, `a_2.txt` sequence. One shows that the skip
  rule looks only one level up. One shows a dry run that stops where the
  live run goes on.

What the code does, and where the model follows it rather than the
documentation:

- A dry run does not move files, but it still creates the category
  folders. `ensure_folder` (organizer.py:104) runs before the dry-run
  branch (organizer.py:115). So `DryRunMovesNoFile` allows the directory
  set to grow by category folders.
- There is no per-file error handling in `organize`. The one failure the
  model keeps is `mkdir` hitting a regular file that already sits at
  `root/<Category>`. That ends the whole pass. `Step` marks the state as
  aborted, and `Organize` returns `completed = false` with the moves made
  so far.
- The skip rule compares only the name of the file's immediate parent with
  the category names (organizer.py:96). A file in `Documents/notes/` is
  therefore organized again, while a file in any folder called `Images` (or
  any other category name), at any depth, is skipped.
- A dry run does not always show what the live run would do, although the
  docstring at organizer.py:83 promises that it shows the final names
  correctly. Take a regular file named `Documents` directly in the root,
  followed by `a.txt`. The live run files `Documents` under `Others` and
  can then create the folder `Documents` for `a.txt`. The dry run leaves the
  file in place, so its `mkdir` fails at organizer.py:104 and it stops
  after one decision (`LiveRunGoesOn`, `DryRunStopsEarlier`). Without such
  a file, and with each path listed once, the two runs agree
  (`DryRunShowsLiveMoves`).

## Model

| member | source | states |
|---|---|---|
| Config.CategoryNames | config.py:14-32 | the key set is exactly {Documents, Images, Audio, Videos, Archives, Scripts, Ebooks, Fonts, Others} |
| Config.Lower | organizer.py:36 | lower-casing keeps the length, maps each character through the ASCII case mapping, and leaves no capital letter |
| Config.CategoryOrder | config.py:14-31 | the table has nine rows in the order Documents, Images, Audio, Videos, Archives, Scripts, Ebooks, Fonts, Others |
| Config.OthersIsEmptyFallback | config.py:31 | "Others" is the last row and its list is empty, so no extension selects it |
| Config.OthersAlreadyKey | organizer.py:85 | adding "Others" to the table's keys adds nothing: the skip set equals the key set |
| Config.ExtensionsStartWithDot | config.py:15-30 | every listed extension is non-empty and starts with "." |
| Config.ExtensionsLowercase | config.py:15-30 | every listed extension is already lower case, so a lower-cased suffix can match it |
| Config.ExtensionsDisjoint | config.py:14-32 | no extension is listed under two different categories |
| Decimal.DecimalString | organizer.py:62 | the counter's text is a non-empty string of digits without a leading zero |
| Decimal.ParseDecimalString | organizer.py:62 | parsing the counter's text gives the counter back |
| Decimal.DecimalStringInjective | organizer.py:62 | different counters have different texts |
| Classifier.Classify | organizer.py:35-39 | definition: the category of the first row whose list holds the lower-cased suffix, else "Others"; its properties are the lemma rows below |
| Classifier.FirstMatchFrom | organizer.py:35-37 | the result is the first row from i on whose list holds the extension, or the table length when there is none |
| Classifier.GetCategory | organizer.py:25-39 | the table scan returns exactly the category `Classify` specifies |
| Classifier.ClassifyTotal | organizer.py:35-39 | every suffix, the empty one included, gets a key of the table, and it gets "Others" exactly when no list holds its lower-cased form |
| Classifier.ClassifyFirstMatch | organizer.py:35-37 | the first row in table order whose list holds the lower-cased suffix decides the category |
| Classifier.ClassifyIgnoresCase | organizer.py:36 | suffixes that differ only in letter case get the same category |
| Classifier.LowerOfLower | organizer.py:36 | lower-casing a lower-case string changes nothing |
| Classifier.ClassifyByMembership | organizer.py:35-37 | a suffix gets a category other than "Others" exactly when that category's list holds its lower-cased form, so the scan order decides nothing |
| Classifier.ListedExtensionReachable | organizer.py:35-37 | each listed extension, in any letter case, is classified under its own row |
| Classifier.EmptySuffixIsOthers | organizer.py:38-39 | a file without a suffix goes to "Others" |
| Storage.Renamed | organizer.py:126 | definition of the file map after a rename: the source path is gone (when the two differ), the destination holds the source's content, and every other file is unchanged |
| Storage.RenameKeepsCount | organizer.py:126 | a rename onto a path that holds no file keeps the number of files |
| Storage.FileSystem.EnsureFolder | utils.py:11-21 | creating a folder succeeds exactly when the path is not a regular file and it already is a directory or its parent is; on success the directory set gains the path, and files never change |
| Storage.FileSystem.Rename | organizer.py:126 | the file map becomes the renamed map and the directories are unchanged |
| Organizer.CandidateName | organizer.py:58-63 | definition: the k-th name tried, the file's own name for k = 0 and `stem_k.suffix` after |
| Organizer.CandidateNameShape | organizer.py:62 | every name tried starts with the file's stem and ends with its suffix |
| Organizer.Candidate | organizer.py:62-63 | definition: the k-th candidate path, the k-th name inside the target directory |
| Organizer.CandidateNamesDistinct | organizer.py:61-63 | the names tried for one file (`name`, `stem_1.suffix`, ...) are pairwise distinct |
| Organizer.TriedStep | organizer.py:61-64 | each try adds one new candidate that was not tried before |
| Organizer.FreeIndexFrom | organizer.py:57-66 | the counter reached is the least one from k on whose candidate is free; all candidates before it are taken |
| Organizer.Resolve | organizer.py:42-66 | the chosen path is free and lies directly in the target directory |
| Organizer.ResolveKeepsFreeName | organizer.py:58-61 | a file whose name is free keeps its name |
| Organizer.ResolveIsLeastFree | organizer.py:57-66 | the chosen path is the candidate with the smallest free counter |
| Organizer.ResolveDuplicate | organizer.py:42-66 | the loop returns a path neither on disk nor planned, namely the least free candidate `Resolve` gives |
| Organizer.KnownCategories | organizer.py:85 | the folder names the traversal skips; the union with "Others" equals the table's key set |
| Organizer.Eligible | organizer.py:91-97 | definition: an entry is processed when it is a regular file whose immediate parent's name is not a category name |
| Organizer.Step | organizer.py:99-129 | definition of one loop iteration: skip an ineligible entry; stop the run when a regular file sits at `root/<category>` (the failing mkdir at organizer.py:104); otherwise add the folder, resolve and plan the destination, record the move and rename only in a live run; its properties are the OrganizerProperties.Step* rows |
| Organizer.Run | organizer.py:89-129 | definition: the steps over the enumerated entries in order, from the state before the pass |
| Organizer.RunStaysAborted | organizer.py:104 | once a category folder cannot be created, the remaining entries change nothing |
| Organizer.StepProcessed | organizer.py:99-129 | unfolds `Step` for a processed entry, used by `Organize`'s loop: an eligible file's step adds its category folder, plans its resolved destination, records the move and renames the file unless in dry-run mode |
| Organizer.Organize | organizer.py:69-129 | the pass leaves exactly the files, directories, moves and completion flag the specification `Run` gives for the enumerated entries |
| OrganizerProperties.RunInvariant | organizer.py:85-129 | after any prefix of the entries, planned paths equal the move destinations, destinations are distinct and were free at the start, and every move goes to `root/<category>/` |
| OrganizerProperties.DestinationsFreeAndDistinct | organizer.py:107-113 | no two moves share a destination; each destination was neither a file nor a directory before the pass and differs from its source |
| OrganizerProperties.DistinctDestsCount | organizer.py:113 | distinct destinations are as many as the moves |
| OrganizerProperties.PlannedCountsDecisions | organizer.py:86-113 | the planned set has one path per move, and there are at most as many moves as entries |
| OrganizerProperties.RunMovesBound | organizer.py:89-129 | each entry adds at most one move |
| OrganizerProperties.StepSkips | organizer.py:91-97 | unfolds the skip branch of `Step`: a non-file, a file directly in a category folder or a stopped run leaves the state as it is |
| OrganizerProperties.StepBlocked | organizer.py:103-104 | unfolds the stop branch of `Step`: a regular file at the category folder's path stops the run and changes nothing else |
| OrganizerProperties.StepProcesses | organizer.py:99-129 | a processed file adds exactly one move and one planned path, keeps its name when it is free, and the file moves only in a live run |
| OrganizerProperties.LiveRunConservesFiles | organizer.py:124-126 | a live run keeps the number of files; each moved file's content sits at its destination and every other file is untouched |
| OrganizerProperties.DryRunMovesNoFile | organizer.py:115-123 | a dry run changes no file and creates no directory other than category folders |
| OrganizerProperties.CategoryFolderFilesStay | organizer.py:95-97 | a file directly inside a category folder is never moved, in either mode |
| DryRunAgreement.ResolveSeesOnlyCandidates | organizer.py:57-66 | duplicate resolution depends only on which candidates of the name are occupied |
| DryRunAgreement.StepMirrors | organizer.py:99-129 | when a live and a dry state both keep the run invariant from the same start, have the same decisions, no regular file sat at any `root/<category>` at the start, and the entry's file was not moved before, one more entry keeps the decisions, planned paths and folders equal and stops neither run |
| DryRunAgreement.DryRunShowsLiveMoves | organizer.py:83-129 | with no regular file at any `root/<category>` and each path listed once, the dry run and the live run make the same moves, plan the same paths, create the same folders, and neither stops |
| OrganizerExamples.TxtIsDocument | config.py:15-18 | ".txt" is a document |
| OrganizerExamples.DuplicateNamesScenario | organizer.py:46-47 | with `a.txt` on disk the next `a.txt` becomes `a_1.txt`, and one more becomes `a_2.txt` once `a_1.txt` is planned |
| OrganizerExamples.NestedFileIsReorganized | organizer.py:96-97 | a file in a sub-folder of a category folder is organized again; one directly in it is not |
| OrganizerExamples.LiveRunGoesOn | organizer.py:100-126 | with a file `r/Documents` before `r/a.txt`, the live run completes with two moves |
| OrganizerExamples.DryRunStopsEarlier | organizer.py:103-104 | with the same files the dry run stops at the `mkdir` of `r/Documents` after one move |

## Left out

- Logging (`logger.py`, organizer.py:121-129), the dry-run report text (organizer.py:117-120) and its relative path are not modelled. `Move` records the full source path, the category and the destination.
- `main.py` (its two interactive prompts, the check that the directory exists, messages) and `create_test_files.py` are not part of this model.
- Lower-casing covers ASCII letters only. Python's Unicode case mapping is not modelled.
- The path library's split of a name into stem and suffix is taken as given: an entry carries its `FileName(stem, suffix)`.
- `rglob` is modelled as a snapshot sequence of entries in enumeration order. The model does not capture its laziness, its order, or whether it lists folders created or files moved during the pass. Each entry is re-checked against the current state when it is reached. Files added to a category folder are skipped by the parent-name rule anyway.
- Symbolic links, permissions, cross-device renames and other operating-system errors are not modelled. The only failure modelled is `mkdir` meeting a regular file at the category folder's path. `FileSystem.Rename` requires a destination that is not a directory and whose parent directory exists, and `Organize` always meets that requirement.
- Storage.FileSystem.Rename: a rename onto an existing file replaces it, as on POSIX. On Windows the rename would raise instead. The engine never renames onto an existing path, so this never arises in a pass.
- Paths compare exactly, as on a case-sensitive POSIX file system. On Windows, path equality and `exists()` ignore case. On macOS, `exists()` ignores case but the planned-set lookup at organizer.py:61 does not. On such systems a different set of candidates counts as taken: with `Documents/A.txt` on disk, a new `a.txt` would become `a_1.txt` where the model keeps `a.txt`.
- Concurrent changes to the directory by other processes are not modelled.
