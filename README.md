# Synchronization-project in Dafny

A model of `Sync_prj/sync.py`, a one-way directory mirror. Each round,
`main` builds a `Sync` object for a source and a target directory. The
object then takes three steps:

1. `diff_files` walks the two trees with `filecmp.dircmp` and sorts every
   difference into five lists:
   - modified files;
   - files only in the source;
   - files only in the target;
   - directories only in the source;
   - directories only in the target.
2. A `Log` object appends a report of the five lists to a text file.
3. `Overwrite` replays the lists against the target with `shutil.copy`,
   `shutil.copytree`, `os.remove` and `shutil.rmtree`.

Between rounds the program sleeps for an interval computed by `Interval`.

The filesystem is a value: a tree of `Node`s, either `File(content)` or
`Dir(entries)`. A path is a sequence of names.

- **Library calls.** The four library calls become functions on that tree
  (`FileSystem.Copy`, `CopyTree`, `Remove`, `RemoveTree`). Each either
  succeeds or returns the kind of error the library raises. `CopyTree`
  creates missing directories on the way to its destination, as
  `os.makedirs` does inside `shutil.copytree`.
- **The `Sync` class.** It has its five list fields and the filesystem it
  acts on. Its methods loop as the Python does and are proved against two
  specification functions:
  - `Walk`, for the listing;
  - `Reconcile`, for `Overwrite`.
- **The `Log` class.** It appends to a text field. Its methods are proved
  against `LogBlock`.

Three behaviours of the code are kept as written:

- **Modified files go to the target root.** A modified file is copied into
  the target root (line 100), not into its own target directory. A modified
  file in a subdirectory is therefore never repaired. It is copied to the
  root on every round: `NestedModified.NestedModifiedReturns` shows a
  concrete tree on which this happens.
- **Mixed-type names are dropped.** A name that is a file on one side and a
  directory on the other lands in `dircmp.common_funny`, which the code
  never reads, so it is reported in no list (`WalkFacts.UnlistedNames`).
- **An exception ends `Overwrite`.** Nothing in `Overwrite` catches
  exceptions: the first failing call ends it. Lists already replayed are
  empty, and the failing list and all later ones keep their entries
  (`ReplayFacts.ReconcileRunsPlan`). There is no `try` in `Overwrite` or
  in `main`.

`Convergence.Converges` is the main theorem. Take two disjoint roots whose
modified files all lie directly under the roots. Then one round:

- raises nothing;
- empties every list;
- leaves the source tree unchanged;
- ends with a new comparison that finds no difference at all.

The supporting facts:

- `WalkFacts` characterises the five lists directly from the two trees.
- `ReplayFacts` flattens `Overwrite` into one sequence of calls.
- `Independent` shows that calls writing at separate places do not
  interfere.

## Model

| member | source | states |
|---|---|---|
| DirCompare.Open | Sync_prj/sync.py:29-40 | Comparing two roots succeeds exactly when both are directories; the listings then are the two directories' entries |
| DirCompare.LeftOnly | Sync_prj/sync.py:43 | `left_only` holds exactly the names listed in the source directory and not in the target one |
| DirCompare.RightOnly | Sync_prj/sync.py:50 | `right_only` holds exactly the names listed in the target directory and not in the source one |
| DirCompare.DiffFiles | Sync_prj/sync.py:40 | `diff_files` holds exactly the names that are files on both sides with different contents |
| DirCompare.CommonDirs | Sync_prj/sync.py:57 | The subdirectories walked are exactly the names that are directories on both sides |
| DirCompare.SubListedFrom | Sync_prj/sync.py:57-58 | The comparison of a common subdirectory lists, on each side, exactly what the disk holds one name below |
| DirCompare.ListingsIncreasing | Sync_prj/sync.py:40-57 | Every listing the loops walk is in strictly increasing name order, so it has no repeated name |
| Names.SortedIncreasing | Sync_prj/sync.py:40-57 | A sorted directory listing is in strictly increasing code-point order |
| FileSystem.CopyEffect | Sync_prj/sync.py:100-108 | `shutil.copy` succeeds exactly when the source is a regular file and its destination is a different path that is not a directory and whose parent directory exists; it then writes the file there and changes nothing apart from that path |
| FileSystem.CopyTreeEffect | Sync_prj/sync.py:116 | `shutil.copytree` succeeds exactly when the source is a directory, the destination does not exist and no regular file lies on the way to it; the destination then holds the source tree, every directory above it exists, and nothing apart from that path changes |
| FileSystem.RemoveEffect | Sync_prj/sync.py:124 | `os.remove` succeeds exactly on a regular file; afterwards nothing is at or below that path and nothing apart from it changes |
| FileSystem.RemoveTreeEffect | Sync_prj/sync.py:132 | `shutil.rmtree` succeeds exactly on a directory other than the root; afterwards nothing is at or below that path and nothing apart from it changes |
| Sync.Sync.constructor | Sync_prj/sync.py:24-34 | A new `Sync` remembers its two roots and starts with all five lists empty |
| Sync.Sync.DiffFiles | Sync_prj/sync.py:36-37 | If both roots are directories, each list is extended by the walk of the two trees; otherwise the listing error is raised and nothing changes |
| Sync.Sync.DiffFilesRecursion | Sync_prj/sync.py:39-58 | One call appends to the lists exactly the walk of this comparison: this level, then each common subdirectory in order |
| Sync.Sync.RecurseSubdirs | Sync_prj/sync.py:57-58 | The closing loop appends the walks of the given subdirectories, one after another |
| Sync.Sync.AddDiffFiles | Sync_prj/sync.py:40-41 | Appends one record per modified name, in listing order, and touches no other list |
| Sync.Sync.IsFileInLeft | Sync_prj/sync.py:44-45 | The `isfile` test on the source side agrees with the source listing |
| Sync.Sync.IsFileInRight | Sync_prj/sync.py:51-52 | The `isfile` test on the target side agrees with the target listing |
| Sync.Sync.AddLeftOnly | Sync_prj/sync.py:43-48 | Source-only regular files go to the files list and every other source-only name to the directories list, in listing order |
| Sync.Sync.AddRightOnly | Sync_prj/sync.py:50-55 | Target-only regular files go to the files list and every other target-only name to the directories list, in listing order |
| Sync.Sync.Replay | Sync_prj/sync.py:99-132 | One list is replayed call by call in list order; the disk and the exception are those of running its calls and stopping at the first failure |
| Sync.Sync.ReplayAndClear | Sync_prj/sync.py:97-103 | One block of `Overwrite`: the list is replayed and then cleared, and an exception leaves it as it was |
| Sync.Sync.Overwrite | Sync_prj/sync.py:96-135 | The disk, the lists and the exception after `Overwrite` are those of the five blocks in the order modified files, new files, new directories, extra files, extra directories |
| Sync.ApplyAbortedPrefix | Sync_prj/sync.py:99-100 | Once a call raises, the calls after it make no difference |
| WalkFacts.LevelMember | Sync_prj/sync.py:40-55 | One level (`Level`) files an entry under list k exactly when the entry sits in the two compared directories and the shapes of its name on the two sides define k |
| WalkFacts.WalkMember | Sync_prj/sync.py:39-58 | An entry is in a list of the walk (`Walk`) exactly when it is in that list at this level or in the walk of some common subdirectory |
| WalkFacts.WalkClassified | Sync_prj/sync.py:39-58 | An entry is in list k exactly when its parent is a directory on both sides at mirrored places and its name has the shapes that define k there |
| WalkFacts.FoundClassified | Sync_prj/sync.py:36-58 | The same characterisation for the walk from the two roots |
| WalkFacts.FoundDisjoint | Sync_prj/sync.py:39-55 | No entry is in two lists, and a parent directory and a name determine the entry |
| WalkFacts.UnlistedNames | Sync_prj/sync.py:39-58 | Identical files, directories on both sides, and names that are a file on one side and a directory on the other appear in no list |
| WalkFacts.OneSidedSubtree | Sync_prj/sync.py:43-58 | Below a directory that exists on one side only, nothing is listed |
| WalkFacts.WalkPreOrder | Sync_prj/sync.py:39-58 | Each list is in walk order: an entry comes before what is found below its parent's subdirectories, and one directory's entries are in name order |
| WalkFacts.WalkNoRepeats | Sync_prj/sync.py:39-58 | No list holds the same entry twice |
| ReplayFacts.PlanBlocks | Sync_prj/sync.py:96-135 | The calls `Overwrite` makes are block by block: modified files, source files, source directories, target files, target directories |
| ReplayFacts.ReconcileRunsPlan | Sync_prj/sync.py:96-135 | `Overwrite` (`Reconcile`) is running the whole call sequence up to its first exception. Without one, every list ends empty. With one, exactly the lists whose calls all ran are empty and the others are unchanged |
| ReplayFacts.ApplyStops | Sync_prj/sync.py:99-100 | A run that raised completed every call before the failing one and made no call after it |
| ReplayFacts.PlanJustified | Sync_prj/sync.py:96-135 | After `diff_files`, every deletion removes an entry the target has and the source lacks at the mirrored place. A new file is copied into the directory where its mirror is missing, and a new directory to its missing mirror place. A modified file is copied into the target root, and only when its mirror file exists and differs from it |
| ReplayFacts.ActionJustified | Sync_prj/sync.py:100-132 | The call `Overwrite` makes for an entry `diff_files` filed under list k (`ActionFor`) is justified by the trees as `PlanJustified` spells out |
| ReplayFacts.PlanUnderTarget | Sync_prj/sync.py:96-135 | After `diff_files`, every call of `Overwrite` has its destination under the target root |
| ReplayFacts.SourceUntouched | Sync_prj/sync.py:96-135 | With disjoint roots, `Overwrite` leaves the whole source tree as it was, whether it completes or raises |
| Independent.ReadyStep | Sync_prj/sync.py:100-132 | A copy or deletion whose preconditions hold succeeds and writes its payload at its destination |
| Independent.ApplySeparate | Sync_prj/sync.py:96-135 | Calls writing at separate places that read away from earlier writes all succeed. The result is each payload at its place and the old tree everywhere else |
| Convergence.EntryCall | Sync_prj/sync.py:100-132 | For an entry of disjoint roots, the call `Overwrite` makes cannot raise and writes at the entry's target path; a copy reads the entry's source path, and a deletion removes what the source lacks. A modified file must sit directly under the target root for this |
| Convergence.Converges | Sync_prj/sync.py:216-220 | Disjoint roots with modified files only at the top: one round raises nothing and empties the lists. It also keeps the source tree, and a new comparison finds no difference |
| NestedModified.NestedModifiedReturns | Sync_prj/sync.py:100 | A modified file one directory down is copied to the target root, and the next comparison still reports it as modified |
| Interval.GetInterval | Sync_prj/sync.py:142-150 | The interval is an error exactly for units other than `m`, `h` and `d`, and the error carries the program's message |
| Interval.UnitsAgree | Sync_prj/sync.py:142-150 | An hour gives the seconds of sixty minutes, and a day those of twenty-four hours |
| Interval.Ordered | Sync_prj/sync.py:142-150 | A positive time gives a positive interval that grows from minutes to hours to days |
| Interval.GetIntervalOf | Sync_prj/sync.py:142-150 | On what `Interval` is handed, the interval succeeds exactly for the plain strings `m`, `h` and `d`, with the seconds `get_Interval` gives; anything else, a list in particular, raises the wrong-unit error |
| Interval.StartupInterval | Sync_prj/sync.py:213 | As written, start-up succeeds exactly when `-IO` is not given, and then the interval is the given number of minutes in seconds |
| Interval.GivenUnitRaises | Sync_prj/sync.py:213 | As written, any unit given with `-IO` makes start-up raise the wrong-unit error |
| Interval.TwoHoursRaise | Sync_prj/sync.py:213 | `-interval 2 -IO h` raises, although two hours is a valid interval of 7200 seconds |
| Interval.StartupIntervalFixed | Sync_prj/sync.py:213 | The corrected start-up treats a given unit as the plain string it names, and without `-IO` agrees with the program as written |
| Interval.FixedHonoursUnit | Sync_prj/sync.py:213 | With the correction, a given unit succeeds exactly when it is `m`, `h` or `d`. Hours are honoured, and the default is unchanged |
| Log.Log.constructor | Sync_prj/sync.py:156-160 | A new log names the file `<name>.txt`, has no date or time yet and has written nothing |
| Log.Log.WriteItems | Sync_prj/sync.py:171-172 | The loop over one list appends one line per entry, in list order |
| Log.Log.WriteSection | Sync_prj/sync.py:169-174 | A section is its title, then its entry lines, or `None` when its list is empty |
| Log.Log.Write | Sync_prj/sync.py:162-207 | Records the date and time and appends exactly one block for the five lists, in the order modified files, source files, target files, source directories, target directories |
| Log.TitlesDistinct | Sync_prj/sync.py:168-200 | The five section titles are pairwise different, and none reads `None` |
| Log.ItemNotNone | Sync_prj/sync.py:171-204 | No entry line reads `None`, so an empty section is told apart from a listed one |
| Log.LogBlockLines | Sync_prj/sync.py:166-207 | The appended block is the header, the five sections and an empty line, each ended by a line break |
| Log.LinesRoundTrip | Sync_prj/sync.py:166-207 | Lines without line breaks are read back unchanged from their joined text |
| Log.LogReadsBack | Sync_prj/sync.py:166-207 | When no date, time, name or path holds a line break, the block read line by line gives back exactly those lines |
| Log.SectionShape | Sync_prj/sync.py:169-206 | A section reads `None` exactly when its list is empty, and otherwise has one line per entry in list order |
| Log.LineCount | Sync_prj/sync.py:166-207 | A block has the header, the closing empty line, and per section a title plus one line per entry, or one `None` line |

## Left out

- The ArgumentParser class (lines 9-16) and the loop and `time.sleep` in `main` (lines 210-224) are command-line handling and scheduling. The model keeps only how `main` hands the `-IO` value to `Interval` (line 213).
- `print_list` (lines 60-94) and the `print` calls in `Overwrite` and `Log.Write` only write to the console.
- `Interval.get_day` (lines 152-153) does nothing.
- The real filesystem is replaced by a tree value. Permissions, symbolic links, timestamps, other processes and partially completed copies are not modelled. The library calls are modelled by when they succeed, what they write and the kind of error they raise.
- `filecmp.dircmp` compares files by `os.stat` signature (shallow comparison). The model compares contents instead. Its default ignore list, hidden names and case-insensitive names are not modelled.
- Paths are sequences of names. This is why the `'\\'` concatenations (lines 44, 51, 100, 108, 116, 124, 132) and the `os.path.join` that `dircmp` uses for subdirectories agree in the model. `Log.Join` takes the separator as a parameter.
- The library calls return the kind of error and one path only. Which path Python puts in the exception, and the `PermissionError` that `os.remove` raises on a directory under Windows, are not modelled.
- Times are `real`. Floating-point rounding in `get_Interval` is not modelled.
- The two `datetime.now()` readings in `Log.Write` (lines 164-165) are parameters. Opening the log file, the never-closed handle, and text already in the file are not modelled. The field `written` holds what this object appended.
- Only the abort path of an exception is modelled: the failing call, the state it leaves, and the lists that stay pending. In the program an exception from `Overwrite` also ends `main`, since nothing catches it there either.
- `Convergence.Converges`: proved only when every modified file lies directly under the roots. A modified file deeper down is copied to the target root (line 100) and keeps being reported (`NestedModified.NestedModifiedReturns`).
- `NestedModified.NestedModifiedReturns`: shown for one concrete pair of trees, not for every nested modified file.

## Findings

| source | as written | input that shows it | evidently intended | confidence | as-written member | corrected member |
|---|---|---|---|---|---|---|
| Sync_prj/sync.py:15 | `-IO` is declared with `nargs=1`, so a unit given on the command line arrives as a one-element list. Line 213 passes `args.IO` to `Interval` unindexed, and a list never equals `'m'`, `'h'` or `'d'` | `-interval 2 -IO h` | the given unit, handled like the default `'m'` (index the list at line 213, or drop `nargs`) | not executed | Interval.GivenUnitRaises | Interval.FixedHonoursUnit |
