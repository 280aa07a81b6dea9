# Koch snowflake drawer and extension sorter, modelled in Dafny

The repository holds two small Python scripts. This project models the logic of both and proves what they do.

- `koch.dfy`, module `Koch`, models `koch_snowflake_drawer.py`. The turtle is an observer that records every command it is given: `Forward(d)`, `Left(deg)`, `Right(deg)`, `PenUp`, `PenDown`, `GoTo(x, y)`.
  - `KochCurve(order, size)` is the command sequence that `koch_curve` issues.
  - `DrawKochCurve` is the same procedure acting on a `Turtle` object.
  - `DrawKochSnowflake` lifts the pen, moves to `(-size/2, size/3)` and lowers it. It then loops three times: a curve, then `Right(120)`.
  - `RunSession` is the order choice in `main`.
  - The lemmas prove these facts about one curve of order n: 4^n strokes, 4^n - 1 turns, every stroke of length size/3^n, net heading change 0, strokes and turns alternating. For the whole snowflake they prove 3·4^n strokes and a net turn of -360 degrees.
- `file_sorter.dfy`, module `FileSorter`, models `file_sorter.py`. The source directory is an abstract tree: `File(name, copy result) | Dir(name, listed entries, interruption) | Other(name)`. An interrupted listing carries the exception kind and the entries it never yielded. What the program does is a sequence of `Event`s:
  - a copy to a target path;
  - a reported copy failure, by exception handler;
  - a reported listing failure;
  - "source does not exist";
  - "not a directory".

  `CopyFile` and `WalkDirectory` are the imperative `copy_file` and `process_directory`, with the loop over the listing. They record events in a `Journal` object and are proved equal to the specification functions `CopyEvent` and `WalkEvents`. The lemmas prove four things:
  - the folder-naming rule;
  - the flattening of the directory structure;
  - one copy attempt per regular file;
  - the error containment of both `try` blocks.

The model follows the code as written:
- The program does not validate the order or the size passed to `koch_curve`. The order is therefore a `nat` (a negative order would never reach the base case), and the size is any real: a zero or negative size is drawn like any other.
- Turns are the code's `left(60)` and `right(120)` with integer degrees, not one signed "turn" command.
- A blank line is one that `str.strip()` empties. The whitespace set is the one Python's `str.isspace` uses: tab to carriage return, the information separators 0x1C-0x1F, space, 0x85, 0xA0 and the Unicode space and separator characters.

## Model

| member | source | states |
|---|---|---|
| `Koch.CurveLength` | koch_snowflake_drawer.py:4-15 | the commands of an order-n curve number exactly 2·4^n - 1 |
| `Koch.OrderZero` | koch_snowflake_drawer.py:5-6 | order 0 is exactly one `Forward(size)`, with no turn |
| `Koch.Decomposition` | koch_snowflake_drawer.py:8-15 | order n+1 is four order-n curves of size/3, separated by `Left(60)`, `Right(120)`, `Left(60)`, in that order |
| `Koch.OrderOneOfNinety` | koch_snowflake_drawer.py:8-15 | order 1 with size 90 is `Forward(30)`, `Left(60)`, `Forward(30)`, `Right(120)`, `Forward(30)`, `Left(60)`, `Forward(30)` |
| `Koch.ForwardCount` | koch_snowflake_drawer.py:9-15 | an order-n curve has exactly 4^n `Forward` commands |
| `Koch.TurnCount` | koch_snowflake_drawer.py:10-14 | an order-n curve has exactly 4^n - 1 turn commands |
| `Koch.NetTurnZero` | koch_snowflake_drawer.py:10-14 | the turns of a curve sum to 0 degrees: its heading at the end is the heading at the start |
| `Koch.StrokeLength` | koch_snowflake_drawer.py:8 | every `Forward` of an order-n curve of length L has distance exactly L / 3^n |
| `Koch.CurveAlphabet` | koch_snowflake_drawer.py:6-14 | a curve issues only `Forward`, `Left(60)` and `Right(120)`: no pen change and no jump |
| `Koch.StrokesAlternateWithTurns` | koch_snowflake_drawer.py:9-15 | a stroke sits at position i exactly when i is even, so a turn lies between every two consecutive strokes |
| `Koch.Setup` | koch_snowflake_drawer.py:29-31 | the setup is three commands, pen up first and pen down last, with no stroke and no turn |
| `Koch.Side` | koch_snowflake_drawer.py:35-37 | one side has 4^n strokes and 4^n turns, turns -120 degrees in all and ends with `Right(120)` |
| `Koch.Snowflake` | koch_snowflake_drawer.py:35-37 | the outline is three equal sides one after the other, 6·4^n commands in all |
| `Koch.DrawKochCurve` | koch_snowflake_drawer.py:4-15 | driving a turtle appends exactly `KochCurve(order, size)` to its trace |
| `Koch.StartOfDefaultSize` | koch_snowflake_drawer.py:29-31 | with the default size 300, the setup is pen up, go to (-150, 100), pen down |
| `Koch.SnowflakeCounts` | koch_snowflake_drawer.py:35-37 | three sides, each a curve plus `Right(120)`: 3·4^n strokes, 3·4^n turns, net turn -360 degrees |
| `Koch.TriangleAtOrderZero` | koch_snowflake_drawer.py:35-37 | at order 0 the snowflake is three strokes of the full size, each followed by `Right(120)` |
| `Koch.DrawKochSnowflake` | koch_snowflake_drawer.py:18-37 | a fresh turtle receives the setup and then the three sides in order; 3·4^n forwards and -360 degrees of net turn |
| `Koch.StripStart` | koch_snowflake_drawer.py:52 | removing leading whitespace leaves nothing exactly when the line is all whitespace, and otherwise leaves a line that starts with a non-whitespace character |
| `Koch.StripEnd` | koch_snowflake_drawer.py:52 | removing trailing whitespace leaves nothing exactly when the line is all whitespace |
| `Koch.IsBlank` | koch_snowflake_drawer.py:52 | `not line.strip()` holds exactly when every character of the line is whitespace |
| `Koch.SeparatorIsBlank` | koch_snowflake_drawer.py:52-54 | a line holding only the separator 0x1C is blank and draws with order 0 |
| `Koch.RunSession` | koch_snowflake_drawer.py:52-62 | a blank line draws with order 0 and gives the "defaulted to 0" notice. A non-blank line that parses to k >= 0 draws once with k. A parse failure or a negative value is reported and draws nothing. At most one drawing per run |
| `Koch.SessionExamples` | koch_snowflake_drawer.py:52-62 | "   " draws with 0, "2" draws with 2, "-5" and "abc" draw nothing |
| `FileSorter.Suffix` | file_sorter.py:22 | a suffix is empty, or it is a dot followed by at least one dot-free character, and it ends the name without being all of it |
| `FileSorter.Lower` | file_sorter.py:22 | lower-casing keeps the length, leaves no upper-case letter and fixes a string without one |
| `FileSorter.ExtensionFolder` | file_sorter.py:22 | the folder name is never empty, has no dot and has no upper-case letter |
| `FileSorter.FolderOfExtension` | file_sorter.py:22 | `stem.ext` (non-empty stem, non-empty dot-free ext) goes to folder `ext`, lower-cased |
| `FileSorter.FolderWithoutDot` | file_sorter.py:22 | a name without a dot goes to `no_extension` |
| `FileSorter.EdgeCasesHaveNoExtension` | file_sorter.py:22 | a dot-file (`.rest`) and a name ending in a dot go to `no_extension` |
| `FileSorter.FolderExample` | file_sorter.py:22 | `a.TXT` goes to folder `txt` |
| `FileSorter.TargetPath` | file_sorter.py:25-31 | the target is `output / folder / name`: two components below the output directory, with the name unchanged |
| `FileSorter.TargetExample` | file_sorter.py:22-31 | `source/test.txt` copied into `dist` goes to `dist/txt/test.txt` |
| `FileSorter.TargetIgnoresDirectory` | file_sorter.py:25-31 | two files with the same name get the same target, whatever directory they are in |
| `FileSorter.CopyEvent` | file_sorter.py:20-42 | a copy attempt for exactly the given file. It is a copy to `TargetPath` when the copy succeeds, and otherwise the report of the handler that caught it |
| `FileSorter.CopyFile` | file_sorter.py:16-42 | records exactly one event, the `CopyEvent` of the file |
| `FileSorter.WalkEvents` | file_sorter.py:54-70 | a node that is not a directory gives one "not a directory" report. A directory's walk never reports a missing source or a non-directory, and an interrupted listing's report comes last |
| `FileSorter.EntriesEvents` | file_sorter.py:59-65 | the reports of a listing never include a missing source or a non-directory; an empty listing reports nothing |
| `FileSorter.EntryEvents` | file_sorter.py:59-65 | a regular file gives exactly one copy attempt, for the path `dir / name`; an entry that is neither a file nor a directory gives nothing |
| `FileSorter.DirectoryEvents` | file_sorter.py:48-56 | "source does not exist" is reported exactly when the source is missing, and "not a directory" exactly when it exists but is not a directory |
| `FileSorter.WalkDirectory` | file_sorter.py:44-70 | the loop over the listing records exactly `WalkEvents`: the entries in listing order, then the report of an interrupted listing |
| `FileSorter.ProcessDirectory` | file_sorter.py:48-56 | records exactly `DirectoryEvents`: a missing source is reported, and an existing one is walked |
| `FileSorter.SortFiles` | file_sorter.py:75-83 | a run's reports. Every copy goes to `output / folder / name`. When the source is a directory, the copy attempts are exactly the regular files its listings yield, in order; when no listing fails, they are all its regular files |
| `FileSorter.BadSourceCopiesNothing` | file_sorter.py:50-56 | a source that does not exist, or is not a directory, gives one error report and no copy attempt |
| `FileSorter.EntriesAppend` | file_sorter.py:59-65 | splitting a listing in two splits the reports in the same place |
| `FileSorter.SiblingsHandledAfterEntry` | file_sorter.py:59-70 | whatever happens inside one entry, the entries after it are handled exactly as they would be on their own |
| `FileSorter.InterruptedListing` | file_sorter.py:59-70 | an interrupted listing handles the entries listed before the failure, then reports it; the entries it never listed play no part |
| `FileSorter.ListedFilesAttempted` | file_sorter.py:59-70 | for every directory, interrupted listings included, the copy attempts are exactly the regular files reachable through the entries the listings yielded, once each, in listing order |
| `FileSorter.CompleteListsEverything` | file_sorter.py:59-65 | when no listing is interrupted, the listings yield every regular file of the tree |
| `FileSorter.EveryFileAttemptedOnce` | file_sorter.py:59-65 | when no listing fails, the copy attempts are exactly the regular files of the tree, once each, in listing order |
| `FileSorter.OnlyTreeFilesAttempted` | file_sorter.py:59-65 | the copy attempts, even with interrupted listings, come from the tree's regular files, and no file is attempted more often than it occurs |
| `FileSorter.CopyFailuresContained` | file_sorter.py:37-42 | two trees that differ only in which copies fail produce reports that agree position by position: the same files are attempted and the same directory errors are reported |
| `FileSorter.AgreeingAttempts` | file_sorter.py:37-42 | reports that agree position by position attempt the same files in the same order |
| `FileSorter.CopiesFlattened` | file_sorter.py:59-65 | every copy of a file found anywhere below the source goes to `output / ExtensionFolder(name) / name`, and its source path lies inside the source directory |

## Left out

- The turtle window and its lifecycle (`Screen`, `bgcolor`, `title`, `tracer`, `hideturtle`, `update`, `mainloop`) are graphics-library glue. So are the progress messages printed around the drawing.
- Turtle geometry is not modelled: the positions and headings the turtle computes in floating point. Sizes are exact `real`s. Python's float division by 3.0 is treated as exact.
- `input()` and `int()` are not modelled. The result of `int(line)` is a parameter, `IntParse`, consulted only for a non-blank line. The model therefore does not say which strings `int` accepts (surrounding spaces, a sign, underscores).
- The KeyboardInterrupt handlers of both scripts are not modelled. Neither are `argparse` with its default output directory `dist`, or the banner lines printed by the sorter's `main`.
- The wording of every message is not modelled. Each report is an event tag, and the copy and listing reports carry the handler that caught the exception.
- The real filesystem calls (`exists`, `is_dir`, `is_file`, `iterdir`, `mkdir`, `shutil.copy2`) are replaced by the tree. Which exception a copy or a listing raises, and where a listing stops, are data in the tree. Races between the checks and the operations are out of scope.
- FileSorter.Suffix: restates the `pathlib` rule of Python 3.13 and earlier (the last dot, when it is neither the first nor the last character) rather than the standard library itself. Python 3.14's `pathlib` counts a single trailing dot as the suffix `.`. Under it, `notes.` gets the empty extension and is copied into the output directory itself, which this model (and `EdgeCasesHaveNoExtension`) does not describe.
- FileSorter.Lower: ASCII-only lower-casing. Python's `str.lower` also maps non-ASCII letters.
- FileSorter.CopyFile: does not record whether `mkdir` created the folder before a failing `copy2`. Folder creation is not an event.
- Overwriting is not modelled: what ends up on disk when two files map to the same target. The reports keep every copy in order, so with `copy2`'s semantics the later copy of the two is the one that remains. This depends on `copy2` and is not proved here.
