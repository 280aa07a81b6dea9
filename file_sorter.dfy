/**
 Model of the extension-based file sorter.

 The source directory is an abstract tree of `Node`s; the filesystem
 operations (`exists`, `is_dir`, `iterdir`, `mkdir`, `copy2`) are replaced by
 what that tree says: which entries a directory lists, whether the listing
 fails part-way, and whether copying a file fails and with which exception.
 What the program does is recorded as a sequence of `Event`s: one per copy
 attempt (successful or reported) and one per reported directory error.
 */
module FileSorter {

  datatype Option<T> = None | Some(value: T)

  /** A path as its list of components: `p / x` is `p + [x]`. */
  type Path = seq<string>

  /** The last component of a path (`Path.name`); the empty path has the empty name. */
  function Name(p: Path): string
  {
    if p == [] then "" else p[|p| - 1]
  }

  // ---------------------------------------------------------------------
  // Folder names
  // ---------------------------------------------------------------------

  /** The index of the last `c` in `s`, or -1 when there is none (`str.rfind`). */
  function LastIndexOf(s: string, c: char): (r: int)
    ensures -1 <= r < |s|
    ensures r == -1 <==> c !in s
    ensures r >= 0 ==> s[r] == c && c !in s[r + 1..]
  {
    if s == [] then -1
    else if s[|s| - 1] == c then |s| - 1
    else
      assert s == s[..|s| - 1] + [s[|s| - 1]];
      LastIndexOf(s[..|s| - 1], c)
  }

  /**
   The suffix of a file name: from its last dot to the end, provided that dot
   is neither the first nor the last character; otherwise empty. This is the
   rule the program relies on from `pathlib`, restated here.
   */
  function Suffix(name: string): (r: string)
    ensures r == "" || (|r| >= 2 && r[0] == '.' && '.' !in r[1..])
    ensures r != "" ==> |r| < |name| && name[|name| - |r|..] == r
  {
    var i := LastIndexOf(name, '.');
    if 0 < i < |name| - 1 then name[i..] else ""
  }

  predicate IsUpper(c: char)
  {
    'A' <= c <= 'Z'
  }

  /** ASCII lower-casing of one character. */
  function LowerChar(c: char): (r: char)
    ensures !IsUpper(r)
    ensures !IsUpper(c) ==> r == c
  {
    if IsUpper(c) then (c as int + 32) as char else c
  }

  /** ASCII lower-casing of a string, character by character. */
  function Lower(s: string): (r: string)
    ensures |r| == |s|
    ensures forall i :: 0 <= i < |r| ==> !IsUpper(r[i])
    ensures (forall i :: 0 <= i < |s| ==> !IsUpper(s[i])) ==> r == s
  {
    seq(|s|, i requires 0 <= i < |s| => LowerChar(s[i]))
  }

  /**
   The name of the folder a file goes to: its suffix without the dot,
   lower-cased, or "no_extension" when the suffix is empty. The folder is
   always a single non-empty component without a dot or an upper-case letter.
   */
  function ExtensionFolder(name: string): (folder: string)
    ensures folder != [] && '.' !in folder
    ensures forall i :: 0 <= i < |folder| ==> !IsUpper(folder[i])
  {
    var suffix := Suffix(name);
    if suffix != "" then
      LowerKeepsDots(suffix[1..]);
      Lower(suffix[1..])
    else
      NoExtensionIsLower();
      "no_extension"
  }

  /** Lower-casing neither adds nor removes a dot. */
  lemma LowerKeepsDots(s: string)
    ensures '.' in Lower(s) <==> '.' in s
  {
    var r := Lower(s);
    if '.' in s {
      var i :| 0 <= i < |s| && s[i] == '.';
      assert r[i] == '.';
    }
    if '.' in r {
      var i :| 0 <= i < |r| && r[i] == '.';
      assert s[i] == '.';
    }
  }

  lemma NoExtensionIsLower()
    ensures '.' !in "no_extension"
    ensures forall i :: 0 <= i < |"no_extension"| ==> !IsUpper("no_extension"[i])
  {
  }

  /** A name `stem.ext` with a non-empty stem and a dot-free, non-empty `ext` goes to folder `ext`, lower-cased. */
  lemma FolderOfExtension(stem: string, ext: string)
    requires stem != "" && ext != "" && '.' !in ext
    ensures ExtensionFolder(stem + "." + ext) == Lower(ext)
  {
    var name := stem + "." + ext;
    var i := LastIndexOf(name, '.');
    assert name[|stem|] == '.';
    assert name[|stem| + 1..] == ext;
    assert i == |stem|;
    assert Suffix(name) == "." + ext;
    assert Suffix(name)[1..] == ext;
  }

  /** A name without any dot goes to "no_extension". */
  lemma FolderWithoutDot(name: string)
    requires '.' !in name
    ensures ExtensionFolder(name) == "no_extension"
  {
  }

  /** The target of the copy the test suite checks: `source/test.txt` into `dist` goes to `dist/txt/test.txt`. */
  lemma TargetExample()
    ensures TargetPath(["dist"], ["source", "test.txt"]) == ["dist", "txt", "test.txt"]
  {
    FolderOfExtension("test", "txt");
    assert "test" + "." + "txt" == "test.txt";
    assert Lower("txt") == "txt";
  }

  /** The extension is lower-cased: `a.TXT` goes to `txt`. */
  lemma FolderExample()
    ensures ExtensionFolder("a.TXT") == "txt"
  {
    FolderOfExtension("a", "TXT");
    assert "a" + "." + "TXT" == "a.TXT";
    assert Lower("TXT") == "txt";
  }

  /** A dot-file such as `.bashrc` and a name ending in a dot such as `notes.` have no extension. */
  lemma EdgeCasesHaveNoExtension(stem: string, rest: string)
    requires '.' !in rest
    ensures ExtensionFolder("." + rest) == "no_extension"
    ensures ExtensionFolder(stem + ".") == "no_extension"
  {
    var hidden := "." + rest;
    assert hidden[1..] == rest;
    assert LastIndexOf(hidden, '.') == 0;
    var trailing := stem + ".";
    assert trailing[|trailing| - 1] == '.';
    assert LastIndexOf(trailing, '.') == |trailing| - 1;
  }

  /**
   Where `copy_file` puts a file: `output / folder / name`. The name is kept
   as it is, upper case included, and nothing of the file's own directory
   appears in the target.
   */
  function TargetPath(output: Path, file: Path): (target: Path)
    ensures |target| == |output| + 2 && target[..|output|] == output
    ensures target[|output|] == ExtensionFolder(Name(file))
    ensures Name(target) == Name(file)
  {
    output + [ExtensionFolder(Name(file)), Name(file)]
  }

  /** Files with the same name get the same target, however deep they sit. */
  lemma TargetIgnoresDirectory(output: Path, dirA: Path, dirB: Path, name: string)
    ensures TargetPath(output, dirA + [name]) == TargetPath(output, dirB + [name])
  {
  }

  // ---------------------------------------------------------------------
  // The source tree and what the program reports
  // ---------------------------------------------------------------------

  /** The exception `copy_file` catches, by handler. */
  datatype CopyFault = PermissionDenied | OSFailure | UnexpectedFailure

  /** What `mkdir` plus `copy2` does for one file. */
  datatype CopyResult = Copies | Fails(fault: CopyFault)

  /** The exception `process_directory` catches while listing, by handler. */
  datatype ListFault = ListPermissionDenied | ListOSFailure

  /** A listing that raises after its listed entries; `unlisted` are the entries it never yields. */
  datatype Interruption = Interruption(fault: ListFault, unlisted: seq<Node>)

  /** An entry of the source tree. `Other` is anything that is neither a regular file nor a directory. */
  datatype Node =
    | File(name: string, result: CopyResult)
    | Dir(name: string, listed: seq<Node>, interruption: Option<Interruption>)
    | Other(name: string)

  /** What the program does observably: a copy, or an error message of a given kind. */
  datatype Event =
    | Copied(source: Path, target: Path)
    | CopyFailed(source: Path, fault: CopyFault)
    | ListingFailed(directory: Path, listFault: ListFault)
    | SourceMissing(directory: Path)
    | NotADirectory(directory: Path)

  predicate IsCopyAttempt(e: Event)
  {
    e.Copied? || e.CopyFailed?
  }

  /** `copy_file(file, output)`: a copy to the target path, or the report of the caught exception. */
  function CopyEvent(file: Path, result: CopyResult, output: Path): (e: Event)
    ensures IsCopyAttempt(e) && e.source == file
    ensures e.Copied? <==> result.Copies?
    ensures e.Copied? ==> e.target == TargetPath(output, file)
    ensures e.CopyFailed? ==> e.fault == result.fault
  {
    match result
    case Copies => Copied(file, TargetPath(output, file))
    case Fails(fault) => CopyFailed(file, fault)
  }

  /**
   `process_directory(dir, output)` on a path that exists and is the node
   `n`: the entries of a directory in listing order, then the report of an
   interrupted listing; anything else is reported as not a directory.
   */
  function WalkEvents(dir: Path, n: Node, output: Path): (r: seq<Event>)
    ensures !n.Dir? ==> r == [NotADirectory(dir)]
    ensures n.Dir? ==> forall e :: e in r ==> !e.SourceMissing? && !e.NotADirectory?
    ensures n.Dir? && n.interruption.Some? ==>
      r != [] && r[|r| - 1] == ListingFailed(dir, n.interruption.value.fault)
    decreases n, 0
  {
    match n
    case Dir(_, listed, interruption) =>
      EntriesEvents(dir, listed, output)
        + (if interruption.Some? then [ListingFailed(dir, interruption.value.fault)] else [])
    case _ => [NotADirectory(dir)]
  }

  /** The loop body for each listed entry of `dir`. */
  function EntriesEvents(dir: Path, entries: seq<Node>, output: Path): (r: seq<Event>)
    ensures forall e :: e in r ==> !e.SourceMissing? && !e.NotADirectory?
    ensures entries == [] ==> r == []
    decreases entries
  {
    if entries == [] then []
    else EntryEvents(dir, entries[0], output) + EntriesEvents(dir, entries[1..], output)
  }

  /**
   One entry `dir / n.name`: a directory is walked recursively (its own
   existence and directory checks pass), a regular file is copied, anything
   else is skipped.
   */
  function EntryEvents(dir: Path, n: Node, output: Path): (r: seq<Event>)
    ensures forall e :: e in r ==> !e.SourceMissing? && !e.NotADirectory?
    ensures n.File? ==> |r| == 1 && IsCopyAttempt(r[0]) && r[0].source == dir + [n.name]
    ensures n.Other? ==> r == []
    decreases n, 1
  {
    match n
    case Dir(name, _, _) => WalkEvents(dir + [name], n, output)
    case File(name, result) => [CopyEvent(dir + [name], result, output)]
    case Other(_) => []
  }

  /** `process_directory` at the top: a path that does not exist (`None`) is reported and nothing else happens. */
  function DirectoryEvents(dir: Path, source: Option<Node>, output: Path): (r: seq<Event>)
    ensures SourceMissing(dir) in r <==> source.None?
    ensures NotADirectory(dir) in r <==> source.Some? && !source.value.Dir?
  {
    match source
    case None => [SourceMissing(dir)]
    case Some(n) => WalkEvents(dir, n, output)
  }

  // ---------------------------------------------------------------------
  // Reference views of the tree and of the reports
  // ---------------------------------------------------------------------

  /** The sources of the copy attempts, in order. */
  function Attempts(events: seq<Event>): seq<Path>
  {
    if events == [] then []
    else (if IsCopyAttempt(events[0]) then [events[0].source] else []) + Attempts(events[1..])
  }

  /** Every regular file of the tree rooted at `p`, listed or not. */
  function FilesAt(p: Path, n: Node): seq<Path>
    decreases n
  {
    match n
    case File(_, _) => [p]
    case Dir(_, listed, interruption) =>
      FilesIn(p, listed) + (if interruption.Some? then FilesIn(p, interruption.value.unlisted) else [])
    case Other(_) => []
  }

  function FilesIn(p: Path, entries: seq<Node>): seq<Path>
    decreases entries
  {
    if entries == [] then []
    else FilesAt(p + [entries[0].name], entries[0]) + FilesIn(p, entries[1..])
  }

  /** The regular files reachable through the entries the listings actually yield. */
  function ListedAt(p: Path, n: Node): seq<Path>
    decreases n
  {
    match n
    case File(_, _) => [p]
    case Dir(_, listed, _) => ListedIn(p, listed)
    case Other(_) => []
  }

  function ListedIn(p: Path, entries: seq<Node>): seq<Path>
    decreases entries
  {
    if entries == [] then []
    else ListedAt(p + [entries[0].name], entries[0]) + ListedIn(p, entries[1..])
  }

  /** No listing anywhere in the tree is interrupted. */
  predicate Complete(n: Node)
    decreases n
  {
    match n
    case Dir(_, listed, interruption) => interruption.None? && CompleteAll(listed)
    case _ => true
  }

  predicate CompleteAll(entries: seq<Node>)
    decreases entries
  {
    entries == [] || (Complete(entries[0]) && CompleteAll(entries[1..]))
  }

  /** Two trees that differ at most in the copy results of their files (and in entries never listed). */
  predicate SameShape(a: Node, b: Node)
    decreases a
  {
    match a
    case File(name, _) => b.File? && b.name == name
    case Other(name) => b.Other? && b.name == name
    case Dir(name, listed, interruption) =>
      && b.Dir? && b.name == name && SameShapeAll(listed, b.listed)
      && (interruption.None? <==> b.interruption.None?)
      && (interruption.Some? ==> interruption.value.fault == b.interruption.value.fault)
  }

  predicate SameShapeAll(as_: seq<Node>, bs: seq<Node>)
    decreases as_
  {
    |as_| == |bs| && (as_ == [] || (SameShape(as_[0], bs[0]) && SameShapeAll(as_[1..], bs[1..])))
  }

  /** Two reports that are equal, or are both copy attempts for the same file. */
  predicate Agree(e: Event, f: Event)
  {
    e == f || (IsCopyAttempt(e) && IsCopyAttempt(f) && e.source == f.source)
  }

  /** Two report sequences that agree position by position. */
  predicate AgreeAll(es: seq<Event>, fs: seq<Event>)
  {
    |es| == |fs| && forall i :: 0 <= i < |es| ==> Agree(es[i], fs[i])
  }

  // ---------------------------------------------------------------------
  // Properties of the walk
  // ---------------------------------------------------------------------

  lemma {:induction false} AttemptsAppend(a: seq<Event>, b: seq<Event>)
    ensures Attempts(a + b) == Attempts(a) + Attempts(b)
  {
    if a == [] {
      assert a + b == b;
    } else {
      assert (a + b)[1..] == a[1..] + b;
      AttemptsAppend(a[1..], b);
    }
  }

  /** The entries of a directory are handled one after the other: a split of the listing splits the reports. */
  lemma {:induction false} EntriesAppend(dir: Path, a: seq<Node>, b: seq<Node>, output: Path)
    ensures EntriesEvents(dir, a + b, output) == EntriesEvents(dir, a, output) + EntriesEvents(dir, b, output)
  {
    if a == [] {
      assert a + b == b;
    } else {
      assert (a + b)[0] == a[0];
      assert (a + b)[1..] == a[1..] + b;
      EntriesAppend(dir, a[1..], b, output);
    }
  }

  /**
   Whatever happens inside entry `c` (a failed copy, an interrupted listing
   deep below it), the entries after it are still handled, exactly as they
   would be on their own.
   */
  lemma SiblingsHandledAfterEntry(dir: Path, before: seq<Node>, c: Node, after: seq<Node>, output: Path)
    ensures EntriesEvents(dir, before + [c] + after, output)
      == EntriesEvents(dir, before, output) + EntryEvents(dir, c, output) + EntriesEvents(dir, after, output)
  {
    EntriesAppend(dir, before + [c], after, output);
    EntriesAppend(dir, before, [c], output);
    SingleEntry(dir, c, output);
  }

  /**
   An interrupted listing handles the entries listed before the failure, then
   reports the failure, and never touches the entries it did not list.
   */
  lemma InterruptedListing(dir: Path, name: string, listed: seq<Node>, fault: ListFault,
                           unlisted: seq<Node>, other: seq<Node>, output: Path)
    ensures WalkEvents(dir, Dir(name, listed, Some(Interruption(fault, unlisted))), output)
      == EntriesEvents(dir, listed, output) + [ListingFailed(dir, fault)]
    ensures WalkEvents(dir, Dir(name, listed, Some(Interruption(fault, unlisted))), output)
      == WalkEvents(dir, Dir(name, listed, Some(Interruption(fault, other))), output)
  {
  }

  /** A source that does not exist or is not a directory is reported once and nothing is copied. */
  lemma BadSourceCopiesNothing(dir: Path, source: Option<Node>, output: Path)
    requires source.None? || !source.value.Dir?
    ensures DirectoryEvents(dir, source, output)
      == if source.None? then [SourceMissing(dir)] else [NotADirectory(dir)]
    ensures Attempts(DirectoryEvents(dir, source, output)) == []
  {
  }

  /**
   Interrupted listings included, the copy attempts of a walk are exactly the
   regular files its listings yield, each once, in listing order.
   */
  lemma {:induction false} ListedFilesAttempted(dir: Path, n: Node, output: Path)
    requires n.Dir?
    ensures Attempts(WalkEvents(dir, n, output)) == ListedAt(dir, n)
    decreases n, 0
  {
    ListedEntriesAttempted(dir, n.listed, output);
    var tail := if n.interruption.Some? then [ListingFailed(dir, n.interruption.value.fault)] else [];
    AttemptsAppend(EntriesEvents(dir, n.listed, output), tail);
    assert Attempts(tail) == [] by {
      if n.interruption.Some? { assert Attempts(tail) == [] + Attempts([]); }
    }
  }

  lemma {:induction false} ListedEntriesAttempted(dir: Path, entries: seq<Node>, output: Path)
    ensures Attempts(EntriesEvents(dir, entries, output)) == ListedIn(dir, entries)
    decreases entries
  {
    if entries != [] {
      var c := entries[0];
      match c {
        case Dir(name, _, _) => ListedFilesAttempted(dir + [name], c, output);
        case File(name, _) =>
          var e := CopyEvent(dir + [name], c.result, output);
          assert Attempts([e]) == [e.source] + Attempts([]);
        case Other(_) =>
      }
      ListedEntriesAttempted(dir, entries[1..], output);
      AttemptsAppend(EntryEvents(dir, c, output), EntriesEvents(dir, entries[1..], output));
    }
  }

  /** When no listing is interrupted, the listings yield every regular file of the tree. */
  lemma {:induction false} CompleteListsEverything(p: Path, n: Node)
    requires Complete(n)
    ensures ListedAt(p, n) == FilesAt(p, n)
    decreases n, 0
  {
    match n
    case Dir(_, listed, _) =>
      CompleteListsEverythingIn(p, listed);
      assert FilesIn(p, listed) + [] == FilesIn(p, listed);
    case _ =>
  }

  lemma {:induction false} CompleteListsEverythingIn(p: Path, entries: seq<Node>)
    requires CompleteAll(entries)
    ensures ListedIn(p, entries) == FilesIn(p, entries)
    decreases entries
  {
    if entries != [] {
      CompleteListsEverything(p + [entries[0].name], entries[0]);
      CompleteListsEverythingIn(p, entries[1..]);
    }
  }

  /** In a tree whose listings all succeed, every regular file is attempted exactly once, in listing order. */
  lemma EveryFileAttemptedOnce(dir: Path, n: Node, output: Path)
    requires n.Dir? && Complete(n)
    ensures Attempts(WalkEvents(dir, n, output)) == FilesAt(dir, n)
  {
    ListedFilesAttempted(dir, n, output);
    CompleteListsEverything(dir, n);
  }

  /** Even with interrupted listings, only files of the tree are attempted, none more often than it occurs. */
  lemma {:induction false} OnlyTreeFilesAttempted(dir: Path, n: Node, output: Path)
    ensures multiset(Attempts(WalkEvents(dir, n, output))) <= multiset(FilesAt(dir, n))
    decreases n, 0
  {
    match n
    case Dir(_, listed, interruption) =>
      EntriesAttemptedAtMost(dir, listed, output);
      var tail := if interruption.Some? then [ListingFailed(dir, interruption.value.fault)] else [];
      AttemptsAppend(EntriesEvents(dir, listed, output), tail);
      assert Attempts(tail) == [] by {
        if interruption.Some? { assert Attempts(tail) == [] + Attempts([]); }
      }
    case File(_, _) =>
      assert Attempts([NotADirectory(dir)]) == [] + Attempts([]);
    case Other(_) =>
      assert Attempts([NotADirectory(dir)]) == [] + Attempts([]);
  }

  lemma {:induction false} EntriesAttemptedAtMost(dir: Path, entries: seq<Node>, output: Path)
    ensures multiset(Attempts(EntriesEvents(dir, entries, output))) <= multiset(FilesIn(dir, entries))
    decreases entries
  {
    if entries != [] {
      var c := entries[0];
      match c {
        case Dir(name, _, _) => OnlyTreeFilesAttempted(dir + [name], c, output);
        case File(name, _) =>
          var e := CopyEvent(dir + [name], c.result, output);
          assert Attempts([e]) == [e.source] + Attempts([]);
        case Other(_) =>
      }
      EntriesAttemptedAtMost(dir, entries[1..], output);
      AttemptsAppend(EntryEvents(dir, c, output), EntriesEvents(dir, entries[1..], output));
    }
  }

  /**
   A failed copy does not stop the walk: two trees that differ only in which
   copies fail produce reports that agree position by position, so the same
   files are attempted in the same order and every directory error is the same.
   */
  lemma {:induction false} CopyFailuresContained(dir: Path, a: Node, b: Node, output: Path)
    requires SameShape(a, b)
    ensures AgreeAll(WalkEvents(dir, a, output), WalkEvents(dir, b, output))
    decreases a, 0
  {
    match a
    case Dir(_, listed, interruption) =>
      EntriesFailuresContained(dir, listed, b.listed, output);
      var ta := if interruption.Some? then [ListingFailed(dir, interruption.value.fault)] else [];
      var tb := if b.interruption.Some? then [ListingFailed(dir, b.interruption.value.fault)] else [];
      assert ta == tb;
      AgreeAppend(EntriesEvents(dir, listed, output), ta, EntriesEvents(dir, b.listed, output), tb);
    case _ =>
  }

  lemma {:induction false} EntriesFailuresContained(dir: Path, as_: seq<Node>, bs: seq<Node>, output: Path)
    requires SameShapeAll(as_, bs)
    ensures AgreeAll(EntriesEvents(dir, as_, output), EntriesEvents(dir, bs, output))
    decreases as_
  {
    if as_ != [] {
      var a, b := as_[0], bs[0];
      if a.Dir? {
        CopyFailuresContained(dir + [a.name], a, b, output);
      }
      EntriesFailuresContained(dir, as_[1..], bs[1..], output);
      AgreeAppend(EntryEvents(dir, a, output), EntriesEvents(dir, as_[1..], output),
                  EntryEvents(dir, b, output), EntriesEvents(dir, bs[1..], output));
    }
  }

  lemma AgreeAppend(a: seq<Event>, b: seq<Event>, c: seq<Event>, d: seq<Event>)
    requires AgreeAll(a, c) && AgreeAll(b, d)
    ensures AgreeAll(a + b, c + d)
  {
    forall i | 0 <= i < |a + b|
      ensures Agree((a + b)[i], (c + d)[i])
    {
      if i < |a| {
        assert (a + b)[i] == a[i] && (c + d)[i] == c[i];
      } else {
        assert (a + b)[i] == b[i - |a|] && (c + d)[i] == d[i - |a|];
      }
    }
  }

  /** Agreeing reports attempt the same files in the same order. */
  lemma {:induction false} AgreeingAttempts(es: seq<Event>, fs: seq<Event>)
    requires AgreeAll(es, fs)
    ensures Attempts(es) == Attempts(fs)
  {
    if es != [] {
      assert Agree(es[0], fs[0]);
      assert AgreeAll(es[1..], fs[1..]) by {
        forall i | 0 <= i < |es[1..]| ensures Agree(es[1..][i], fs[1..][i]) {
          assert Agree(es[i + 1], fs[i + 1]);
        }
      }
      AgreeingAttempts(es[1..], fs[1..]);
    }
  }

  /** Every path a report names lies inside `dir`. */
  predicate Inside(dir: Path, p: Path)
  {
    |p| > |dir| && p[..|dir|] == dir
  }

  /**
   The directory structure is flattened: every copy of a file found anywhere
   below `dir` goes to `output / folder / name`, two components below the
   output directory, decided by the file's name alone.
   */
  lemma {:induction false} CopiesFlattened(dir: Path, n: Node, output: Path)
    ensures forall e :: e in WalkEvents(dir, n, output) && e.Copied? ==>
      && e.target == output + [ExtensionFolder(Name(e.source)), Name(e.source)]
      && Inside(dir, e.source)
    decreases n, 0
  {
    match n
    case Dir(_, listed, _) => EntriesFlattened(dir, listed, output);
    case _ =>
  }

  lemma {:induction false} EntriesFlattened(dir: Path, entries: seq<Node>, output: Path)
    ensures forall e :: e in EntriesEvents(dir, entries, output) && e.Copied? ==>
      && e.target == output + [ExtensionFolder(Name(e.source)), Name(e.source)]
      && Inside(dir, e.source)
    decreases entries
  {
    if entries != [] {
      var c := entries[0];
      match c {
        case Dir(name, _, _) =>
          CopiesFlattened(dir + [name], c, output);
          forall e | e in EntryEvents(dir, c, output) && e.Copied?
            ensures Inside(dir, e.source)
          {
            assert Inside(dir + [name], e.source);
            assert e.source[..|dir|] == (dir + [name])[..|dir|];
          }
        case File(name, _) =>
          assert (dir + [name])[..|dir|] == dir;
        case Other(_) =>
      }
      EntriesFlattened(dir, entries[1..], output);
    }
  }

  // ---------------------------------------------------------------------
  // The program
  // ---------------------------------------------------------------------

  /** Everything the program prints and copies, in order. */
  class Journal {
    var events: seq<Event>

    constructor ()
      ensures events == []
    {
      events := [];
    }

    method Record(e: Event)
      modifies this
      ensures events == old(events) + [e]
    {
      events := events + [e];
    }
  }

  /** A listing of one entry reports what that entry reports. */
  lemma SingleEntry(dir: Path, c: Node, output: Path)
    ensures EntriesEvents(dir, [c], output) == EntryEvents(dir, c, output)
  {
    assert [c][1..] == [];
    assert EntryEvents(dir, c, output) + [] == EntryEvents(dir, c, output);
  }

  /** One more step of the listing loop handles one more entry. */
  lemma NextEntry(dir: Path, entries: seq<Node>, i: nat, output: Path)
    requires i < |entries|
    ensures EntriesEvents(dir, entries[..i + 1], output)
      == EntriesEvents(dir, entries[..i], output) + EntryEvents(dir, entries[i], output)
  {
    var c := entries[i];
    EntriesAppend(dir, entries[..i], [c], output);
    assert entries[..i + 1] == entries[..i] + [c];
    SingleEntry(dir, c, output);
  }

  /** `copy_file(file, output)`: builds the target path, then copies or reports the caught exception. */
  method CopyFile(j: Journal, file: Path, result: CopyResult, output: Path)
    modifies j
    ensures j.events == old(j.events) + [CopyEvent(file, result, output)]
  {
    var folder := ExtensionFolder(Name(file));
    var targetFolder := output + [folder];
    var target := targetFolder + [Name(file)];
    assert target == TargetPath(output, file);
    match result
    case Copies => j.Record(Copied(file, target));
    case Fails(fault) => j.Record(CopyFailed(file, fault));
  }

  /**
   `process_directory(dir, output)` on an existing path: the directory check,
   then the loop over the listed entries, then the report of an interrupted
   listing.
   */
  method WalkDirectory(j: Journal, dir: Path, n: Node, output: Path)
    modifies j
    ensures j.events == old(j.events) + WalkEvents(dir, n, output)
    decreases n
  {
    if !n.Dir? {
      j.Record(NotADirectory(dir));
      return;
    }
    for i := 0 to |n.listed|
      invariant j.events == old(j.events) + EntriesEvents(dir, n.listed[..i], output)
    {
      var item := n.listed[i];
      NextEntry(dir, n.listed, i, output);
      match item
      case Dir(name, _, _) => WalkDirectory(j, dir + [name], item, output);
      case File(name, result) => CopyFile(j, dir + [name], result, output);
      case Other(_) =>
    }
    assert n.listed[..|n.listed|] == n.listed;
    if n.interruption.Some? {
      j.Record(ListingFailed(dir, n.interruption.value.fault));
    }
  }

  /** `process_directory(dir, output)` at the top, with its existence check. */
  method ProcessDirectory(j: Journal, dir: Path, source: Option<Node>, output: Path)
    modifies j
    ensures j.events == old(j.events) + DirectoryEvents(dir, source, output)
  {
    match source
    case None => j.Record(SourceMissing(dir));
    case Some(n) => WalkDirectory(j, dir, n, output);
  }

  /**
   One run of the sorter from `source` to `output`: the reports it produces,
   with every copy flattened to `output / folder / name` and, when the source
   is a directory, one attempt per regular file its listings yield (every
   regular file of the tree when no listing fails).
   */
  method SortFiles(dir: Path, source: Option<Node>, output: Path) returns (events: seq<Event>)
    ensures events == DirectoryEvents(dir, source, output)
    ensures forall e :: e in events && e.Copied? ==>
      e.target == output + [ExtensionFolder(Name(e.source)), Name(e.source)]
    ensures source.Some? && source.value.Dir? ==>
      Attempts(events) == ListedAt(dir, source.value)
    ensures source.Some? && source.value.Dir? && Complete(source.value) ==>
      Attempts(events) == FilesAt(dir, source.value)
  {
    var j := new Journal();
    ProcessDirectory(j, dir, source, output);
    events := j.events;
    if source.Some? {
      CopiesFlattened(dir, source.value, output);
      if source.value.Dir? {
        ListedFilesAttempted(dir, source.value, output);
        if Complete(source.value) {
          EveryFileAttemptedOnce(dir, source.value, output);
        }
      }
    }
  }
}
