/**
 * The naming and log-classification rules of the native build script
 * (Scripts/build-rive/build-rive.py): which libraries copy_files selects and
 * what it names them, which tool-output lines execute_command treats as
 * errors, and how iOS simulator archives are renamed to `.sim.a`.
 * Directory walking, copying and the child process itself are not modelled:
 * directory listings, the existence of the source directory, the host
 * platform and the lines the child process prints are parameters.
 */
module BuildRive {
  import opened Wrappers
  import opened AsciiText

  // ---------------------------------------------------------------------
  // copy_files: selection

  /** The names of an explicit list with the extension appended, in list order. */
  function WithExtension(names: seq<string>, extension: string): (r: seq<string>)
    ensures |r| == |names|
    ensures forall i :: 0 <= i < |names| ==> r[i] == names[i] + extension
  {
    if names == [] then [] else [names[0] + extension] + WithExtension(names[1..], extension)
  }

  /** The directory entries that end in the extension, in listing order. */
  function EndingWith(listing: seq<string>, extension: string): (r: seq<string>)
    ensures forall x :: x in r ==> EndsWith(x, extension)
    ensures forall x :: multiset(r)[x] == if EndsWith(x, extension) then multiset(listing)[x] else 0
  {
    if listing == [] then []
    else
      var rest := EndingWith(listing[1..], extension);
      assert listing == [listing[0]] + listing[1..];
      if EndsWith(listing[0], extension) then [listing[0]] + rest else rest
  }

  /** The file names copy_files walks over: the explicit list when one is given, otherwise the listing filtered by extension. */
  function Selection(listing: seq<string>, extension: string, filesToCopy: Option<seq<string>>): seq<string>
  {
    match filesToCopy
    case Some(names) => WithExtension(names, extension)
    case None => EndingWith(listing, extension)
  }

  // ---------------------------------------------------------------------
  // copy_files: destination names

  /** Whether a library gets the "rive_" prefix. */
  predicate NeedsRivePrefix(hostIsDarwin: bool, fileName: string, dst: string, shouldRename: bool)
  {
    !hostIsDarwin && !StartsWith(fileName, "rive") && !Contains(dst, "Android") && shouldRename
  }

  /**
   * Python's str.replace: every non-overlapping occurrence of `pattern`, scanning
   * left to right, becomes `replacement`; an empty pattern inserts the replacement
   * before every character and at the end.
   */
  function ReplaceAll(s: string, pattern: string, replacement: string): string
    decreases |s|
  {
    if pattern == [] then
      if s == [] then replacement else replacement + [s[0]] + ReplaceAll(s[1..], pattern, replacement)
    else if |s| < |pattern| then s
    else if s[..|pattern|] == pattern then replacement + ReplaceAll(s[|pattern|..], pattern, replacement)
    else [s[0]] + ReplaceAll(s[1..], pattern, replacement)
  }

  /** The name a selected file gets in the destination directory. */
  function DestinationName(fileName: string, dst: string, extension: string, isRelease: bool, shouldRename: bool, hostIsDarwin: bool): string
  {
    var named := if NeedsRivePrefix(hostIsDarwin, fileName, dst, shouldRename) then "rive_" + fileName else fileName;
    if isRelease then named else ReplaceAll(named, extension, "_d" + extension)
  }

  datatype CopiedFile = CopiedFile(source: string, destination: string)

  /**
   * How copy_files ends: the source directory is missing (nothing is
   * copied); every selected file is copied; or shutil.copy2 raises
   * FileNotFoundError for `name`, after the copies made before it.
   */
  datatype CopyOutcome =
    | NoSource
    | Copied(copies: seq<CopiedFile>)
    | Missing(copies: seq<CopiedFile>, name: string)

  /** The copy copy_files makes of a selected name. */
  function CopyOf(fileName: string, dst: string, extension: string, isRelease: bool, shouldRename: bool, hostIsDarwin: bool): CopiedFile
  {
    CopiedFile(fileName, DestinationName(fileName, dst, extension, isRelease, shouldRename, hostIsDarwin))
  }

  /**
   * copy_files: when the source directory exists, one copy per selected name,
   * in selection order, until a selected name is not in the source directory's
   * listing, where the copy raises. `listing` is os.listdir of the source.
   */
  method CopyFiles(srcExists: bool, listing: seq<string>, dst: string, extension: string, isRelease: bool,
                   shouldRename: bool, filesToCopy: Option<seq<string>>, hostIsDarwin: bool)
    returns (outcome: CopyOutcome)
    ensures outcome.NoSource? <==> !srcExists
    ensures outcome.Copied? <==> srcExists && forall i :: 0 <= i < |Selection(listing, extension, filesToCopy)| ==>
                                               Selection(listing, extension, filesToCopy)[i] in listing
    ensures !outcome.NoSource? ==>
      var selected := Selection(listing, extension, filesToCopy);
      && |outcome.copies| <= |selected|
      && (forall i :: 0 <= i < |outcome.copies| ==>
            selected[i] in listing &&
            outcome.copies[i] == CopyOf(selected[i], dst, extension, isRelease, shouldRename, hostIsDarwin))
      && (outcome.Copied? ==> |outcome.copies| == |selected|)
      && (outcome.Missing? ==>
            |outcome.copies| < |selected| && outcome.name == selected[|outcome.copies|] && outcome.name !in listing)
  {
    if !srcExists {
      return NoSource;
    }
    var selected := Selection(listing, extension, filesToCopy);
    var done: seq<CopiedFile> := [];
    var k := 0;
    while k < |selected|
      invariant 0 <= k <= |selected|
      invariant |done| == k
      invariant forall i :: 0 <= i < k ==>
        selected[i] in listing && done[i] == CopyOf(selected[i], dst, extension, isRelease, shouldRename, hostIsDarwin)
    {
      var fileName := selected[k];
      var sourceName := fileName;
      if NeedsRivePrefix(hostIsDarwin, fileName, dst, shouldRename) {
        fileName := "rive_" + fileName;
      }
      var destName := if isRelease then fileName else ReplaceAll(fileName, extension, "_d" + extension);
      if sourceName !in listing {
        return Missing(done, sourceName);
      }
      done := done + [CopiedFile(sourceName, destName)];
      k := k + 1;
    }
    return Copied(done);
  }

  /** Without an explicit list every selected name comes from the listing, so copy_files never raises. */
  lemma ListingSelectionNeverMissing(listing: seq<string>, extension: string)
    ensures forall i :: 0 <= i < |Selection(listing, extension, None)| ==>
      Selection(listing, extension, None)[i] in listing
  {
    var selected := Selection(listing, extension, None);
    forall i | 0 <= i < |selected| ensures selected[i] in listing {
      assert multiset(selected)[selected[i]] > 0;
    }
  }

  /** A name in which the pattern never occurs is left unchanged by ReplaceAll. */
  lemma {:induction false} ReplaceAllWithoutOccurrence(s: string, pattern: string, replacement: string)
    requires pattern != []
    requires forall i :: 0 <= i <= |s| - |pattern| ==> !OccursAt(s, pattern, i)
    ensures ReplaceAll(s, pattern, replacement) == s
    decreases |s|
  {
    if |s| >= |pattern| {
      assert !OccursAt(s, pattern, 0);
      forall i | 0 <= i <= |s[1..]| - |pattern|
        ensures !OccursAt(s[1..], pattern, i)
      {
        assert !OccursAt(s, pattern, i + 1);
        assert s[1..][i..i + |pattern|] == s[i + 1..i + 1 + |pattern|];
      }
      ReplaceAllWithoutOccurrence(s[1..], pattern, replacement);
    }
  }

  /**
   * A debug build of `base + extension`, where the extension occurs only at the
   * end, is copied as `base + "_d" + extension`.
   */
  lemma {:induction false} DebugNameOfPlainLibrary(base: string, extension: string)
    requires extension != []
    requires forall i :: 0 <= i < |base| ==> !OccursAt(base + extension, extension, i)
    ensures ReplaceAll(base + extension, extension, "_d" + extension) == base + "_d" + extension
    decreases |base|
  {
    var s := base + extension;
    if base == [] {
      assert s[..|extension|] == extension;
      assert s[|extension|..] == [];
    } else {
      assert !OccursAt(s, extension, 0);
      assert s[1..] == base[1..] + extension;
      forall i | 0 <= i < |base[1..]|
        ensures !OccursAt(base[1..] + extension, extension, i)
      {
        assert !OccursAt(s, extension, i + 1);
        assert s[1..][i..i + |extension|] == s[i + 1..i + 1 + |extension|];
      }
      DebugNameOfPlainLibrary(base[1..], extension);
      assert ReplaceAll(s, extension, "_d" + extension) == [s[0]] + ReplaceAll(s[1..], extension, "_d" + extension);
      assert [base[0]] + (base[1..] + "_d" + extension) == base + "_d" + extension;
    }
  }

  /**
   * On a host that is not Darwin, outside an Android destination and with
   * renaming on, every release library lands under a name starting with
   * "rive"; a name that already starts with "rive" never gets a second
   * prefix, and no name is touched on Darwin, for Android or without renaming.
   */
  lemma RenamedLibrariesStartWithRive(fileName: string, dst: string, extension: string, shouldRename: bool, hostIsDarwin: bool)
    ensures !hostIsDarwin && !Contains(dst, "Android") && shouldRename
         ==> StartsWith(DestinationName(fileName, dst, extension, true, shouldRename, hostIsDarwin), "rive")
    ensures StartsWith(fileName, "rive") ==> DestinationName(fileName, dst, extension, true, shouldRename, hostIsDarwin) == fileName
    ensures hostIsDarwin || Contains(dst, "Android") || !shouldRename
         ==> DestinationName(fileName, dst, extension, true, shouldRename, hostIsDarwin) == fileName
  {
    if NeedsRivePrefix(hostIsDarwin, fileName, dst, shouldRename) {
      assert ("rive_" + fileName)[..4] == "rive";
    }
  }

  /** An explicit list selects exactly its entries with the extension appended. */
  lemma ExplicitSelection(listing: seq<string>, extension: string, names: seq<string>, x: string)
    ensures x in Selection(listing, extension, Some(names)) <==> exists n :: n in names && x == n + extension
  {
    var r := Selection(listing, extension, Some(names));
    if x in r {
      var i :| 0 <= i < |r| && r[i] == x;
      assert names[i] in names;
    }
  }

  /** Without a list, exactly the listed entries ending in the extension are selected. */
  lemma ListingSelection(listing: seq<string>, extension: string, x: string)
    ensures x in Selection(listing, extension, None) <==> x in listing && EndsWith(x, extension)
  {
    var r := Selection(listing, extension, None);
    assert x in r <==> multiset(r)[x] > 0;
    assert x in listing <==> multiset(listing)[x] > 0;
  }

  // ---------------------------------------------------------------------
  // execute_command: error sniffing

  /** A stdout line that execute_command prints in red and counts as an error. */
  predicate IsErrorLine(line: string)
  {
    Contains(Lower(line), " error") && !Contains(line, "Structured output") && !Contains(line, "0 Error")
  }

  /** On macOS the whole of stderr is an error unless it is one of two known-harmless messages. */
  predicate IsErrorStderr(hostIsDarwin: bool, stderr: string)
  {
    hostIsDarwin && stderr != [] &&
    !Contains(stderr, "pnglibconf.h: Permission denied") && !Contains(stderr, "has no symbols")
  }

  /**
   * execute_command after the child process has ended: true when it raises,
   * which happens exactly when some stdout line is an error line or stderr
   * counts as an error.
   */
  method ExecuteCommand(lines: seq<string>, hostIsDarwin: bool, stderr: string) returns (raises: bool)
    ensures raises <==> (exists i :: 0 <= i < |lines| && IsErrorLine(lines[i])) || IsErrorStderr(hostIsDarwin, stderr)
  {
    var hadErrors := false;
    var k := 0;
    while k < |lines|
      invariant 0 <= k <= |lines|
      invariant hadErrors <==> exists i :: 0 <= i < k && IsErrorLine(lines[i])
    {
      var output := lines[k];
      if output != [] && IsErrorLine(output) {
        hadErrors := true;
      }
      k := k + 1;
    }
    if hostIsDarwin && stderr != [] {
      if !Contains(stderr, "pnglibconf.h: Permission denied") && !Contains(stderr, "has no symbols") {
        hadErrors := true;
      }
    }
    raises := hadErrors;
  }

  /** Lines reporting zero errors, and the structured-output banner, never count, whatever their case. */
  lemma ZeroErrorSummaryIsNotAnError(prefix: string, suffix: string)
    ensures !IsErrorLine(prefix + "0 Error" + suffix)
    ensures !IsErrorLine(prefix + "Structured output" + suffix)
  {
    var line := prefix + "0 Error" + suffix;
    assert OccursAt(line, "0 Error", |prefix|) by {
      assert line[|prefix|..|prefix| + 7] == "0 Error";
    }
    var banner := prefix + "Structured output" + suffix;
    assert OccursAt(banner, "Structured output", |prefix|) by {
      assert banner[|prefix|..|prefix| + 17] == "Structured output";
    }
  }

  /** The " error" test ignores case: " ERROR" and " Error" count as well. */
  lemma UpperCaseErrorCounts(prefix: string, suffix: string)
    requires !Contains(prefix + " ERROR" + suffix, "Structured output")
    requires !Contains(prefix + " ERROR" + suffix, "0 Error")
    ensures IsErrorLine(prefix + " ERROR" + suffix)
  {
    var line := prefix + " ERROR" + suffix;
    var low := Lower(line);
    assert low[|prefix|..|prefix| + 6] == " error";
    assert OccursAt(low, " error", |prefix|);
  }

  // ---------------------------------------------------------------------
  // iOS simulator archives

  /** The simulator name of an archive: drop the two-character ".a" and append ".sim.a". */
  function SimulatorName(file: string): (r: string)
    requires EndsWith(file, ".a")
    ensures EndsWith(r, ".sim.a")
    ensures |r| == |file| + 4
    ensures r[..|file| - 2] == file[..|file| - 2]
  {
    file[..|file| - 2] + ".sim.a"
  }

  lemma SimulatorNameInjective(f: string, g: string)
    requires EndsWith(f, ".a") && EndsWith(g, ".a")
    requires SimulatorName(f) == SimulatorName(g)
    ensures f == g
  {
    assert |f| == |g|;
    assert f == f[..|f| - 2] + ".a";
    assert g == g[..|g| - 2] + ".a";
  }

  /**
   * The simulator build directory after the rename step (one directory level):
   * stale ".sim.a" archives are deleted, then every remaining ".a" archive is
   * renamed to its simulator name; other files stay.
   */
  method RenameSimulatorArchives(files: seq<string>) returns (after: set<string>)
    ensures forall f :: f in after <==>
      (f in files && !EndsWith(f, ".a")) ||
      (exists g :: g in files && EndsWith(g, ".a") && !EndsWith(g, ".sim.a") && f == SimulatorName(g))
  {
    var dir: set<string> := set f | f in files;
    var k := 0;
    while k < |files|
      invariant 0 <= k <= |files|
      invariant forall f :: f in dir <==> f in files && !(f in files[..k] && EndsWith(f, ".sim.a"))
    {
      if EndsWith(files[k], ".sim.a") {
        dir := dir - {files[k]};
      }
      k := k + 1;
    }
    assert files[..k] == files;
    var remaining := dir;
    var listed := files;
    k := 0;
    while k < |listed|
      invariant 0 <= k <= |listed|
      invariant forall f :: f in dir <==>
        (f in remaining && !(f in listed[..k] && EndsWith(f, ".a"))) ||
        (exists g :: g in listed[..k] && g in remaining && EndsWith(g, ".a") && f == SimulatorName(g))
    {
      var file := listed[k];
      if file in remaining && EndsWith(file, ".a") {
        var newName := SimulatorName(file);
        dir := (dir - {newName} - {file}) + {newName};
      }
      assert listed[..k + 1] == listed[..k] + [file];
      k := k + 1;
    }
    assert listed[..k] == listed;
    after := dir;
  }
}
