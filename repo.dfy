/**
 * The repository utilities behind `analyze-repo`: cloning (its error
 * classification), choosing the source directory, and assembling the source
 * bundle sent to the model.
 *
 * The file system is an input: the directories below the repository root in
 * the order a top-down `os.walk` lists them, and the files in the same walk
 * order, each with the text `f.read()` returned. Paths are sequences of
 * components, written with "/" where the code prints them.
 */
module RepoSource {
  import opened Wrappers
  import opened Text
  import opened Exceptions

  const IgnoreDirs: set<string> := {"node_modules", "build", "dist", ".git", "__pycache__", ".venv", "venv"}
  const AllowedExts: set<string> := {".js", ".jsx", ".ts", ".tsx", ".py", ".html", ".css"}
  const SrcName := "src"
  const MaxFileChars := 100000
  const MaxBundleChars := 150000
  const TruncationMarker := "\n... (truncated)"
  const PartSeparator := "\n\n"
  const HeaderStart := "// --- file: "
  const HeaderEnd := " ---\n"
  const NoSourceFiles := "No analysis-supported source files found in the repository."
  const GitNotInstalled := "Git is not installed on the server. Please install Git."
  const NotFoundMarker := "Repository not found"
  const NoneStrip := "'NoneType' object has no attribute 'strip'"
  const NotFoundPrefix := "Repository not found or private: "
  const CloneFailedPrefix := "Failed to clone repo: "

  /** A directory below the repository root, one entry per component; `[]` is the root itself. */
  type Path = seq<string>

  /** A file the walk lists: its directory, its name, and the text read from it (`None` when opening or reading raised). */
  datatype SourceFile = SourceFile(dir: Path, name: string, content: Option<string>)

  // ---------------------------------------------------------------- extensions

  predicate AllDots(s: string) {
    forall i :: 0 <= i < |s| ==> s[i] == '.'
  }

  /** The index of the last '.', or -1. */
  function LastDot(s: string): (d: int)
    ensures -1 <= d < |s|
    ensures d >= 0 ==> s[d] == '.'
    ensures forall j :: d < j < |s| ==> s[j] != '.'
  {
    if s == [] then -1
    else if s[|s| - 1] == '.' then |s| - 1
    else LastDot(s[..|s| - 1])
  }

  /**
   * `os.path.splitext(name)` for a name without '/': the extension runs from
   * the last '.', unless only dots come before it (a hidden file such as
   * ".py" has no extension).
   */
  function SplitExt(name: string): (r: (string, string))
    ensures r.0 + r.1 == name
    ensures r.1 != "" ==> r.1[0] == '.' && !AllDots(r.0) && forall j :: 0 < j < |r.1| ==> r.1[j] != '.'
  {
    var d := LastDot(name);
    if d >= 0 && !AllDots(name[..d]) then (name[..d], name[d..]) else (name, "")
  }

  /**
   * `_is_allowed_file`: the lower-cased extension is one of the allowed ones,
   * that is, the name ends from some dot on in an allowed extension (in any
   * letter case) with something other than dots before that dot.
   */
  function IsAllowedFile(name: string): (b: bool)
    ensures b <==> exists k: nat :: IsExtensionAt(name, k)
  {
    ExtensionIffExtensionAt(name);
    Lower(SplitExt(name).1) in AllowedExts
  }

  /** At `k` begins an allowed extension (in any letter case) that follows a stem with a character other than '.'. */
  predicate IsExtensionAt(name: string, k: nat) {
    k < |name| && name[k] == '.' && !AllDots(name[..k]) && Lower(name[k..]) in AllowedExts
  }

  lemma AllowedExtsShape()
    ensures forall e :: e in AllowedExts ==> |e| >= 2 && e[0] == '.' && forall j :: 0 < j < |e| ==> e[j] != '.'
  {
  }

  /** The extension `splitext` finds is allowed exactly when some dot begins an allowed extension after a stem that is not all dots. */
  lemma {:induction false} ExtensionIffExtensionAt(name: string)
    ensures Lower(SplitExt(name).1) in AllowedExts <==> exists k: nat :: IsExtensionAt(name, k)
  {
    var d := LastDot(name);
    if Lower(SplitExt(name).1) in AllowedExts {
      assert "" !in AllowedExts;
      assert SplitExt(name).1 != "";
      assert IsExtensionAt(name, d);
    }
    if exists k: nat :: IsExtensionAt(name, k) {
      var k: nat :| IsExtensionAt(name, k);
      var ext := Lower(name[k..]);
      AllowedExtsShape();
      forall j | k < j < |name|
        ensures name[j] != '.'
      {
        assert ext[j - k] == LowerChar(name[j]);
      }
      assert d == k;
    }
  }

  /** Lowering keeps the dots where they are, so a dot begins an allowed extension in a name exactly when it does in the lowered name. */
  lemma ExtensionAtLower(name: string, k: nat)
    ensures IsExtensionAt(name, k) <==> IsExtensionAt(Lower(name), k)
  {
    if k < |name| {
      var low := Lower(name);
      assert low[..k] == Lower(name[..k]);
      assert AllDots(low[..k]) <==> AllDots(name[..k]) by {
        assert forall i :: 0 <= i < k ==> (low[..k][i] == '.' <==> name[..k][i] == '.');
      }
      assert low[k..] == Lower(name[k..]);
      LowerIdempotent(name[k..]);
    }
  }

  /** Letter case does not matter: a name is allowed exactly when its lower-cased form is. */
  lemma AllowedIgnoresCase(name: string)
    ensures IsAllowedFile(name) <==> IsAllowedFile(Lower(name))
  {
    if IsAllowedFile(name) {
      var k: nat :| IsExtensionAt(name, k);
      ExtensionAtLower(name, k);
    }
    if IsAllowedFile(Lower(name)) {
      var k: nat :| IsExtensionAt(Lower(name), k);
      ExtensionAtLower(name, k);
    }
  }

  /** An upper-case extension counts: "Main.PY" is allowed. */
  lemma UpperCaseExtensionAllowed()
    ensures IsAllowedFile("Main.PY")
  {
    var name := "Main.PY";
    assert !AllDots(name[..4]) by { assert name[..4][0] != '.'; }
    assert Lower(name[4..]) == ".py";
    assert IsExtensionAt(name, 4);
  }

  /** A hidden file has no extension, and an unlisted extension does not count. */
  lemma NotAllowedExamples()
    ensures !IsAllowedFile(".py")
    ensures !IsAllowedFile("notes.txt")
  {
    assert SplitExt(".py").1 == "";
    var txt := "notes.txt";
    assert txt[5] == '.' && txt[6] != '.' && txt[7] != '.' && txt[8] != '.';
    assert LastDot(txt) == 5;
    assert txt[..5] == "notes" && txt[5..] == ".txt";
    assert !AllDots(txt[..5]) by { assert txt[..5][0] != '.'; }
    assert Lower(".txt") == ".txt";
  }

  // ---------------------------------------------------------- find_src_dir

  /** No component of the path is an ignored directory: the pruned walk reaches it. */
  predicate Visited(p: Path) {
    forall i :: 0 <= i < |p| ==> p[i] !in IgnoreDirs
  }

  /** A directory the pruned walk reaches whose own name is "src". */
  predicate IsWalkedSrc(p: Path) {
    p != [] && p[|p| - 1] == SrcName && Visited(p)
  }

  /** The first directory named "src" in walk order, or the root when there is none. */
  function FirstWalkedSrc(dirs: seq<Path>): (p: Path)
    ensures p == [] ==> forall i :: 0 <= i < |dirs| ==> !IsWalkedSrc(dirs[i])
    ensures p != [] ==> exists i :: 0 <= i < |dirs| && dirs[i] == p && IsWalkedSrc(p)
                                    && forall j :: 0 <= j < i ==> !IsWalkedSrc(dirs[j])
  {
    if dirs == [] then []
    else if IsWalkedSrc(dirs[0]) then dirs[0]
    else
      var p := FirstWalkedSrc(dirs[1..]);
      assert p != [] ==> exists i :: 0 <= i < |dirs[1..]| && dirs[1..][i] == p && IsWalkedSrc(p)
                                    && forall j :: 0 <= j < i ==> !IsWalkedSrc(dirs[1..][j]);
      assert forall i :: 0 <= i < |dirs[1..]| ==> dirs[1..][i] == dirs[i + 1];
      p
  }

  /**
   * The directory `find_src_dir` chooses: a direct "src" child if there is
   * one; otherwise the first directory named "src" the pruned walk yields,
   * starting with the root itself; otherwise the root. `[]` is the root.
   */
  function SrcDir(rootName: string, dirs: seq<Path>): (src: Path)
    ensures [SrcName] in dirs ==> src == [SrcName]
    ensures [SrcName] !in dirs && rootName == SrcName ==> src == []
    ensures [SrcName] !in dirs && rootName != SrcName ==>
      && (src == [] ==> forall i :: 0 <= i < |dirs| ==> !IsWalkedSrc(dirs[i]))
      && (src != [] ==> exists i :: 0 <= i < |dirs| && dirs[i] == src && IsWalkedSrc(src)
                                    && forall j :: 0 <= j < i ==> !IsWalkedSrc(dirs[j]))
    ensures src == [] || src in dirs
  {
    if [SrcName] in dirs then [SrcName]
    else if rootName == SrcName then []
    else FirstWalkedSrc(dirs)
  }

  /** `find_src_dir`: checks for a direct "src" child, then walks until it meets a "src" directory. */
  method FindSrcDir(rootName: string, dirs: seq<Path>) returns (src: Path)
    ensures src == SrcDir(rootName, dirs)
  {
    if [SrcName] in dirs {
      return [SrcName];
    }
    if rootName == SrcName {
      return [];
    }
    var i := 0;
    while i < |dirs|
      invariant 0 <= i <= |dirs|
      invariant FirstWalkedSrc(dirs[i..]) == FirstWalkedSrc(dirs)
    {
      if IsWalkedSrc(dirs[i]) {
        return dirs[i];
      }
      assert dirs[i..][1..] == dirs[i + 1..];
      i := i + 1;
    }
    return [];
  }

  // ------------------------------------------------------ read_source_files

  /** The file lies in `src` or below it. */
  predicate Under(src: Path, f: SourceFile) {
    |src| <= |f.dir| && f.dir[..|src|] == src
  }

  /** `os.path.relpath(file_path, src_path)`. */
  function RelPath(src: Path, f: SourceFile): (rel: string)
    requires Under(src, f)
    ensures f.dir == src ==> rel == f.name
    ensures IsSuffix(f.name, rel)
  {
    JoinEndsWithLast(f.dir[|src|..] + [f.name], "/");
    Join(f.dir[|src|..] + [f.name], "/")
  }

  /** `f"// --- file: {rel_path} ---\n{content}"`: the header line naming the file, then its content. */
  function FilePart(rel: string, content: string): (part: string)
    ensures IsPrefix(HeaderStart, part)
    ensures IsPrefix(HeaderStart + rel + HeaderEnd, part) && IsSuffix(content, part)
    ensures |part| == |HeaderStart| + |rel| + |HeaderEnd| + |content|
  {
    var header := HeaderStart + rel + HeaderEnd;
    var part := header + content;
    assert part[..|HeaderStart|] == HeaderStart;
    assert part[..|header|] == header;
    assert part[|part| - |content|..] == content;
    part
  }

  /**
   * The file makes it into the bundle: the walk from `src` reaches its
   * directory, its name is allowed, it could be read, and it has at most
   * 100000 characters.
   */
  predicate Included(src: Path, f: SourceFile) {
    && Under(src, f)
    && Visited(f.dir[|src|..])
    && IsAllowedFile(f.name)
    && f.content.Some?
    && |f.content.value| <= MaxFileChars
  }

  /**
   * A file is included exactly when it lies below `src` without an ignored
   * directory on the way, ends in an allowed extension, was read, and has at
   * most 100000 characters.
   */
  lemma IncludedIff(src: Path, f: SourceFile)
    ensures Included(src, f) <==>
      && Under(src, f)
      && Visited(f.dir[|src|..])
      && (exists k: nat :: IsExtensionAt(f.name, k))
      && f.content.Some?
      && |f.content.value| <= MaxFileChars
  {
  }

  /** What one file adds to the bundle: its part when it is included, nothing otherwise. */
  function PartOf(src: Path, f: SourceFile): (part: seq<string>)
    ensures part != [] <==> Included(src, f)
    ensures part != [] ==> part == [FilePart(RelPath(src, f), f.content.value)]
  {
    if Included(src, f) then [FilePart(RelPath(src, f), f.content.value)] else []
  }

  /** The parts `read_source_files` appends, in walk order. */
  function Parts(src: Path, files: seq<SourceFile>): (parts: seq<string>)
    ensures |parts| <= |files|
    ensures forall p :: p in parts ==> IsPrefix(HeaderStart, p)
  {
    if files == [] then []
    else
      var head := PartOf(src, files[0]);
      var rest := Parts(src, files[1..]);
      assert forall p :: p in head + rest ==> p in head || p in rest;
      head + rest
  }

  /** Walking two runs of files one after the other gives their parts one after the other. */
  lemma {:induction false} PartsAppend(src: Path, a: seq<SourceFile>, b: seq<SourceFile>)
    ensures Parts(src, a + b) == Parts(src, a) + Parts(src, b)
  {
    if a != [] {
      var head := PartOf(src, a[0]);
      assert (a + b)[0] == a[0];
      assert (a + b)[1..] == a[1..] + b;
      assert Parts(src, a + b) == head + Parts(src, a[1..] + b);
      PartsAppend(src, a[1..], b);
      assert Parts(src, a) == head + Parts(src, a[1..]);
      SeqAssoc(head, Parts(src, a[1..]), Parts(src, b));
    } else {
      assert a + b == b;
    }
  }

  lemma SeqAssoc<T>(x: seq<T>, y: seq<T>, z: seq<T>)
    ensures x + (y + z) == (x + y) + z
  {
  }

  /** Exactly the included files give a part, each its own, and nothing else does. */
  lemma {:induction false} PartsMembers(src: Path, files: seq<SourceFile>)
    ensures forall f :: f in files && Included(src, f) ==> FilePart(RelPath(src, f), f.content.value) in Parts(src, files)
    ensures forall p :: p in Parts(src, files) ==>
      exists f :: f in files && Included(src, f) && p == FilePart(RelPath(src, f), f.content.value)
  {
    if files != [] {
      PartsMembers(src, files[1..]);
      assert forall f :: f in files ==> f == files[0] || f in files[1..];
    }
  }

  /** No part at all exactly when no file of the walk is included. */
  lemma {:induction false} PartsEmptyIff(src: Path, files: seq<SourceFile>)
    ensures Parts(src, files) == [] <==> forall i :: 0 <= i < |files| ==> !Included(src, files[i])
  {
    if files != [] {
      PartsEmptyIff(src, files[1..]);
      assert Parts(src, files) == PartOf(src, files[0]) + Parts(src, files[1..]);
      assert forall i :: 1 <= i < |files| ==> files[i] == files[1..][i - 1];
    }
  }

  /** A file in a pruned directory, or with a name that is not allowed, contributes nothing wherever it appears. */
  lemma {:induction false} SkippedFileContributesNothing(src: Path, before: seq<SourceFile>, f: SourceFile, after: seq<SourceFile>)
    requires Under(src, f)
    requires !Visited(f.dir[|src|..]) || !IsAllowedFile(f.name)
    ensures Parts(src, before + [f] + after) == Parts(src, before + after)
  {
    assert !Included(src, f);
    assert Parts(src, [f]) == [] by {
      assert [f][1..] == [];
      assert Parts(src, [f]) == PartOf(src, f) + Parts(src, []);
    }
    PartsAppend(src, before, [f]);
    assert Parts(src, before + [f]) == Parts(src, before);
    PartsAppend(src, before + [f], after);
    PartsAppend(src, before, after);
  }

  /** `full_text[:150000] + "\n... (truncated)"` when it is longer than 150000 characters. */
  function Truncate(full: string): (r: string)
    ensures |full| <= MaxBundleChars ==> r == full
    ensures |full| > MaxBundleChars ==>
      && |r| == MaxBundleChars + |TruncationMarker|
      && IsPrefix(r[..MaxBundleChars], full)
      && IsSuffix(TruncationMarker, r)
    ensures |r| <= MaxBundleChars + |TruncationMarker|
  {
    if |full| > MaxBundleChars then full[..MaxBundleChars] + TruncationMarker else full
  }

  /** The outcome of `read_source_files` for the parts it collected. */
  function Bundle(parts: seq<string>): (r: Result<string, Exn>)
    ensures r.Failure? <==> parts == []
    ensures r.Failure? ==> r.error == Exn(FileNotFoundError, NoSourceFiles)
    ensures r.Success? ==> r.value == Truncate(Join(parts, PartSeparator))
    ensures r.Success? && |Join(parts, PartSeparator)| <= MaxBundleChars ==> IsPrefix(parts[0], r.value)
  {
    if parts == [] then Failure(Exn(FileNotFoundError, NoSourceFiles))
    else Success(Truncate(Join(parts, PartSeparator)))
  }

  /** A bundle, truncated or not, begins with the header of the first included file. */
  lemma BundleStartsWithHeader(src: Path, files: seq<SourceFile>)
    requires Bundle(Parts(src, files)).Success?
    ensures IsPrefix(HeaderStart, Bundle(Parts(src, files)).value)
  {
    var parts := Parts(src, files);
    var full := Join(parts, PartSeparator);
    assert IsPrefix(HeaderStart, parts[0]);
    assert full[..|HeaderStart|] == parts[0][..|HeaderStart|];
    assert Truncate(full)[..|HeaderStart|] == full[..|HeaderStart|];
  }

  /**
   * `read_source_files(src)`: walks the files, keeps the included ones as
   * headed parts, and joins and truncates them; no part at all raises
   * `FileNotFoundError`. The walk from `src` lists only files below it in
   * directories it is not pruned from, which the filter on `Under` and
   * `Visited` stands for.
   */
  method ReadSourceFiles(src: Path, files: seq<SourceFile>) returns (r: Result<string, Exn>)
    ensures r == Bundle(Parts(src, files))
  {
    var parts: seq<string> := [];
    var i := 0;
    while i < |files|
      invariant 0 <= i <= |files|
      invariant parts == Parts(src, files[..i])
    {
      var f := files[i];
      PartsAppend(src, files[..i], [f]);
      assert Parts(src, [f]) == (if Included(src, f) then [FilePart(RelPath(src, f), f.content.value)] else []) by {
        assert [f][1..] == [];
      }
      assert files[..i + 1] == files[..i] + [f];
      if Under(src, f) && Visited(f.dir[|src|..]) && IsAllowedFile(f.name) {
        var rel := RelPath(src, f);
        match f.content {
          case None =>
          case Some(content) =>
            if |content| <= MaxFileChars {
              parts := parts + [FilePart(rel, content)];
            }
        }
      }
      i := i + 1;
    }
    assert files[..i] == files;
    if parts == [] {
      return Failure(Exn(FileNotFoundError, NoSourceFiles));
    }
    var fullText := Join(parts, PartSeparator);
    if |fullText| > MaxBundleChars {
      fullText := fullText[..MaxBundleChars] + TruncationMarker;
    }
    return Success(fullText);
  }

  // ------------------------------------------------------------- clone_repo

  /** What the two `git` runs did. */
  datatype GitRun =
    | GitMissing                   // the `git` executable is not found
    | VersionCheckFailed           // `git --version` exited non-zero; its stderr went to DEVNULL
    | CloneFailed(stderr: string)  // `git clone` exited non-zero, with this stderr
    | Cloned

  /** The path `clone_repo` returns. */
  function RepoPath(targetDir: string): string {
    targetDir + "/repo"
  }

  /** The message for a failed clone: not-found, or the stripped stderr ("unknown error" when empty). */
  function CloneFailureMessage(url: string, stderr: string): (m: string)
    ensures Contains(Strip(stderr), NotFoundMarker) ==> m == NotFoundPrefix + url
    ensures !Contains(Strip(stderr), NotFoundMarker) ==>
      IsPrefix(CloneFailedPrefix, m) && (Strip(stderr) == "" ==> m == CloneFailedPrefix + "unknown error")
    ensures !Contains(Strip(stderr), NotFoundMarker) && Strip(stderr) != "" ==> m == CloneFailedPrefix + Strip(stderr)
  {
    var errorMsg := Strip(stderr);
    if Contains(errorMsg, NotFoundMarker) then NotFoundPrefix + url
    else
      var m := CloneFailedPrefix + (if errorMsg == "" then "unknown error" else errorMsg);
      assert m[..|CloneFailedPrefix|] == CloneFailedPrefix;
      m
  }

  /**
   * `clone_repo` as written: a failing `git --version` raises
   * `CalledProcessError` with `stderr` `None`, and `None.strip()` raises an
   * `AttributeError` out of the handler.
   */
  function CloneRepoAsWritten(url: string, targetDir: string, run: GitRun): (r: Result<string, Exn>)
    ensures r.Success? <==> run == Cloned
    ensures run == VersionCheckFailed ==> r == Failure(Exn(OtherError, NoneStrip))
  {
    match run
    case GitMissing => Failure(Exn(ValueError, GitNotInstalled))
    case VersionCheckFailed => Failure(Exn(OtherError, NoneStrip))
    case CloneFailed(stderr) => Failure(Exn(ValueError, CloneFailureMessage(url, stderr)))
    case Cloned => Success(RepoPath(targetDir))
  }

  /**
   * `clone_repo` with the missing stderr read as empty: every failure is a
   * `ValueError`, the class the handler answers with HTTP 400.
   */
  function CloneRepo(url: string, targetDir: string, run: GitRun): (r: Result<string, Exn>)
    ensures r.Success? <==> run == Cloned
    ensures r.Success? ==> r.value == RepoPath(targetDir)
    ensures r.Failure? ==> r.error.kind == ValueError
    ensures run == GitMissing ==> r.error.message == GitNotInstalled
    ensures run == VersionCheckFailed ==> r.error.message == CloneFailedPrefix + "unknown error"
    ensures run.CloneFailed? ==> r.error.message == CloneFailureMessage(url, run.stderr)
  {
    match run
    case GitMissing => Failure(Exn(ValueError, GitNotInstalled))
    case VersionCheckFailed => Failure(Exn(ValueError, CloneFailureMessage(url, "")))
    case CloneFailed(stderr) => Failure(Exn(ValueError, CloneFailureMessage(url, stderr)))
    case Cloned => Success(RepoPath(targetDir))
  }

  /** The input that shows the difference: a failing version check escapes as a non-`ValueError`. */
  lemma VersionCheckFailureEscapes(url: string, targetDir: string)
    ensures CloneRepoAsWritten(url, targetDir, VersionCheckFailed).error.kind != ValueError
    ensures CloneRepo(url, targetDir, VersionCheckFailed).error.kind == ValueError
  {
  }

  /** On every other outcome the two agree. */
  lemma CloneRepoAgreesOtherwise(url: string, targetDir: string, run: GitRun)
    requires run != VersionCheckFailed
    ensures CloneRepoAsWritten(url, targetDir, run) == CloneRepo(url, targetDir, run)
  {
  }
}
