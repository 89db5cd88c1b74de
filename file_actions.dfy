/**
 * Remote file paths: paths inside an application's container written
 * `@<package>/<path>`, the quoting of paths for the device shell, and the
 * adb requests that pulling, pushing and deleting a file make.
 */
module FileActions {
  import opened Wrappers
  import opened Text

  const CONTAINER_PATH_MARKER := '@'
  const CONTAINER_ROOT := "/data/data/"
  const DEVICE_TMP_ROOT := "/data/local/tmp/"

  // ---------------------------------------------------------------------
  // POSIX path resolution
  // ---------------------------------------------------------------------

  /** A path segment that normalisation keeps as it is. */
  predicate IsNameSegment(seg: string) {
    seg != [] && seg != "." && seg != ".." && '/' !in seg
  }

  /** The segments left once empty and "." segments are dropped and each ".." removes the segment before it (none above the root). */
  function NormalizeSegments(segs: seq<string>): (r: seq<string>)
    requires forall i :: 0 <= i < |segs| ==> '/' !in segs[i]
    ensures forall i :: 0 <= i < |r| ==> IsNameSegment(r[i])
    ensures |r| <= |segs|
  {
    if segs == [] then []
    else
      var prev := NormalizeSegments(segs[..|segs| - 1]);
      var last := segs[|segs| - 1];
      if last == [] || last == "." then prev
      else if last == ".." then (if prev == [] then [] else prev[..|prev| - 1])
      else prev + [last]
  }

  /** `path.posix.normalize` of an absolute path, without the trailing separator. */
  function NormalizeAbsolute(p: string): (r: string)
    ensures StartsWith(r, "/")
  {
    "/" + JoinWith(NormalizeSegments(SplitOn(p, '/')), '/')
  }

  /** `path.posix.resolve(base, rel)` for an absolute `base`. */
  function Resolve(base: string, rel: string): (r: string)
    ensures StartsWith(r, "/")
  {
    if StartsWith(rel, "/") then NormalizeAbsolute(rel) else NormalizeAbsolute(base + "/" + rel)
  }

  /** Segments that are all names are kept. */
  lemma {:induction false} NormalizeNames(segs: seq<string>)
    requires forall i :: 0 <= i < |segs| ==> IsNameSegment(segs[i])
    ensures (forall i :: 0 <= i < |segs| ==> '/' !in segs[i]) && NormalizeSegments(segs) == segs
    decreases |segs|
  {
    if segs != [] {
      NormalizeNames(segs[..|segs| - 1]);
      assert segs[..|segs| - 1] + [segs[|segs| - 1]] == segs;
    }
  }

  /** A leading empty segment (the root) changes nothing. */
  lemma {:induction false} NormalizeLeadingEmpty(segs: seq<string>)
    requires forall i :: 0 <= i < |segs| ==> '/' !in segs[i]
    ensures NormalizeSegments([[]] + segs) == NormalizeSegments(segs)
    decreases |segs|
  {
    if segs != [] {
      var init := segs[..|segs| - 1];
      assert ([[]] + segs)[..|segs|] == [[]] + init;
      NormalizeLeadingEmpty(init);
    }
  }

  /** Joining segments that hold no separator and splitting again gives them back. */
  lemma {:induction false} SplitJoinSegments(segs: seq<string>)
    requires segs != [] && forall i :: 0 <= i < |segs| ==> '/' !in segs[i]
    ensures SplitOn(JoinWith(segs, '/'), '/') == segs
    decreases |segs|
  {
    if |segs| == 1 {
      SplitOnNone(segs[0], '/');
    } else {
      SplitJoinSegments(segs[1..]);
      SplitOnFirst(segs[0], '/', JoinWith(segs[1..], '/'));
      assert [segs[0]] + segs[1..] == segs;
    }
  }

  /** A rooted path of plain names is already normal. */
  lemma NormalRootedNames(segs: seq<string>)
    requires segs != [] && forall i :: 0 <= i < |segs| ==> IsNameSegment(segs[i])
    ensures NormalizeAbsolute("/" + JoinWith(segs, '/')) == "/" + JoinWith(segs, '/')
  {
    var joined := JoinWith(segs, '/');
    var empty: string := [];
    assert "/" + joined == empty + ['/'] + joined;
    NormalizeNames(segs);
    SplitOnFirst(empty, '/', joined);
    SplitJoinSegments(segs);
    assert SplitOn("/" + joined, '/') == [empty] + segs;
    NormalizeLeadingEmpty(segs);
    assert NormalizeSegments([empty] + segs) == segs;
  }

  /** Normalising a normalised path changes nothing. */
  lemma NormalizeIdempotent(p: string)
    ensures NormalizeAbsolute(NormalizeAbsolute(p)) == NormalizeAbsolute(p)
  {
    var segs := NormalizeSegments(SplitOn(p, '/'));
    if segs == [] {
      assert NormalizeAbsolute(p) == "/";
      var root: seq<string> := [[], []];
      assert SplitOn("/", '/') == [[]] + SplitOn([], '/') == root;
      assert root[..1] == [[]];
      assert NormalizeSegments([[]]) == [];
    } else {
      NormalRootedNames(segs);
    }
  }

  /** Resolving a path of plain names under a base of plain names appends it. */
  lemma ResolveNames(baseSegs: seq<string>, relSegs: seq<string>)
    requires baseSegs != [] && relSegs != []
    requires forall i :: 0 <= i < |baseSegs| ==> IsNameSegment(baseSegs[i])
    requires forall i :: 0 <= i < |relSegs| ==> IsNameSegment(relSegs[i])
    ensures Resolve("/" + JoinWith(baseSegs, '/'), JoinWith(relSegs, '/'))
            == "/" + JoinWith(baseSegs, '/') + "/" + JoinWith(relSegs, '/')
  {
    var base := JoinWith(baseSegs, '/');
    var rel := JoinWith(relSegs, '/');
    NamesNotRooted(relSegs);
    assert Resolve("/" + base, rel) == NormalizeAbsolute(("/" + base) + "/" + rel);
    RootedJoinAppend(baseSegs, relSegs);
    AllNames(baseSegs, relSegs);
    NormalRootedNames(baseSegs + relSegs);
  }

  /** A path of plain names is relative. */
  lemma NamesNotRooted(segs: seq<string>)
    requires segs != [] && forall i :: 0 <= i < |segs| ==> IsNameSegment(segs[i])
    ensures !StartsWith(JoinWith(segs, '/'), "/")
  {
    assert segs[0][0] != '/';
    JoinStartsWithFirst(segs);
    var j := JoinWith(segs, '/');
    assert j[..1][0] == j[0] != '/';
  }

  lemma AllNames(a: seq<string>, b: seq<string>)
    requires forall i :: 0 <= i < |a| ==> IsNameSegment(a[i])
    requires forall i :: 0 <= i < |b| ==> IsNameSegment(b[i])
    ensures a + b != [] ==> forall i :: 0 <= i < |a + b| ==> IsNameSegment((a + b)[i])
  {
  }

  lemma RootedJoinAppend(a: seq<string>, b: seq<string>)
    requires a != [] && b != []
    ensures ("/" + JoinWith(a, '/')) + "/" + JoinWith(b, '/') == "/" + JoinWith(a + b, '/')
  {
    JoinAppend(a, b);
    var x := JoinWith(a, '/');
    var y := JoinWith(b, '/');
    assert ("/" + x) + "/" + y == "/" + (x + "/" + y);
  }

  lemma {:induction false} JoinAppend(a: seq<string>, b: seq<string>)
    requires a != [] && b != []
    ensures JoinWith(a + b, '/') == JoinWith(a, '/') + "/" + JoinWith(b, '/')
    decreases |a|
  {
    if |a| == 1 {
      assert (a + b)[1..] == b;
    } else {
      JoinAppend(a[1..], b);
      assert (a + b)[1..] == a[1..] + b;
    }
  }

  lemma JoinStartsWithFirst(segs: seq<string>)
    requires segs != [] && segs[0] != []
    ensures JoinWith(segs, '/') != [] && JoinWith(segs, '/')[0] == segs[0][0]
  {
  }

  // ---------------------------------------------------------------------
  // Container paths
  // ---------------------------------------------------------------------

  /** The index of the first `c` in `s`, or `|s|` when there is none. */
  function FirstIndex(s: string, c: char): (r: nat)
    ensures r <= |s| && (r < |s| ==> s[r] == c)
    ensures forall i :: 0 <= i < r ==> s[i] != c
  {
    if s == [] || s[0] == c then 0 else 1 + FirstIndex(s[1..], c)
  }

  /** The length of the longest prefix of `s` the regular-expression `.` matches. */
  function LineRun(s: string): (r: nat)
    ensures r <= |s| && (r < |s| ==> IsJsLineTerminator(s[r]))
    ensures forall i :: 0 <= i < r ==> !IsJsLineTerminator(s[i])
  {
    if s == [] || IsJsLineTerminator(s[0]) then 0 else 1 + LineRun(s[1..])
  }

  /**
   * `s` matches `^@([^/]+)/(.+)` with the separating slash at `slash`: a
   * non-empty package without slashes (it may hold line breaks), then at
   * least one character other than a line break.
   */
  predicate ContainerPathMatch(s: string, slash: nat) {
    2 <= slash && slash + 1 < |s| && s[0] == CONTAINER_PATH_MARKER && s[slash] == '/'
    && (forall i :: 1 <= i < slash ==> s[i] != '/')
    && !IsJsLineTerminator(s[slash + 1])
  }

  function ContainerPathError(remotePath: string): string {
    "It is expected that package identifier is separated from the relative path with a single slash. '"
    + remotePath + "' is given instead"
  }

  /** The two groups of `^@([^/]+)/(.+)`, when the path matches. */
  function ContainerPathGroups(remotePath: string): (r: Option<(string, string)>)
  {
    if remotePath == [] || remotePath[0] != CONTAINER_PATH_MARKER then None
    else
      var slash := 1 + FirstIndex(remotePath[1..], '/');
      if slash < 2 || slash + 1 >= |remotePath| || IsJsLineTerminator(remotePath[slash + 1]) then None
      else Some((remotePath[1..slash], RelativePart(remotePath, slash)))
  }

  /**
   * The package and the absolute path inside its container: the text
   * between '@' and the first slash, and the rest of the line resolved
   * against /data/data/<package>.
   */
  function ParseContainerPath(remotePath: string): (r: Result<(string, string), FileError>)
    ensures r.Ok? ==> StartsWith(r.value.1, "/")
    ensures r.Err? ==> r.error == BadContainerPath(remotePath)
  {
    match ContainerPathGroups(remotePath)
    case None => Err(BadContainerPath(remotePath))
    case Some((pkg, rel)) => Ok((pkg, Resolve(CONTAINER_ROOT + pkg, rel)))
  }

  /** A path matching the pattern parses to its package and the resolved rest of the line. */
  lemma ContainerPathAccepted(remotePath: string, slash: nat)
    requires ContainerPathMatch(remotePath, slash)
    ensures ContainerPathGroups(remotePath) == Some((remotePath[1..slash], RelativePart(remotePath, slash)))
    ensures ParseContainerPath(remotePath)
            == Ok((remotePath[1..slash], Resolve(CONTAINER_ROOT + remotePath[1..slash], RelativePart(remotePath, slash))))
  {
    MatchAtFirstSlash(remotePath, slash);
  }

  /** A path the pattern does not match is refused. */
  lemma ContainerPathRejected(remotePath: string)
    requires forall slash: nat :: !ContainerPathMatch(remotePath, slash)
    ensures ContainerPathGroups(remotePath) == None
  {
    if remotePath != [] && remotePath[0] == CONTAINER_PATH_MARKER {
      var slash := 1 + FirstIndex(remotePath[1..], '/');
      if 2 <= slash && slash + 1 < |remotePath| && !IsJsLineTerminator(remotePath[slash + 1]) {
        assert ContainerPathMatch(remotePath, slash) by {
          assert remotePath[slash] == remotePath[1..][slash - 1];
          forall i | 1 <= i < slash ensures remotePath[i] != '/' {
            assert remotePath[i] == remotePath[1..][i - 1];
          }
        }
      }
    }
  }

  /** Without a match parsing fails with the message naming the path. */
  lemma ContainerPathRefused(remotePath: string)
    requires ContainerPathGroups(remotePath) == None
    ensures ParseContainerPath(remotePath) == Err(BadContainerPath(remotePath))
  {
  }

  /** The second group of the match: the rest of the line after the separating slash. */
  function RelativePart(s: string, slash: nat): (r: string)
    requires slash < |s|
    ensures forall i :: 0 <= i < |r| ==> !IsJsLineTerminator(r[i])
  {
    var tail := s[slash + 1..];
    tail[..LineRun(tail)]
  }

  /** The separating slash of a match is the first slash after the marker. */
  lemma MatchAtFirstSlash(s: string, slash: nat)
    requires ContainerPathMatch(s, slash)
    ensures slash == 1 + FirstIndex(s[1..], '/')
  {
    assert s[1..][slash - 1] == '/';
  }

  /** A marked path with no slash after the package cannot be parsed. */
  lemma NoSlashRejected(pkg: string)
    requires '/' !in pkg
    ensures ParseContainerPath("@" + pkg).Err?
  {
  }

  /** A package and a path made of plain names on one line parse back to the package and its container path. */
  lemma ContainerPathOfNames(pkg: string, relSegs: seq<string>)
    requires IsNameSegment(pkg) && relSegs != []
    requires forall i :: 0 <= i < |relSegs| ==> IsNameSegment(relSegs[i])
    requires forall i :: 0 <= i < |pkg| ==> !IsJsLineTerminator(pkg[i])
    requires var rel := JoinWith(relSegs, '/'); forall i :: 0 <= i < |rel| ==> !IsJsLineTerminator(rel[i])
    ensures ParseContainerPath("@" + pkg + "/" + JoinWith(relSegs, '/'))
            == Ok((pkg, CONTAINER_ROOT + pkg + "/" + JoinWith(relSegs, '/')))
  {
    var rel := JoinWith(relSegs, '/');
    var s := "@" + pkg + "/" + rel;
    JoinStartsWithFirst(relSegs);
    MatchOfParts(pkg, rel);
    ContainerPathAccepted(s, |pkg| + 1);
    ContainerResolvesNames(pkg, relSegs);
  }

  /** A package without slashes, a slash, and a line starting with no slash match at that slash. */
  lemma MatchOfParts(pkg: string, rel: string)
    requires pkg != [] && '/' !in pkg && rel != [] && rel[0] != '/'
    requires forall i :: 0 <= i < |rel| ==> !IsJsLineTerminator(rel[i])
    ensures var s := "@" + pkg + "/" + rel;
            ContainerPathMatch(s, |pkg| + 1) && s[1..|pkg| + 1] == pkg && RelativePart(s, |pkg| + 1) == rel
  {
    var s := "@" + pkg + "/" + rel;
    var slash := |pkg| + 1;
    assert s[1..slash] == pkg;
    assert s[slash + 1..] == rel;
    assert s[slash] == '/' && s[slash + 1] == rel[0];
    forall i | 1 <= i < slash ensures s[i] != '/' {
      assert s[i] == pkg[i - 1];
    }
  }

  /** Plain names resolve under the container of a package to themselves appended to it. */
  lemma ContainerResolvesNames(pkg: string, relSegs: seq<string>)
    requires IsNameSegment(pkg) && relSegs != []
    requires forall i :: 0 <= i < |relSegs| ==> IsNameSegment(relSegs[i])
    ensures Resolve(CONTAINER_ROOT + pkg, JoinWith(relSegs, '/')) == CONTAINER_ROOT + pkg + "/" + JoinWith(relSegs, '/')
  {
    var base := ["data", "data", pkg];
    ContainerSegmentsNames(pkg);
    ResolveNames(base, relSegs);
    ContainerBaseOfName(pkg);
  }

  lemma ContainerSegmentsNames(pkg: string)
    requires IsNameSegment(pkg)
    ensures var base := ["data", "data", pkg]; forall i :: 0 <= i < |base| ==> IsNameSegment(base[i])
  {
    DataIsName();
  }

  lemma DataIsName()
    ensures IsNameSegment("data")
  {
    var d := "data";
    assert |d| == 4 && d[0] == 'd' && d[1] == 'a' && d[2] == 't' && d[3] == 'a';
    assert d != "." && d != "..";
    assert forall i :: 0 <= i < |d| ==> d[i] != '/';
  }

  /** The container of a package is the rooted path data/data/<package>. */
  lemma ContainerBaseOfName(pkg: string)
    ensures CONTAINER_ROOT + pkg == "/" + JoinWith(["data", "data", pkg], '/')
  {
    var segs := ["data", "data", pkg];
    assert segs[1..][1..] == [pkg];
    assert JoinWith(segs[1..], '/') == "data" + "/" + pkg;
    assert JoinWith(segs, '/') == "data" + "/" + ("data" + "/" + pkg);
  }

  // ---------------------------------------------------------------------
  // Quoting for the device shell
  // ---------------------------------------------------------------------

  predicate IsQuote(c: char) {
    c == '\''
  }

  /**
   * Every single quote becomes a backslash and a quote: the escaped text is
   * empty only for an empty path, never starts with a bare quote, and is
   * the path itself when there is no quote.
   */
  function EscapePath(p: string): (r: string)
    ensures r == [] <==> p == []
    ensures r == [] || r[0] != '\''
    ensures '\'' !in p ==> r == p
  {
    ReplaceEach(p, IsQuote, "\\'")
  }

  /** Turns each backslash-quote pair back into a quote. */
  function Unescape(s: string): string {
    if s == [] then []
    else if |s| >= 2 && s[0] == '\\' && s[1] == '\'' then "'" + Unescape(s[2..])
    else [s[0]] + Unescape(s[1..])
  }

  /** Unescaping the escaped path gives the path back: escaping loses nothing. */
  lemma {:induction false} UnescapeEscape(p: string)
    ensures Unescape(EscapePath(p)) == p
    decreases |p|
  {
    if p != [] {
      var rest := EscapePath(p[1..]);
      UnescapeEscape(p[1..]);
      if p[0] == '\'' {
        assert EscapePath(p) == "\\'" + rest;
        assert ("\\'" + rest)[2..] == rest;
      } else {
        assert EscapePath(p) == [p[0]] + rest;
        assert ([p[0]] + rest)[1..] == rest;
      }
    }
  }

  /** In the escaped text every quote is preceded by a backslash. */
  lemma {:induction false} EscapedQuotesFollowBackslash(p: string)
    ensures var r := EscapePath(p);
            forall i :: 0 <= i < |r| && r[i] == '\'' ==> 0 < i && r[i - 1] == '\\'
    decreases |p|
  {
    if p != [] {
      EscapedQuotesFollowBackslash(p[1..]);
      var rest := EscapePath(p[1..]);
      var head := if p[0] == '\'' then "\\'" else [p[0]];
      assert EscapePath(p) == head + rest;
      var r := head + rest;
      forall i | 0 <= i < |r| && r[i] == '\'' ensures 0 < i && r[i - 1] == '\\' {
        if i >= |head| {
          assert r[i] == rest[i - |head|];
          if i > |head| {
            assert r[i - 1] == rest[i - 1 - |head|];
          }
        }
      }
    }
  }

  // ---------------------------------------------------------------------
  // Base and directory names
  // ---------------------------------------------------------------------

  /** The index of the last `c` in `s`, or -1 when there is none. */
  function LastIndex(s: string, c: char): (r: int)
    ensures -1 <= r < |s| && (0 <= r ==> s[r] == c)
    ensures forall i :: r < i < |s| ==> s[i] != c
  {
    if s == [] then -1 else if s[|s| - 1] == c then |s| - 1 else LastIndex(s[..|s| - 1], c)
  }

  /** `path.posix.basename` of a resolved path: the text after its last slash. */
  function Basename(p: string): (r: string)
    ensures forall i :: 0 <= i < |r| ==> r[i] != '/'
  {
    p[LastIndex(p, '/') + 1..]
  }

  /** `path.posix.dirname` of a resolved path: the text before its last slash, or the root. */
  function Dirname(p: string): (r: string)
    requires StartsWith(p, "/")
    ensures StartsWith(r, "/")
  {
    assert p[0] == '/';
    var k := LastIndex(p, '/');
    if k == 0 then "/" else p[..k]
  }

  /** A path is its directory name, a slash and its base name. */
  lemma DirnameBasename(p: string)
    requires StartsWith(p, "/") && !StartsWith(p, "//")
    ensures (Dirname(p) == "/" && p == "/" + Basename(p))
            || (Dirname(p) != "/" && p == Dirname(p) + "/" + Basename(p))
  {
    var k := LastIndex(p, '/');
    assert p[0] == '/';
    if k == 0 {
      assert p == "/" + p[1..];
    } else {
      assert p == p[..k] + "/" + p[k + 1..];
      assert k > 1 && p[..k] != "/";
    }
  }

  /** The temporary copy of a container file: its base name directly under /data/local/tmp. */
  function TmpDestination(pathInContainer: string): (r: string)
    ensures StartsWith(r, DEVICE_TMP_ROOT)
    ensures forall i :: |DEVICE_TMP_ROOT| <= i < |r| ==> r[i] != '/'
  {
    PrefixParts(DEVICE_TMP_ROOT, Basename(pathInContainer));
    DEVICE_TMP_ROOT + Basename(pathInContainer)
  }

  // ---------------------------------------------------------------------
  // The adb requests of pulling, pushing and deleting a file
  // ---------------------------------------------------------------------

  /** A request to the device: a shell command, a transfer, or a media scan by the settings app. */
  datatype AdbCall = Shell(args: seq<string>) | Pull(remote: string) | Push(remote: string) | SettingsScan(remote: string)

  datatype FileError =
    | FolderGiven(remotePath: string)
    | FileGiven(remotePath: string)
    | BadContainerPath(remotePath: string)
    | ContainerAccess(packageId: string, cause: string)
    | AdbFailure(cause: string)
    | NotAFile(path: string)
    | NotAFolder(path: string)
    | StillExists(path: string)
  {
    /** Whether the error is an invalid-argument error of the protocol. */
    predicate IsInvalidArgument() { FolderGiven? || FileGiven? }

    function Message(): string {
      match this
      case FolderGiven(p) =>
        "It is expected that remote path points to a file and not to a folder. '" + p + "' is given instead"
      case FileGiven(p) =>
        "It is expected that remote path points to a folder and not to a file. '" + p + "' is given instead"
      case BadContainerPath(p) => ContainerPathError(p)
      case ContainerAccess(pkg, cause) =>
        "Cannot access the container of '" + pkg + "' application. "
        + "Is the application installed and has 'debuggable' build option set to true? "
        + "Original error: " + cause
      case AdbFailure(cause) => cause
      case NotAFile(p) => "The item at '" + p + "' is not a file"
      case NotAFolder(p) => "The item at '" + p + "' is not a folder"
      case StillExists(p) => "The item at '" + p + "' still exists after being deleted. Is it writable?"
    }
  }

  /** The requests issued, in order, and the outcome. */
  datatype Plan<T> = Plan(calls: seq<AdbCall>, result: Result<T, FileError>)

  const ANDROID_MEDIA_RESCAN_INTENT := "android.intent.action.MEDIA_SCANNER_SCAN_FILE"

  function RunAs(packageId: string, command: string): AdbCall {
    Shell(["run-as", packageId, command])
  }

  /** A path as a single-quoted shell word. */
  function Quoted(p: string): string {
    "'" + EscapePath(p) + "'"
  }

  /** The steps issued when the first `succeeding` of them succeed: all of them, or up to the one that fails. */
  function RunSteps(steps: seq<AdbCall>, succeeding: nat): (r: seq<AdbCall>)
    ensures succeeding < |steps| ==> r == steps[..succeeding + 1]
    ensures |steps| <= succeeding ==> r == steps
  {
    if succeeding < |steps| then steps[..succeeding + 1] else steps
  }

  /** The outcome of a transfer that fails with `error` or succeeds. */
  function Transfer(error: Option<string>): (r: Result<(), FileError>)
    ensures r.Ok? <==> error.None?
  {
    if error.Some? then Err(AdbFailure(error.value)) else Ok(())
  }

  /**
   * The outcome once a `finally` block has issued its cleanup request: a
   * failing cleanup throws, and its error replaces the outcome.
   */
  function AfterCleanup<T>(outcome: Result<T, FileError>, cleanupError: Option<string>): (r: Result<T, FileError>)
    ensures cleanupError.None? ==> r == outcome
    ensures cleanupError.Some? ==> r == Err(AdbFailure(cleanupError.value))
  {
    if cleanupError.Some? then Err(AdbFailure(cleanupError.value)) else outcome
  }

  /** The commands that bring a container file into the temporary folder, where adb can read it. */
  function PullSteps(packageId: string, pathInContainer: string): (r: seq<AdbCall>)
    ensures |r| == 2 && forall k :: 0 <= k < |r| ==> r[k].Shell?
  {
    [RunAs(packageId, "chmod 777 " + Quoted(pathInContainer)),
     RunAs(packageId, "cp -f " + Quoted(pathInContainer) + " " + Quoted(TmpDestination(pathInContainer)))]
  }

  /**
   * Pulling `remotePath`. `succeeding` run-as commands succeed before one
   * fails with `cause`, the adb transfer fails with `pullError` or not,
   * and removing the temporary copy fails with `cleanupError` or not; the
   * file's content is not part of the model.
   */
  function PullFile(remotePath: string, succeeding: nat, cause: string, pullError: Option<string>,
                    cleanupError: Option<string>): (r: Plan<()>)
    ensures EndsWith(remotePath, "/") <==> r.result == Err(FolderGiven(remotePath))
    ensures r.result.Err? && r.result.error.IsInvalidArgument() ==> r.calls == []
  {
    if EndsWith(remotePath, "/") then Plan([], Err(FolderGiven(remotePath)))
    else if StartsWith(remotePath, [CONTAINER_PATH_MARKER]) then
      match ParseContainerPath(remotePath)
      case Err(_) => Plan([], Err(BadContainerPath(remotePath)))
      case Ok((packageId, pathInContainer)) =>
        var steps := PullSteps(packageId, pathInContainer);
        var tmp := TmpDestination(pathInContainer);
        if succeeding < |steps| then Plan(RunSteps(steps, succeeding), Err(ContainerAccess(packageId, cause)))
        else Plan(steps + [Pull(tmp), Shell(["rm", "-f", tmp])], AfterCleanup(Transfer(pullError), cleanupError))
    else Plan([Pull(remotePath)], Transfer(pullError))
  }

  /** The requests by which a scan makes a pushed file known to the media library. */
  function ScanMedia(remotePath: string, apiLevel: int): (r: seq<AdbCall>)
    ensures |r| == 1
    ensures apiLevel >= 29 <==> r[0] == SettingsScan(remotePath)
    ensures apiLevel < 29 ==> r[0].Shell? && r[0].args != [] && r[0].args[|r[0].args| - 1] == "file://" + remotePath
  {
    if apiLevel >= 29 then [SettingsScan(remotePath)]
    else [Shell(["am", "broadcast", "-a", ANDROID_MEDIA_RESCAN_INTENT, "-d", "file://" + remotePath])]
  }

  /** The commands that create a container file and fill it from its temporary copy. */
  function PushSteps(packageId: string, pathInContainer: string): (r: seq<AdbCall>)
    requires StartsWith(pathInContainer, "/")
    ensures |r| == 5
  {
    var tmp := TmpDestination(pathInContainer);
    [RunAs(packageId, "mkdir -p " + Quoted(Dirname(pathInContainer))),
     RunAs(packageId, "touch " + Quoted(pathInContainer)),
     RunAs(packageId, "chmod 777 " + Quoted(pathInContainer)),
     Push(tmp),
     RunAs(packageId, "cp -f " + Quoted(tmp) + " " + Quoted(pathInContainer))]
  }

  /**
   * Pushing to `remotePath`. In a container the first `succeeding` steps
   * succeed before one fails with `cause`; elsewhere the transfer fails with
   * `pushError` or not. Removing the temporary copy of a container push
   * fails with `cleanupError` or not; failures of the media scan are ignored.
   */
  function PushFile(remotePath: string, apiLevel: int, succeeding: nat, cause: string, pushError: Option<string>,
                    cleanupError: Option<string>): (r: Plan<()>)
    ensures EndsWith(remotePath, "/") <==> r.result == Err(FolderGiven(remotePath))
    ensures r.result.Err? && r.result.error.IsInvalidArgument() ==> r.calls == []
  {
    if EndsWith(remotePath, "/") then Plan([], Err(FolderGiven(remotePath)))
    else if StartsWith(remotePath, [CONTAINER_PATH_MARKER]) then
      match ParseContainerPath(remotePath)
      case Err(_) => Plan([], Err(BadContainerPath(remotePath)))
      case Ok((packageId, pathInContainer)) =>
        var steps := PushSteps(packageId, pathInContainer);
        var cleanup := [Shell(["rm", "-f", TmpDestination(pathInContainer)])];
        if succeeding < |steps| then
          Plan(RunSteps(steps, succeeding) + cleanup, AfterCleanup(Err(ContainerAccess(packageId, cause)), cleanupError))
        else Plan(steps + cleanup, AfterCleanup(Ok(()), cleanupError))
    else if pushError.Some? then Plan([Push(remotePath)], Err(AdbFailure(pushError.value)))
    else Plan([Push(remotePath)] + ScanMedia(remotePath, apiLevel), Ok(()))
  }

  /** The end of a test command: the pass flag is printed only when the test holds. */
  const PASS_COMMAND := " ] && echo __PASS__"

  /** The shell test `[ -<op> path ]`, run inside the package's container when there is one. */
  function FsCheck(p: string, op: char, runAs: Option<string>): (r: AdbCall)
    ensures r.Shell? && |r.args| == 1
    ensures EndsWith(r.args[0], Quoted(p) + PASS_COMMAND)
    ensures runAs.Some? ==> StartsWith(r.args[0], "run-as " + runAs.value + " ")
    ensures runAs.None? ==> StartsWith(r.args[0], "[ -" + [op] + " ")
  {
    var test := "[ -" + [op] + " ";
    var check := test + (Quoted(p) + PASS_COMMAND);
    PrefixParts(test, Quoted(p) + PASS_COMMAND);
    SuffixParts(test, Quoted(p) + PASS_COMMAND);
    if runAs.Some? then
      var container := "run-as " + runAs.value + " ";
      PrefixParts(container, check);
      assert container + check == (container + test) + (Quoted(p) + PASS_COMMAND);
      SuffixParts(container + test, Quoted(p) + PASS_COMMAND);
      Shell([container + check])
    else Shell([check])
  }

  /** A test passes when its output holds the pass flag; a failing command counts as empty output. */
  predicate Passed(output: string) {
    Contains(output, "__PASS__")
  }

  /** The removal of a file, or with `recursive` of a folder. */
  function RemoveCall(p: string, runAs: Option<string>, recursive: bool): AdbCall {
    var flag := if recursive then "-fr" else "-f";
    if runAs.Some? then RunAs(runAs.value, "rm " + flag + " " + Quoted(p)) else Shell(["rm", flag, p])
  }

  /** The item to delete: the path inside the container with its package, or the path itself. */
  function DeleteTarget(remotePath: string): (r: Result<(string, Option<string>), FileError>)
    ensures r.Err? ==> r.error == BadContainerPath(remotePath)
    ensures !StartsWith(remotePath, [CONTAINER_PATH_MARKER]) ==> r == Ok((remotePath, None))
  {
    if StartsWith(remotePath, [CONTAINER_PATH_MARKER]) then
      match ParseContainerPath(remotePath)
      case Err(_) => Err(BadContainerPath(remotePath))
      case Ok((packageId, pathInContainer)) => Ok((pathInContainer, Some(packageId)))
    else Ok((remotePath, None))
  }

  /**
   * Deleting a file or, for a path ending with a slash, a folder. `lsOk`
   * says whether the container can be listed (failing with `cause`); the
   * three outputs are those of the presence test, the kind test and the
   * presence test after the removal, and the removal fails with `rmError`
   * or not.
   */
  function DeleteFileOrFolder(remotePath: string, lsOk: bool, cause: string,
                              presentOut: string, kindOut: string, rmError: Option<string>,
                              presentAfterOut: string): (r: Plan<bool>)
    ensures r.result == Err(BadContainerPath(remotePath)) <==> DeleteTarget(remotePath).Err?
    ensures DeleteTarget(remotePath).Err? ==> r.calls == []
    ensures r.result.Err? ==> !r.result.error.IsInvalidArgument()
    ensures r.result.Ok? ==>
              (DeleteTarget(remotePath).Ok? && r.calls != []
               && r.calls[|r.calls| - 1] == FsCheck(DeleteTarget(remotePath).value.0, 'e', DeleteTarget(remotePath).value.1))
  {
    match DeleteTarget(remotePath)
    case Err(e) => Plan([], Err(e))
    case Ok((dst, runAs)) => DeleteAt(dst, runAs, !EndsWith(remotePath, "/"), lsOk, cause, presentOut, kindOut, rmError, presentAfterOut)
  }

  /**
   * Deleting the item at `dst` once the path is parsed: list the container,
   * test for presence and kind, remove, and test for presence again. The
   * answer, true or false, always comes from a presence test; a failing
   * removal throws its own error.
   */
  function DeleteAt(dst: string, runAs: Option<string>, expectsFile: bool, lsOk: bool, cause: string,
                    presentOut: string, kindOut: string, rmError: Option<string>,
                    presentAfterOut: string): (r: Plan<bool>)
    ensures r.result.Err? ==> !r.result.error.IsInvalidArgument() && !r.result.error.BadContainerPath?
    ensures r.result.Ok? ==> r.calls != [] && r.calls[|r.calls| - 1] == FsCheck(dst, 'e', runAs)
  {
    var listing := if runAs.Some? then [RunAs(runAs.value, "ls")] else [];
    if runAs.Some? && !lsOk then Plan(listing, Err(ContainerAccess(runAs.value, cause)))
    else
      var probed := listing + [FsCheck(dst, 'e', runAs)];
      if !Passed(presentOut) then Plan(probed, Ok(false))
      else
        var kinded := probed + [FsCheck(dst, if expectsFile then 'f' else 'd', runAs)];
        if !Passed(kindOut) then Plan(kinded, Err(if expectsFile then NotAFile(dst) else NotAFolder(dst)))
        else
          var removal := kinded + [RemoveCall(dst, runAs, !expectsFile)];
          if rmError.Some? then Plan(removal, Err(AdbFailure(rmError.value)))
          else
          var removed := removal + [FsCheck(dst, 'e', runAs)];
          if Passed(presentAfterOut) then Plan(removed, Err(StillExists(dst))) else Plan(removed, Ok(true))
  }

  /** Deleting a file; a path ending with a slash is refused (with a message that swaps file and folder). */
  function MobileDeleteFile(remotePath: string, lsOk: bool, cause: string,
                            presentOut: string, kindOut: string, rmError: Option<string>,
                            presentAfterOut: string): (r: Plan<bool>)
    ensures EndsWith(remotePath, "/") <==> r.result == Err(FileGiven(remotePath))
    ensures r.result.Err? && r.result.error.IsInvalidArgument() ==> r.calls == []
  {
    if EndsWith(remotePath, "/") then Plan([], Err(FileGiven(remotePath)))
    else DeleteFileOrFolder(remotePath, lsOk, cause, presentOut, kindOut, rmError, presentAfterOut)
  }

  /** An ordinary path is pulled directly: one transfer and nothing else. */
  lemma PullPlainPath(remotePath: string, succeeding: nat, cause: string, pullError: Option<string>,
                      cleanupError: Option<string>)
    requires !EndsWith(remotePath, "/") && !StartsWith(remotePath, [CONTAINER_PATH_MARKER])
    ensures PullFile(remotePath, succeeding, cause, pullError, cleanupError) == Plan([Pull(remotePath)], Transfer(pullError))
  {
  }

  /**
   * A container file is read through a temporary copy under /data/local/tmp:
   * the copy is what adb pulls, and removing it is the last request, whether
   * the transfer succeeds or not. A failing removal overrides the outcome.
   */
  lemma PullFromContainer(remotePath: string, packageId: string, pathInContainer: string,
                          succeeding: nat, cause: string, pullError: Option<string>, cleanupError: Option<string>)
    requires !EndsWith(remotePath, "/") && ParseContainerPath(remotePath) == Ok((packageId, pathInContainer))
    ensures var r := PullFile(remotePath, succeeding, cause, pullError, cleanupError);
            var tmp := TmpDestination(pathInContainer);
            && (r.result.Ok? <==> 2 <= succeeding && pullError.None? && cleanupError.None?)
            && (2 <= succeeding && cleanupError.Some? ==> r.result == Err(AdbFailure(cleanupError.value)))
            && (succeeding < 2 ==> r.result == Err(ContainerAccess(packageId, cause)) && Pull(tmp) !in r.calls)
            && (2 <= succeeding ==> r.calls[|r.calls| - 2] == Pull(tmp) && r.calls[|r.calls| - 1] == Shell(["rm", "-f", tmp]))
  {
    assert remotePath[0] == CONTAINER_PATH_MARKER;
    assert StartsWith(remotePath, [CONTAINER_PATH_MARKER]);
  }

  /** An ordinary path is pushed directly, and a successful push is followed by a media scan. */
  lemma PushPlainPath(remotePath: string, apiLevel: int, succeeding: nat, cause: string, pushError: Option<string>,
                      cleanupError: Option<string>)
    requires !EndsWith(remotePath, "/") && !StartsWith(remotePath, [CONTAINER_PATH_MARKER])
    ensures var r := PushFile(remotePath, apiLevel, succeeding, cause, pushError, cleanupError);
            && r.calls[0] == Push(remotePath)
            && (r.result.Ok? <==> pushError.None?)
            && (r.result.Ok? ==> r.calls[1..] == ScanMedia(remotePath, apiLevel))
            && (r.result.Err? ==> r.calls == [Push(remotePath)])
  {
  }

  /**
   * A container file is written through a temporary copy: whichever step
   * fails, the last request removes the copy, and the push succeeds exactly
   * when all five steps and the removal do. A failing removal overrides the
   * outcome.
   */
  lemma PushToContainer(remotePath: string, apiLevel: int, packageId: string, pathInContainer: string,
                        succeeding: nat, cause: string, pushError: Option<string>, cleanupError: Option<string>)
    requires !EndsWith(remotePath, "/") && ParseContainerPath(remotePath) == Ok((packageId, pathInContainer))
    ensures var r := PushFile(remotePath, apiLevel, succeeding, cause, pushError, cleanupError);
            r.calls != [] && r.calls[|r.calls| - 1] == Shell(["rm", "-f", TmpDestination(pathInContainer)])
    ensures PushFile(remotePath, apiLevel, succeeding, cause, pushError, cleanupError).result.Ok? <==>
              5 <= succeeding && cleanupError.None?
    ensures var r := PushFile(remotePath, apiLevel, succeeding, cause, pushError, cleanupError);
            r.result.Err? ==>
              r.result.error == (if cleanupError.Some? then AdbFailure(cleanupError.value) else ContainerAccess(packageId, cause))
  {
    assert remotePath[0] == CONTAINER_PATH_MARKER;
    assert StartsWith(remotePath, [CONTAINER_PATH_MARKER]);
    var r := PushFile(remotePath, apiLevel, succeeding, cause, pushError, cleanupError);
    var steps := PushSteps(packageId, pathInContainer);
    var cleanup := [Shell(["rm", "-f", TmpDestination(pathInContainer)])];
    if succeeding < 5 {
      assert r == Plan(RunSteps(steps, succeeding) + cleanup, AfterCleanup(Err(ContainerAccess(packageId, cause)), cleanupError));
    } else {
      assert r == Plan(steps + cleanup, AfterCleanup(Ok(()), cleanupError));
    }
  }

  /**
   * Once the path is valid and its container can be listed: an absent item
   * gives false, the item is removed only when both tests pass, a failing
   * removal throws its error, and true means the item was present, of the
   * expected kind, removed, and gone afterwards.
   */
  lemma DeleteOutcome(remotePath: string, dst: string, runAs: Option<string>, lsOk: bool, cause: string,
                      presentOut: string, kindOut: string, rmError: Option<string>, presentAfterOut: string)
    requires DeleteTarget(remotePath) == Ok((dst, runAs)) && (runAs.Some? ==> lsOk)
    ensures var r := DeleteFileOrFolder(remotePath, lsOk, cause, presentOut, kindOut, rmError, presentAfterOut);
            var recursive := EndsWith(remotePath, "/");
            && (r.result == Ok(false) <==> !Passed(presentOut))
            && (r.result == Ok(true) <==> Passed(presentOut) && Passed(kindOut) && rmError.None? && !Passed(presentAfterOut))
            && (RemoveCall(dst, runAs, recursive) in r.calls <==> Passed(presentOut) && Passed(kindOut))
            && (Passed(presentOut) && Passed(kindOut) && rmError.Some? ==>
                  r.result == Err(AdbFailure(rmError.value)) && r.calls[|r.calls| - 1] == RemoveCall(dst, runAs, recursive))
  {
  }

  /** The same when the container cannot be listed: nothing is probed or removed. */
  lemma DeleteUnlistable(remotePath: string, dst: string, packageId: string, cause: string,
                         presentOut: string, kindOut: string, rmError: Option<string>, presentAfterOut: string)
    requires DeleteTarget(remotePath) == Ok((dst, Some(packageId)))
    ensures DeleteFileOrFolder(remotePath, false, cause, presentOut, kindOut, rmError, presentAfterOut)
            == Plan([RunAs(packageId, "ls")], Err(ContainerAccess(packageId, cause)))
  {
  }

  /** Removing a folder is a request of its own: no test, listing or file removal looks like it. */
  lemma FolderRemovalDistinct(p: string, q: Option<string>, d: string, runAs: Option<string>, op: char, packageId: string)
    ensures RemoveCall(p, q, true) != RemoveCall(d, runAs, false)
    ensures RemoveCall(p, q, true) != FsCheck(d, op, runAs)
    ensures RemoveCall(p, q, true) != RunAs(packageId, "ls")
  {
    var folder := RemoveCall(p, q, true);
    assert |folder.args| == 3;
    if q.Some? {
      var c := "rm -fr " + Quoted(p);
      assert folder.args[2] == c && c[5] == 'r';
      if runAs.Some? {
        var f := "rm -f " + Quoted(d);
        assert RemoveCall(d, runAs, false).args[2] == f && f[5] == ' ';
      }
    } else {
      if runAs.None? {
        assert RemoveCall(d, runAs, false).args[1] == "-f" != "-fr";
      }
    }
  }

  /**
   * Deleting a file never tests for or removes a folder: the path's last
   * character is never a slash there, so the folder branch of the shared
   * deletion code is dead.
   */
  lemma MobileDeleteFileOnlyFiles(remotePath: string, lsOk: bool, cause: string,
                                  presentOut: string, kindOut: string, rmError: Option<string>, presentAfterOut: string)
    ensures var r := MobileDeleteFile(remotePath, lsOk, cause, presentOut, kindOut, rmError, presentAfterOut);
            && (r.result.Err? ==> !r.result.error.NotAFolder?)
            && forall p, runAs :: RemoveCall(p, runAs, true) !in r.calls
  {
    var r := MobileDeleteFile(remotePath, lsOk, cause, presentOut, kindOut, rmError, presentAfterOut);
    if !EndsWith(remotePath, "/") && DeleteTarget(remotePath).Ok? {
      var (dst, target) := DeleteTarget(remotePath).value;
      forall p, runAs ensures RemoveCall(p, runAs, true) !in r.calls {
        FolderRemovalDistinct(p, runAs, dst, target, 'e', target.GetOr([]));
        FolderRemovalDistinct(p, runAs, dst, target, 'f', target.GetOr([]));
      }
    }
  }
}
