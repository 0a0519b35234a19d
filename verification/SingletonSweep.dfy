// What a start of the embedded browser may delete of the run before it
// (packages/webview_cef/common/cef_cache_paths.cc and .h).

module SingletonSweep {
  import opened Prelude

  const SINGLETON_LOCK_NAME := "SingletonLock"
  const SINGLETON_COOKIE_NAME := "SingletonCookie"
  const SINGLETON_SOCKET_NAME := "SingletonSocket"
  const SOCKET_DIR_PREFIX := "org.chromium.Chromium."
  const ABANDONED_SOCKET_DIR_GRACE_SECONDS := 300
  const FRESH_SINGLETON_STATE_GRACE_SECONDS := 10

  // --- Paths -------------------------------------------------------------------------

  predicate IsSeparator(c: char) {
    c == '/' || c == '\\'
  }

  predicate NoSeparator(s: string) {
    forall i :: 0 <= i < |s| ==> !IsSeparator(s[i])
  }

  lemma SeparatorsAreTheseTwo(c: char)
    ensures IsSeparator(c) <==> c in "/\\"
  {
  }

  /** A path without the separators at its end; a lone separator stays. */
  function Stripped(path: string): (out: string)
    ensures out <= path && (path != "" ==> out != "")
    ensures |out| > 1 ==> !IsSeparator(out[|out| - 1])
    ensures forall i :: |out| <= i < |path| ==> IsSeparator(path[i])
  {
    if |path| > 1 && IsSeparator(path[|path| - 1]) then Stripped(path[..|path| - 1]) else path
  }

  method StripTrailingSeparators(path: string) returns (out: string)
    ensures out == Stripped(path)
  {
    out := path;
    while |out| > 1 && IsSeparator(out[|out| - 1])
      invariant Stripped(out) == Stripped(path)
      decreases |out|
    {
      out := out[..|out| - 1];
    }
  }

  /** The index of the last separator. */
  function LastSeparator(path: string): (index: Option<nat>)
    ensures index == None ==> NoSeparator(path)
    ensures index.Some? ==> index.value < |path| && IsSeparator(path[index.value])
    ensures index.Some? ==> NoSeparator(path[index.value + 1..])
  {
    if path == "" then None
    else if IsSeparator(path[|path| - 1]) then Some(|path| - 1)
    else
      var index := LastSeparator(path[..|path| - 1]);
      assert forall i :: 0 <= i < |path| - 1 ==> path[..|path| - 1][i] == path[i];
      assert index.Some? ==>
          path[index.value + 1..] == path[..|path| - 1][index.value + 1..] + [path[|path| - 1]];
      index
  }

  /** The directory holding `path`, or "" when there is none. */
  function ParentDirectory(path: string): string {
    var trimmed := Stripped(path);
    match LastSeparator(trimmed)
    case None => ""
    case Some(slash) => if slash == 0 then "" else trimmed[..slash]
  }

  function WithoutLeadingSeparators(path: string): string {
    if path != "" && IsSeparator(path[0]) then WithoutLeadingSeparators(path[1..]) else path
  }

  function Joined(left: string, right: string): string {
    if left == "" then right
    else if right == "" then left
    else Stripped(left) + "/" + WithoutLeadingSeparators(right)
  }

  method JoinPath(left: string, right: string) returns (out: string)
    ensures out == Joined(left, right)
  {
    if left == "" {
      return right;
    }
    if right == "" {
      return left;
    }
    out := StripTrailingSeparators(left);
    out := out + "/";
    var start := 0;
    assert right[0..] == right;
    while start < |right| && IsSeparator(right[start])
      invariant 0 <= start <= |right|
      invariant WithoutLeadingSeparators(right[start..]) == WithoutLeadingSeparators(right)
    {
      start := start + 1;
    }
    out := out + right[start..];
  }

  predicate IsChromiumSocketDir(path: string, tempDir: string) {
    path != "" && tempDir != "" &&
    var candidate := Stripped(path);
    var prefix := Joined(Stripped(tempDir), SOCKET_DIR_PREFIX);
    && |candidate| > |prefix|
    && candidate[..|prefix|] == prefix
    && NoSeparator(candidate[|prefix|..])
  }

  // --- The plan ----------------------------------------------------------------------

  datatype SingletonState = SingletonState(
    lockPresent: bool, cookiePresent: bool, socketPresent: bool,
    socketTarget: string, socketAnswers: bool, ageSeconds: int)

  datatype AbandonedSocketDir = AbandonedSocketDir(path: string, socketAnswers: bool, ageSeconds: int)

  datatype Sweep = Sweep(ownerAlive: bool, files: seq<string>, directories: seq<string>)

  predicate OwnerAlive(state: SingletonState) {
    state.socketPresent && state.socketAnswers
  }

  /** Files so young that they may be those of an instance starting up. */
  predicate PossiblyMidStartup(state: SingletonState) {
    && (state.lockPresent || state.cookiePresent || state.socketPresent)
    && state.ageSeconds < FRESH_SINGLETON_STATE_GRACE_SECONDS
  }

  predicate OwnerIsDead(root: string, state: SingletonState) {
    root != "" && !OwnerAlive(state) && !PossiblyMidStartup(state)
  }

  /** The socket directory the singleton link names, as long as it is one of Chromium's. */
  function OrphanOf(state: SingletonState, tempDir: string): Option<string> {
    var orphan := ParentDirectory(state.socketTarget);
    if IsChromiumSocketDir(orphan, tempDir) then Some(Stripped(orphan)) else None
  }

  predicate IsAbandoned(dir: AbandonedSocketDir, tempDir: string) {
    && !dir.socketAnswers
    && dir.ageSeconds >= ABANDONED_SOCKET_DIR_GRACE_SECONDS
    && IsChromiumSocketDir(Stripped(dir.path), tempDir)
  }

  /** Whether `directory` is reported by one of `dirs` that is abandoned. */
  ghost predicate ReportedAbandoned(directory: string, tempDir: string, dirs: seq<AbandonedSocketDir>) {
    exists dir :: dir in dirs && IsAbandoned(dir, tempDir) && directory == Stripped(dir.path)
  }

  ghost predicate IsOrphan(directory: string, root: string, state: SingletonState, tempDir: string) {
    OwnerIsDead(root, state) && OrphanOf(state, tempDir) == Some(directory)
  }

  ghost predicate Distinct(s: seq<string>) {
    forall i, j :: 0 <= i < j < |s| ==> s[i] != s[j]
  }

  function FilesOf(root: string, state: SingletonState): seq<string> {
    (if state.lockPresent then [Joined(root, SINGLETON_LOCK_NAME)] else [])
    + (if state.cookiePresent then [Joined(root, SINGLETON_COOKIE_NAME)] else [])
    + (if state.socketPresent then [Joined(root, SINGLETON_SOCKET_NAME)] else [])
  }

  /**
   * What a sweep is: the files of a dead owner and no others; the directory
   * its socket lay in and the abandoned ones found, each once.
   */
  ghost predicate IsPlan(root: string, state: SingletonState, tempDir: string, dirs: seq<AbandonedSocketDir>,
                         sweep: Sweep) {
    && sweep.ownerAlive == OwnerAlive(state)
    && sweep.files == (if OwnerIsDead(root, state) then FilesOf(root, state) else [])
    && Distinct(sweep.directories)
    && forall d :: d in sweep.directories <==>
                     IsOrphan(d, root, state, tempDir) || ReportedAbandoned(d, tempDir, dirs)
  }

  function OrphansOf(root: string, state: SingletonState, tempDir: string): seq<string> {
    if !OwnerIsDead(root, state) then []
    else match OrphanOf(state, tempDir) case None => [] case Some(orphan) => [orphan]
  }

  function WithDirectory(directories: seq<string>, tempDir: string, dir: AbandonedSocketDir): seq<string> {
    if IsAbandoned(dir, tempDir) && Stripped(dir.path) !in directories then directories + [Stripped(dir.path)]
    else directories
  }

  /** `planned`, and behind it the abandoned directories in the order they were found. */
  function Collected(planned: seq<string>, tempDir: string, dirs: seq<AbandonedSocketDir>): seq<string> {
    if dirs == [] then planned
    else WithDirectory(Collected(planned, tempDir, dirs[..|dirs| - 1]), tempDir, dirs[|dirs| - 1])
  }

  function Planned(root: string, state: SingletonState, tempDir: string, dirs: seq<AbandonedSocketDir>): Sweep {
    Sweep(OwnerAlive(state),
          if OwnerIsDead(root, state) then FilesOf(root, state) else [],
          Collected(OrphansOf(root, state, tempDir), tempDir, dirs))
  }

  method PlanSingletonSweep(root: string, state: SingletonState, tempDir: string, dirs: seq<AbandonedSocketDir>)
    returns (sweep: Sweep)
    ensures sweep == Planned(root, state, tempDir, dirs)
    ensures IsPlan(root, state, tempDir, dirs, sweep)
  {
    hide IsChromiumSocketDir, ParentDirectory, Joined, Stripped, FilesOf, IsAbandoned, IsPlan;
    PlannedIsPlan(root, state, tempDir, dirs);
    var ownerAlive := state.socketPresent && state.socketAnswers;
    var anyFilePresent := state.lockPresent || state.cookiePresent || state.socketPresent;
    var possiblyMidStartup := anyFilePresent && state.ageSeconds < FRESH_SINGLETON_STATE_GRACE_SECONDS;
    var files: seq<string>, directories: seq<string> := [], [];
    if root != "" && !ownerAlive && !possiblyMidStartup {
      files := PlanFiles(root, state);
      directories := PlanOrphan(state, tempDir);
    }
    directories := AddAbandoned(directories, tempDir, dirs);
    sweep := Sweep(ownerAlive, files, directories);
  }

  method PlanFiles(root: string, state: SingletonState) returns (files: seq<string>)
    ensures files == FilesOf(root, state)
  {
    files := [];
    if state.lockPresent {
      var lock := JoinPath(root, SINGLETON_LOCK_NAME);
      files := files + [lock];
    }
    if state.cookiePresent {
      var cookie := JoinPath(root, SINGLETON_COOKIE_NAME);
      files := files + [cookie];
    }
    if state.socketPresent {
      var socket := JoinPath(root, SINGLETON_SOCKET_NAME);
      files := files + [socket];
    }
  }

  method PlanOrphan(state: SingletonState, tempDir: string) returns (directories: seq<string>)
    ensures directories == match OrphanOf(state, tempDir) case None => [] case Some(orphan) => [orphan]
  {
    directories := [];
    var orphan := ParentDirectory(state.socketTarget);
    if IsChromiumSocketDir(orphan, tempDir) {
      var path := StripTrailingSeparators(orphan);
      directories := [path];
    }
  }

  method AddAbandoned(planned: seq<string>, tempDir: string, dirs: seq<AbandonedSocketDir>)
    returns (directories: seq<string>)
    ensures directories == Collected(planned, tempDir, dirs)
  {
    hide IsChromiumSocketDir, Stripped;
    directories := planned;
    var i := 0;
    while i < |dirs|
      invariant 0 <= i <= |dirs|
      invariant directories == Collected(planned, tempDir, dirs[..i])
    {
      var dir := dirs[i];
      assert dirs[..i + 1][..i] == dirs[..i];
      i := i + 1;
      if dir.socketAnswers {
        continue;
      }
      if dir.ageSeconds < ABANDONED_SOCKET_DIR_GRACE_SECONDS {
        continue;
      }
      var path := StripTrailingSeparators(dir.path);
      if !IsChromiumSocketDir(path, tempDir) {
        continue;
      }
      if path !in directories {
        directories := directories + [path];
      }
    }
    assert dirs[..i] == dirs;
  }

  lemma OneMoreReport(tempDir: string, dirs: seq<AbandonedSocketDir>, d: string)
    requires dirs != []
    ensures var last := dirs[|dirs| - 1];
      ReportedAbandoned(d, tempDir, dirs) <==>
        || ReportedAbandoned(d, tempDir, dirs[..|dirs| - 1])
        || (IsAbandoned(last, tempDir) && d == Stripped(last.path))
  {
    hide IsAbandoned, Stripped;
    var before, last := dirs[..|dirs| - 1], dirs[|dirs| - 1];
    assert dirs == before + [last];
    if ReportedAbandoned(d, tempDir, dirs) {
      var dir :| dir in dirs && IsAbandoned(dir, tempDir) && d == Stripped(dir.path);
      assert dir in before || dir == last;
    }
    if ReportedAbandoned(d, tempDir, before) {
      var dir :| dir in before && IsAbandoned(dir, tempDir) && d == Stripped(dir.path);
      assert dir in dirs;
    }
    assert last in dirs;
  }

  /** Each abandoned directory is collected, once, and nothing else is. */
  lemma {:induction false} CollectedOnce(planned: seq<string>, tempDir: string, dirs: seq<AbandonedSocketDir>)
    requires Distinct(planned)
    ensures Distinct(Collected(planned, tempDir, dirs))
    ensures forall d :: d in Collected(planned, tempDir, dirs) <==> d in planned || ReportedAbandoned(d, tempDir, dirs)
  {
    hide IsAbandoned, Stripped;
    if dirs != [] {
      CollectedOnce(planned, tempDir, dirs[..|dirs| - 1]);
      hide ReportedAbandoned;
      forall d
        ensures d in Collected(planned, tempDir, dirs) <==> d in planned || ReportedAbandoned(d, tempDir, dirs)
      {
        OneMoreReport(tempDir, dirs, d);
      }
    }
  }

  lemma PlannedIsPlan(root: string, state: SingletonState, tempDir: string, dirs: seq<AbandonedSocketDir>)
    ensures IsPlan(root, state, tempDir, dirs, Planned(root, state, tempDir, dirs))
  {
    hide IsAbandoned, Stripped, OrphanOf, FilesOf, OwnerIsDead, ReportedAbandoned;
    CollectedOnce(OrphansOf(root, state, tempDir), tempDir, dirs);
  }

  // --- Where the planned deletions lie ---------------------------------------------------

  lemma {:induction false} LastSeparatorIs(path: string, i: nat)
    requires i < |path| && IsSeparator(path[i]) && NoSeparator(path[i + 1..])
    ensures LastSeparator(path) == Some(i)
  {
    if i < |path| - 1 {
      assert path[i + 1..][|path| - 2 - i] == path[|path| - 1];
      assert path[..|path| - 1][i + 1..] == path[i + 1..][..|path| - 2 - i];
      LastSeparatorIs(path[..|path| - 1], i);
    }
  }

  /** A name under a directory: the path as joined, and back up. */
  lemma ParentOfChild(dir: string, name: string)
    requires dir != "" && name != "" && NoSeparator(name)
    ensures var path := dir + "/" + name; Stripped(path) == path && ParentDirectory(path) == dir
  {
    var path := dir + "/" + name;
    assert path[|path| - 1] == name[|name| - 1];
    assert path[|dir| + 1..] == name;
    LastSeparatorIs(path, |dir|);
    assert path[..|dir|] == dir;
  }

  lemma JoinedIsChild(left: string, name: string)
    requires left != "" && name != "" && NoSeparator(name)
    ensures Joined(left, name) == Stripped(left) + "/" + name
    ensures ParentDirectory(Joined(left, name)) == Stripped(left)
  {
    ParentOfChild(Stripped(left), name);
  }

  lemma {:induction false} StrippedTwice(path: string)
    ensures Stripped(Stripped(path)) == Stripped(path)
  {
  }

  lemma StrippedKeepsVerdict(path: string, tempDir: string)
    ensures IsChromiumSocketDir(Stripped(path), tempDir) <==> IsChromiumSocketDir(path, tempDir)
  {
    StrippedTwice(path);
  }

  lemma PrefixUnder(tempDir: string)
    requires tempDir != ""
    ensures Joined(Stripped(tempDir), SOCKET_DIR_PREFIX) == Stripped(tempDir) + "/" + SOCKET_DIR_PREFIX
  {
    StrippedTwice(tempDir);
  }

  lemma InTwo(s: string, prefix: string)
    requires |s| > |prefix| && s[..|prefix|] == prefix
    ensures s == prefix + s[|prefix|..]
  {
  }

  /** A directory that may be deleted lies directly in the temp directory and has Chromium's prefix ... */
  lemma SocketDirIsDirectChild(path: string, tempDir: string) returns (suffix: string)
    requires IsChromiumSocketDir(path, tempDir)
    ensures suffix != "" && NoSeparator(suffix)
    ensures Stripped(path) == Stripped(tempDir) + "/" + (SOCKET_DIR_PREFIX + suffix)
    ensures ParentDirectory(path) == Stripped(tempDir)
  {
    var prefix := Stripped(tempDir) + "/" + SOCKET_DIR_PREFIX;
    PrefixUnder(tempDir);
    suffix := Stripped(path)[|prefix|..];
    InTwo(Stripped(path), prefix);
    hide Stripped, Joined, ParentDirectory, NoSeparator;
    Associative(Stripped(tempDir) + "/", SOCKET_DIR_PREFIX, suffix);
    ParentOfStripped(path);
    NameHasNoSeparator(suffix);
    ParentOfChild(Stripped(tempDir), SOCKET_DIR_PREFIX + suffix);
  }

  lemma NameHasNoSeparator(suffix: string)
    requires NoSeparator(suffix)
    ensures NoSeparator(SOCKET_DIR_PREFIX + suffix)
  {
  }

  lemma ParentOfStripped(path: string)
    ensures ParentDirectory(path) == ParentDirectory(Stripped(path))
  {
    StrippedTwice(path);
  }

  /** ... and every such directory may be. */
  lemma DirectChildIsSocketDir(path: string, tempDir: string, suffix: string)
    requires tempDir != "" && suffix != "" && NoSeparator(suffix)
    requires Stripped(path) == Stripped(tempDir) + "/" + (SOCKET_DIR_PREFIX + suffix)
    ensures IsChromiumSocketDir(path, tempDir)
  {
    PrefixUnder(tempDir);
    Associative(Stripped(tempDir) + "/", SOCKET_DIR_PREFIX, suffix);
    var prefix := Stripped(tempDir) + "/" + SOCKET_DIR_PREFIX;
    assert Stripped(path)[|prefix|..] == suffix;
  }

  /** A directory's child, written as a directory listing does: no second separator under the root. */
  function ChildPath(dir: string, name: string): string
    requires dir != ""
  {
    if IsSeparator(dir[|dir| - 1]) then dir + name else dir + "/" + name
  }

  /** Under the root the prefix is joined with a second separator, which no child has. */
  lemma RootChildIsNotRecognised(tempDir: string, suffix: string)
    requires tempDir != "" && suffix != "" && NoSeparator(suffix)
    requires IsSeparator(Stripped(tempDir)[|Stripped(tempDir)| - 1])
    ensures !IsChromiumSocketDir(Stripped(tempDir) + (SOCKET_DIR_PREFIX + suffix), tempDir)
  {
    var dir := Stripped(tempDir);
    var path := dir + (SOCKET_DIR_PREFIX + suffix);
    PrefixUnder(tempDir);
    assert |dir| == 1;
    assert path[|path| - 1] == suffix[|suffix| - 1];
    assert Stripped(path) == path;
    hide Stripped, Joined, NoSeparator;
    assert path[1] == SOCKET_DIR_PREFIX[0] && (dir + "/" + SOCKET_DIR_PREFIX)[1] == '/';
  }

  lemma OtherChildIsRecognised(tempDir: string, suffix: string)
    requires tempDir != "" && suffix != "" && NoSeparator(suffix)
    ensures IsChromiumSocketDir(Stripped(tempDir) + "/" + (SOCKET_DIR_PREFIX + suffix), tempDir)
  {
    hide Stripped, IsChromiumSocketDir, NoSeparator;
    NameHasNoSeparator(suffix);
    ParentOfChild(Stripped(tempDir), SOCKET_DIR_PREFIX + suffix);
    DirectChildIsSocketDir(Stripped(tempDir) + "/" + (SOCKET_DIR_PREFIX + suffix), tempDir, suffix);
  }

  /** A child of the temp directory is recognised unless the temp directory is the root itself. */
  lemma ChildrenAreRecognised(tempDir: string, suffix: string)
    requires tempDir != "" && suffix != "" && NoSeparator(suffix)
    ensures IsChromiumSocketDir(ChildPath(Stripped(tempDir), SOCKET_DIR_PREFIX + suffix), tempDir)
       <==> !IsSeparator(Stripped(tempDir)[|Stripped(tempDir)| - 1])
  {
    hide Stripped, IsChromiumSocketDir, NoSeparator, IsSeparator;
    if IsSeparator(Stripped(tempDir)[|Stripped(tempDir)| - 1]) {
      RootChildIsNotRecognised(tempDir, suffix);
    } else {
      OtherChildIsRecognised(tempDir, suffix);
    }
  }

  // --- What a start plans to delete --------------------------------------------------------

  /** The singleton files may be deleted: there is a cache, no one listens, and no one may still be starting up. */
  predicate IsStale(root: string, state: SingletonState) {
    && root != ""
    && (!state.socketPresent || !state.socketAnswers)
    && (state.ageSeconds >= 10 || !(state.lockPresent || state.cookiePresent || state.socketPresent))
  }

  lemma FilesUnderRoot(root: string, name: string)
    requires root != "" && name != "" && NoSeparator(name)
    ensures Joined(root, name) == Stripped(root) + "/" + name
  {
    JoinedIsChild(root, name);
  }

  /**
   * A stale lock, cookie or socket link is always deleted -- each one that is
   * there, whether or not the others are -- in that order, and nothing is
   * deleted that is not stale.
   */
  lemma StaleFilesAreSwept(root: string, state: SingletonState, tempDir: string, dirs: seq<AbandonedSocketDir>)
    ensures var sweep, stale := Planned(root, state, tempDir, dirs), IsStale(root, state);
      && sweep.ownerAlive == (state.socketPresent && state.socketAnswers)
      && (Stripped(root) + "/" + "SingletonLock" in sweep.files <==> state.lockPresent && stale)
      && (Stripped(root) + "/" + "SingletonCookie" in sweep.files <==> state.cookiePresent && stale)
      && (Stripped(root) + "/" + "SingletonSocket" in sweep.files <==> state.socketPresent && stale)
      && (stale ==> sweep.files == (if state.lockPresent then [Stripped(root) + "/" + "SingletonLock"] else [])
                                   + (if state.cookiePresent then [Stripped(root) + "/" + "SingletonCookie"] else [])
                                   + (if state.socketPresent then [Stripped(root) + "/" + "SingletonSocket"] else []))
      && (!stale ==> sweep.files == [])
  {
    hide Joined, Stripped, Collected, OrphansOf;
    if root != "" {
      FilesUnderRoot(root, "SingletonLock");
      FilesUnderRoot(root, "SingletonCookie");
      FilesUnderRoot(root, "SingletonSocket");
      NamesDiffer(root);
    }
  }

  /** With the files goes the directory the dead link names, before any other. */
  lemma StaleDirectoryIsSwept(root: string, state: SingletonState, tempDir: string, dirs: seq<AbandonedSocketDir>,
                              suffix: string)
    requires IsStale(root, state) && tempDir != "" && suffix != "" && NoSeparator(suffix)
    requires Stripped(ParentDirectory(state.socketTarget))
          == Stripped(tempDir) + "/" + ("org.chromium.Chromium." + suffix)
    ensures var sweep := Planned(root, state, tempDir, dirs);
      sweep.directories != [] && sweep.directories[0] == Stripped(ParentDirectory(state.socketTarget))
  {
    DirectChildIsSocketDir(ParentDirectory(state.socketTarget), tempDir, suffix);
    CollectedInOrder(OrphansOf(root, state, tempDir), tempDir, [], dirs);
    EmptyIsNeutral(dirs);
    hide Stripped, ParentDirectory, IsChromiumSocketDir;
  }

  /** A directory no one answers in is always deleted once it is old enough, wherever the singleton files stand. */
  lemma AbandonedDirectoriesAreSwept(root: string, state: SingletonState, tempDir: string,
                                     dirs: seq<AbandonedSocketDir>, dir: AbandonedSocketDir, suffix: string)
    requires dir in dirs && !dir.socketAnswers && dir.ageSeconds >= 300
    requires tempDir != "" && suffix != "" && NoSeparator(suffix)
    requires Stripped(dir.path) == Stripped(tempDir) + "/" + ("org.chromium.Chromium." + suffix)
    ensures Stripped(dir.path) in Planned(root, state, tempDir, dirs).directories
  {
    DirectChildIsSocketDir(dir.path, tempDir, suffix);
    StrippedKeepsVerdict(dir.path, tempDir);
    hide Stripped, IsChromiumSocketDir, OrphanOf, Distinct;
    CollectedOnce(OrphansOf(root, state, tempDir), tempDir, dirs);
    assert IsAbandoned(dir, tempDir);
    assert ReportedAbandoned(Stripped(dir.path), tempDir, dirs);
  }

  /**
   * And a directory is deleted for no other reason: it is the one a stale link
   * names, or one was found there that does not answer and is old enough.
   */
  lemma OnlyTheseDirectoriesAreSwept(root: string, state: SingletonState, tempDir: string,
                                     dirs: seq<AbandonedSocketDir>, d: string)
    requires d in Planned(root, state, tempDir, dirs).directories
    ensures || (IsStale(root, state) && d == Stripped(ParentDirectory(state.socketTarget)))
            || (exists dir :: dir in dirs && d == Stripped(dir.path) && !dir.socketAnswers && dir.ageSeconds >= 300)
    ensures Stripped(tempDir) + "/" + "org.chromium.Chromium." <= Stripped(d)
    ensures ParentDirectory(d) == Stripped(tempDir)
  {
    PlannedIsPlan(root, state, tempDir, dirs);
    StrippedKeepsVerdict(ParentDirectory(state.socketTarget), tempDir);
    assert IsChromiumSocketDir(d, tempDir);
    hide IsChromiumSocketDir, ParentDirectory, Stripped, Planned, Distinct;
    var suffix := SocketDirIsDirectChild(d, tempDir);
    Associative(Stripped(tempDir) + "/", "org.chromium.Chromium.", suffix);
  }

  /** Directories found later are planned behind those found earlier. */
  lemma {:induction false} CollectedInOrder(planned: seq<string>, tempDir: string, dirs: seq<AbandonedSocketDir>,
                                            more: seq<AbandonedSocketDir>)
    ensures Collected(planned, tempDir, dirs) <= Collected(planned, tempDir, dirs + more)
    ensures dirs == [] ==> Collected(planned, tempDir, dirs) == planned
  {
    hide IsAbandoned, Stripped;
    if more == [] {
      EmptyIsNeutral(dirs);
    } else {
      var all := dirs + more;
      assert all[..|all| - 1] == dirs + more[..|more| - 1];
      CollectedInOrder(planned, tempDir, dirs, more[..|more| - 1]);
    }
  }

  /**
   * Every planned directory is a direct child of the temp directory with the
   * Chromium prefix. One that answers or is too young is only planned as the
   * dead owner's own, or because an abandoned directory was found at the same path.
   */
  lemma DirectoriesAreSafe(root: string, state: SingletonState, tempDir: string, dirs: seq<AbandonedSocketDir>,
                           sweep: Sweep)
    requires IsPlan(root, state, tempDir, dirs, sweep)
    ensures forall d :: d in sweep.directories ==>
              IsChromiumSocketDir(d, tempDir) && ParentDirectory(d) == Stripped(tempDir)
    ensures forall dir :: dir in dirs && Stripped(dir.path) in sweep.directories
                          && (dir.socketAnswers || dir.ageSeconds < ABANDONED_SOCKET_DIR_GRACE_SECONDS) ==>
              || ReportedAbandoned(Stripped(dir.path), tempDir, dirs)
              || (OwnerIsDead(root, state) && Stripped(dir.path) == Stripped(ParentDirectory(state.socketTarget)))
  {
    hide IsChromiumSocketDir, ParentDirectory;
    forall d | d in sweep.directories
      ensures IsChromiumSocketDir(d, tempDir) && ParentDirectory(d) == Stripped(tempDir)
    {
      StrippedKeepsVerdict(ParentDirectory(state.socketTarget), tempDir);
      var suffix := SocketDirIsDirectChild(d, tempDir);
    }
  }

  /** Files are only planned when nobody answers and they are old enough; then each lies under `root`, once. */
  lemma FilesAreSafe(root: string, state: SingletonState, tempDir: string, dirs: seq<AbandonedSocketDir>, sweep: Sweep)
    requires IsPlan(root, state, tempDir, dirs, sweep) && sweep.files != []
    ensures !state.socketAnswers || !state.socketPresent
    ensures state.ageSeconds >= FRESH_SINGLETON_STATE_GRACE_SECONDS
    ensures forall f :: f in sweep.files ==> ParentDirectory(f) == Stripped(root)
    ensures Distinct(sweep.files)
  {
    hide Joined, ParentDirectory, Stripped, FilesOf, Distinct;
    NamesDiffer(root);
    FilesUnder(root);
    FilesAreThree(root, state);
  }

  lemma FilesUnder(root: string)
    requires root != ""
    ensures ParentDirectory(Joined(root, SINGLETON_LOCK_NAME)) == Stripped(root)
    ensures ParentDirectory(Joined(root, SINGLETON_COOKIE_NAME)) == Stripped(root)
    ensures ParentDirectory(Joined(root, SINGLETON_SOCKET_NAME)) == Stripped(root)
  {
    hide Joined, ParentDirectory, Stripped;
    JoinedIsChild(root, SINGLETON_LOCK_NAME);
    JoinedIsChild(root, SINGLETON_COOKIE_NAME);
    JoinedIsChild(root, SINGLETON_SOCKET_NAME);
  }

  lemma FilesAreThree(root: string, state: SingletonState)
    requires Joined(root, SINGLETON_LOCK_NAME) != Joined(root, SINGLETON_COOKIE_NAME)
    requires Joined(root, SINGLETON_LOCK_NAME) != Joined(root, SINGLETON_SOCKET_NAME)
    requires Joined(root, SINGLETON_COOKIE_NAME) != Joined(root, SINGLETON_SOCKET_NAME)
    ensures Distinct(FilesOf(root, state))
    ensures FilesOf(root, state) != [] ==> state.lockPresent || state.cookiePresent || state.socketPresent
    ensures forall f :: f in FilesOf(root, state) ==>
              f == Joined(root, SINGLETON_LOCK_NAME) || f == Joined(root, SINGLETON_COOKIE_NAME)
              || f == Joined(root, SINGLETON_SOCKET_NAME)
  {
    hide Joined;
  }

  lemma NamesDiffer(root: string)
    ensures Joined(root, SINGLETON_LOCK_NAME) != Joined(root, SINGLETON_COOKIE_NAME)
    ensures Joined(root, SINGLETON_LOCK_NAME) != Joined(root, SINGLETON_SOCKET_NAME)
    ensures Joined(root, SINGLETON_COOKIE_NAME) != Joined(root, SINGLETON_SOCKET_NAME)
  {
    assert SINGLETON_COOKIE_NAME[9] != SINGLETON_SOCKET_NAME[9];
    var cookie, socket := Joined(root, SINGLETON_COOKIE_NAME), Joined(root, SINGLETON_SOCKET_NAME);
    assert cookie[|cookie| - 6] == 'C' && socket[|socket| - 6] == 'S';
  }

  /** While the owner answers its files stay, and so does its directory if it answers wherever it is found. */
  lemma LiveOwnerIsSpared(root: string, state: SingletonState, tempDir: string, dirs: seq<AbandonedSocketDir>,
                          sweep: Sweep)
    requires IsPlan(root, state, tempDir, dirs, sweep) && OwnerAlive(state)
    requires forall dir :: dir in dirs && Stripped(dir.path) == Stripped(ParentDirectory(state.socketTarget)) ==>
               dir.socketAnswers
    ensures sweep.files == [] && Stripped(ParentDirectory(state.socketTarget)) !in sweep.directories
  {
  }

  // --- A second sweep ---------------------------------------------------------------------

  /** The singleton files left behind by a sweep, as the next start finds them. */
  function StateAfter(root: string, state: SingletonState, sweep: Sweep): SingletonState {
    var lock := state.lockPresent && Joined(root, SINGLETON_LOCK_NAME) !in sweep.files;
    var cookie := state.cookiePresent && Joined(root, SINGLETON_COOKIE_NAME) !in sweep.files;
    var socket := state.socketPresent && Joined(root, SINGLETON_SOCKET_NAME) !in sweep.files;
    SingletonState(lock, cookie, socket,
                   if state.socketPresent && !socket then "" else state.socketTarget,
                   socket && state.socketAnswers,
                   if lock || cookie || socket then state.ageSeconds else 0)
  }

  function DirsAfter(dirs: seq<AbandonedSocketDir>, sweep: Sweep): (left: seq<AbandonedSocketDir>)
    ensures forall dir :: dir in left <==> dir in dirs && Stripped(dir.path) !in sweep.directories
  {
    if dirs == [] then []
    else if Stripped(dirs[0].path) in sweep.directories then DirsAfter(dirs[1..], sweep)
    else [dirs[0]] + DirsAfter(dirs[1..], sweep)
  }

  lemma NothingAbandonedIsLeft(root: string, state: SingletonState, tempDir: string, dirs: seq<AbandonedSocketDir>,
                               sweep: Sweep, d: string)
    requires IsPlan(root, state, tempDir, dirs, sweep)
    ensures !ReportedAbandoned(d, tempDir, DirsAfter(dirs, sweep))
  {
  }

  lemma NoOrphanWithoutTarget(state: SingletonState, tempDir: string)
    requires state.socketTarget == ""
    ensures OrphanOf(state, tempDir) == None
  {
  }

  /** A dead owner's files are all gone, and the link's target with the link; a live one's all stay. */
  lemma StateIsCleared(root: string, state: SingletonState, tempDir: string, dirs: seq<AbandonedSocketDir>,
                       first: Sweep)
    requires IsPlan(root, state, tempDir, dirs, first)
    ensures var after := StateAfter(root, state, first);
      if OwnerIsDead(root, state) then
        && !after.lockPresent && !after.cookiePresent && !after.socketPresent
        && after.socketTarget == (if state.socketPresent then "" else state.socketTarget)
      else !OwnerIsDead(root, after)
  {
    hide Joined, Distinct, ReportedAbandoned, IsOrphan;
  }

  lemma OrphanIsCleared(root: string, state: SingletonState, tempDir: string, dirs: seq<AbandonedSocketDir>,
                        first: Sweep, d: string)
    requires IsPlan(root, state, tempDir, dirs, first)
    ensures IsOrphan(d, root, StateAfter(root, state, first), tempDir)
       <==> OwnerIsDead(root, state) && !state.socketPresent && OrphanOf(state, tempDir) == Some(d)
  {
    hide StateAfter, IsPlan, IsChromiumSocketDir, ParentDirectory, Stripped;
    var after := StateAfter(root, state, first);
    StateIsCleared(root, state, tempDir, dirs, first);
    if after.socketTarget == "" {
      NoOrphanWithoutTarget(after, tempDir);
    }
  }

  /**
   * Sweeping again at the same ages finds nothing -- exactly unless a
   * directory is named by a socket link that is not there, which is not a
   * state the probe reports.
   */
  lemma SweepConverges(root: string, state: SingletonState, tempDir: string, dirs: seq<AbandonedSocketDir>,
                       first: Sweep, second: Sweep)
    requires IsPlan(root, state, tempDir, dirs, first)
    requires IsPlan(root, StateAfter(root, state, first), tempDir, DirsAfter(dirs, first), second)
    ensures second.files == []
    ensures second.directories == [] <==>
            !(OwnerIsDead(root, state) && !state.socketPresent && OrphanOf(state, tempDir).Some?)
  {
    StateIsCleared(root, state, tempDir, dirs, first);
    var after, left := StateAfter(root, state, first), DirsAfter(dirs, first);
    forall d
      ensures d in second.directories <==>
              OwnerIsDead(root, state) && !state.socketPresent && OrphanOf(state, tempDir) == Some(d)
    {
      OrphanIsCleared(root, state, tempDir, dirs, first, d);
      NothingAbandonedIsLeft(root, state, tempDir, dirs, first, d);
      hide StateAfter, DirsAfter, OwnerIsDead, OrphanOf, IsOrphan, ReportedAbandoned, Distinct;
    }
    hide StateAfter, DirsAfter, OwnerIsDead, OrphanOf, IsPlan;
    OnlyThat(second.directories,
             if OwnerIsDead(root, state) && !state.socketPresent then OrphanOf(state, tempDir) else None);
  }

  lemma OnlyThat(s: seq<string>, only: Option<string>)
    requires forall d :: d in s <==> only == Some(d)
    ensures s == [] <==> only == None
  {
    if s != [] {
      assert s[0] in s;
    }
    if only.Some? {
      assert only.value in s;
    }
  }
}
