// Moving the runner's logs aside before a new run
// (centroid-hmi/windows/runner/log_rotation.cpp and RotateLogs in utils.cpp).

module LogRotation {
  import opened Prelude

  // --- Archive names -----------------------------------------------------------------

  /** The last index of `s` holding one of `chars`. */
  function LastOf(s: string, chars: string): (index: Option<nat>)
    ensures index == None ==> forall i :: 0 <= i < |s| ==> s[i] !in chars
    ensures index.Some? ==> index.value < |s| && s[index.value] in chars
    ensures index.Some? ==> forall i :: index.value < i < |s| ==> s[i] !in chars
  {
    if s == "" then None
    else if s[|s| - 1] in chars then Some(|s| - 1)
    else LastOf(s[..|s| - 1], chars)
  }

  /** Where the extension begins; a dot in a directory's name is not one. */
  function ExtensionDot(path: string): (dot: Option<nat>)
    ensures dot.Some? ==> dot.value < |path| && path[dot.value] == '.'
    ensures dot.Some? ==> forall i :: dot.value < i < |path| ==> path[i] !in "./\\"
    ensures dot == None ==>
              forall i :: 0 <= i < |path| && path[i] == '.' ==> exists j :: i < j < |path| && path[j] in "/\\"
  {
    var slash, dot := LastOf(path, "/\\"), LastOf(path, ".");
    if dot == None then None
    else if slash.Some? && dot.value < slash.value then None
    else dot
  }

  function Decimal(n: nat): (digits: string)
    ensures digits != ""
    ensures forall c :: c in digits ==> '0' <= c <= '9'
  {
    var last := ["0123456789"[n % 10]];
    if n < 10 then last else Decimal(n / 10) + last
  }

  function Value(digits: string): int {
    if digits == "" then 0
    else Value(digits[..|digits| - 1]) * 10 + (digits[|digits| - 1] as int - '0' as int)
  }

  lemma {:induction false} DecimalIsRead(n: nat)
    ensures Value(Decimal(n)) == n
  {
    var last := "0123456789"[n % 10];
    if n < 10 {
      assert Decimal(n) == [last] && Value([last][..0]) == 0;
    } else {
      DecimalIsRead(n / 10);
      assert Decimal(n)[..|Decimal(n)| - 1] == Decimal(n / 10);
    }
  }

  /** A number as it is written: digits, and no zero in front of others. */
  predicate IsNumeral(digits: string) {
    && digits != "" && (digits[0] == '0' ==> |digits| == 1)
    && forall i :: 0 <= i < |digits| ==> '0' <= digits[i] <= '9'
  }

  lemma DigitIsItsName(d: char)
    requires '0' <= d <= '9'
    ensures "0123456789"[d as int - '0' as int] == d
  {
  }

  /** One more digit behind a number. */
  lemma OneMoreDigit(n: nat, d: char)
    requires '0' <= d <= '9'
    ensures Decimal(n * 10 + (d as int - '0' as int)) == if n == 0 then [d] else Decimal(n) + [d]
  {
    var v := n * 10 + (d as int - '0' as int);
    assert v / 10 == n && v % 10 == d as int - '0' as int;
    DigitIsItsName(d);
  }

  lemma FrontIsNumeral(digits: string)
    requires IsNumeral(digits) && |digits| > 1
    ensures IsNumeral(digits[..|digits| - 1]) && digits[..|digits| - 1][0] == digits[0] != '0'
  {
  }

  lemma ValueOfMore(front: string, last: char)
    ensures Value(front + [last]) == Value(front) * 10 + (last as int - '0' as int)
  {
    assert (front + [last])[..|front|] == front;
  }

  lemma OneMoreIsWritten(front: string, last: char)
    requires '0' <= last <= '9' && Value(front) > 0 && Decimal(Value(front)) == front
    ensures Value(front + [last]) > 0 && Decimal(Value(front + [last])) == front + [last]
  {
    hide Decimal, Value;
    ValueOfMore(front, last);
    OneMoreDigit(Value(front), last);
  }

  /** And every number is written in that one way. */
  lemma {:induction false} NumeralIsWritten(digits: string)
    requires IsNumeral(digits)
    ensures Value(digits) >= 0 && Decimal(Value(digits)) == digits
    ensures digits[0] != '0' ==> Value(digits) > 0
  {
    var front, last := digits[..|digits| - 1], digits[|digits| - 1];
    assert digits == front + [last];
    if |digits| == 1 {
      assert front == "";
      OneMoreDigit(0, last);
    } else {
      hide Decimal, Value;
      FrontIsNumeral(digits);
      NumeralIsWritten(front);
      OneMoreIsWritten(front, last);
    }
  }

  function GenerationPath(base: string, generation: int): string {
    if generation <= 0 then base
    else
      var suffix := "." + Decimal(generation);
      match ExtensionDot(base)
      case None => base + suffix
      case Some(dot) => base[..dot] + suffix + base[dot..]
  }

  /** An archive's name in the three pieces it is made of. */
  lemma GenerationInPieces(base: string, generation: nat) returns (cut: nat)
    requires generation > 0
    ensures cut <= |base|
    ensures ExtensionDot(base).Some? ==> cut == ExtensionDot(base).value
    ensures ExtensionDot(base) == None ==> cut == |base|
    ensures GenerationPath(base, generation) == base[..cut] + ("." + Decimal(generation)) + base[cut..]
  {
    match ExtensionDot(base)
    case None =>
      cut := |base|;
      assert base[..cut] == base && base[cut..] == "";
      EmptyIsNeutral(base + ("." + Decimal(generation)));
    case Some(dot) =>
      cut := dot;
  }

  lemma SameMiddle(a: string, x: string, y: string, z: string)
    requires a + x + z == a + y + z
    ensures x == y
  {
    assert |x| == |y|;
    assert (a + x + z)[|a|..|a| + |x|] == x;
    assert (a + y + z)[|a|..|a| + |y|] == y;
  }

  /** Two generations of one log never share a name, the live file included. */
  lemma GenerationsAreDistinct(base: string, a: nat, b: nat)
    requires GenerationPath(base, a) == GenerationPath(base, b)
    ensures a == b
  {
    if a > 0 && b > 0 {
      var cut := GenerationInPieces(base, a);
      var again := GenerationInPieces(base, b);
      SameMiddle(base[..cut], "." + Decimal(a), "." + Decimal(b), base[cut..]);
      assert ("." + Decimal(a))[1..] == Decimal(a) && ("." + Decimal(b))[1..] == Decimal(b);
      DecimalIsRead(a);
      DecimalIsRead(b);
    } else if a > 0 {
      var cut := GenerationInPieces(base, a);
    } else if b > 0 {
      var cut := GenerationInPieces(base, b);
    }
  }

  /** The last index is the only one with nothing after it. */
  lemma LastOfIs(s: string, chars: string, i: nat)
    requires i < |s| && s[i] in chars && forall k :: i < k < |s| ==> s[k] !in chars
    ensures LastOf(s, chars) == Some(i)
  {
  }

  /** An archive lies in the directory of its log and keeps its extension. */
  lemma ArchiveKeepsDirectoryAndExtension(base: string, generation: nat)
    ensures var archive := GenerationPath(base, generation);
      && LastOf(archive, "/\\") == LastOf(base, "/\\")
      && (LastOf(base, "/\\").Some? ==> base[..LastOf(base, "/\\").value + 1] <= archive)
      && (ExtensionDot(base).Some? ==>
            && ExtensionDot(archive).Some?
            && archive[ExtensionDot(archive).value..] == base[ExtensionDot(base).value..])
  {
    if generation > 0 {
      var cut := GenerationInPieces(base, generation);
      SameDirectory(base, generation, cut);
      SlashBefore(base, cut);
      if LastOf(base, "/\\").Some? {
        ShorterPrefix(base, LastOf(base, "/\\").value + 1, cut, GenerationPath(base, generation));
      }
      if ExtensionDot(base).Some? {
        SameExtension(base, generation, cut);
      }
    }
  }

  lemma {:induction false} LastOfBefore(before: string, after: string, chars: string)
    requires forall c :: c in after ==> c !in chars
    ensures LastOf(before + after, chars) == LastOf(before, chars)
  {
    if after == "" {
      EmptyIsNeutral(before);
    } else {
      LastOfBefore(before, after[..|after| - 1], chars);
      assert (before + after)[..|before + after| - 1] == before + after[..|after| - 1];
      assert after[|after| - 1] in after;
    }
  }

  lemma NoSlashAfter(base: string, cut: nat)
    requires cut <= |base| && (ExtensionDot(base) == Some(cut) || cut == |base|)
    ensures forall c :: c in base[cut..] ==> c !in "/\\"
  {
    forall i | 0 <= i < |base[cut..]|
      ensures base[cut..][i] !in "/\\"
    {
      assert base[cut..][i] == base[cut + i];
    }
  }

  lemma NumberHasNoSlash(generation: nat)
    ensures forall c :: c in "." + Decimal(generation) ==> c !in "/\\"
  {
    hide Decimal;
  }

  /** Putting text without a slash into another before its last part moves no last slash. */
  lemma LastSlashStays(before: string, middle: string, after: string)
    requires forall c :: c in middle ==> c !in "/\\"
    requires forall c :: c in after ==> c !in "/\\"
    ensures LastOf(before + middle + after, "/\\") == LastOf(before + after, "/\\")
  {
    hide LastOf;
    LastOfBefore(before, after, "/\\");
    LastOfBefore(before + middle, after, "/\\");
    LastOfBefore(before, middle, "/\\");
  }

  lemma SameDirectory(base: string, generation: nat, cut: nat)
    requires generation > 0 && cut <= |base| && (ExtensionDot(base) == Some(cut) || cut == |base|)
    requires GenerationPath(base, generation) == base[..cut] + ("." + Decimal(generation)) + base[cut..]
    ensures LastOf(GenerationPath(base, generation), "/\\") == LastOf(base, "/\\")
    ensures base[..cut] <= GenerationPath(base, generation)
  {
    hide GenerationPath, ExtensionDot, Decimal, LastOf;
    NoSlashAfter(base, cut);
    NumberHasNoSlash(generation);
    LastSlashStays(base[..cut], "." + Decimal(generation), base[cut..]);
    assert base[..cut] + base[cut..] == base;
  }

  lemma SlashBefore(base: string, cut: nat)
    requires ExtensionDot(base) == Some(cut) || cut == |base|
    ensures LastOf(base, "/\\").Some? ==> LastOf(base, "/\\").value + 1 <= cut
  {
    if ExtensionDot(base) == Some(cut) {
      assert base[cut] == '.' && base[cut] !in "/\\";
    }
  }

  lemma ShorterPrefix(s: string, i: nat, j: nat, t: string)
    requires i <= j <= |s| && s[..j] <= t
    ensures s[..i] <= t
  {
    assert t[..j][..i] == s[..i];
  }

  lemma SameExtension(base: string, generation: nat, cut: nat)
    requires generation > 0 && ExtensionDot(base) == Some(cut)
    requires GenerationPath(base, generation) == base[..cut] + ("." + Decimal(generation)) + base[cut..]
    requires LastOf(GenerationPath(base, generation), "/\\") == LastOf(base, "/\\")
    ensures ExtensionDot(GenerationPath(base, generation)).Some?
    ensures var archive := GenerationPath(base, generation);
      archive[ExtensionDot(archive).value..] == base[cut..]
  {
    var archive, shift := GenerationPath(base, generation), |"." + Decimal(generation)|;
    hide GenerationPath;
    forall i | cut + shift <= i < |archive|
      ensures archive[i] == base[i - shift]
    {
    }
    LastOfIs(archive, ".", cut + shift);
    assert archive[cut + shift..] == base[cut..];
  }

  /** The number of a generation stands before the extension: hmi.log, hmi.1.log, hmi.2.log ... */
  lemma NumberBeforeExtension(stem: string, extension: string, generation: nat)
    requires extension != "" && extension[0] == '.' && forall i :: 0 < i < |extension| ==> extension[i] !in "./\\"
    ensures GenerationPath(stem + extension, 0) == stem + extension
    ensures generation > 0 ==>
              GenerationPath(stem + extension, generation) == stem + ("." + Decimal(generation)) + extension
  {
    var base := stem + extension;
    LastOfIs(base, ".", |stem|);
    assert base[..|stem|] == stem && base[|stem|..] == extension;
    hide Decimal;
    var slash := LastOf(base, "/\\");
    assert slash.Some? ==> slash.value < |stem|;
  }

  /** A file without one gets the number at its end, whatever dots its directory has. */
  lemma NumberAtTheEnd(directory: string, name: string, generation: nat)
    requires generation > 0 && (directory == "" || directory[|directory| - 1] in "/\\")
    requires forall i :: 0 <= i < |name| ==> name[i] !in "./\\"
    ensures GenerationPath(directory + name, generation) == directory + name + ("." + Decimal(generation))
  {
    hide Decimal;
    var base := directory + name;
    if directory != "" { LastOfIs(base, "/\\", |directory| - 1); }
  }

  // --- The plan ----------------------------------------------------------------------

  datatype Plan = Plan(deletes: seq<string>, renames: seq<(string, string)>)

  /** Step `i` of the renames: the oldest archive but one moves first. */
  function RenameAt(base: string, maxArchives: int, i: int): (string, string) {
    (GenerationPath(base, maxArchives - 1 - i), GenerationPath(base, maxArchives - i))
  }

  ghost predicate IsPlan(base: string, maxArchives: int, plan: Plan) {
    if maxArchives <= 0 then plan == Plan([base], [])
    else
      && plan.deletes == [GenerationPath(base, maxArchives)]
      && |plan.renames| == maxArchives
      && forall i :: 0 <= i < maxArchives ==> plan.renames[i] == RenameAt(base, maxArchives, i)
  }

  method PlanRotation(base: string, maxArchives: int) returns (plan: Plan)
    ensures IsPlan(base, maxArchives, plan)
  {
    hide GenerationPath;
    if maxArchives <= 0 {
      return Plan([base], []);
    }
    var deletes := [GenerationPath(base, maxArchives)];
    var renames := [];
    var generation := maxArchives - 1;
    while generation >= 0
      invariant -1 <= generation < maxArchives
      invariant |renames| == maxArchives - 1 - generation
      invariant forall i :: 0 <= i < |renames| ==> renames[i] == RenameAt(base, maxArchives, i)
    {
      renames := renames + [(GenerationPath(base, generation), GenerationPath(base, generation + 1))];
      generation := generation - 1;
    }
    plan := Plan(deletes, renames);
  }

  // --- What carrying it out does to the files -------------------------------------------

  type Files = map<string, string>

  /** The contents at a path, if there is a file. */
  function At(files: Files, path: string): Option<string> {
    if path in files then Some(files[path]) else None
  }

  /** A missing source is not an error and a destination is replaced. */
  function Moved(files: Files, rename: (string, string)): (moved: Files)
    ensures rename.0 != rename.1 ==>
              forall p :: At(moved, p) == if rename.0 !in files then At(files, p)
                                          else if p == rename.1 then At(files, rename.0)
                                          else if p == rename.0 then None
                                          else At(files, p)
  {
    if rename.0 in files then (files - {rename.0})[rename.1 := files[rename.0]] else files
  }

  function AllMoved(files: Files, renames: seq<(string, string)>): Files {
    if renames == [] then files
    else Moved(AllMoved(files, renames[..|renames| - 1]), renames[|renames| - 1])
  }

  function AllDeleted(files: Files, deletes: seq<string>): Files {
    if deletes == [] then files
    else AllDeleted(files, deletes[..|deletes| - 1]) - {deletes[|deletes| - 1]}
  }

  function Executed(files: Files, plan: Plan): Files {
    AllMoved(AllDeleted(files, plan.deletes), plan.renames)
  }

  class FileSystem {
    var files: Files

    constructor (files: Files)
      ensures this.files == files
    {
      this.files := files;
    }

    method DeleteFile(path: string)
      modifies this
      ensures files == old(files) - {path}
    {
      files := map p | p in files && p != path :: files[p];
    }

    method MoveFile(rename: (string, string))
      modifies this
      ensures files == Moved(old(files), rename)
    {
      if rename.0 in files {
        var contents := files[rename.0];
        DeleteFile(rename.0);
        files := files[rename.1 := contents];
      }
    }

    method RotateLogs(path: string, maxArchives: int) returns (ghost plan: Plan)
      modifies this
      ensures path != "" ==> IsPlan(path, maxArchives, plan)
      ensures files == if path == "" then old(files) else Executed(old(files), plan)
    {
      if path == "" {
        return Plan([], []);
      }
      var steps := PlanRotation(path, maxArchives);
      plan := steps;
      var i := 0;
      while i < |steps.deletes|
        invariant 0 <= i <= |steps.deletes|
        invariant files == AllDeleted(old(files), steps.deletes[..i])
      {
        assert steps.deletes[..i + 1][..i] == steps.deletes[..i];
        DeleteFile(steps.deletes[i]);
        i := i + 1;
      }
      assert steps.deletes[..i] == steps.deletes;
      i := 0;
      while i < |steps.renames|
        invariant 0 <= i <= |steps.renames|
        invariant files == AllMoved(AllDeleted(old(files), steps.deletes), steps.renames[..i])
      {
        assert steps.renames[..i + 1][..i] == steps.renames[..i];
        MoveFile(steps.renames[i]);
        i := i + 1;
      }
      assert steps.renames[..i] == steps.renames;
    }
  }

  // --- The effect is a shift --------------------------------------------------------------

  /** What generation k of a log holds; generation 0 is the live file. */
  function Generation(files: Files, base: string, k: int): Option<string> {
    At(files, GenerationPath(base, k))
  }

  ghost predicate IsGeneration(base: string, maxArchives: nat, path: string) {
    exists k :: 0 <= k <= maxArchives && path == GenerationPath(base, k)
  }

  ghost predicate OthersKept(base: string, maxArchives: nat, before: Files, after: Files) {
    forall p :: !IsGeneration(base, maxArchives, p) ==> At(after, p) == At(before, p)
  }

  /** A rename between two generations, seen by generation. */
  lemma RenameByGeneration(files: Files, base: string, from: nat, to: nat, k: nat)
    requires from != to
    ensures var after := Moved(files, (GenerationPath(base, from), GenerationPath(base, to)));
      Generation(after, base, k) ==
      if Generation(files, base, from) == None then Generation(files, base, k)
      else if k == to then Generation(files, base, from)
      else if k == from then None
      else Generation(files, base, k)
  {
    hide GenerationPath;
    if GenerationPath(base, from) == GenerationPath(base, to) {
      GenerationsAreDistinct(base, from, to);
    } else if GenerationPath(base, k) == GenerationPath(base, from) {
      GenerationsAreDistinct(base, k, from);
    } else if GenerationPath(base, k) == GenerationPath(base, to) {
      GenerationsAreDistinct(base, k, to);
    }
  }

  lemma RenameKeepsOthers(files: Files, base: string, maxArchives: nat, from: nat, to: nat)
    requires from != to && from <= maxArchives && to <= maxArchives
    ensures OthersKept(base, maxArchives, files, Moved(files, (GenerationPath(base, from), GenerationPath(base, to))))
  {
    hide GenerationPath;
    if GenerationPath(base, from) == GenerationPath(base, to) {
      GenerationsAreDistinct(base, from, to);
    }
    assert IsGeneration(base, maxArchives, GenerationPath(base, from));
    assert IsGeneration(base, maxArchives, GenerationPath(base, to));
  }

  /** The files after the first `i` renames, the slot of the oldest archive cleared before. */
  ghost predicate ShiftedDownTo(base: string, maxArchives: nat, i: nat, before: Files, after: Files) {
    forall k {:trigger Generation(after, base, k)} :: 0 <= k <= maxArchives ==>
      Generation(after, base, k) ==
      if k > maxArchives - i then Generation(before, base, k - 1)
      else if k == maxArchives - i then None
      else Generation(before, base, k)
  }

  lemma OneRename(base: string, maxArchives: nat, i: nat, before: Files, middle: Files)
    requires i < maxArchives && ShiftedDownTo(base, maxArchives, i, before, middle)
    ensures ShiftedDownTo(base, maxArchives, i + 1, before, Moved(middle, RenameAt(base, maxArchives, i)))
  {
    var after := Moved(middle, RenameAt(base, maxArchives, i));
    forall k {:trigger Generation(after, base, k)} | 0 <= k <= maxArchives
      ensures Generation(after, base, k) ==
              if k > maxArchives - 1 - i then Generation(before, base, k - 1)
              else if k == maxArchives - 1 - i then None
              else Generation(before, base, k)
    {
      OneRenameAt(base, maxArchives, i, before, middle, k);
    }
  }

  lemma OneRenameAt(base: string, maxArchives: nat, i: nat, before: Files, middle: Files, k: nat)
    requires i < maxArchives && k <= maxArchives && ShiftedDownTo(base, maxArchives, i, before, middle)
    ensures Generation(Moved(middle, RenameAt(base, maxArchives, i)), base, k) ==
            if k > maxArchives - 1 - i then Generation(before, base, k - 1)
            else if k == maxArchives - 1 - i then None
            else Generation(before, base, k)
  {
    hide GenerationPath, Moved, Generation;
    var from := maxArchives - 1 - i;
    assert Generation(middle, base, from) == Generation(before, base, from);
    assert Generation(middle, base, from + 1) == None;
    RenameByGeneration(middle, base, from, from + 1, k);
  }

  lemma {:induction false} RenamesShift(base: string, maxArchives: nat, renames: seq<(string, string)>,
                                       before: Files, cleared: Files)
    requires |renames| <= maxArchives
    requires forall i :: 0 <= i < |renames| ==> renames[i] == RenameAt(base, maxArchives, i)
    requires ShiftedDownTo(base, maxArchives, 0, before, cleared) && OthersKept(base, maxArchives, before, cleared)
    ensures ShiftedDownTo(base, maxArchives, |renames|, before, AllMoved(cleared, renames))
    ensures OthersKept(base, maxArchives, before, AllMoved(cleared, renames))
  {
    hide ShiftedDownTo, Moved, IsGeneration, GenerationPath;
    if renames != [] {
      var i := |renames| - 1;
      RenamesShift(base, maxArchives, renames[..i], before, cleared);
      OneRename(base, maxArchives, i, before, AllMoved(cleared, renames[..i]));
      RenameKeepsOthers(AllMoved(cleared, renames[..i]), base, maxArchives, maxArchives - 1 - i, maxArchives - i);
    }
  }

  lemma OneDelete(files: Files, path: string)
    ensures AllDeleted(files, [path]) == files - {path}
  {
    assert [path][..0] == [];
    assert AllDeleted(files, []) == files;
  }

  lemma OldestIsCleared(base: string, maxArchives: nat, files: Files)
    ensures ShiftedDownTo(base, maxArchives, 0, files, AllDeleted(files, [GenerationPath(base, maxArchives)]))
    ensures OthersKept(base, maxArchives, files, AllDeleted(files, [GenerationPath(base, maxArchives)]))
  {
    var oldest := GenerationPath(base, maxArchives);
    var cleared := AllDeleted(files, [oldest]);
    OneDelete(files, oldest);
    hide GenerationPath, AllDeleted;
    assert IsGeneration(base, maxArchives, oldest);
    forall k | 0 <= k < maxArchives
      ensures Generation(cleared, base, k) == Generation(files, base, k)
    {
      if GenerationPath(base, k) == oldest {
        GenerationsAreDistinct(base, k, maxArchives);
      }
    }
  }

  lemma LiveLog(files: Files, base: string)
    ensures Generation(files, base, 0) == At(files, base)
  {
  }

  /**
   * Rotation moves every generation up by one at once: archive k is what
   * archive k-1 was, the live file is gone, the oldest archive is dropped, and
   * no other file is touched -- whatever files there are.
   */
  lemma RotationShifts(base: string, maxArchives: nat, files: Files, plan: Plan)
    requires maxArchives > 0 && IsPlan(base, maxArchives, plan)
    ensures var after := Executed(files, plan);
      && (forall k {:trigger Generation(after, base, k)} :: 1 <= k <= maxArchives ==>
            Generation(after, base, k) == Generation(files, base, k - 1))
      && At(after, base) == None
      && OthersKept(base, maxArchives, files, after)
  {
    hide GenerationPath, OthersKept, AllMoved, AllDeleted;
    OldestIsCleared(base, maxArchives, files);
    RenamesShift(base, maxArchives, plan.renames, files, AllDeleted(files, plan.deletes));
    LiveLog(Executed(files, plan), base);
  }

  /** Keeping no archive deletes the live file and nothing else. */
  lemma KeepingNothingDeletesTheLog(base: string, maxArchives: int, files: Files, plan: Plan)
    requires maxArchives <= 0 && IsPlan(base, maxArchives, plan)
    ensures Executed(files, plan) == files - {base}
  {
    OneDelete(files, base);
  }

  // --- Over many runs ---------------------------------------------------------------------

  /** What runs in a row leave behind: each rotates, then writes a fresh log. */
  ghost function AfterRuns(base: string, plan: Plan, files: Files, contents: seq<string>): Files {
    if contents == [] then files
    else
      var run := |contents| - 1;
      Executed(AfterRuns(base, plan, files, contents[..run]), plan)[base := contents[run]]
  }

  /** Generation k after some runs: the log of the k-th run back, or what was there before them. */
  function Kept(base: string, files: Files, contents: seq<string>, k: int): Option<string> {
    if 0 <= k < |contents| then Some(contents[|contents| - 1 - k])
    else Generation(files, base, k - |contents|)
  }

  ghost predicate KeepsRuns(base: string, maxArchives: nat, files: Files, contents: seq<string>, after: Files) {
    forall k {:trigger Generation(after, base, k)} :: 0 <= k <= maxArchives ==>
      Generation(after, base, k) == Kept(base, files, contents, k)
  }

  /** The log and its archives always hold the last maxArchives + 1 runs, newest first. */
  lemma {:induction false} LastRunsAreKept(base: string, maxArchives: nat, plan: Plan, files: Files,
                                          contents: seq<string>)
    requires maxArchives > 0 && IsPlan(base, maxArchives, plan)
    ensures KeepsRuns(base, maxArchives, files, contents, AfterRuns(base, plan, files, contents))
    ensures OthersKept(base, maxArchives, files, AfterRuns(base, plan, files, contents))
  {
    hide IsPlan, Executed, GenerationPath;
    if contents != [] {
      var run := |contents| - 1;
      var before := AfterRuns(base, plan, files, contents[..run]);
      LastRunsAreKept(base, maxArchives, plan, files, contents[..run]);
      RotationShifts(base, maxArchives, before, plan);
      OneMoreRun(base, maxArchives, files, contents, before, Executed(before, plan));
    }
  }

  lemma KeptOneMore(base: string, files: Files, contents: seq<string>, k: nat)
    requires contents != [] && k > 0
    ensures Kept(base, files, contents, k) == Kept(base, files, contents[..|contents| - 1], k - 1)
  {
    hide Generation;
  }

  lemma OneMoreRun(base: string, maxArchives: nat, files: Files, contents: seq<string>, before: Files, rotated: Files)
    requires maxArchives > 0 && contents != []
    requires KeepsRuns(base, maxArchives, files, contents[..|contents| - 1], before)
    requires forall k {:trigger Generation(rotated, base, k)} :: 1 <= k <= maxArchives ==>
               Generation(rotated, base, k) == Generation(before, base, k - 1)
    requires OthersKept(base, maxArchives, files, before) && OthersKept(base, maxArchives, before, rotated)
    ensures KeepsRuns(base, maxArchives, files, contents, rotated[base := contents[|contents| - 1]])
    ensures OthersKept(base, maxArchives, files, rotated[base := contents[|contents| - 1]])
  {
    var after := rotated[base := contents[|contents| - 1]];
    LiveLog(after, base);
    assert GenerationPath(base, 0) == base;
    hide GenerationPath;
    assert IsGeneration(base, maxArchives, base);
    forall k {:trigger Generation(after, base, k)} | 1 <= k <= maxArchives
      ensures Generation(after, base, k) == Kept(base, files, contents, k)
    {
      UntouchedByTheLog(rotated, base, k, contents[|contents| - 1]);
      KeptOneMore(base, files, contents, k);
      hide Generation, Kept;
      assert Generation(before, base, k - 1) == Kept(base, files, contents[..|contents| - 1], k - 1);
    }
  }

  lemma UntouchedByTheLog(files: Files, base: string, k: nat, log: string)
    requires k > 0
    ensures Generation(files[base := log], base, k) == Generation(files, base, k)
  {
    assert GenerationPath(base, 0) == base;
    hide GenerationPath;
    if GenerationPath(base, k) == GenerationPath(base, 0) {
      GenerationsAreDistinct(base, k, 0);
    }
  }

  // --- Why the renames run downwards ------------------------------------------------------

  ghost predicate Collapsed(base: string, maxArchives: nat, i: nat, before: Files, after: Files) {
    forall k {:trigger Generation(after, base, k)} :: 0 <= k <= maxArchives ==>
      Generation(after, base, k) ==
      if k < i then None else if k == i then Generation(before, base, 0) else Generation(before, base, k)
  }

  lemma OneUpwardRename(base: string, maxArchives: nat, i: nat, before: Files, middle: Files)
    requires i < maxArchives && Generation(before, base, 0).Some? && Collapsed(base, maxArchives, i, before, middle)
    ensures Collapsed(base, maxArchives, i + 1, before,
                      Moved(middle, (GenerationPath(base, i), GenerationPath(base, i + 1))))
  {
    var after := Moved(middle, (GenerationPath(base, i), GenerationPath(base, i + 1)));
    hide GenerationPath, Moved, Generation;
    assert Generation(middle, base, i) == Generation(before, base, 0);
    forall k | 0 <= k <= maxArchives
      ensures Generation(after, base, k) ==
              if k < i + 1 then None
              else if k == i + 1 then Generation(before, base, 0)
              else Generation(before, base, k)
    {
      RenameByGeneration(middle, base, i, i + 1, k);
    }
  }

  /**
   * Carried out upwards, the same renames would leave a single file: the live
   * log under the oldest archive's name, every archive in between lost.
   */
  lemma {:induction false} UpwardRenamesCollapse(base: string, maxArchives: nat, renames: seq<(string, string)>,
                                                files: Files)
    requires |renames| <= maxArchives && base in files
    requires forall i :: 0 <= i < |renames| ==> renames[i] == (GenerationPath(base, i), GenerationPath(base, i + 1))
    ensures Collapsed(base, maxArchives, |renames|, files, AllMoved(files, renames))
  {
    if renames == [] {
    } else {
      assert Generation(files, base, 0) == Some(files[base]);
      hide Collapsed, Moved, GenerationPath, Generation;
      var i := |renames| - 1;
      UpwardRenamesCollapse(base, maxArchives, renames[..i], files);
      OneUpwardRename(base, maxArchives, i, files, AllMoved(files, renames[..i]));
    }
  }
}
