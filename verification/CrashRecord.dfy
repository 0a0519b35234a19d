// A C++ type name taken out of its mangled form into a fixed buffer
// (centroid-hmi/windows/runner/crash_record.cpp, CleanTypeName).

module CrashRecord {
  import opened Prelude

  const NUL: char := '\0'

  /** A C string: what precedes its terminator. */
  predicate IsCString(s: string) {
    NUL !in s
  }

  /** Reading a C string, its terminator included and nothing past it. */
  function CharAt(s: string, i: nat): char
    requires i <= |s|
  {
    if i < |s| then s[i] else NUL
  }

  // --- What a mangled name is, and what it stands for -----------------------------------

  function Join(separator: string, parts: seq<string>): string {
    if parts == [] then ""
    else if |parts| == 1 then parts[0]
    else parts[0] + separator + Join(separator, parts[1..])
  }

  function Reversed(parts: seq<string>): seq<string> {
    if parts == [] then [] else [parts[|parts| - 1]] + Reversed(parts[..|parts| - 1])
  }

  /** A scope is not empty and has no character of the mangling in it. */
  predicate IsScope(s: string) {
    s != "" && '@' !in s && '?' !in s && NUL !in s
  }

  predicate Scopes(scopes: seq<string>) {
    scopes != [] && forall s :: s in scopes ==> IsScope(s)
  }

  /**
   * The class ('V') or struct ('U') form of a name, its scopes innermost
   * first. `stray` puts one more '@' in front of them, which is not a name the
   * compiler emits.
   */
  function Mangled(kind: char, stray: bool, scopes: seq<string>): string {
    ".?A" + [kind] + (if stray then "@" else "") + Join("@", scopes) + "@@"
  }

  /** The name a reader knows: outermost scope first. */
  function Name(scopes: seq<string>): string {
    Join("::", Reversed(scopes))
  }

  // --- The backward walk ------------------------------------------------------------------

  /** Where the last scope of `text` begins. */
  function LastStart(text: string): (start: nat)
    ensures start <= |text|
    ensures '@' !in text[start..]
    ensures start > 0 ==> text[start - 1] == '@'
  {
    if text == "" || text[|text| - 1] == '@' then |text|
    else
      var start := LastStart(text[..|text| - 1]);
      assert text[start..] == text[..|text| - 1][start..] + [text[|text| - 1]];
      start
  }

  /** What is left of `text` once its last scope and the '@' before it are taken off. */
  function Rest(text: string): string {
    var start := LastStart(text);
    if start > 0 then text[..start - 1] else ""
  }

  function Prepended(head: string, tail: Option<string>): Option<string> {
    match tail
    case None => None
    case Some(name) => Some(head + name)
  }

  /** The scopes of `text` from the last to the first, joined; nothing if one of them is empty. */
  function Walk(text: string): Option<string>
    decreases |text|
  {
    if text == "" then Some("")
    else
      var start := LastStart(text);
      if start == |text| then None
      else if Rest(text) == "" then Some(text[start..])
      else Prepended(text[start..] + "::", Walk(Rest(text)))
  }

  /** The part of a raw name between its prefix and its "@@", if it has both and no '?'. */
  function ScopesOf(raw: string): Option<string> {
    if |raw| >= 6 && raw[..3] == ".?A" && raw[3] in "VU" && raw[|raw| - 2..] == "@@" && '?' !in raw[4..|raw| - 2]
    then Some(raw[4..|raw| - 2])
    else None
  }

  /** The cleaned name, when there is one to give and it fits. */
  function Cleaned(raw: string, outLen: nat): Option<string> {
    match ScopesOf(raw)
    case None => None
    case Some(text) =>
      if text == "" then None
      else match Walk(text)
        case None => None
        case Some(name) => if |name| + 1 <= outLen then Some(name) else None
  }

  // --- The function ------------------------------------------------------------------------

  /** Which of its two pointer arguments the function hands back. */
  datatype Answer = Raw | Out

  method CleanTypeName(out: array?<char>, outLen: nat, raw: Option<string>) returns (answer: Answer)
    requires out != null ==> outLen <= out.Length
    requires raw.Some? ==> IsCString(raw.value)
    modifies if out == null then {} else {out}
    ensures answer == Out <==> raw.Some? && out != null && Cleaned(raw.value, outLen).Some?
    ensures answer == Out ==>
              var name := Cleaned(raw.value, outLen).value;
              |name| < outLen && out[..|name| + 1] == name + [NUL]
    ensures out != null ==> out[outLen..] == old(out[outLen..])
  {
    if raw == None || out == null || outLen == 0 {
      return Raw;
    }
    var name := raw.value;
    if CharAt(name, 0) != '.' || CharAt(name, 1) != '?' || CharAt(name, 2) != 'A'
       || (CharAt(name, 3) != 'V' && CharAt(name, 3) != 'U') {
      return Raw;
    }
    var body := name[4..];
    if |body| < 2 || body[|body| - 2] != '@' || body[|body| - 1] != '@' {
      NotTerminated(name);
      return Raw;
    }
    var scopes := body[..|body| - 2];
    var special := HasQuestionMark(scopes);
    WellFormed(name, scopes);
    if special {
      return Raw;
    }
    answer := JoinBackwards(out, outLen, scopes);
  }

  method HasQuestionMark(scopes: string) returns (found: bool)
    ensures found <==> '?' in scopes
  {
    var i := 0;
    while i < |scopes|
      invariant 0 <= i <= |scopes|
      invariant '?' !in scopes[..i]
    {
      if scopes[i] == '?' {
        return true;
      }
      i := i + 1;
    }
    return false;
  }

  lemma NotTerminated(raw: string)
    requires |raw| >= 4
    requires var body := raw[4..]; |body| < 2 || body[|body| - 2] != '@' || body[|body| - 1] != '@'
    ensures ScopesOf(raw) == None
  {
  }

  lemma WellFormed(raw: string, scopes: string)
    requires |raw| >= 6 && raw[0] == '.' && raw[1] == '?' && raw[2] == 'A' && (raw[3] == 'V' || raw[3] == 'U')
    requires raw[|raw| - 2] == '@' && raw[|raw| - 1] == '@'
    requires scopes == raw[4..][..|raw[4..]| - 2]
    ensures ScopesOf(raw) == if '?' in scopes then None else Some(scopes)
  {
    assert raw[..3] == ".?A" && raw[|raw| - 2..] == "@@" && raw[4..|raw| - 2] == scopes;
  }

  /** What stands before the next scope: everything written, and the "::" it needs. */
  function Head(written: string): string {
    if written == "" then "" else written + "::"
  }

  /** Whether the walk from `rest` on completes what was written so far to `whole`. */
  ghost predicate Continues(whole: Option<string>, written: string, rest: string) {
    whole == if rest == "" then Some(written) else Prepended(Head(written), Walk(rest))
  }

  /** The loop of `CleanTypeName`: the scopes are taken off the end and written outermost first. */
  method JoinBackwards(out: array<char>, outLen: nat, scopes: string) returns (answer: Answer)
    requires 0 < outLen <= out.Length
    modifies out
    ensures answer == Out <==> scopes != "" && Walk(scopes).Some? && |Walk(scopes).value| + 1 <= outLen
    ensures answer == Out ==>
              var name := Walk(scopes).value; out[..|name| + 1] == name + [NUL]
    ensures out[outLen..] == old(out[outLen..])
  {
    hide Walk;
    var used := 0;
    out[0] := NUL;
    var end := |scopes|;
    assert scopes[..end] == scopes;
    StartOfWalk(scopes);
    while end > 0
      invariant 0 <= end <= |scopes| && 0 <= used < outLen
      invariant used == 0 <==> end == |scopes|
      invariant out[..used + 1] == out[..used] + [NUL]
      invariant Continues(if scopes == "" then Some("") else Walk(scopes), out[..used], scopes[..end])
      invariant out[outLen..] == old(out[outLen..])
    {
      ghost var text := scopes[..end];
      var start := ScopeStart(scopes, end);
      WalkIsLonger(Walk(scopes), out[..used], text);
      if end - start == 0 || used + (if used > 0 then 2 else 0) + (end - start) + 1 > outLen {
        return Raw;
      }
      OneScopeOn(Walk(scopes), out[..used], text);
      used := Append(out, outLen, used, scopes[start..end]);
      assert scopes[start..end] == text[start..];
      end := if start > 0 then start - 1 else 0;
      assert scopes[..end] == Rest(text);
    }
    if used > 0 {
      return Out;
    }
    return Raw;
  }

  /** Backwards from `end` to the '@' before the last scope, or to the beginning. */
  method ScopeStart(scopes: string, end: nat) returns (start: nat)
    requires end <= |scopes|
    ensures start == LastStart(scopes[..end])
  {
    start := end;
    ghost var text := scopes[..end];
    assert text[..start] == text;
    while start > 0 && scopes[start - 1] != '@'
      invariant 0 <= start <= end
      invariant LastStart(text[..start]) == LastStart(text)
    {
      assert text[..start][..start - 1] == text[..start - 1];
      start := start - 1;
    }
  }

  /** The "::" between two scopes; none in front of the first. */
  method Separate(out: array<char>, outLen: nat, used: nat) returns (end: nat)
    requires used + (if used > 0 then 2 else 0) < outLen <= out.Length
    modifies out
    ensures end == used + (if used > 0 then 2 else 0)
    ensures out[..end] == Head(old(out[..used]))
    ensures out[outLen..] == old(out[outLen..])
  {
    end := used;
    if used > 0 {
      out[used], out[used + 1] := ':', ':';
      end := used + 2;
    }
  }

  /** One more scope, after the "::" it needs, and the terminator behind it. */
  method Append(out: array<char>, outLen: nat, used: nat, part: string) returns (end: nat)
    requires part != "" && outLen <= out.Length
    requires used + (if used > 0 then 2 else 0) + |part| + 1 <= outLen
    modifies out
    ensures end == used + (if used > 0 then 2 else 0) + |part| && end < outLen
    ensures out[..end] == Head(old(out[..used])) + part
    ensures out[..end + 1] == out[..end] + [NUL]
    ensures out[outLen..] == old(out[outLen..])
  {
    end := Separate(out, outLen, used);
    ghost var head := out[..end];
    forall k | 0 <= k < |part| {
      out[end + k] := part[k];
    }
    assert out[..end] == head;
    assert out[end..end + |part|] == part;
    end := end + |part|;
    out[end] := NUL;
  }

  lemma StartOfWalk(scopes: string)
    ensures Continues(if scopes == "" then Some("") else Walk(scopes), "", scopes)
  {
    if scopes != "" && Walk(scopes).Some? {
      EmptyIsNeutral(Walk(scopes).value);
    }
  }

  /** A completed walk is at least as long as what it has to write next. */
  lemma WalkIsLonger(whole: Option<string>, written: string, rest: string)
    requires rest != "" && Continues(whole, written, rest)
    ensures whole.Some? ==> LastStart(rest) < |rest|
    ensures whole.Some? ==> |whole.value| >= |Head(written)| + |rest| - LastStart(rest)
  {
  }

  lemma OneScopeOn(whole: Option<string>, written: string, rest: string)
    requires rest != "" && LastStart(rest) < |rest| && Continues(whole, written, rest)
    ensures Continues(whole, Head(written) + rest[LastStart(rest)..], Rest(rest))
  {
    var part := rest[LastStart(rest)..];
    var next := Walk(Rest(rest));
    if Rest(rest) != "" && next.Some? {
      Associative(Head(written), part + "::", next.value);
      Associative(Head(written), part, "::");
    }
  }

  // --- The walk undoes the mangling ------------------------------------------------------

  lemma {:induction false} JoinOneMore(separator: string, parts: seq<string>, part: string)
    requires parts != []
    ensures Join(separator, parts + [part]) == Join(separator, parts) + separator + part
  {
    if |parts| == 1 {
      assert (parts + [part])[1..] == [part];
    } else {
      JoinOneMore(separator, parts[1..], part);
      assert (parts + [part])[1..] == parts[1..] + [part];
    }
  }

  lemma NameOfOne(part: string)
    ensures Name([part]) == part && Join("@", [part]) == part
  {
    assert Reversed([part]) == [part] + Reversed([]);
    assert Reversed([part]) == [part];
  }

  lemma NameOneMore(scopes: seq<string>, part: string)
    requires scopes != []
    ensures Name(scopes + [part]) == part + "::" + Name(scopes)
  {
    assert (scopes + [part])[..|scopes|] == scopes;
    var back := [part] + Reversed(scopes);
    assert Reversed(scopes + [part]) == back && back[1..] == Reversed(scopes);
  }

  lemma {:induction false} WholePart(part: string)
    requires '@' !in part
    ensures LastStart(part) == 0
  {
    if part != "" {
      WholePart(part[..|part| - 1]);
    }
  }

  lemma {:induction false} PartAfterAt(before: string, part: string)
    requires '@' !in part
    ensures LastStart(before + "@" + part) == |before| + 1
    ensures Rest(before + "@" + part) == before
    ensures (before + "@" + part)[|before| + 1..] == part
  {
    var text := before + "@" + part;
    if part != "" {
      PartAfterAt(before, part[..|part| - 1]);
      assert text[..|text| - 1] == before + "@" + part[..|part| - 1];
    }
  }

  function Stray(stray: bool): string {
    if stray then "@" else ""
  }

  lemma WalkOnePart(stray: bool, part: string)
    requires part != "" && '@' !in part
    ensures Walk(Stray(stray) + part) == Some(part)
  {
    if stray {
      PartAfterAt("", part);
      assert "" + "@" + part == "@" + part;
    } else {
      WholePart(part);
      EmptyIsNeutral(part);
    }
  }

  lemma WalkOneMore(before: string, part: string)
    requires before != "" && part != "" && '@' !in part
    ensures Walk(before + "@" + part) == Prepended(part + "::", Walk(before))
  {
    PartAfterAt(before, part);
  }

  lemma ScopesInTwo(init: seq<string>, part: string)
    ensures Scopes(init + [part]) <==> IsScope(part) && (init == [] || Scopes(init))
  {
    assert (init + [part])[|init|] == part;
    if Scopes(init + [part]) {
      forall s | s in init
        ensures s in init + [part]
      {
      }
    }
  }

  lemma LastScope(scopes: seq<string>)
    requires Scopes(scopes)
    ensures var init, part := scopes[..|scopes| - 1], scopes[|scopes| - 1];
      scopes == init + [part] && IsScope(part) && (init == [] || Scopes(init))
  {
    ScopesInTwo(scopes[..|scopes| - 1], scopes[|scopes| - 1]);
    assert scopes == scopes[..|scopes| - 1] + [scopes[|scopes| - 1]];
  }

  lemma JoinedOneMore(stray: bool, init: seq<string>, part: string)
    requires Scopes(init)
    ensures Stray(stray) + Join("@", init + [part]) == (Stray(stray) + Join("@", init)) + "@" + part
  {
    JoinOneMore("@", init, part);
    Associative(Stray(stray), Join("@", init) + "@", part);
    Associative(Stray(stray), Join("@", init), "@");
  }

  /** Walking backwards over joined scopes reads them in reverse, a stray '@' in front or not. */
  lemma {:induction false} WalkReadsScopes(stray: bool, scopes: seq<string>)
    requires Scopes(scopes)
    ensures Stray(stray) + Join("@", scopes) != ""
    ensures Walk(Stray(stray) + Join("@", scopes)) == Some(Name(scopes))
    decreases |scopes|
  {
    assert |scopes| > 0;
    hide Walk, Join, Name, Scopes, Stray;
    var init, part := scopes[..|scopes| - 1], scopes[|scopes| - 1];
    LastScope(scopes);
    if init == [] {
      NameOfOne(part);
      assert scopes == [part];
      WalkOnePart(stray, part);
    } else {
      WalkReadsScopes(stray, init);
      JoinedOneMore(stray, init, part);
      NameOneMore(init, part);
      WalkOneMore(Stray(stray) + Join("@", init), part);
    }
  }

  lemma SplitAt(text: string, start: nat)
    requires 0 < start <= |text| && text[start - 1] == '@'
    ensures text == text[..start - 1] + "@" + text[start..]
  {
  }

  /** The last scope of a text the walk succeeds on, and what is before it. */
  lemma TakenApart(text: string)
    requires text != "" && Walk(text).Some? && LastStart(text) > 1
    ensures var part, rest := text[LastStart(text)..], Rest(text);
      && rest != "" && |rest| < |text| && Walk(rest).Some?
      && part != "" && text == rest + "@" + part
  {
    SplitAt(text, LastStart(text));
  }

  lemma OnePartLeft(text: string)
    requires text != "" && Walk(text).Some? && LastStart(text) <= 1
    ensures var part := text[LastStart(text)..];
      part != "" && text == Stray(LastStart(text) == 1) + part
  {
    if LastStart(text) == 1 {
      SplitAt(text, 1);
      EmptyIsNeutral("@");
      assert text[..0] == "";
    } else {
      EmptyIsNeutral(text);
      assert text[0..] == text;
    }
  }

  lemma PartsAreClean(text: string, i: nat, j: nat)
    requires i <= j <= |text| && '?' !in text && NUL !in text
    ensures '?' !in text[i..j] && NUL !in text[i..j]
  {
  }

  /** And a walk only ever succeeds on joined scopes. */
  lemma {:induction false} WalkNeedsScopes(text: string) returns (stray: bool, scopes: seq<string>)
    requires text != "" && Walk(text).Some? && '?' !in text && NUL !in text
    ensures Scopes(scopes) && text == Stray(stray) + Join("@", scopes)
    decreases |text|
  {
    hide Walk, Join, Name, Scopes, Stray, Rest;
    var start := LastStart(text);
    var part, rest := text[start..], Rest(text);
    PartsAreClean(text, start, |text|);
    if start <= 1 {
      OnePartLeft(text);
      NameOfOne(part);
      ScopesInTwo([], part);
      EmptyIsNeutral([part]);
      stray, scopes := start == 1, [part];
    } else {
      TakenApart(text);
      RestIsClean(text);
      var init;
      stray, init := WalkNeedsScopes(rest);
      scopes := init + [part];
      ScopesInTwo(init, part);
      JoinedOneMore(stray, init, part);
    }
  }

  lemma RestIsClean(text: string)
    requires '?' !in text && NUL !in text
    ensures '?' !in Rest(text) && NUL !in Rest(text)
  {
  }

  lemma ScopesOfMangled(kind: char, text: string)
    requires kind in "VU" && '?' !in text
    ensures ScopesOf(".?A" + [kind] + text + "@@") == Some(text)
  {
    var raw := ".?A" + [kind] + text + "@@";
    assert raw[..3] == ".?A" && raw[3] == kind && raw[|raw| - 2..] == "@@";
    assert raw[4..|raw| - 2] == text;
  }

  lemma {:induction false} NoQuestionMark(scopes: seq<string>)
    requires forall s :: s in scopes ==> '?' !in s
    ensures '?' !in Join("@", scopes)
  {
    if |scopes| > 1 { NoQuestionMark(scopes[1..]); }
  }

  /**
   * The cleaned form of a mangled name is the name itself, outermost scope
   * first, exactly when it fits the buffer with its terminator.
   */
  lemma CleanedInvertsMangling(kind: char, stray: bool, scopes: seq<string>, outLen: nat)
    requires kind in "VU" && Scopes(scopes)
    ensures Cleaned(Mangled(kind, stray, scopes), outLen)
         == if |Name(scopes)| + 1 <= outLen then Some(Name(scopes)) else None
  {
    var text := Stray(stray) + Join("@", scopes);
    NoQuestionMark(scopes);
    WalkReadsScopes(stray, scopes);
    ScopesOfMangled(kind, text);
    MangledInPieces(kind, stray, scopes);
  }

  lemma MangledInPieces(kind: char, stray: bool, scopes: seq<string>)
    ensures Mangled(kind, stray, scopes) == ".?A" + [kind] + (Stray(stray) + Join("@", scopes)) + "@@"
  {
    Associative(".?A" + [kind], Stray(stray), Join("@", scopes));
  }

  lemma ReassembleRaw(raw: string)
    requires ScopesOf(raw).Some?
    ensures raw[3] in "VU" && raw == ".?A" + [raw[3]] + ScopesOf(raw).value + "@@"
  {
    assert raw == raw[..3] + [raw[3]] + raw[4..|raw| - 2] + raw[|raw| - 2..];
  }

  /**
   * Nothing else is ever cleaned: a buffer is filled only from the mangled
   * form of some scopes that fits it -- or from that form with one '@' too
   * many in front, which the walk takes for the end of the name.
   */
  lemma OnlyMangledIsCleaned(raw: string, outLen: nat) returns (kind: char, stray: bool, scopes: seq<string>)
    requires IsCString(raw) && Cleaned(raw, outLen).Some?
    ensures kind in "VU" && Scopes(scopes) && raw == Mangled(kind, stray, scopes)
    ensures Cleaned(raw, outLen) == Some(Name(scopes)) && |Name(scopes)| + 1 <= outLen
  {
    kind := raw[3];
    stray, scopes := WalkNeedsScopes(ScopesOf(raw).value);
    hide Walk, Join, Name, Scopes;
    ReassembleRaw(raw);
    CleanedInvertsMangling(kind, stray, scopes, outLen);
    MangledInPieces(kind, stray, scopes);
  }

  /** ".?AV@std@@" names no scope in front of its '@', and is cleaned to "std" all the same. */
  lemma StrayAtIsAccepted()
    ensures Cleaned(".?AV@std@@", 4) == Some("std")
  {
    assert Scopes(["std"]);
    NameOfOne("std");
    assert Mangled('V', true, ["std"]) == ".?AV@std@@";
    CleanedInvertsMangling('V', true, ["std"], 4);
  }

  lemma TwoScopes(a: string, b: string, separator: string)
    ensures Join(separator, [a, b]) == a + separator + b && Reversed([a, b]) == [b, a]
  {
    assert [a, b][1..] == [b] && [a, b][..1] == [a];
    assert Reversed([a]) == [a] + Reversed([a][..0]);
  }

  /** With the signs of the mangling written out: bad_alloc@std is std::bad_alloc. */
  lemma TwoScopesAreSwapped(a: string, b: string, outLen: nat)
    requires IsScope(a) && IsScope(b)
    ensures Cleaned(".?AV" + (a + "@" + b) + "@@", outLen)
         == if |b| + 2 + |a| < outLen then Some(b + "::" + a) else None
    ensures Cleaned(".?AU" + a + "@@", outLen) == if |a| < outLen then Some(a) else None
  {
    TwoScopes(a, b, "@");
    TwoScopes(b, a, "::");
    hide Cleaned, Join, IsScope;
    CleanedInvertsMangling('V', false, [a, b], outLen);
    CleanedInvertsMangling('U', false, [a], outLen);
    NameOfOne(a);
    hide Reversed;
    MangledInPieces('V', false, [a, b]);
    MangledInPieces('U', false, [a]);
    EmptyIsNeutral(Join("@", [a, b]));
    EmptyIsNeutral(Join("@", [a]));
    assert ".?A" + ['V'] == ".?AV" && ".?A" + ['U'] == ".?AU";
  }
}
