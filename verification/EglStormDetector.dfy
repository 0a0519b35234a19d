// Recognises an EGL context-loss storm in the engine's error output
// (centroid-hmi/windows/runner/egl_storm_detector.cpp).

module EglStormDetector {
  import opened Prelude

  datatype Config = Config(minMatches: nat, windowMs: nat, refireCooldownMs: nat)

  const NEEDLES: seq<string> := ["EGL Error: Context Lost", "Could not make the context current"]

  const MAX_CARRY := 4096

  /** The window counter. The carried bytes are kept beside it. */
  datatype State = State(matches: nat, windowStartMs: nat, quietUntilMs: nat)

  const FRESH := State(0, 0, 0)

  // --- Matching -----------------------------------------------------------------

  ghost predicate OccursAt(line: string, needle: string, i: nat) {
    i + |needle| <= |line| && line[i..i + |needle|] == needle
  }

  /** `needle` is not empty and occurs somewhere in `line`. */
  ghost predicate Occurs(line: string, needle: string) {
    needle != [] && exists i: nat :: OccursAt(line, needle, i)
  }

  ghost predicate Matches(line: string) {
    exists k :: 0 <= k < |NEEDLES| && Occurs(line, NEEDLES[k])
  }

  method Contains(line: string, needle: string) returns (found: bool)
    ensures found <==> Occurs(line, needle)
  {
    if |needle| == 0 || |line| < |needle| {
      return false;
    }
    var i := 0;
    while i + |needle| <= |line|
      invariant forall k: nat :: k < i ==> !OccursAt(line, needle, k)
    {
      var j := 0;
      while j < |needle| && line[i + j] == needle[j]
        invariant j <= |needle|
        invariant forall k :: 0 <= k < j ==> line[i + k] == needle[k]
      {
        j := j + 1;
      }
      if j == |needle| {
        assert OccursAt(line, needle, i);
        return true;
      }
      assert line[i..i + |needle|][j] != needle[j];
      i := i + 1;
    }
    return false;
  }

  method LineMatches(line: string) returns (matches: bool)
    ensures matches <==> Matches(line)
  {
    var k := 0;
    while k < |NEEDLES|
      invariant 0 <= k <= |NEEDLES|
      invariant forall m :: 0 <= m < k ==> !Occurs(line, NEEDLES[m])
    {
      var found := Contains(line, NEEDLES[k]);
      if found {
        return true;
      }
      k := k + 1;
    }
    return false;
  }

  // --- The window counter -----------------------------------------------------------

  /** One line: the counter after it, and whether it fired. */
  function AfterLine(c: Config, s: State, matching: bool, now: nat): (State, bool) {
    if now < s.quietUntilMs || !matching then (s, false)
    else
      var reopen := s.matches == 0 || now - s.windowStartMs > c.windowMs;
      var start := if reopen then now else s.windowStartMs;
      var matches := if reopen then 1 else s.matches + 1;
      if matches >= c.minMatches then (State(0, 0, now + c.refireCooldownMs), true)
      else (State(matches, start, s.quietUntilMs), false)
  }

  /** Lines that all arrive at `now`, and whether any of them fired. */
  ghost function AfterLines(c: Config, s: State, lines: seq<string>, now: nat): (State, bool)
    decreases |lines|
  {
    if lines == [] then (s, false)
    else
      var before := AfterLines(c, s, lines[..|lines| - 1], now);
      var last := AfterLine(c, before.0, Matches(lines[|lines| - 1]), now);
      (last.0, before.1 || last.1)
  }

  // --- Splitting bytes into lines -----------------------------------------------------

  /** The lines a text completes, and what follows the last newline. */
  datatype Lines = Lines(complete: seq<string>, rest: string)

  /** Cuts `text` at its newlines. */
  function Split(text: string): Lines {
    if text == "" then Lines([], "")
    else
      var last := |text| - 1;
      var before := Split(text[..last]);
      if text[last] == '\n' then Lines(before.complete + [before.rest], "")
      else Lines(before.complete, before.rest + [text[last]])
  }

  /** What one call does to the carried bytes: the lines it feeds, and what it carries on. */
  function Fed(carry: string, data: string): Lines {
    var cut := Split(carry + data);
    if data != "" && |cut.rest| > MAX_CARRY then Lines(cut.complete + [cut.rest], "") else cut
  }

  /** After `i` bytes of `data` the lines `fed` are complete, and `carry + data[start..i]` is not. */
  ghost predicate Reached(carried: string, data: string, i: nat, fed: seq<string>, carry: string, start: nat) {
    start <= i <= |data| && Split(carried + data[..i]) == Lines(fed, carry + data[start..i])
  }

  lemma BeforeTheFirst(carried: string, data: string)
    requires '\n' !in carried
    ensures Reached(carried, data, 0, [], carried, 0)
  {
    SplitUnbroken(carried);
    assert carried + data[..0] == carried && carried + data[0..0] == carried;
  }

  /** One more byte. */
  lemma Advance(carried: string, data: string, i: nat, fed: seq<string>, carry: string, start: nat)
    requires i < |data| && Reached(carried, data, i, fed, carry, start)
    ensures if data[i] == '\n' then Reached(carried, data, i + 1, fed + [carry + data[start..i]], "", i + 1)
            else Reached(carried, data, i + 1, fed, carry, start)
  {
    assert (carried + data[..i + 1])[..|carried| + i] == carried + data[..i];
    if data[i] == '\n' {
      EmptyLine(data, i + 1);
    } else {
      assert data[start..i + 1] == data[start..i] + [data[i]];
      Associative(carry, data[start..i], [data[i]]);
    }
  }

  lemma EmptyLine(data: string, i: nat)
    requires i <= |data|
    ensures "" + data[i..i] == ""
  {
  }

  lemma AfterTheLast(carried: string, data: string, fed: seq<string>, carry: string, start: nat)
    requires Reached(carried, data, |data|, fed, carry, start)
    ensures Split(carried + data) == Lines(fed, carry + data[start..])
  {
    hide Split;
    assert data[..|data|] == data;
    assert data[start..|data|] == data[start..];
  }

  lemma OneMoreLine(c: Config, s: State, fed: seq<string>, line: string, now: nat)
    ensures AfterLines(c, s, fed + [line], now)
         == var before := AfterLines(c, s, fed, now);
            var last := AfterLine(c, before.0, Matches(line), now);
            (last.0, before.1 || last.1)
  {
    assert (fed + [line])[..|fed|] == fed;
  }

  // --- The machine ----------------------------------------------------------------------

  class Detector {
    const config: Config
    var matches: nat
    var windowStartMs: nat
    var quietUntilMs: nat
    var carry: string

    function View(): State
      reads this
    {
      State(matches, windowStartMs, quietUntilMs)
    }

    /** What is carried is the unfinished part of one line, and is bounded. */
    ghost predicate Valid()
      reads this
    {
      '\n' !in carry && |carry| <= MAX_CARRY
    }

    constructor (config: Config)
      ensures this.config == config
      ensures Valid() && View() == FRESH && carry == ""
    {
      this.config := config;
      matches, windowStartMs, quietUntilMs := 0, 0, 0;
      carry := "";
    }

    method OnLine(line: string, now: nat) returns (fired: bool)
      modifies this`matches, this`windowStartMs, this`quietUntilMs
      ensures (View(), fired) == AfterLine(config, old(View()), Matches(line), now)
    {
      if now < quietUntilMs {
        return false;
      }
      var matching := LineMatches(line);
      if !matching {
        return false;
      }
      if matches == 0 || now - windowStartMs > config.windowMs {
        windowStartMs := now;
        matches := 0;
      }
      matches := matches + 1;
      if matches >= config.minMatches {
        matches := 0;
        windowStartMs := 0;
        quietUntilMs := now + config.refireCooldownMs;
        return true;
      }
      return false;
    }

    method OnBytes(data: string, now: nat) returns (fired: bool)
      requires Valid()
      modifies this
      ensures Valid()
      ensures carry == Fed(old(carry), data).rest
      ensures View() == AfterLines(config, old(View()), Fed(old(carry), data).complete, now).0
      ensures fired == AfterLines(config, old(View()), Fed(old(carry), data).complete, now).1
    {
      ghost var cut := Split(carry + data);
      RestIsUnbroken(carry + data);
      var start;
      fired, start := OnCompleteLines(data, now);
      if start < |data| {
        OneMoreLine(config, old(View()), cut.complete, cut.rest, now);
        var hit := KeepRest(data[start..], now);
        fired := fired || hit;
      } else {
        assert carry + data[start..] == carry;
      }
    }

    /** The loop of `OnBytes`: feeds every line that `data` completes. */
    method OnCompleteLines(data: string, now: nat) returns (fired: bool, start: nat)
      requires Valid()
      modifies this
      ensures Valid() && start <= |data|
      ensures Split(old(carry) + data).rest == carry + data[start..]
      ensures View() == AfterLines(config, old(View()), Split(old(carry) + data).complete, now).0
      ensures fired == AfterLines(config, old(View()), Split(old(carry) + data).complete, now).1
    {
      hide Reached, Split, AfterLine, Matches;
      fired, start := false, 0;
      var i := 0;
      ghost var fed: seq<string> := [];
      BeforeTheFirst(carry, data);
      while i < |data|
        invariant start <= i <= |data|
        invariant carry == if start == 0 then old(carry) else ""
        invariant Reached(old(carry), data, i, fed, carry, start)
        invariant View() == AfterLines(config, old(View()), fed, now).0
        invariant fired == AfterLines(config, old(View()), fed, now).1
      {
        Advance(old(carry), data, i, fed, carry, start);
        if data[i] == '\n' {
          ghost var line := carry + data[start..i];
          OneMoreLine(config, old(View()), fed, line, now);
          var hit := EndLine(data[start..i], now);
          fired := fired || hit;
          fed := fed + [line];
          start := i + 1;
        }
        i := i + 1;
      }
      AfterTheLast(old(carry), data, fed, carry, start);
    }

    /** A newline was reached: the carried bytes and `segment` are one line. */
    method EndLine(segment: string, now: nat) returns (fired: bool)
      modifies this
      ensures carry == ""
      ensures View() == AfterLine(config, old(View()), Matches(old(carry) + segment), now).0
      ensures fired == AfterLine(config, old(View()), Matches(old(carry) + segment), now).1
    {
      if carry == "" {
        assert carry + segment == segment;
        fired := OnLine(segment, now);
      } else {
        carry := carry + segment;
        fired := OnLine(carry, now);
        carry := "";
      }
    }

    /** The bytes after the last newline: carried on, or fed as they are past the cap. */
    method KeepRest(segment: string, now: nat) returns (fired: bool)
      modifies this
      ensures |old(carry) + segment| <= MAX_CARRY ==>
                carry == old(carry) + segment && View() == old(View()) && !fired
      ensures |old(carry) + segment| > MAX_CARRY ==>
                && carry == ""
                && View() == AfterLine(config, old(View()), Matches(old(carry) + segment), now).0
                && fired == AfterLine(config, old(View()), Matches(old(carry) + segment), now).1
    {
      fired := false;
      carry := carry + segment;
      if |carry| > MAX_CARRY {
        fired := OnLine(carry, now);
        carry := "";
      }
    }
  }

  // --- Splitting, independently of the calls it comes in ---------------------------

  lemma {:induction false} SplitUnbroken(text: string)
    requires '\n' !in text
    ensures Split(text) == Lines([], text)
  {
    if text != "" {
      SplitUnbroken(text[..|text| - 1]);
    }
  }

  lemma {:induction false} RestIsUnbroken(text: string)
    ensures '\n' !in Split(text).rest
    ensures |Split(text).rest| <= |text|
  {
    if text != "" {
      RestIsUnbroken(text[..|text| - 1]);
    }
  }

  /** Splitting a text is splitting what comes after an earlier cut. */
  lemma {:induction false} SplitContinues(a: string, b: string)
    ensures Split(a + b)
         == Lines(Split(a).complete + Split(Split(a).rest + b).complete, Split(Split(a).rest + b).rest)
  {
    var r := Split(a).rest;
    if b == "" {
      assert a + b == a && r + b == r;
      RestIsUnbroken(a);
      SplitUnbroken(r);
    } else {
      var b' := b[..|b| - 1];
      SplitContinues(a, b');
      assert (a + b)[..|a + b| - 1] == a + b' && (r + b)[..|r + b| - 1] == r + b';
    }
  }
}
