// What the storm detector answers over whole streams: when it must fire, what
// a fire is backed by, and that the calls a stream arrives in do not matter.

module EglStormRuns {
  import opened Prelude
  import opened EglStormDetector

  datatype Line = Line(now: nat, matching: bool)

  ghost predicate Ordered(ev: seq<Line>) {
    forall i, j :: 0 <= i < j < |ev| ==> ev[i].now <= ev[j].now
  }

  function StateAt(c: Config, ev: seq<Line>, n: nat): State
    requires n <= |ev|
  {
    if n == 0 then FRESH else AfterLine(c, StateAt(c, ev, n - 1), ev[n - 1].matching, ev[n - 1].now).0
  }

  predicate Fires(c: Config, ev: seq<Line>, i: nat)
    requires i < |ev|
  {
    AfterLine(c, StateAt(c, ev, i), ev[i].matching, ev[i].now).1
  }

  /** Matching lines among the lines `i` to `j`, `j` excluded. */
  function MatchesIn(ev: seq<Line>, i: nat, j: nat): nat
    requires i <= j <= |ev|
    decreases j
  {
    if i == j then 0 else MatchesIn(ev, i, j - 1) + if ev[j - 1].matching then 1 else 0
  }

  /** A threshold of zero fires on the first match, like a threshold of one. */
  function Threshold(c: Config): nat {
    Max(c.minMatches, 1)
  }

  ghost predicate Inv(c: Config, s: State, now: nat) {
    s.matches < Threshold(c) && (s.matches > 0 ==> s.windowStartMs <= now)
  }

  lemma {:induction false} Reachable(c: Config, ev: seq<Line>, n: nat, now: nat)
    requires Ordered(ev) && n <= |ev|
    requires n > 0 ==> ev[n - 1].now <= now
    ensures Inv(c, StateAt(c, ev, n), now)
  {
    if n > 0 {
      Reachable(c, ev, n - 1, ev[n - 1].now);
    }
  }

  // --- Completeness -----------------------------------------------------------

  /**
   * Matching lines that are enough to fire inside one window length from `t0`:
   * the rest of a window opened in the span, or -- when an older window may
   * still run out -- its rest and a whole further window.
   */
  function Needed(c: Config, s: State, t0: nat): int {
    if s.matches == 0 || s.windowStartMs >= t0 then Threshold(c) - s.matches
    else 2 * Threshold(c) - 1 - s.matches
  }

  lemma {:induction false} MatchesReduceNeed(c: Config, ev: seq<Line>, i: nat, j: nat)
    requires Ordered(ev) && i < j <= |ev|
    requires StateAt(c, ev, i).quietUntilMs <= ev[i].now
    requires ev[j - 1].now - ev[i].now <= c.windowMs
    requires forall k :: i <= k < j ==> !Fires(c, ev, k)
    ensures StateAt(c, ev, j).quietUntilMs == StateAt(c, ev, i).quietUntilMs
    ensures Needed(c, StateAt(c, ev, j), ev[i].now) + MatchesIn(ev, i, j)
         <= Needed(c, StateAt(c, ev, i), ev[i].now)
  {
    Reachable(c, ev, j - 1, ev[j - 1].now);
    assert !Fires(c, ev, j - 1);
    if i < j - 1 {
      MatchesReduceNeed(c, ev, i, j - 1);
    } else {
      assert MatchesIn(ev, i, j - 1) == 0;
    }
  }

  /** The fewest matching lines inside one window length that always fire. */
  function Certain(c: Config): nat {
    if c.minMatches <= 1 then 1 else 2 * c.minMatches - 2
  }

  /**
   * A storm cannot slip between two windows: unless the detector is quiet when
   * they start, lines within one window length of which `Certain` match -- one
   * fewer than 2 * minMatches - 1 -- make it fire.
   */
  lemma StormIsSeen(c: Config, ev: seq<Line>, i: nat, j: nat)
    requires Ordered(ev) && i < j <= |ev|
    requires StateAt(c, ev, i).quietUntilMs <= ev[i].now
    requires ev[j - 1].now - ev[i].now <= c.windowMs
    requires MatchesIn(ev, i, j) >= Certain(c)
    ensures exists k :: i <= k < j && Fires(c, ev, k)
  {
    if forall k :: i <= k < j ==> !Fires(c, ev, k) {
      Reachable(c, ev, i, ev[i].now);
      Reachable(c, ev, j, ev[j - 1].now);
      MatchesReduceNeed(c, ev, i, j);
    }
  }

  /** `k` matching lines at one moment, too few to fill the window they extend. */
  lemma {:induction false} BelowThreshold(c: Config, ev: seq<Line>, i: nat, k: nat)
    requires 0 < k && i + k <= |ev|
    requires forall m :: i <= m < i + k ==> ev[m] == Line(ev[i].now, true)
    requires var s := StateAt(c, ev, i);
      && s.quietUntilMs <= ev[i].now
      && (s.matches > 0 ==> s.windowStartMs <= ev[i].now)
    requires FirstCount(c, StateAt(c, ev, i), ev[i].now) + k - 1 < c.minMatches
    ensures StateAt(c, ev, i + k).matches == FirstCount(c, StateAt(c, ev, i), ev[i].now) + k - 1
    ensures StateAt(c, ev, i + k).quietUntilMs == StateAt(c, ev, i).quietUntilMs
    ensures ev[i].now - c.windowMs <= StateAt(c, ev, i + k).windowStartMs <= ev[i].now
    ensures StateAt(c, ev, i + k).windowStartMs
         == if FirstCount(c, StateAt(c, ev, i), ev[i].now) == 1 then ev[i].now else StateAt(c, ev, i).windowStartMs
    ensures MatchesIn(ev, i, i + k) == k
    ensures forall m :: i <= m < i + k ==> !Fires(c, ev, m)
    decreases k
  {
    if k > 1 {
      BelowThreshold(c, ev, i, k - 1);
    } else {
      assert MatchesIn(ev, i, i) == 0;
    }
  }

  /** The count after the first of them: it either reopens the window or extends it. */
  function FirstCount(c: Config, s: State, now: nat): nat {
    if s.matches == 0 || now - s.windowStartMs > c.windowMs then 1 else s.matches + 1
  }

  lemma {:induction false} MatchesAdd(ev: seq<Line>, i: nat, j: nat, k: nat)
    requires i <= j <= k <= |ev|
    ensures MatchesIn(ev, i, k) == MatchesIn(ev, i, j) + MatchesIn(ev, j, k)
    decreases k
  {
    if j < k { MatchesAdd(ev, i, j, k - 1); }
  }

  /** One line opens a window, `minMatches - 2` follow as it closes, and `minMatches - 1` after it closed. */
  function Straddling(c: Config): seq<Line>
    requires c.minMatches >= 2
  {
    seq(2 * c.minMatches - 2, n requires n >= 0 =>
      Line(if n < 1 then 0 else if n < c.minMatches - 1 then c.windowMs else c.windowMs + 1, true))
  }

  /** `k` matching lines at `now`, from `i` on. */
  ghost predicate Burst(ev: seq<Line>, i: nat, k: nat, now: nat) {
    i + k <= |ev| && forall m :: i <= m < i + k ==> ev[m] == Line(now, true)
  }

  lemma StraddlingBursts(c: Config)
    requires c.minMatches >= 2 && c.windowMs >= 1
    ensures var ev, m, w := Straddling(c), c.minMatches, c.windowMs;
      && |ev| == 2 * m - 2 && Ordered(ev)
      && Burst(ev, 0, 1, 0) && Burst(ev, 1, m - 2, w) && Burst(ev, m - 1, m - 1, w + 1)
      && (m > 2 ==> ev[|ev| - 1].now - ev[1].now <= w)
  {
  }

  /** The first burst and the second leave the window one short of the threshold. */
  lemma WindowAlmostFills(c: Config, ev: seq<Line>)
    requires c.minMatches > 2
    requires Burst(ev, 0, 1, 0) && Burst(ev, 1, c.minMatches - 2, c.windowMs)
    ensures StateAt(c, ev, 1).quietUntilMs == 0
    ensures StateAt(c, ev, c.minMatches - 1) == State(c.minMatches - 1, 0, 0)
    ensures MatchesIn(ev, 1, c.minMatches - 1) == c.minMatches - 2
    ensures forall k :: 1 <= k < c.minMatches - 1 ==> !Fires(c, ev, k)
  {
    BelowThreshold(c, ev, 0, 1);
    BelowThreshold(c, ev, 1, c.minMatches - 2);
  }

  /** The third burst opens a new window and leaves that one short as well. */
  lemma NextWindowAlmostFills(c: Config, ev: seq<Line>, i: nat)
    requires c.minMatches > 1 && Burst(ev, i, c.minMatches - 1, c.windowMs + 1)
    requires StateAt(c, ev, i).quietUntilMs == 0 && StateAt(c, ev, i).windowStartMs == 0
    ensures MatchesIn(ev, i, i + c.minMatches - 1) == c.minMatches - 1
    ensures forall k :: i <= k < i + c.minMatches - 1 ==> !Fires(c, ev, k)
  {
    BelowThreshold(c, ev, i, c.minMatches - 1);
  }

  lemma StraddlingPasses(c: Config) returns (ev: seq<Line>)
    requires c.minMatches > 2 && c.windowMs >= 1
    ensures Ordered(ev) && 1 < |ev| && StateAt(c, ev, 1).quietUntilMs <= ev[1].now
    ensures ev[|ev| - 1].now - ev[1].now <= c.windowMs
    ensures MatchesIn(ev, 1, |ev|) == Certain(c) - 1
    ensures forall k :: 1 <= k < |ev| ==> !Fires(c, ev, k)
  {
    hide Straddling, Burst, Fires, StateAt, MatchesIn;
    var m := c.minMatches;
    ev := Straddling(c);
    StraddlingBursts(c);
    WindowAlmostFills(c, ev);
    NextWindowAlmostFills(c, ev, m - 1);
    MatchesAdd(ev, 1, m - 1, 2 * m - 2);
  }

  /** A threshold of two: one line alone never fires. */
  lemma OneLinePasses(c: Config) returns (ev: seq<Line>)
    requires c.minMatches == 2
    ensures Ordered(ev) && |ev| == 1 && StateAt(c, ev, 0).quietUntilMs <= ev[0].now
    ensures MatchesIn(ev, 0, 1) == Certain(c) - 1 && !Fires(c, ev, 0)
  {
    ev := [Line(0, true)];
    assert MatchesIn(ev, 0, 0) == 0;
  }

  /** One matching line fewer may pass unseen, whatever the threshold above one and the window. */
  lemma CertainIsTight(c: Config)
    requires c.minMatches >= 2 && c.windowMs >= 1
    ensures exists ev: seq<Line>, i: nat, j: nat ::
              && Ordered(ev) && i < j <= |ev|
              && StateAt(c, ev, i).quietUntilMs <= ev[i].now
              && ev[j - 1].now - ev[i].now <= c.windowMs
              && MatchesIn(ev, i, j) == Certain(c) - 1
              && forall k :: i <= k < j ==> !Fires(c, ev, k)
  {
    hide Fires, StateAt, MatchesIn;
    if c.minMatches == 2 {
      var ev := OneLinePasses(c);
      assert ev[1 - 1].now - ev[0].now <= c.windowMs;
    } else {
      var ev := StraddlingPasses(c);
    }
  }

  // --- Soundness --------------------------------------------------------------

  /** The line that opened the current window, and what has been counted since. */
  lemma {:induction false} WindowOrigin(c: Config, ev: seq<Line>, n: nat) returns (i: nat)
    requires Ordered(ev) && n <= |ev| && StateAt(c, ev, n).matches > 0
    ensures i < n && ev[i].matching && ev[i].now == StateAt(c, ev, n).windowStartMs
    ensures MatchesIn(ev, i, n) == StateAt(c, ev, n).matches
    ensures StateAt(c, ev, n).quietUntilMs <= ev[i].now
    ensures forall k :: i <= k < n ==> !Fires(c, ev, k)
  {
    var s, e := StateAt(c, ev, n - 1), ev[n - 1];
    if e.matching && s.quietUntilMs <= e.now && (s.matches == 0 || e.now - s.windowStartMs > c.windowMs) {
      i := n - 1;
      assert MatchesIn(ev, i, i) == 0;
    } else {
      i := WindowOrigin(c, ev, n - 1);
    }
  }

  /**
   * Every fire is backed by `minMatches` matching lines -- at least one --
   * inside one window length, all of them after the previous fire.
   */
  lemma FireIsBacked(c: Config, ev: seq<Line>, j: nat) returns (i: nat)
    requires Ordered(ev) && j < |ev| && Fires(c, ev, j)
    ensures i <= j && ev[j].now - ev[i].now <= c.windowMs
    ensures MatchesIn(ev, i, j + 1) == Threshold(c)
    ensures ev[i].matching && ev[j].matching
    ensures forall k :: i <= k < j ==> !Fires(c, ev, k)
  {
    var s := StateAt(c, ev, j);
    Reachable(c, ev, j, ev[j].now);
    if s.matches == 0 || ev[j].now - s.windowStartMs > c.windowMs {
      i := j;
      assert MatchesIn(ev, j, j) == 0;
    } else {
      i := WindowOrigin(c, ev, j);
    }
  }

  lemma {:induction false} QuietLasts(c: Config, ev: seq<Line>, i: nat, n: nat)
    requires Ordered(ev) && i < n <= |ev| && Fires(c, ev, i)
    ensures StateAt(c, ev, n).quietUntilMs >= ev[i].now + c.refireCooldownMs
  {
    if n > i + 1 {
      QuietLasts(c, ev, i, n - 1);
    }
  }

  /** Fires are at least the cooldown apart. */
  lemma FireSpacing(c: Config, ev: seq<Line>, i: nat, j: nat)
    requires Ordered(ev) && i < j < |ev| && Fires(c, ev, i) && Fires(c, ev, j)
    ensures ev[j].now - ev[i].now >= c.refireCooldownMs
  {
    QuietLasts(c, ev, i, j);
  }

  // --- Chunk independence -----------------------------------------------------

  /** Two calls in a row, seen as one. */
  function FedTwice(carry: string, a: string, b: string): Lines {
    var first := Fed(carry, a);
    var second := Fed(first.rest, b);
    Lines(first.complete + second.complete, second.rest)
  }

  /** A newline-free head changes neither the number of newlines nor, past one, the rest. */
  lemma {:induction false} SplitWithHead(head: string, b: string)
    requires '\n' !in head
    ensures |Split(head + b).complete| == |Split(b).complete|
    ensures '\n' in b ==> Split(head + b).rest == Split(b).rest && |Split(b).complete| > 0
    ensures '\n' !in b ==> Split(head + b) == Lines([], head + b)
  {
    if b == "" {
      assert head + b == head;
      SplitUnbroken(head);
    } else {
      SplitWithHead(head, b[..|b| - 1]);
      assert (head + b)[..|head + b| - 1] == head + b[..|b| - 1];
      assert b == b[..|b| - 1] + [b[|b| - 1]];
    }
  }

  /**
   * Where a stream is cut into two calls shows in the lines they feed exactly
   * when the first call has to cut an overlong line that the second continues.
   */
  lemma ChunkIndependence(carry: string, a: string, b: string)
    requires '\n' !in carry && |carry| <= MAX_CARRY
    ensures FedTwice(carry, a, b) == Fed(carry, a + b)
       <==> b == "" || |Split(carry + a).rest| <= MAX_CARRY
  {
    if b == "" {
      NothingMore(carry, a);
    } else if |Split(carry + a).rest| <= MAX_CARRY {
      ShortTailContinues(carry, a, b);
    } else {
      SplitUnbroken(carry);
      assert a == "" ==> carry + a == carry;
      OverlongCutShows(carry, a, b);
    }
  }

  lemma NothingMore(carry: string, a: string)
    ensures FedTwice(carry, a, "") == Fed(carry, a + "")
  {
    var rest := Fed(carry, a).rest;
    RestIsUnbroken(carry + a);
    SplitUnbroken(rest);
    EmptyIsNeutral(a);
    EmptyIsNeutral(rest);
  }

  lemma ShortTailContinues(carry: string, a: string, b: string)
    requires b != "" && |Split(carry + a).rest| <= MAX_CARRY
    ensures FedTwice(carry, a, b) == Fed(carry, a + b)
  {
    SplitContinues(carry + a, b);
    Associative(carry, a, b);
    var first, second := Split(carry + a), Split(Split(carry + a).rest + b);
    Associative(first.complete, second.complete, [second.rest]);
  }

  lemma OverlongCutShows(carry: string, a: string, b: string)
    requires b != "" && a != "" && |Split(carry + a).rest| > MAX_CARRY
    ensures FedTwice(carry, a, b) != Fed(carry, a + b)
  {
    var cut := Split(carry + a);
    var rest := Split(cut.rest + b);
    RestIsUnbroken(carry + a);
    SplitContinues(carry + a, b);
    Associative(carry, a, b);
    EmptyIsNeutral(b);
    hide Split;
    assert Fed(carry, a) == Lines(cut.complete + [cut.rest], "");
    assert Split(carry + (a + b)) == Lines(cut.complete + rest.complete, rest.rest);
    if '\n' in b {
      OneLineMore(cut.rest, b);
    } else {
      OneLineLonger(cut.rest, b);
      assert FedTwice(carry, a, b).complete[|cut.complete|] == cut.rest;
    }
  }

  lemma OneLineMore(head: string, b: string)
    requires '\n' !in head && '\n' in b
    ensures |Split(head + b).complete| == |Split(b).complete| && Split(head + b).rest == Split(b).rest
  {
    SplitWithHead(head, b);
  }

  lemma OneLineLonger(head: string, b: string)
    requires '\n' !in head && '\n' !in b && b != ""
    ensures Split(head + b) == Lines([], head + b) && Split(b) == Lines([], b) && head + b != head
  {
    SplitWithHead(head, b);
    SplitUnbroken(b);
    assert |head + b| > |head|;
  }

  /** Lines fed in two goes at one moment. */
  lemma {:induction false} LinesInTwoGoes(c: Config, s: State, xs: seq<string>, ys: seq<string>, now: nat)
    ensures AfterLines(c, s, xs + ys, now)
         == var x := AfterLines(c, s, xs, now);
            var y := AfterLines(c, x.0, ys, now);
            (y.0, x.1 || y.1)
    decreases |ys|
  {
    if ys == [] {
      assert xs + ys == xs;
    } else {
      LinesInTwoGoes(c, s, xs, ys[..|ys| - 1], now);
      assert (xs + ys)[..|xs + ys| - 1] == xs + ys[..|ys| - 1];
    }
  }

  /**
   * So, short of an overlong line, two calls at one moment leave the same
   * counters and the same carry, and fire between them exactly when one call
   * with all the bytes would.
   */
  lemma TwoCallsAreOne(c: Config, s: State, carry: string, a: string, b: string, now: nat)
    requires '\n' !in carry && |carry| <= MAX_CARRY
    requires b == "" || |Split(carry + a).rest| <= MAX_CARRY
    ensures var one := AfterLines(c, s, Fed(carry, a + b).complete, now);
            var first := AfterLines(c, s, Fed(carry, a).complete, now);
            var second := AfterLines(c, first.0, Fed(Fed(carry, a).rest, b).complete, now);
            && one.0 == second.0 && (one.1 <==> first.1 || second.1)
            && Fed(carry, a + b).rest == Fed(Fed(carry, a).rest, b).rest
  {
    ChunkIndependence(carry, a, b);
    LinesInTwoGoes(c, s, Fed(carry, a).complete, Fed(Fed(carry, a).rest, b).complete, now);
  }

  function Concat(chunks: seq<string>): string {
    if chunks == [] then "" else Concat(chunks[..|chunks| - 1]) + chunks[|chunks| - 1]
  }

  /** A whole stream, fed one chunk after the other. */
  function FedAll(carry: string, chunks: seq<string>): Lines {
    if chunks == [] then Lines([], carry)
    else
      var before := FedAll(carry, chunks[..|chunks| - 1]);
      var last := Fed(before.rest, chunks[|chunks| - 1]);
      Lines(before.complete + last.complete, last.rest)
  }

  /** No stretch without a newline is longer than what may be carried. */
  ghost predicate ShortLines(text: string) {
    forall i, j :: 0 <= i <= j <= |text| && '\n' !in text[i..j] ==> j - i <= MAX_CARRY
  }

  lemma {:induction false} RestIsSuffix(text: string)
    ensures |Split(text).rest| <= |text|
    ensures text[|text| - |Split(text).rest|..] == Split(text).rest
  {
    if text != "" {
      RestIsSuffix(text[..|text| - 1]);
    }
  }

  /** A stream of short lines is cut at its newlines, however it is chunked. */
  lemma {:induction false} EveryChunkingIsTheSame(chunks: seq<string>)
    requires ShortLines(Concat(chunks))
    ensures FedAll("", chunks) == Split(Concat(chunks))
  {
    if chunks != [] {
      var before, last := chunks[..|chunks| - 1], chunks[|chunks| - 1];
      var text := Concat(before);
      forall i, j | 0 <= i <= j <= |text| && '\n' !in text[i..j] ensures j - i <= MAX_CARRY {
        assert Concat(chunks)[i..j] == text[i..j];
      }
      EveryChunkingIsTheSame(before);
      SplitContinues(text, last);
      RestIsUnbroken(text + last);
      RestIsSuffix(text + last);
      assert (text + last)[|text + last| - |Split(text + last).rest|..|text + last|] == Split(text + last).rest;
    }
  }

  // --- Which lines count ------------------------------------------------------------------

  ghost predicate Around(line: string, before: string, needle: string, after: string) {
    line == before + needle + after
  }

  /** A needle occurs in a line when the line is something, the needle, and something. */
  lemma OccursBetween(line: string, needle: string)
    ensures Occurs(line, needle) <==> needle != "" && exists before, after :: Around(line, before, needle, after)
  {
    if Occurs(line, needle) {
      var i: nat :| OccursAt(line, needle, i);
      assert Around(line, line[..i], needle, line[i + |needle|..]);
    }
    if needle != "" && exists before, after :: Around(line, before, needle, after) {
      var before, after :| Around(line, before, needle, after);
      assert OccursAt(line, needle, |before|);
    }
  }

  /** A line matches exactly when it holds one of the two messages of a lost context, wherever in it. */
  lemma LostContextLinesMatch(line: string)
    ensures Matches(line)
       <==> || (exists before, after :: Around(line, before, "EGL Error: Context Lost", after))
            || (exists before, after :: Around(line, before, "Could not make the context current", after))
  {
    hide Occurs, Around;
    OccursBetween(line, "EGL Error: Context Lost");
    OccursBetween(line, "Could not make the context current");
    assert NEEDLES[0] == "EGL Error: Context Lost" && NEEDLES[1] == "Could not make the context current";
  }

  /** A line that goes on is carried whole up to 4096 bytes, and fed as it is past them. */
  lemma LongLinesAreFed(carry: string, data: string)
    requires data != "" && '\n' !in carry && '\n' !in data
    ensures Fed(carry, data) == if |carry| + |data| <= 4096 then Lines([], carry + data) else Lines([carry + data], "")
  {
    SplitUnbroken(carry + data);
  }
}
