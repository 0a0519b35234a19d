// The drop target's reference count across controller rebuilds
// (centroid-hmi/windows/runner/drag_drop_lifetime.cpp).

module DragDropLifetime {

  datatype Target = Target(refcount: int, freed: bool)

  /** Indices into `targets`; -1 is none. */
  datatype State = State(
    controllerUp: bool,
    useAfterFree: bool,
    collision: bool,
    leaked: nat,
    targets: seq<Target>,
    registered: int,
    plugin: int)

  const FRESH := State(false, false, false, 0, [], -1, -1)

  // --- What each call does to the state -------------------------------------------

  predicate InRange(s: State, index: int) {
    -1 <= index < |s.targets|
  }

  function WithSlot(s: State, registered: int): State {
    State(s.controllerUp, s.useAfterFree, s.collision, s.leaked, s.targets, registered, s.plugin)
  }

  function WithTarget(s: State, index: nat, target: Target): State
    requires index < |s.targets|
  {
    State(s.controllerUp, s.useAfterFree, s.collision, s.leaked, s.targets[index := target], s.registered, s.plugin)
  }

  function AfterAddRef(s: State, index: int): State
    requires InRange(s, index)
  {
    if index < 0 then s
    else WithTarget(s, index, Target(s.targets[index].refcount + 1, s.targets[index].freed))
  }

  /** Freeing a target revokes the slot, which may release another target in turn. */
  function AfterRelease(s: State, index: int): State
    requires InRange(s, index) && InRange(s, s.registered)
    decreases s.registered != -1
  {
    if index < 0 then s
    else if s.targets[index].freed then
      State(s.controllerUp, true, s.collision, s.leaked, s.targets, s.registered, s.plugin)
    else
      var refcount := s.targets[index].refcount - 1;
      if refcount > 0 then WithTarget(s, index, Target(refcount, false))
      else
        var freed := WithSlot(WithTarget(s, index, Target(refcount, true)), -1);
        if s.registered == index || s.registered == -1 then freed
        else AfterRelease(freed, s.registered)
  }

  function AfterRevoke(s: State): State
    requires InRange(s, s.registered)
  {
    if s.registered == -1 then s else AfterRelease(WithSlot(s, -1), s.registered)
  }

  function AfterCreate(s: State): State
    requires InRange(s, s.registered)
  {
    var target := |s.targets|;
    var made := State(true, s.useAfterFree, s.collision || s.registered != -1, s.leaked,
                      s.targets + [Target(0, false)],
                      if s.registered == -1 then target else s.registered, target);
    AfterAddRef(if s.registered == -1 then AfterAddRef(made, target) else made, target)
  }

  function AfterDestroy(s: State, revokes: bool): State
    requires InRange(s, s.registered) && InRange(s, s.plugin)
  {
    if !s.controllerUp then s
    else
      ReleaseKeepsRange(WithSlot(s, -1), s.registered);
      var revoked := if revokes then AfterRevoke(s) else s;
      ReleaseKeepsRange(revoked, s.plugin);
      var torn := AfterRelease(revoked, s.plugin);
      State(false, torn.useAfterFree, torn.collision, if torn.registered != -1 then torn.leaked + 1 else torn.leaked,
            torn.targets, torn.registered, -1)
  }

  lemma {:induction false} ReleaseKeepsRange(s: State, index: int)
    requires InRange(s, index) && InRange(s, s.registered)
    ensures var t := AfterRelease(s, index);
      && |t.targets| == |s.targets|
      && (t.registered == s.registered || t.registered == -1)
      && t.plugin == s.plugin && t.controllerUp == s.controllerUp
      && t.collision == s.collision && t.leaked == s.leaked
    decreases s.registered != -1
  {
    if index >= 0 && !s.targets[index].freed && s.targets[index].refcount <= 1
       && s.registered != index && s.registered != -1 {
      ReleaseKeepsRange(WithSlot(WithTarget(s, index, Target(s.targets[index].refcount - 1, true)), -1), s.registered);
    }
  }

  /** One release takes one count off, frees at none left, and is noted when it comes too late. */
  lemma ReleaseCountsOne(s: State, index: int)
    requires 0 <= index < |s.targets| && InRange(s, s.registered)
    ensures var before, after := s.targets[index], AfterRelease(s, index);
      && |after.targets| == |s.targets|
      && if before.freed then after == s.(useAfterFree := true)
         else after.targets[index] == Target(before.refcount - 1, before.refcount <= 1)
  {
    ReleaseKeepsRange(s, index);
  }

  function Live(targets: seq<Target>): nat {
    if targets == [] then 0
    else Live(targets[..|targets| - 1]) + if targets[|targets| - 1].freed then 0 else 1
  }

  // --- Every count covers the references held ------------------------------------------

  function One(b: bool): nat {
    if b then 1 else 0
  }

  /** References to target `i`: the slot's, a plugin's on `plugin`, and one more on `extra`. */
  function References(s: State, plugin: int, extra: int, i: int): nat {
    One(s.registered == i) + One(plugin == i) + One(extra == i)
  }

  /** Every live target's count covers the references to it, and no freed target is referenced. */
  ghost predicate Covered(s: State, plugin: int, extra: int) {
    && InRange(s, s.registered) && InRange(s, plugin) && InRange(s, extra)
    && forall i :: 0 <= i < |s.targets| ==>
         var t := s.targets[i];
         if t.freed then References(s, plugin, extra, i) == 0
         else t.refcount >= 1 && t.refcount >= References(s, plugin, extra, i)
  }

  /** A reference that is held is to a live target, and one of several can be dropped. */
  lemma OneLessStaysCovered(s: State, plugin: int, index: nat)
    requires Covered(s, plugin, index)
    ensures !s.targets[index].freed
    ensures s.targets[index].refcount > 1 ==>
              Covered(WithTarget(s, index, Target(s.targets[index].refcount - 1, false)), plugin, -1)
  {
    assert References(s, plugin, index, index) >= 1;
  }

  lemma NothingHeldIsCovered(s: State, plugin: int, index: int)
    requires Covered(s, plugin, index) && index < 0
    ensures Covered(s, plugin, -1)
  {
  }

  /**
   * Releasing a held reference never touches a freed target, never frees the
   * target the slot holds, and leaves every other reference covered.
   */
  lemma {:induction false} ReleaseIsSafe(s: State, plugin: int, index: int)
    requires Covered(s, plugin, index)
    ensures var t := AfterRelease(s, index);
      && Covered(t, plugin, -1)
      && t.useAfterFree == s.useAfterFree && |t.targets| == |s.targets|
    ensures index >= 0 && s.targets[index].refcount <= 1 ==> s.registered != index
    decreases s.registered != -1
  {
    ReleaseKeepsRange(s, index);
    if index < 0 {
      NothingHeldIsCovered(s, plugin, index);
    } else {
      OneLessStaysCovered(s, plugin, index);
      hide References;
      if s.targets[index].refcount <= 1 {
        var freed := WithSlot(WithTarget(s, index, Target(s.targets[index].refcount - 1, true)), -1);
        FreeingStaysCovered(s, plugin, index);
        if s.registered != -1 {
          ReleaseIsSafe(freed, plugin, s.registered);
        }
      }
    }
  }

  /** A target at its last reference is in nobody else's hands. */
  lemma FreeingStaysCovered(s: State, plugin: int, index: nat)
    requires Covered(s, plugin, index) && s.targets[index].refcount <= 1
    ensures s.registered != index && plugin != index
    ensures var freed := Target(s.targets[index].refcount - 1, true);
      Covered(WithSlot(WithTarget(s, index, freed), -1), plugin, s.registered)
  {
    assert References(s, plugin, index, index) <= 1;
  }

  // --- The model -----------------------------------------------------------------------------

  class Model {
    const runnerRevokes: bool
    var controllerUp: bool
    var useAfterFree: bool
    var registrationCollision: bool
    var leakedRegistrations: nat
    var targets: seq<Target>
    var registeredIndex: int
    var pluginTargetIndex: int

    function View(): State
      reads this
    {
      State(controllerUp, useAfterFree, registrationCollision, leakedRegistrations, targets,
            registeredIndex, pluginTargetIndex)
    }

    /** What every sequence of calls keeps: counts cover references, and nothing freed was used. */
    ghost predicate Valid()
      reads this
    {
      Covered(View(), pluginTargetIndex, -1) && !useAfterFree
    }

    constructor (runnerRevokesOnTeardown: bool)
      ensures Valid() && View() == FRESH && runnerRevokes == runnerRevokesOnTeardown
    {
      runnerRevokes := runnerRevokesOnTeardown;
      controllerUp, useAfterFree, registrationCollision, leakedRegistrations := false, false, false, 0;
      targets, registeredIndex, pluginTargetIndex := [], -1, -1;
    }

    method NewTarget() returns (index: nat)
      modifies this`targets
      ensures targets == old(targets) + [Target(0, false)] && index == |old(targets)|
    {
      targets := targets + [Target(0, false)];
      return |targets| - 1;
    }

    method AddRef(index: int)
      requires InRange(View(), index)
      modifies this`targets
      ensures View() == AfterAddRef(old(View()), index)
    {
      if index < 0 {
        return;
      }
      targets := targets[index := targets[index].(refcount := targets[index].refcount + 1)];
    }

    method Release(index: int)
      requires InRange(View(), index) && InRange(View(), registeredIndex)
      modifies this`targets, this`useAfterFree, this`registeredIndex
      ensures View() == AfterRelease(old(View()), index)
      decreases registeredIndex != -1
    {
      if index < 0 {
        return;
      }
      if targets[index].freed {
        useAfterFree := true;
        return;
      }
      targets := targets[index := Target(targets[index].refcount - 1, false)];
      if targets[index].refcount <= 0 {
        targets := targets[index := Target(targets[index].refcount, true)];
        if registeredIndex == index {
          registeredIndex := -1;
        } else if registeredIndex != -1 {
          var occupant := registeredIndex;
          registeredIndex := -1;
          assert View() == WithSlot(WithTarget(old(View()), index, Target(old(targets)[index].refcount - 1, true)), -1);
          Release(occupant);
        }
      }
    }

    method Revoke()
      requires InRange(View(), registeredIndex)
      modifies this`targets, this`useAfterFree, this`registeredIndex
      ensures View() == AfterRevoke(old(View()))
    {
      if registeredIndex == -1 {
        return;
      }
      var occupant := registeredIndex;
      registeredIndex := -1;
      Release(occupant);
    }

    method CreateController()
      requires Valid()
      modifies this
      ensures Valid() && View() == AfterCreate(old(View()))
    {
      controllerUp := true;
      var target := NewTarget();
      if registeredIndex == -1 {
        registeredIndex := target;
        AddRef(target);
      } else {
        registrationCollision := true;
      }
      AddRef(target);
      pluginTargetIndex := target;
      CreateIsSafe(old(View()));
    }

    method DestroyController()
      requires Valid()
      modifies this
      ensures Valid() && View() == AfterDestroy(old(View()), runnerRevokes)
    {
      DestroyIsSafe(View(), runnerRevokes);
      if !controllerUp {
        return;
      }
      ReleaseKeepsRange(WithSlot(View(), -1), registeredIndex);
      if runnerRevokes {
        Revoke();
      }
      Release(pluginTargetIndex);
      pluginTargetIndex := -1;
      controllerUp := false;
      if registeredIndex != -1 {
        leakedRegistrations := leakedRegistrations + 1;
      }
    }

    method LiveTargets() returns (live: nat)
      ensures live == Live(targets)
    {
      live := 0;
      var i := 0;
      while i < |targets|
        invariant 0 <= i <= |targets|
        invariant live == Live(targets[..i])
      {
        assert targets[..i + 1][..i] == targets[..i];
        if !targets[i].freed {
          live := live + 1;
        }
        i := i + 1;
      }
      assert targets[..i] == targets;
    }
  }

  lemma CreateIsSafe(s: State)
    requires Covered(s, s.plugin, -1)
    ensures Covered(AfterCreate(s), AfterCreate(s).plugin, -1)
    ensures AfterCreate(s).useAfterFree == s.useAfterFree
  {
  }

  /** Revoking releases the slot's reference and empties it. */
  lemma RevokeIsSafe(s: State)
    requires Covered(s, s.plugin, -1)
    ensures var t := AfterRevoke(s);
      && Covered(t, s.plugin, -1) && t.registered == -1 && t.plugin == s.plugin
      && t.useAfterFree == s.useAfterFree && t.leaked == s.leaked
  {
    if s.registered != -1 {
      var emptied := WithSlot(s, -1);
      SlotAsExtra(s);
      hide AfterRelease, Covered, References;
      ReleaseIsSafe(emptied, s.plugin, s.registered);
      ReleaseKeepsRange(emptied, s.registered);
    }
  }

  lemma SlotAsExtra(s: State)
    requires Covered(s, s.plugin, -1)
    ensures Covered(WithSlot(s, -1), s.plugin, s.registered)
    ensures InRange(WithSlot(s, -1), s.registered) && InRange(s, s.plugin)
  {
  }

  lemma PluginAsExtra(s: State, plugin: int)
    requires Covered(s, plugin, -1)
    ensures Covered(s, -1, plugin) && InRange(s, s.registered)
  {
  }

  /** Only the targets and the slot matter to what is covered. */
  lemma CoveredAlike(s: State, t: State, plugin: int)
    requires Covered(s, plugin, -1) && t.targets == s.targets && t.registered == s.registered
    ensures Covered(t, plugin, -1)
  {
  }

  lemma DestroyIsSafe(s: State, revokes: bool)
    requires Covered(s, s.plugin, -1)
    ensures Covered(AfterDestroy(s, revokes), AfterDestroy(s, revokes).plugin, -1)
    ensures AfterDestroy(s, revokes).useAfterFree == s.useAfterFree
    ensures revokes ==> AfterDestroy(s, revokes).leaked == s.leaked
    ensures revokes && s.controllerUp ==> AfterDestroy(s, revokes).registered == -1
  {
    SlotAsExtra(s);
    PluginAsExtra(s, s.plugin);
    hide AfterRelease, AfterRevoke, Covered, References;
    if s.controllerUp {
      RevokeIsSafe(s);
      var revoked := if revokes then AfterRevoke(s) else s;
      PluginAsExtra(revoked, s.plugin);
      ReleaseIsSafe(revoked, -1, s.plugin);
      ReleaseKeepsRange(revoked, s.plugin);
      CoveredAlike(AfterRelease(revoked, s.plugin), AfterDestroy(s, revokes), -1);
    }
  }

  // --- Runs -----------------------------------------------------------------------------------

  datatype Call = Create | Destroy

  function Step(s: State, revokes: bool, call: Call): State
    requires InRange(s, s.registered) && InRange(s, s.plugin)
  {
    if call.Create? then AfterCreate(s) else AfterDestroy(s, revokes)
  }

  /** The model after the first `n` calls. */
  ghost function StateAt(revokes: bool, calls: seq<Call>, n: nat): (s: State)
    requires n <= |calls|
    ensures Covered(s, s.plugin, -1)
  {
    if n == 0 then FRESH
    else
      var before := StateAt(revokes, calls, n - 1);
      CreateIsSafe(before);
      DestroyIsSafe(before, revokes);
      Step(before, revokes, calls[n - 1])
  }

  /** No sequence of calls ever uses a freed target -- with the fix or without it. */
  lemma {:induction false} NeverUsedAfterFree(revokes: bool, calls: seq<Call>, n: nat)
    requires n <= |calls|
    ensures !StateAt(revokes, calls, n).useAfterFree
  {
    if n > 0 {
      NeverUsedAfterFree(revokes, calls, n - 1);
      CreateIsSafe(StateAt(revokes, calls, n - 1));
      DestroyIsSafe(StateAt(revokes, calls, n - 1), revokes);
    }
  }

  /** Among the first `n` calls a controller was created on top of a live one. */
  ghost predicate Doubled(calls: seq<Call>, n: nat)
    requires n <= |calls|
  {
    exists i :: 0 < i < n && calls[i - 1] == Create && calls[i] == Create
  }

  /**
   * With the fix no registration ever leaks, and registrations collide exactly
   * when a controller is created on top of a live one.
   */
  lemma {:induction false} FixNeverLeaks(calls: seq<Call>, n: nat)
    requires n <= |calls|
    ensures var s := StateAt(true, calls, n);
      && s.leaked == 0
      && (s.collision <==> Doubled(calls, n))
      && (s.registered != -1 <==> s.controllerUp)
      && (s.controllerUp <==> n > 0 && calls[n - 1] == Create)
  {
    if n > 0 {
      FixNeverLeaks(calls, n - 1);
      var before := StateAt(true, calls, n - 1);
      CreateIsSafe(before);
      DestroyIsSafe(before, true);
      DestroyKeepsCollision(before, true);
      if n > 1 && calls[n - 2] == Create && calls[n - 1] == Create {
        assert Doubled(calls, n);
      }
    }
  }

  lemma DestroyKeepsCollision(s: State, revokes: bool)
    requires Covered(s, s.plugin, -1)
    ensures AfterDestroy(s, revokes).collision == s.collision
    ensures !AfterDestroy(s, revokes).controllerUp
  {
    if s.controllerUp {
      ReleaseKeepsRange(WithSlot(s, -1), s.registered);
      var revoked := if revokes then AfterRevoke(s) else s;
      ReleaseKeepsRange(revoked, s.plugin);
    }
  }

  /** The model after `k` controllers were created and destroyed in turn, as the host does. */
  ghost function AfterCycles(revokes: bool, k: nat): (s: State)
    ensures Covered(s, s.plugin, -1)
    decreases k, 0
  {
    if k == 0 then FRESH
    else
      var up := Up(revokes, k - 1);
      DestroyIsSafe(up, revokes);
      AfterDestroy(up, revokes)
  }

  /** The same, with one more controller up. */
  ghost function Up(revokes: bool, k: nat): (s: State)
    ensures Covered(s, s.plugin, -1)
    decreases k, 1
  {
    var down := AfterCycles(revokes, k);
    CreateIsSafe(down);
    AfterCreate(down)
  }

  /** All but the last target are freed; the last has `count` references, or is freed too. */
  ghost predicate OnlyLast(s: State, count: nat) {
    forall i :: 0 <= i < |s.targets| ==>
      if i == |s.targets| - 1 && count > 0 then s.targets[i] == Target(count, false) else s.targets[i].freed
  }

  /** No controller; the slot is empty and nothing is alive, or the slot alone keeps the last target. */
  ghost predicate Down(s: State, stale: bool) {
    && !s.controllerUp && s.plugin == -1
    && (stale ==> |s.targets| > 0)
    && s.registered == (if stale then |s.targets| - 1 else -1)
    && OnlyLast(s, One(stale))
  }

  /** A controller whose plugin and slot both hold the last target. */
  ghost predicate Balanced(s: State) {
    && s.controllerUp && |s.targets| > 0
    && s.plugin == s.registered == |s.targets| - 1
    && OnlyLast(s, 2)
  }

  lemma {:induction false} LiveIsZero(targets: seq<Target>)
    requires forall i :: 0 <= i < |targets| ==> targets[i].freed
    ensures Live(targets) == 0
  {
    if targets != [] { LiveIsZero(targets[..|targets| - 1]); }
  }

  lemma LiveIsOne(s: State, count: nat)
    requires |s.targets| > 0 && count > 0 && OnlyLast(s, count)
    ensures Live(s.targets) == 1
  {
    LiveIsZero(s.targets[..|s.targets| - 1]);
  }

  lemma CreateFromClean(s: State)
    requires Down(s, false)
    ensures var t := AfterCreate(s);
      Balanced(t) && Live(t.targets) == 1 && t.collision == s.collision && t.leaked == s.leaked
  {
    LiveIsOne(AfterCreate(s), 2);
  }

  lemma DestroyWithFix(s: State)
    requires Balanced(s)
    ensures var t := AfterDestroy(s, true);
      Down(t, false) && Live(t.targets) == 0 && t.collision == s.collision && t.leaked == s.leaked
  {
    LiveIsZero(AfterDestroy(s, true).targets);
  }

  lemma DestroyWithoutFix(s: State)
    requires Balanced(s)
    ensures var t := AfterDestroy(s, false);
      Down(t, true) && Live(t.targets) == 1 && t.collision == s.collision && t.leaked == s.leaked + 1
  {
    LiveIsOne(AfterDestroy(s, false), 1);
  }

  /** The cycle after a leak: the new target's end releases the stale one too. */
  lemma CycleOnStaleSlot(s: State)
    requires Down(s, true)
    ensures AfterCreate(s).collision && InRange(AfterCreate(s), AfterCreate(s).registered)
    ensures InRange(AfterCreate(s), AfterCreate(s).plugin)
    ensures Live(AfterCreate(s).targets) == 2
    ensures var t := AfterDestroy(AfterCreate(s), false);
      Down(t, false) && Live(t.targets) == 0 && t.collision && t.leaked == s.leaked
  {
    var up := AfterCreate(s);
    assert up.targets[..|s.targets|] == s.targets;
    LiveIsOne(s, 1);
    var freed := WithSlot(WithTarget(up, |s.targets|, Target(0, true)), -1);
    assert AfterRelease(up, |s.targets|) == AfterRelease(freed, s.registered);
    LiveIsZero(AfterDestroy(up, false).targets);
  }

  /**
   * With the fix, any number of rebuilds keeps everything balanced: no
   * collision, no leak, one live target while the controller is up and none
   * while it is down.
   */
  lemma {:induction false} FixBalances(k: nat)
    ensures var s := AfterCycles(true, k);
      Down(s, false) && Live(s.targets) == 0 && !s.collision && s.leaked == 0
    ensures var s := Up(true, k);
      Balanced(s) && Live(s.targets) == 1 && !s.collision && s.leaked == 0
  {
    hide AfterCreate, AfterDestroy;
    if k > 0 {
      FixBalances(k - 1);
      DestroyWithFix(Up(true, k - 1));
    }
    CreateFromClean(AfterCycles(true, k));
  }

  /**
   * Without the fix, every second full cycle leaks: 2 * pairs cycles, and one
   * more when `odd`, leave half of them, rounded up, leaked; the odd one's
   * target is alive, and collisions start with the second cycle.
   */
  lemma {:induction false} NoFixDrifts(pairs: nat, odd: bool)
    ensures var s := AfterCycles(false, 2 * pairs + One(odd));
      && Down(s, odd)
      && s.leaked == pairs + One(odd)
      && Live(s.targets) == One(odd)
      && (s.collision <==> pairs > 0)
    decreases pairs, odd
  {
    hide AfterCreate, AfterDestroy, Down, Balanced, Live, Covered;
    if odd {
      NoFixDrifts(pairs, false);
      OneCycle(AfterCycles(false, 2 * pairs), false);
    } else if pairs > 0 {
      NoFixDrifts(pairs - 1, true);
      OneCycle(AfterCycles(false, 2 * pairs - 1), true);
    } else {
      NothingYet();
    }
  }

  lemma NothingYet()
    ensures Down(FRESH, false) && Live(FRESH.targets) == 0
  {
  }

  /** One create and destroy without the fix, from either of the two states it alternates between. */
  lemma OneCycle(s: State, stale: bool)
    requires Down(s, stale)
    ensures var up := AfterCreate(s);
      && InRange(up, up.registered) && InRange(up, up.plugin)
      && var t := AfterDestroy(up, false);
        && Down(t, !stale) && Live(t.targets) == One(!stale)
        && t.collision == (s.collision || stale)
        && t.leaked == s.leaked + One(!stale)
  {
    hide AfterCreate, AfterDestroy;
    if stale {
      CycleOnStaleSlot(s);
    } else {
      CreateFromClean(s);
      DestroyWithoutFix(AfterCreate(s));
    }
  }
}
