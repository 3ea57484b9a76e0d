/**
  What the controller switch promises, proved about the functions of
  StateMachine: per transition (teardown before construction, which slot
  changes, what Shed registers) and across arbitrarily many transitions
  (slots are never cleared, registrations pile up, one subscription per
  manager).
*/
module Properties {
  import opened Wrappers
  import opened StateMachine

  /** Every object token the manager has handed out is below its counter. */
  predicate EventBelow(e: Event, n: ObjectId) {
    match e
    case Subscribed => true
    case Unsubscribed => true
    case Disposed(_, id) => id < n
    case Registered(res) => res.id < n
    case Built(_, id) => id < n
  }

  predicate WellFormed(m: Manager) {
    && (forall i :: 0 <= i < |m.log| ==> EventBelow(m.log[i], m.nextId))
    && (forall i :: 0 <= i < |m.registered| ==> m.registered[i].id < m.nextId)
    && (forall s: Slot :: m.slots.Get(s).Some? ==> m.slots.Get(s).value < m.nextId)
  }

  /** Whether event `e` refers to object `id`. */
  predicate Mentions(e: Event, id: ObjectId) {
    match e
    case Subscribed => false
    case Unsubscribed => false
    case Disposed(_, c) => c == id
    case Registered(res) => res.id == id
    case Built(_, c) => c == id
  }

  /** The number of times `st` occurs among the emitted states. */
  function Occurrences(states: seq<GameState>, st: GameState): nat {
    multiset(states)[st]
  }

  lemma AppendKeepsCount(a: seq<Event>, tail: seq<Event>, e: Event)
    requires e !in tail
    ensures multiset(a + tail)[e] == multiset(a)[e]
  {
    assert multiset(a + tail) == multiset(a) + multiset(tail);
  }

  lemma CountAppend(a: seq<Event>, b: seq<Event>, e: Event)
    ensures multiset(a + b)[e] == multiset(a)[e] + multiset(b)[e]
  {
    assert multiset(a + b) == multiset(a) + multiset(b);
  }

  /** The log of one transition: the old log, the teardown, then the switch. */
  lemma StepLog(m: Manager, st: GameState)
    ensures Step(m, st).log == m.log + Teardown(m.slots) + BuildEvents(m.nextId, st)
    ensures Step(m, st).subscribed == m.subscribed
  {
  }

  /** The disposals of one teardown: exactly one per non-null slot. */
  lemma TeardownDisposesEachOnce(slots: Slots, s: Slot)
    requires slots.Get(s).Some?
    ensures multiset(Teardown(slots))[Disposed(s, slots.Get(s).value)] == 1
  {
    var c := slots.Get(s).value;
    var t := Teardown(slots);
    var a := DisposeIfPresent(MainMenuSlot, slots.mainMenu);
    var b := DisposeIfPresent(SettingsSlot, slots.settingsMenu);
    var d := DisposeIfPresent(ShedSlot, slots.shed);
    var g := DisposeIfPresent(GameSlot, slots.game);
    assert t == a + b + d + g;
    assert multiset(t) == multiset(a) + multiset(b) + multiset(d) + multiset(g);
  }

  /** One transition disposes every non-null slot, in the fixed order, and
      only then constructs anything: no disposal follows the teardown. */
  lemma StepTearsDownBeforeBuilding(m: Manager, st: GameState)
    ensures var r := Step(m, st); var k := |m.log| + |Teardown(m.slots)|;
      && k <= |r.log|
      && r.log[..|m.log|] == m.log
      && r.log[|m.log|..k] == Teardown(m.slots)
      && (forall i :: k <= i < |r.log| ==> !r.log[i].Disposed?)
      && (forall s: Slot :: m.slots.Get(s).Some? ==> Disposed(s, m.slots.Get(s).value) in r.log[|m.log|..k])
  {
    StepLog(m, st);
    var r := Step(m, st);
    var t := m.log + Teardown(m.slots);
    var b := BuildEvents(m.nextId, st);
    assert r.log[..|t|] == t;
    forall i | |t| <= i < |r.log| ensures !r.log[i].Disposed? {
      assert r.log[i] == b[i - |t|];
    }
  }

  /** After a change to a known state exactly its slot is overwritten, with a
      controller drawn fresh during this call and built last; the other
      three slots keep what they held. */
  lemma StepOverwritesOnlyMatchingSlot(m: Manager, st: GameState)
    ensures var r := Step(m, st);
      && (forall s: Slot :: Some(s) != SlotFor(st) ==> r.slots.Get(s) == m.slots.Get(s))
      && (SlotFor(st).Some? ==>
            var s := SlotFor(st).value;
            && r.slots.Get(s).Some?
            && m.nextId <= r.slots.Get(s).value < r.nextId
            && r.nextId == m.nextId + (if st == Shed then 4 else 1)
            && r.log[|r.log| - 1] == Built(s, r.slots.Get(s).value)
            && (forall i :: |m.log| <= i < |r.log| - 1 ==> !r.log[i].Built?))
  {
    StepLog(m, st);
    var t := m.log + Teardown(m.slots);
    var b := BuildEvents(m.nextId, st);
    var r := Step(m, st);
    forall i | |m.log| <= i < |r.log| - 1 ensures !r.log[i].Built? {
      if i >= |t| { assert r.log[i] == b[i - |t|]; }
    }
  }

  /** A state none of the four cases matches builds and registers nothing and
      leaves every slot as it was, after the teardown pass. */
  lemma StepUnknownStateOnlyTearsDown(m: Manager, st: GameState)
    requires SlotFor(st).None?
    ensures Step(m, st) == m.(log := m.log + Teardown(m.slots))
  {
  }

  /** Entering Shed registers an inventory context, an upgrade repository and
      a view object, in that order and all fresh, before the ShedController is
      built; no other state registers anything. */
  lemma StepShedRegistersThree(m: Manager, st: GameState)
    ensures var r := Step(m, st); var k := |m.log| + |Teardown(m.slots)|;
      && r.registered[..|m.registered|] == m.registered
      && (st != Shed ==> r.registered == m.registered)
      && (st == Shed ==>
            && |r.registered| == |m.registered| + 3
            && r.registered[|m.registered|].kind == InventoryContextKind
            && r.registered[|m.registered| + 1].kind == UpgradeRepositoryKind
            && r.registered[|m.registered| + 2].kind == ShedViewObjectKind
            && (forall i :: |m.registered| <= i < |r.registered| ==> m.nextId <= r.registered[i].id < r.slots.shed.value)
            && |r.log| == k + 4
            && r.log[k] == Registered(r.registered[|m.registered|])
            && r.log[k + 1] == Registered(r.registered[|m.registered| + 1])
            && r.log[k + 2] == Registered(r.registered[|m.registered| + 2])
            && r.log[k + 3] == Built(ShedSlot, r.slots.shed.value))
  {
    StepLog(m, st);
  }

  lemma StepPreservesWellFormed(m: Manager, st: GameState)
    requires WellFormed(m)
    ensures WellFormed(Step(m, st))
  {
    StepLog(m, st);
    var r := Step(m, st);
    var t := m.log + Teardown(m.slots);
    var b := BuildEvents(m.nextId, st);
    forall i | 0 <= i < |r.log| ensures EventBelow(r.log[i], r.nextId) {
      if i >= |t| {
        assert r.log[i] == b[i - |t|];
        if st == Shed { assert b == Registrations(ShedResources(m.nextId)) + [Built(ShedSlot, m.nextId + 3)]; }
      }
    }
  }

  /** The controller a transition builds is new: no earlier event and no
      earlier slot refers to it. */
  lemma StepBuildsFreshController(m: Manager, st: GameState)
    requires WellFormed(m)
    requires SlotFor(st).Some?
    ensures var c := Step(m, st).slots.Get(SlotFor(st).value).value;
      && (forall i :: 0 <= i < |m.log| ==> !Mentions(m.log[i], c))
      && (forall s: Slot :: m.slots.Get(s) != Some(c))
  {
    StepOverwritesOnlyMatchingSlot(m, st);
  }

  /** Re-emitting the same state is not short-circuited: the controller the
      first emission built is disposed and a different one takes its slot. */
  lemma {:induction false} ReemittingRebuilds(m: Manager, st: GameState)
    requires WellFormed(m)
    requires SlotFor(st).Some?
    ensures var s := SlotFor(st).value; var m1 := Step(m, st); var m2 := Step(m1, st);
      && m1.slots.Get(s).Some?
      && Disposed(s, m1.slots.Get(s).value) in m2.log[|m1.log|..]
      && m2.slots.Get(s).Some?
      && m2.slots.Get(s) != m1.slots.Get(s)
  {
    var s := SlotFor(st).value;
    var m1 := Step(m, st);
    StepOverwritesOnlyMatchingSlot(m, st);
    StepTearsDownBeforeBuilding(m1, st);
    StepOverwritesOnlyMatchingSlot(m1, st);
    var k := |m1.log| + |Teardown(m1.slots)|;
    var m2 := Step(m1, st);
    assert m2.log[|m1.log|..k] <= m2.log[|m1.log|..];
  }

  lemma {:induction false} RunPreservesWellFormed(m: Manager, states: seq<GameState>)
    requires WellFormed(m)
    ensures WellFormed(Run(m, states))
    decreases |states|
  {
    if states != [] {
      StepPreservesWellFormed(m, states[0]);
      RunPreservesWellFormed(Step(m, states[0]), states[1..]);
    }
  }

  /** Slots are never reset to null: once a slot holds a controller, it holds
      one after any further transitions. */
  lemma {:induction false} SlotsNeverCleared(m: Manager, states: seq<GameState>, s: Slot)
    requires m.slots.Get(s).Some?
    ensures Run(m, states).slots.Get(s).Some?
    decreases |states|
  {
    if states != [] {
      StepOverwritesOnlyMatchingSlot(m, states[0]);
      SlotsNeverCleared(Step(m, states[0]), states[1..], s);
    }
  }

  /** One transition disposes a non-null slot's controller exactly once. */
  lemma StepDisposesOnce(m: Manager, st: GameState, s: Slot)
    requires m.slots.Get(s).Some?
    ensures var d := Disposed(s, m.slots.Get(s).value);
      multiset(Step(m, st).log)[d] == multiset(m.log)[d] + 1
  {
    var d := Disposed(s, m.slots.Get(s).value);
    var t := Teardown(m.slots);
    var b := BuildEvents(m.nextId, st);
    StepLog(m, st);
    TeardownDisposesEachOnce(m.slots, s);
    assert d !in b;
    CountAppend(m.log, t, d);
    AppendKeepsCount(m.log + t, b, d);
  }

  /** A controller stays in its slot, and is disposed once more on every
      transition, until a transition to its own state overwrites it. */
  lemma {:induction false} DisposedOnEveryLaterTransition(m: Manager, states: seq<GameState>, s: Slot, c: ObjectId)
    requires m.slots.Get(s) == Some(c)
    requires forall i :: 0 <= i < |states| ==> SlotFor(states[i]) != Some(s)
    ensures Run(m, states).slots.Get(s) == Some(c)
    ensures multiset(Run(m, states).log)[Disposed(s, c)] == multiset(m.log)[Disposed(s, c)] + |states|
    decreases |states|
  {
    if states != [] {
      StepDisposesOnce(m, states[0], s);
      StepOverwritesOnlyMatchingSlot(m, states[0]);
      DisposedOnEveryLaterTransition(Step(m, states[0]), states[1..], s, c);
    }
  }

  /** The registrations after one transition. */
  lemma StepRegisters(m: Manager, st: GameState)
    ensures Step(m, st).registered == m.registered + FactoryResources(m.nextId, st)
    ensures |FactoryResources(m.nextId, st)| == if st == Shed then 3 else 0
  {
  }

  /** Shed registrations pile up: nothing already registered is removed, and
      each Shed entry adds three. */
  lemma {:induction false} RegistrationsAccumulate(m: Manager, states: seq<GameState>)
    ensures var r := Run(m, states);
      && |r.registered| == |m.registered| + 3 * Occurrences(states, Shed)
      && r.registered[..|m.registered|] == m.registered
    decreases |states|
  {
    if states != [] {
      assert multiset(states) == multiset([states[0]]) + multiset(states[1..]) by {
        assert states == [states[0]] + states[1..];
      }
      StepRegisters(m, states[0]);
      var m1 := Step(m, states[0]);
      RegistrationsAccumulate(m1, states[1..]);
      var r := Run(m1, states[1..]);
      assert r.registered[..|m.registered|] == r.registered[..|m1.registered|][..|m.registered|];
    }
  }

  /** A transition logs no subscription event. */
  lemma StepLogsNoSubscriptionEvent(m: Manager, st: GameState, e: Event)
    requires e.Subscribed? || e.Unsubscribed?
    ensures multiset(Step(m, st).log)[e] == multiset(m.log)[e]
  {
    StepLog(m, st);
    var t := Teardown(m.slots);
    var b := BuildEvents(m.nextId, st);
    assert e !in t;
    assert e !in b;
    AppendKeepsCount(m.log, t, e);
    AppendKeepsCount(m.log + t, b, e);
  }

  /** One transition neither attaches nor detaches the change handler, and
      only appends to the log. */
  lemma StepKeepsSubscription(m: Manager, st: GameState)
    ensures var r := Step(m, st);
      && r.subscribed == m.subscribed
      && multiset(r.log)[Subscribed] == multiset(m.log)[Subscribed]
      && multiset(r.log)[Unsubscribed] == multiset(m.log)[Unsubscribed]
      && |m.log| <= |r.log|
      && r.log[..|m.log|] == m.log
  {
    StepLog(m, st);
    StepLogsNoSubscriptionEvent(m, st, Subscribed);
    StepLogsNoSubscriptionEvent(m, st, Unsubscribed);
  }

  /** Transitions neither attach nor detach the change handler. */
  lemma {:induction false} RunKeepsSubscription(m: Manager, states: seq<GameState>)
    ensures var r := Run(m, states);
      && r.subscribed == m.subscribed
      && multiset(r.log)[Subscribed] == multiset(m.log)[Subscribed]
      && multiset(r.log)[Unsubscribed] == multiset(m.log)[Unsubscribed]
      && |m.log| <= |r.log|
      && r.log[..|m.log|] == m.log
    decreases |states|
  {
    if states != [] {
      var m1 := Step(m, states[0]);
      StepKeepsSubscription(m, states[0]);
      RunKeepsSubscription(m1, states[1..]);
      var r := Run(m1, states[1..]);
      assert r.log[..|m.log|] == r.log[..|m1.log|][..|m.log|];
    }
  }

  /** The log right after construction: the subscription, then the switch. */
  lemma ConstructLog(current: GameState)
    ensures Construct(current).log == [Subscribed] + BuildEvents(0, current)
  {
    var m0 := Manager(NoControllers, true, 0, [], [Subscribed]);
    assert Teardown(NoControllers) == [];
    StepLog(m0, current);
  }

  /** A subscription followed only by registrations and constructions. */
  lemma SubscriptionThenBuilds(b: seq<Event>)
    requires forall i :: 0 <= i < |b| ==> b[i].Registered? || b[i].Built?
    ensures var log := [Subscribed] + b;
      && log[0] == Subscribed
      && multiset(log)[Subscribed] == 1
      && multiset(log)[Unsubscribed] == 0
      && (forall i :: 0 <= i < |log| ==> !log[i].Disposed?)
  {
    var log := [Subscribed] + b;
    forall i | 0 <= i < |log| ensures !log[i].Disposed? {
      if i > 0 { assert log[i] == b[i - 1]; }
    }
    assert Subscribed !in b && Unsubscribed !in b;
    AppendKeepsCount([Subscribed], b, Subscribed);
    AppendKeepsCount([Subscribed], b, Unsubscribed);
  }

  /** The first handler run disposes nothing and logs one subscription. */
  lemma ConstructDisposesNothing(current: GameState)
    ensures var r := Construct(current);
      && r.log[0] == Subscribed
      && multiset(r.log)[Subscribed] == 1
      && multiset(r.log)[Unsubscribed] == 0
      && (forall i :: 0 <= i < |r.log| ==> !r.log[i].Disposed?)
  {
    ConstructLog(current);
    SubscriptionThenBuilds(BuildEvents(0, current));
  }

  /** The first handler run fills exactly the current state's slot, with the
      last object it draws. */
  lemma ConstructFillsOneSlot(current: GameState)
    ensures var r := Construct(current);
      && r.subscribed
      && (forall s: Slot :: r.slots.Get(s).Some? <==> SlotFor(current) == Some(s))
      && (SlotFor(current).Some? ==> r.slots.Get(SlotFor(current).value) == Some(r.nextId - 1))
  {
  }

  /** The first handler run builds exactly one controller, the current
      state's, as its last event, or nothing at all for an unknown state. */
  lemma ConstructBuildsOnce(current: GameState)
    ensures var r := Construct(current);
      && (SlotFor(current).None? ==> r.log == [Subscribed])
      && (SlotFor(current).Some? ==>
            && r.log[|r.log| - 1] == Built(SlotFor(current).value, r.nextId - 1)
            && (forall i :: 0 <= i < |r.log| - 1 ==> !r.log[i].Built?))
  {
    ConstructLog(current);
    var r := Construct(current);
    var b := BuildEvents(0, current);
    forall i | 0 <= i < |r.log| - 1 ensures !r.log[i].Built? {
      if i > 0 { assert r.log[i] == b[i - 1]; }
    }
  }

  /** Construction subscribes first, then runs the handler once with the
      current value; nothing is disposed because every slot is still null,
      and exactly the current state's slot ends up non-null. */
  lemma ConstructSubscribesThenBuildsOnce(current: GameState)
    ensures var r := Construct(current);
      && r.subscribed
      && WellFormed(r)
      && r.log[0] == Subscribed
      && multiset(r.log)[Subscribed] == 1
      && multiset(r.log)[Unsubscribed] == 0
      && (forall i :: 0 <= i < |r.log| ==> !r.log[i].Disposed?)
      && (forall s: Slot :: r.slots.Get(s).Some? <==> SlotFor(current) == Some(s))
      && (SlotFor(current).None? ==> r.log == [Subscribed])
      && (SlotFor(current).Some? ==>
            && r.slots.Get(SlotFor(current).value) == Some(r.nextId - 1)
            && r.log[|r.log| - 1] == Built(SlotFor(current).value, r.nextId - 1)
            && (forall i :: 0 <= i < |r.log| - 1 ==> !r.log[i].Built?))
  {
    StepPreservesWellFormed(Manager(NoControllers, true, 0, [], [Subscribed]), current);
    ConstructDisposesNothing(current);
    ConstructFillsOneSlot(current);
    ConstructBuildsOnce(current);
  }

  /** Disposing the manager disposes every non-null slot in the fixed order
      and then detaches the handler; it clears no slot and releases no
      registered resource. */
  lemma DisposeTearsDownThenUnsubscribes(m: Manager)
    ensures var r := Dispose(m); var k := |m.log| + |Teardown(m.slots)|;
      && !r.subscribed
      && |r.log| == k + 1
      && r.log[..|m.log|] == m.log
      && r.log[|m.log|..k] == Teardown(m.slots)
      && r.log[k] == Unsubscribed
      && r.slots == m.slots
      && r.registered == m.registered
  {
  }

  lemma DisposePreservesWellFormed(m: Manager)
    ensures WellFormed(Dispose(m)) <==> WellFormed(m)
  {
    var r := Dispose(m);
    var t := m.log + Teardown(m.slots);
    assert r.log == t + [Unsubscribed];
    if WellFormed(m) {
      forall i | 0 <= i < |r.log| ensures EventBelow(r.log[i], r.nextId) {
        if i < |m.log| { assert r.log[i] == m.log[i]; }
      }
    }
    if WellFormed(r) {
      forall i | 0 <= i < |m.log| ensures EventBelow(m.log[i], m.nextId) {
        assert r.log[i] == m.log[i];
      }
    }
  }

  /** Disposal logs exactly one more unsubscription, last, and no
      subscription. */
  lemma DisposeLogsOneUnsubscription(m: Manager)
    ensures var r := Dispose(m);
      && |r.log| > |m.log|
      && r.log[..|m.log|] == m.log
      && r.log[|r.log| - 1] == Unsubscribed
      && multiset(r.log)[Subscribed] == multiset(m.log)[Subscribed]
      && multiset(r.log)[Unsubscribed] == multiset(m.log)[Unsubscribed] + 1
  {
    var t := Teardown(m.slots);
    assert Subscribed !in t && Unsubscribed !in t;
    AppendKeepsCount(m.log, t, Subscribed);
    AppendKeepsCount(m.log, t, Unsubscribed);
    AppendKeepsCount(m.log + t, [Unsubscribed], Subscribed);
    CountAppend(m.log + t, [Unsubscribed], Unsubscribed);
  }

  /** Over a manager's whole life (construction, any number of state
      changes, disposal) the handler is attached exactly once, first, and
      detached exactly once, last. */
  lemma LifecycleSubscribesOnce(current: GameState, changes: seq<GameState>)
    ensures var r := Dispose(Run(Construct(current), changes));
      && !r.subscribed
      && r.log[0] == Subscribed
      && multiset(r.log)[Subscribed] == 1
      && r.log[|r.log| - 1] == Unsubscribed
      && multiset(r.log)[Unsubscribed] == 1
  {
    var c := Construct(current);
    ConstructSubscribesThenBuildsOnce(current);
    RunKeepsSubscription(c, changes);
    var m := Run(c, changes);
    DisposeLogsOneUnsubscription(m);
    var r := Dispose(m);
    assert r.log[0] == r.log[..|m.log|][0] == m.log[0];
    assert m.log[0] == m.log[..|c.log|][0] == c.log[0];
  }

  /** Starting in Start builds the main menu controller as object 0. */
  lemma ConstructStart()
    ensures Construct(Start).slots == NoControllers.Set(MainMenuSlot, 0)
    ensures Construct(Start).nextId == 1
    ensures Construct(Start).log == [Subscribed, Built(MainMenuSlot, 0)]
  {
    var m0 := Manager(NoControllers, true, 0, [], [Subscribed]);
    assert Teardown(NoControllers) == [];
    StepLog(m0, Start);
  }

  /** Shed entered after Start gets object 4: objects 1 to 3 are its
      inventory context, upgrade repository and view. */
  lemma ShedAfterStart()
    ensures Run(Construct(Start), [Shed]).slots.shed == Some(4)
    ensures Run(Construct(Start), [Shed]).registered
      == [Resource(InventoryContextKind, 1), Resource(UpgradeRepositoryKind, 2), Resource(ShedViewObjectKind, 3)]
  {
    var c := Construct(Start);
    assert Run(c, [Shed]) == Step(c, Shed);
    assert |FactoryResources(c.nextId, Shed)| == 3;
  }

  /** Several slots can be non-null at once: after Start then Shed the main
      menu controller built first is still referenced beside the new shed
      controller (and was disposed exactly once so far). */
  lemma StartThenShedKeepsMainMenuReference()
    ensures var r := Run(Construct(Start), [Shed]);
      && r.slots.mainMenu == Some(0)
      && r.slots.shed == Some(4)
      && multiset(r.log)[Disposed(MainMenuSlot, 0)] == 1
  {
    var c := Construct(Start);
    ConstructStart();
    assert multiset(c.log)[Disposed(MainMenuSlot, 0)] == 0 by {
      assert Disposed(MainMenuSlot, 0) !in c.log;
    }
    DisposedOnEveryLaterTransition(c, [Shed], MainMenuSlot, 0);
    ShedAfterStart();
  }
}
