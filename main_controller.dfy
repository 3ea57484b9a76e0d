/**
  MainController as the object the source has: four controller fields that
  OnChangeGameState reassigns, a subscription attached in the constructor
  and detached in OnDispose, and the base class's resource lists that the
  Shed helpers append to. Each method is proved against the function of
  StateMachine that describes it, so everything proved in Properties holds
  of the object.
*/
module Controllers {
  import opened Wrappers
  import opened StateMachine
  import Properties

  class MainController {
    var mainMenuController: Option<ObjectId>
    var settingsMenuController: Option<ObjectId>
    var shedController: Option<ObjectId>
    var gameController: Option<ObjectId>

    /** Whether OnChangeGameState is attached to the player's current state. */
    var subscribed: bool

    /** The token the next constructed object receives. */
    var nextId: ObjectId

    /** The contexts, repositories and game objects handed to the base class,
        in the order they were added. */
    var registered: seq<Resource>

    /** Everything the manager has done to the outside world, in order. */
    ghost var log: seq<Event>

    ghost function Snapshot(): Manager
      reads this
    {
      Manager(Slots(mainMenuController, settingsMenuController, shedController, gameController),
              subscribed, nextId, registered, log)
    }

    /** No token the manager holds or has logged is ahead of its counter. */
    ghost predicate Valid()
      reads this
    {
      Properties.WellFormed(Snapshot())
    }

    /** Subscribes OnChangeGameState, then runs it once with `current`, the
        value the player's state holds at this moment. */
    constructor (current: GameState)
      ensures Valid()
      ensures Snapshot() == Construct(current)
    {
      mainMenuController, settingsMenuController := None, None;
      shedController, gameController := None, None;
      nextId := 0;
      registered := [];
      subscribed := true;
      log := [Subscribed];
      new;
      OnChangeGameState(current);
    }

    /** Disposes the controllers, then detaches the handler. */
    method OnDispose()
      modifies this`subscribed, this`log
      ensures Snapshot() == Dispose(old(Snapshot()))
      ensures Valid() == old(Valid())
    {
      DisposeControllers();
      subscribed := false;
      log := log + [Unsubscribed];
      Properties.DisposePreservesWellFormed(old(Snapshot()));
    }

    /** Constructs an object: it receives the next token. */
    method NewObject() returns (id: ObjectId)
      modifies this`nextId
      ensures id == old(nextId) && nextId == id + 1
    {
      id := nextId;
      nextId := nextId + 1;
    }

    /** Builds the inventory context, the upgrade repository and the view,
        registering each, and then the ShedController. */
    method CreateShedController() returns (c: ObjectId)
      modifies this`nextId, this`registered, this`log
      ensures c == old(nextId) + 3 && nextId == c + 1
      ensures registered == old(registered) + ShedResources(old(nextId))
      ensures log == old(log) + Registrations(ShedResources(old(nextId)))
    {
      var context := CreateInventoryContext();
      var repository := CreateRepository();
      var view := LoadView();
      c := NewObject();
      assert Registrations(ShedResources(old(nextId)))
        == [Registered(context), Registered(repository), Registered(view)];
    }

    method CreateInventoryContext() returns (context: Resource)
      modifies this`nextId, this`registered, this`log
      ensures context == Resource(InventoryContextKind, old(nextId)) && nextId == old(nextId) + 1
      ensures registered == old(registered) + [context]
      ensures log == old(log) + [Registered(context)]
    {
      var id := NewObject();
      context := Resource(InventoryContextKind, id);
      AddResource(context);
    }

    method CreateRepository() returns (repository: Resource)
      modifies this`nextId, this`registered, this`log
      ensures repository == Resource(UpgradeRepositoryKind, old(nextId)) && nextId == old(nextId) + 1
      ensures registered == old(registered) + [repository]
      ensures log == old(log) + [Registered(repository)]
    {
      var id := NewObject();
      repository := Resource(UpgradeRepositoryKind, id);
      AddResource(repository);
    }

    /** Instantiates the shed view object under the UI root and registers it. */
    method LoadView() returns (view: Resource)
      modifies this`nextId, this`registered, this`log
      ensures view == Resource(ShedViewObjectKind, old(nextId)) && nextId == old(nextId) + 1
      ensures registered == old(registered) + [view]
      ensures log == old(log) + [Registered(view)]
    {
      var id := NewObject();
      view := Resource(ShedViewObjectKind, id);
      AddResource(view);
    }

    /** The base class's AddContext, AddRepository and AddGameObject: append
        to its lists, never remove. */
    method AddResource(r: Resource)
      modifies this`registered, this`log
      ensures registered == old(registered) + [r]
      ensures log == old(log) + [Registered(r)]
    {
      registered := registered + [r];
      log := log + [Registered(r)];
    }

    /** Disposes every non-null controller field, in declaration order; the
        fields keep their references. */
    method DisposeControllers()
      modifies this`log
      ensures log == old(log) + Teardown(Snapshot().slots)
    {
      if mainMenuController.Some? {
        log := log + [Disposed(MainMenuSlot, mainMenuController.value)];
      }
      if settingsMenuController.Some? {
        log := log + [Disposed(SettingsSlot, settingsMenuController.value)];
      }
      if shedController.Some? {
        log := log + [Disposed(ShedSlot, shedController.value)];
      }
      if gameController.Some? {
        log := log + [Disposed(GameSlot, gameController.value)];
      }
    }

    /** Tears down every controller, then builds the one for `state`. */
    method OnChangeGameState(state: GameState)
      modifies this
      ensures Snapshot() == Step(old(Snapshot()), state)
      ensures old(Valid()) ==> Valid()
    {
      ghost var before := Snapshot();
      DisposeControllers();
      assert log == before.log + Teardown(before.slots);
      SwitchOnState(state);
      if old(Valid()) {
        Properties.StepPreservesWellFormed(before, state);
      }
    }

    /** The switch of OnChangeGameState: builds the controller for `state`
        and stores it in its field, leaving the other fields alone. */
    method SwitchOnState(state: GameState)
      modifies this
      ensures var n := old(nextId);
        Snapshot() == old(Snapshot()).(
          slots := if SlotFor(state).Some? then old(Snapshot()).slots.Set(SlotFor(state).value, BuiltId(n, state))
                   else old(Snapshot()).slots,
          nextId := if SlotFor(state).Some? then BuiltId(n, state) + 1 else n,
          registered := old(registered) + FactoryResources(n, state),
          log := old(log) + BuildEvents(n, state))
    {
      match state {
        case Start =>
          var c := NewObject();
          log := log + [Built(MainMenuSlot, c)];
          mainMenuController := Some(c);
        case Settings =>
          var c := NewObject();
          log := log + [Built(SettingsSlot, c)];
          settingsMenuController := Some(c);
        case Shed =>
          var c := CreateShedController();
          log := log + [Built(ShedSlot, c)];
          shedController := Some(c);
          assert BuildEvents(old(nextId), Shed)
            == Registrations(ShedResources(old(nextId))) + [Built(ShedSlot, c)];
        case Game =>
          var c := NewObject();
          log := log + [Built(GameSlot, c)];
          gameController := Some(c);
        case Other(_) =>
      }
    }
  }
}
