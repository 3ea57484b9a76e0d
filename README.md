# MainController: the state-driven controller switch

`MainController` is the root controller of a small Unity game. It watches the
player's current game state (Start, Settings, Shed, Game). On every change it
disposes each controller it still references and then builds the one
controller that belongs to the new state. Entering Shed also builds an
inventory context, an upgrade repository and a view object, and hands them
to the base controller's resource lists.

This project models that controller in Dafny and proves what it does.

- `StateMachine` (`state_machine.dfy`) states the controller on values.
  Controllers and resources are opaque tokens drawn from one counter. Each
  constructed controller, inventory context and upgrade repository draws
  one, and so does each view object made by `Object.Instantiate`. The
  `ResourcePath` fields draw none. A `Manager` value holds:
  - the four controller slots (`Option<ObjectId>`);
  - the subscription flag;
  - the counter;
  - the registered resources;
  - an event log of everything done to the outside world, in order:
    subscribe, dispose, register, build, unsubscribe.

  `Teardown`, `Step` (`OnChangeGameState`), `Run` (a sequence of changes),
  `Construct` (the constructor) and `Dispose` (`OnDispose`) are functions
  over that value.
- `Properties` (`properties.dfy`) proves what one transition does and what
  holds across any number of transitions.
- `Controllers` (`main_controller.dfy`) is the class `MainController`. Its
  four controller fields, subscription flag, counter and resource list are
  fields that its methods reassign, and the event log is a ghost field. Each
  method's `ensures` ties the new state to the matching `StateMachine`
  function of the old state, so every lemma in `Properties` holds of the
  object.

The model follows what the code does, including behaviour a cleaner
lifecycle manager would not have:
- Slots are never set back to null after teardown. So several slots can be
  non-null at once (`StartThenShedKeepsMainMenuReference`), and a controller
  is disposed again on every later change until its own state rebuilds it.
- Teardown does not release registered resources. Nothing in this file
  removes entries from the base class's lists.
- Re-emitting the same state always tears down and rebuilds.

## Model

| member | source | states |
|---|---|---|
| StateMachine.Teardown | Assets/_Root/Scripts/MainController.cs:96-101 | teardown disposes exactly the controllers the non-null slots hold, each once, in the order main menu, settings, shed, game, and nothing else |
| StateMachine.BuildEvents | Assets/_Root/Scripts/MainController.cs:79-93 | the switch only registers resources and builds controllers; it does nothing exactly when the state has no case, and otherwise builds exactly one controller, last, with the next token after Shed's three registrations (four events for Shed, one for the others) |
| StateMachine.Step | Assets/_Root/Scripts/MainController.cs:75-94 | a state change keeps the subscription, only appends to the log and the registrations, never moves the counter back, and leaves every slot but the new state's alone |
| StateMachine.Construct | Assets/_Root/Scripts/MainController.cs:23-30 | construction leaves the handler subscribed with the subscription as the first event, and only the current state's slot can be non-null |
| StateMachine.Dispose | Assets/_Root/Scripts/MainController.cs:32-36 | disposal detaches the handler, keeps the slots and registrations, keeps the earlier log and ends it with the unsubscription |
| Properties.TeardownDisposesEachOnce | Assets/_Root/Scripts/MainController.cs:96-101 | a non-null slot's controller is disposed exactly once per teardown |
| Properties.StepDisposesOnce | Assets/_Root/Scripts/MainController.cs:96-101 | a state change disposes each non-null slot's controller exactly once |
| Properties.StepTearsDownBeforeBuilding | Assets/_Root/Scripts/MainController.cs:75-101 | a state change keeps the earlier log, disposes every non-null slot first, and disposes nothing after construction begins |
| Properties.StepOverwritesOnlyMatchingSlot | Assets/_Root/Scripts/MainController.cs:79-93 | only the new state's slot changes; it gets a controller drawn during this call and built last, no other controller is built, the counter moves by four for Shed and by one otherwise, and the other three slots keep their references |
| Properties.StepUnknownStateOnlyTearsDown | Assets/_Root/Scripts/MainController.cs:79-93 | a state with no case only tears down: slots, registrations and the counter are unchanged |
| Properties.StepShedRegistersThree | Assets/_Root/Scripts/MainController.cs:39-73 | entering Shed appends an inventory context, an upgrade repository and a view object, in that order and all fresh, and logs their registrations before the ShedController is built; other states register nothing |
| Properties.StepPreservesWellFormed | Assets/_Root/Scripts/MainController.cs:75-94 | a state change keeps every token the manager holds or has logged below its counter |
| Properties.StepBuildsFreshController | Assets/_Root/Scripts/MainController.cs:82-91 | the controller a change builds is new: no earlier event and no slot refers to it |
| Properties.ReemittingRebuilds | Assets/_Root/Scripts/MainController.cs:75-93 | emitting the same state twice disposes the controller the first emission built and puts a different one in the slot |
| Properties.RunPreservesWellFormed | Assets/_Root/Scripts/MainController.cs:75-94 | the counter invariant holds after any sequence of state changes |
| Properties.SlotsNeverCleared | Assets/_Root/Scripts/MainController.cs:96-101 | once a slot holds a controller, it holds one after any further changes |
| Properties.DisposedOnEveryLaterTransition | Assets/_Root/Scripts/MainController.cs:79-101 | while no change targets its state, a controller stays in its slot and is disposed once more on every change |
| Properties.RegistrationsAccumulate | Assets/_Root/Scripts/MainController.cs:49-73 | after any sequence of changes the earlier registrations are still there, and each Shed entry has added exactly three |
| Properties.StepKeepsSubscription | Assets/_Root/Scripts/MainController.cs:75-103 | a state change neither subscribes nor unsubscribes, and only appends to the log |
| Properties.RunKeepsSubscription | Assets/_Root/Scripts/MainController.cs:75-103 | any sequence of state changes neither subscribes nor unsubscribes, and only appends to the log |
| Properties.ConstructDisposesNothing | Assets/_Root/Scripts/MainController.cs:28-29 | right after construction the log starts with the one subscription and holds no disposal and no unsubscription |
| Properties.ConstructFillsOneSlot | Assets/_Root/Scripts/MainController.cs:28-29 | right after construction exactly the current state's slot is non-null, and it holds the last token drawn |
| Properties.ConstructBuildsOnce | Assets/_Root/Scripts/MainController.cs:28-29 | an unknown current state leaves only the subscription in the log; otherwise the constructor builds exactly one controller, as its last event, with the last token drawn |
| Properties.ConstructSubscribesThenBuildsOnce | Assets/_Root/Scripts/MainController.cs:23-30 | construction subscribes first and then handles the current value once: nothing is disposed, exactly the current state's slot is non-null, holding the last token drawn, and exactly one controller is built, last |
| Properties.DisposeTearsDownThenUnsubscribes | Assets/_Root/Scripts/MainController.cs:32-36 | disposal disposes every non-null slot in order and then unsubscribes; it clears no slot and releases no registered resource |
| Properties.DisposePreservesWellFormed | Assets/_Root/Scripts/MainController.cs:32-36 | disposal keeps the counter invariant, in both directions |
| Properties.DisposeLogsOneUnsubscription | Assets/_Root/Scripts/MainController.cs:32-36 | disposal keeps the earlier log, adds exactly one unsubscription as its last event and no subscription |
| Properties.LifecycleSubscribesOnce | Assets/_Root/Scripts/MainController.cs:23-36 | over construction, any changes and disposal, the handler is subscribed exactly once, first, and unsubscribed exactly once, last |
| Properties.ConstructStart | Assets/_Root/Scripts/MainController.cs:28-29 | starting in Start logs the subscription and then builds the main menu controller as the first object |
| Properties.ShedAfterStart | Assets/_Root/Scripts/MainController.cs:87-89 | a Shed entry after Start registers the inventory context, repository and view as objects 1, 2 and 3, in that order, and puts object 4 in the shed slot |
| Properties.StartThenShedKeepsMainMenuReference | Assets/_Root/Scripts/MainController.cs:79-101 | after Start then Shed, the main menu slot still holds its disposed controller beside the shed controller |
| Controllers.MainController.constructor | Assets/_Root/Scripts/MainController.cs:23-30 | the new object equals `Construct(current)` and satisfies the counter invariant |
| Controllers.MainController.OnChangeGameState | Assets/_Root/Scripts/MainController.cs:75-94 | the new state equals `Step` of the old state and the argument, and the counter invariant is preserved |
| Controllers.MainController.SwitchOnState | Assets/_Root/Scripts/MainController.cs:79-93 | the switch sets only the new state's field, to the controller it builds with the next token after the factory's resources, and appends exactly `BuildEvents` to the log and the factory's resources to the registrations |
| Controllers.MainController.DisposeControllers | Assets/_Root/Scripts/MainController.cs:96-101 | appends `Teardown` of the current fields to the log and changes nothing else |
| Controllers.MainController.OnDispose | Assets/_Root/Scripts/MainController.cs:32-36 | the new state equals `Dispose` of the old state |
| Controllers.MainController.CreateShedController | Assets/_Root/Scripts/MainController.cs:39-46 | registers the three Shed resources in order and returns the next token for the ShedController |
| Controllers.MainController.CreateInventoryContext | Assets/_Root/Scripts/MainController.cs:49-55 | draws a fresh inventory context and appends it to the registrations and the log |
| Controllers.MainController.CreateRepository | Assets/_Root/Scripts/MainController.cs:57-64 | draws a fresh upgrade repository and appends it to the registrations and the log |
| Controllers.MainController.LoadView | Assets/_Root/Scripts/MainController.cs:66-73 | draws a fresh view object and appends it to the registrations and the log |
| Controllers.MainController.AddResource | Assets/_Root/Scripts/MainController.cs:52 | adding a resource appends it and removes nothing |

## Left out

- Unity engine calls (`Object.Instantiate`, `GetComponent`, `Transform`, `GameObject`, lines 68-72): the view is an opaque token added to the registrations.
- Asset and config loading (`ResourcesLoader.LoadPrefab`, `ContentDataSourceLoader.LoadUpgradeItemConfigs`, the resource paths on lines 14-15, 59, 68): I/O against Unity resources. Loading is assumed to succeed.
- Exceptions thrown by unseen constructors or loaders are not modelled. So a Shed build that fails halfway, with some resources already registered, is not modelled either; the source would not roll those registrations back.
- Teardown, DisposeControllers, OnDispose: an exception thrown by a controller's `Dispose` (lines 98-101) would skip the remaining disposals, the switch (lines 79-93) and, in `OnDispose`, the unsubscription at line 35. The model always completes the whole teardown, because the controllers' `Dispose` is not part of this model.
- CreateShedController: `new ShedController` receives the view and the repository (line 45). The `Built` event records only the slot and the token, so the model does not relate the controller to those two resources.
- `Debug.Log` (line 102): logging only.
- `BaseController` is not part of this model. Its `Dispose` guard and its release of the registered contexts, repositories and game objects are unknown. Registrations are modelled as one ordered list, and `Dispose` of a controller is modelled as a logged event, not assumed to be idempotent.
- The internals of `MainMenuController`, `SettingsMenuController`, `ShedController`, `GameController`, `InventoryContext`, `UpgradeHandlersRepository` and `ProfilePlayer.CurrentState` are not part of this model. Each constructed object is a token, and the state source is the constructor argument plus calls to `OnChangeGameState`.
- The UI root and the player profile passed to every controller are not modelled. They are the same objects on every call and do not affect the lifecycle.
- `EntryPoint.cs` is Unity lifecycle glue (`Start` builds the controller, `OnDestroy` disposes it) and is not modelled.
