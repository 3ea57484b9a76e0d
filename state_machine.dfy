/**
  The state-driven controller switch of MainController, stated on values.

  Every object the manager creates (a controller, an inventory context, an
  upgrade repository, an instantiated view) is an opaque token drawn from one
  counter, so "freshly built" means "drawn from the counter during this call".
  The side effects the manager has on the outside world (disposing a
  controller, registering a resource with its base class, constructing a
  controller, attaching and detaching its change handler) are recorded, in
  order, in an event log.
*/
module StateMachine {
  import opened Wrappers

  /** The values the player's current state can take. `Other` stands for any
      enum value the switch has no case for. */
  datatype GameState = Start | Settings | Shed | Game | Other(code: int)

  /** The four controller fields of the manager. */
  datatype Slot = MainMenuSlot | SettingsSlot | ShedSlot | GameSlot

  type ObjectId = nat

  datatype ResourceKind = InventoryContextKind | UpgradeRepositoryKind | ShedViewObjectKind

  /** A resource handed to the base class's bookkeeping lists. */
  datatype Resource = Resource(kind: ResourceKind, id: ObjectId)

  datatype Event =
    | Subscribed
    | Unsubscribed
    | Disposed(slot: Slot, id: ObjectId)
    | Registered(res: Resource)
    | Built(slot: Slot, id: ObjectId)

  datatype Slots = Slots(
    mainMenu: Option<ObjectId>,
    settingsMenu: Option<ObjectId>,
    shed: Option<ObjectId>,
    game: Option<ObjectId>)
  {
    function Get(s: Slot): Option<ObjectId> {
      match s
      case MainMenuSlot => mainMenu
      case SettingsSlot => settingsMenu
      case ShedSlot => shed
      case GameSlot => game
    }

    /** Overwrites slot `s` with `c`; every other slot keeps its reference. */
    function Set(s: Slot, c: ObjectId): (r: Slots)
      ensures r.Get(s) == Some(c)
      ensures forall t: Slot :: t != s ==> r.Get(t) == Get(t)
    {
      match s
      case MainMenuSlot => this.(mainMenu := Some(c))
      case SettingsSlot => this.(settingsMenu := Some(c))
      case ShedSlot => this.(shed := Some(c))
      case GameSlot => this.(game := Some(c))
    }
  }

  const NoControllers := Slots(None, None, None, None)

  /** The whole observable state of one manager. */
  datatype Manager = Manager(
    slots: Slots,
    subscribed: bool,
    nextId: ObjectId,
    registered: seq<Resource>,
    log: seq<Event>)

  /** The position of a slot in the teardown order. */
  function Rank(s: Slot): nat {
    match s
    case MainMenuSlot => 0
    case SettingsSlot => 1
    case ShedSlot => 2
    case GameSlot => 3
  }

  /** The slot whose controller a state builds, if any. */
  function SlotFor(st: GameState): Option<Slot> {
    match st
    case Start => Some(MainMenuSlot)
    case Settings => Some(SettingsSlot)
    case Shed => Some(ShedSlot)
    case Game => Some(GameSlot)
    case Other(_) => None
  }

  function DisposeIfPresent(s: Slot, c: Option<ObjectId>): seq<Event> {
    if c.Some? then [Disposed(s, c.value)] else []
  }

  /** The disposals DisposeControllers performs: one per non-null slot, each
      disposing exactly the controller that slot holds, in the fixed order
      main menu, settings, shed, game. */
  function Teardown(slots: Slots): (r: seq<Event>)
    ensures forall i :: 0 <= i < |r| ==> r[i].Disposed? && slots.Get(r[i].slot) == Some(r[i].id)
    ensures forall s: Slot :: slots.Get(s).Some? ==> Disposed(s, slots.Get(s).value) in r
    ensures forall i, j :: 0 <= i < j < |r| ==> Rank(r[i].slot) < Rank(r[j].slot)
    ensures |r| <= 4
  {
    DisposeIfPresent(MainMenuSlot, slots.mainMenu)
    + DisposeIfPresent(SettingsSlot, slots.settingsMenu)
    + DisposeIfPresent(ShedSlot, slots.shed)
    + DisposeIfPresent(GameSlot, slots.game)
  }

  /** The three resources CreateShedController registers, with the ids they
      are drawn with when the counter stands at `n`. */
  function ShedResources(n: ObjectId): seq<Resource> {
    [Resource(InventoryContextKind, n),
     Resource(UpgradeRepositoryKind, n + 1),
     Resource(ShedViewObjectKind, n + 2)]
  }

  function Registrations(rs: seq<Resource>): (r: seq<Event>)
    ensures |r| == |rs|
    ensures forall i :: 0 <= i < |r| ==> r[i] == Registered(rs[i])
  {
    if rs == [] then [] else [Registered(rs[0])] + Registrations(rs[1..])
  }

  /** The resources the factory of `st` registers before building its
      controller, drawn from the counter standing at `n`. */
  function FactoryResources(n: ObjectId, st: GameState): seq<Resource> {
    if st == Shed then ShedResources(n) else []
  }

  /** The token of the controller the switch on `st` builds when the counter
      stands at `n`: it comes after the factory's resources. */
  function BuiltId(n: ObjectId, st: GameState): ObjectId {
    n + |FactoryResources(n, st)|
  }

  /** What the switch on `st` does, in order: register the factory's
      resources, then construct the controller. A state without a case does
      nothing. */
  function BuildEvents(n: ObjectId, st: GameState): (r: seq<Event>)
    ensures forall i :: 0 <= i < |r| ==> r[i].Registered? || r[i].Built?
    ensures SlotFor(st).None? <==> r == []
    ensures SlotFor(st).Some? ==>
      && |r| == (if st == Shed then 4 else 1)
      && r[|r| - 1] == Built(SlotFor(st).value, n + |r| - 1)
      && (forall i :: 0 <= i < |r| - 1 ==> r[i].Registered?)
  {
    match SlotFor(st)
    case None => []
    case Some(s) => Registrations(FactoryResources(n, st)) + [Built(s, BuiltId(n, st))]
  }

  /** OnChangeGameState: dispose every non-null slot, then run the switch on
      `st`, which overwrites the matching slot with the controller it builds
      and leaves the other slots alone. */
  function Step(m: Manager, st: GameState): (r: Manager)
    ensures r.subscribed == m.subscribed
    ensures m.log <= r.log && m.registered <= r.registered && m.nextId <= r.nextId
    ensures forall s: Slot :: Some(s) != SlotFor(st) ==> r.slots.Get(s) == m.slots.Get(s)
  {
    var n := m.nextId;
    Manager(
      if SlotFor(st).Some? then m.slots.Set(SlotFor(st).value, BuiltId(n, st)) else m.slots,
      m.subscribed,
      if SlotFor(st).Some? then BuiltId(n, st) + 1 else n,
      m.registered + FactoryResources(n, st),
      m.log + Teardown(m.slots) + BuildEvents(n, st))
  }

  /** The manager after the state source has emitted `states`, in order. */
  function Run(m: Manager, states: seq<GameState>): Manager
    decreases |states|
  {
    if states == [] then m else Run(Step(m, states[0]), states[1..])
  }

  /** The constructor: subscribe the handler, then run it once with the
      source's current value. */
  function Construct(current: GameState): (r: Manager)
    ensures r.subscribed && |r.log| > 0 && r.log[0] == Subscribed
    ensures forall s: Slot :: r.slots.Get(s).Some? ==> SlotFor(current) == Some(s)
  {
    Step(Manager(NoControllers, true, 0, [], [Subscribed]), current)
  }

  /** OnDispose: dispose every non-null slot, then detach the handler. */
  function Dispose(m: Manager): (r: Manager)
    ensures !r.subscribed && r.slots == m.slots && r.registered == m.registered
    ensures m.log <= r.log && |r.log| > |m.log| && r.log[|r.log| - 1] == Unsubscribed
  {
    m.(subscribed := false, log := m.log + Teardown(m.slots) + [Unsubscribed])
  }
}
