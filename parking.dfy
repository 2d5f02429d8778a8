/** The parking-lot system of Questions/ParkingLot.py: a vehicle factory, a
    singleton manager counting free spots, a four-state gate, a list-based
    observer subject, additive service decorators, and the facade that
    drives them on entry and exit. The gate, service and singleton parts are
    shared with the Java version (module ParkingLotJava). */
module ParkingLot {
  import opened Wrappers
  import opened Registry
  import Lists

  // ---------------------------------------------------------------- vehicles

  datatype VehicleKind = Car | Motorcycle | Truck

  datatype Vehicle = Vehicle(licensePlate: string, kind: VehicleKind)

  /** The `vehicle_type` string each vehicle subclass stores. */
  function TypeName(k: VehicleKind): string {
    match k
    case Car => "car"
    case Motorcycle => "motorcycle"
    case Truck => "truck"
  }

  /** `VehicleFactory.create_vehicle`: exactly the three type names are
      accepted, case-sensitively; anything else raises ValueError. */
  function CreateVehicle(vehicleType: string, licensePlate: string): (r: Result<Vehicle>)
    ensures r.Ok? <==> vehicleType in {"car", "motorcycle", "truck"}
    ensures r.Ok? ==> TypeName(r.value.kind) == vehicleType && r.value.licensePlate == licensePlate
    ensures r.Err? ==> r.error == ValueError
  {
    if vehicleType == "car" then Ok(Vehicle(licensePlate, Car))
    else if vehicleType == "motorcycle" then Ok(Vehicle(licensePlate, Motorcycle))
    else if vehicleType == "truck" then Ok(Vehicle(licensePlate, Truck))
    else Err(ValueError)
  }

  /** Every kind's own type name builds that kind back. */
  lemma CreateVehicleRoundTrip(k: VehicleKind, licensePlate: string)
    ensures CreateVehicle(TypeName(k), licensePlate) == Ok(Vehicle(licensePlate, k))
  {
  }

  // ----------------------------------------------------------------- manager

  class ParkingLotManager {
    var freeSpots: int

    constructor (freeSpots: int)
      ensures this.freeSpots == freeSpots
    {
      this.freeSpots := freeSpots;
    }
  }

  /** The class-level `_instance` slot behind `ParkingLotManager.__new__`
      (and Java's `getInstance`): the first construction wins. */
  class ManagerSingleton {
    var instance: Option<ParkingLotManager>

    constructor ()
      ensures instance == None
    {
      instance := None;
    }

    /** Returns the one manager, creating it with `freeSpots` only on the
        first call; later arguments are ignored and the count is untouched. */
    method Instance(freeSpots: int) returns (m: ParkingLotManager)
      modifies this
      ensures old(instance).Some? ==> m == old(instance).value && instance == old(instance)
      ensures old(instance).None? ==> fresh(m) && m.freeSpots == freeSpots && instance == Some(m)
    {
      if instance.None? {
        m := new ParkingLotManager(freeSpots);
        instance := Some(m);
      } else {
        m := instance.value;
      }
    }
  }

  /** The module-level demonstration: the second construction with 100 gets
      the manager made with 50, and the increment is seen through both. */
  method SingletonDemonstration() returns (first: ParkingLotManager, second: ParkingLotManager)
    ensures first == second
    ensures first.freeSpots == 51
  {
    var slot := new ManagerSingleton();
    first := slot.Instance(50);
    second := slot.Instance(100);
    first.freeSpots := first.freeSpots + 1;
  }

  // ------------------------------------------------------------------ ticket

  datatype TicketType = Standard | Vip

  /** A ticket as the facade builds it. The Python facade never calls
      `set_ticket_type`, so its tickets carry None there. */
  datatype Ticket = Ticket(licensePlate: string, entryTime: string, spotLocation: int,
                           ticketType: Option<TicketType>)

  // -------------------------------------------------------------------- gate

  datatype GateState = Closed | Opening | Open | Closing

  /** What each state's `handle_request` installs. */
  function Next(s: GateState): (r: GateState)
    ensures r != s
  {
    match s
    case Closed => Opening
    case Opening => Open
    case Open => Closing
    case Closing => Closed
  }

  /** The state after n requests from s. */
  function Advance(s: GateState, n: nat): GateState {
    if n == 0 then s else Next(Advance(s, n - 1))
  }

  /** Position in the cycle, counted from Closed. */
  function Phase(s: GateState): (p: nat)
    ensures p < 4
  {
    match s
    case Closed => 0
    case Opening => 1
    case Open => 2
    case Closing => 3
  }

  /** n requests advance the phase by n modulo 4. */
  lemma {:induction false} AdvancePhase(s: GateState, n: nat)
    ensures Phase(Advance(s, n)) == (Phase(s) + n) % 4
  {
    if n > 0 {
      AdvancePhase(s, n - 1);
    }
  }

  /** Four requests bring the gate back to any state it started in. */
  lemma PeriodFour(s: GateState, n: nat)
    ensures Advance(s, n + 4) == Advance(s, n)
  {
    AdvancePhase(s, n + 4);
    AdvancePhase(s, n);
  }

  /** An entry (two requests) from Closed leaves the gate Open, not closed,
      and the following exit (two more) closes it again. */
  lemma EntryThenExit()
    ensures Advance(Closed, 2) == Open
    ensures Advance(Open, 2) == Closed
    ensures Advance(Closed, 4) == Closed
  {
  }

  class ParkingGate {
    var state: GateState
    var prevState: Option<GateState>

    /** A new gate is closed and has no previous state. */
    constructor ()
      ensures state == Closed && prevState == None
    {
      state := Closed;
      prevState := None;
    }

    /** Records the current state as the previous one, then installs s. */
    method SetState(s: GateState)
      modifies this
      ensures state == s && prevState == Some(old(state))
    {
      prevState := Some(state);
      state := s;
    }

    function GetPrevState(): (p: Option<GateState>)
      reads this
      ensures p == prevState
    {
      prevState
    }

    /** Delegates to the current state, which installs its successor. */
    method Request()
      modifies this
      ensures state == Next(old(state)) && prevState == Some(old(state))
    {
      SetState(Next(state));
    }
  }

  // ---------------------------------------------------------------- services

  /** A service: basic parking wrapped in any number of decorators; `Plain`
      is the bare ServiceDecorator, which only delegates. */
  datatype Service =
    | BasicParking
    | Plain(inner: Service)
    | Wash(inner: Service)
    | Vacuum(inner: Service)
    | Detailing(inner: Service)

  datatype Layer = PlainLayer | WashLayer | VacuumLayer | DetailingLayer

  /** The decorators of s, innermost first. */
  function Layers(s: Service): (ls: seq<Layer>)
    ensures |ls| == 0 <==> s == BasicParking
  {
    match s
    case BasicParking => []
    case Plain(inner) => Layers(inner) + [PlainLayer]
    case Wash(inner) => Layers(inner) + [WashLayer]
    case Vacuum(inner) => Layers(inner) + [VacuumLayer]
    case Detailing(inner) => Layers(inner) + [DetailingLayer]
  }

  /** Price of one decorator, in cents. */
  function LayerCost(l: Layer): nat {
    match l
    case PlainLayer => 0
    case WashLayer => 500
    case VacuumLayer => 300
    case DetailingLayer => 1500
  }

  function LayerSuffix(l: Layer): string {
    match l
    case PlainLayer => ""
    case WashLayer => ", Wash"
    case VacuumLayer => ", Vacuum"
    case DetailingLayer => ", Detailing"
  }

  /** `cost()`, in cents: basic parking is 10.00 and each layer adds its price
      to what it wraps. */
  function Cost(s: Service): (c: nat)
    ensures c >= 1000
  {
    match s
    case BasicParking => 1000
    case Plain(inner) => Cost(inner)
    case Wash(inner) => Cost(inner) + 500
    case Vacuum(inner) => Cost(inner) + 300
    case Detailing(inner) => Cost(inner) + 1500
  }

  /** `description()`: each layer appends its own suffix. */
  function Description(s: Service): string {
    match s
    case BasicParking => "Basic Parking"
    case Plain(inner) => Description(inner)
    case Wash(inner) => Description(inner) + ", Wash"
    case Vacuum(inner) => Description(inner) + ", Vacuum"
    case Detailing(inner) => Description(inner) + ", Detailing"
  }

  function SumCosts(ls: seq<Layer>): nat {
    if ls == [] then 0 else SumCosts(ls[..|ls| - 1]) + LayerCost(ls[|ls| - 1])
  }

  function Suffixes(ls: seq<Layer>): string {
    if ls == [] then "" else Suffixes(ls[..|ls| - 1]) + LayerSuffix(ls[|ls| - 1])
  }

  /** The cost is 10.00 plus the price of every layer. */
  lemma {:induction false} CostIsBasePlusLayers(s: Service)
    ensures Cost(s) == 1000 + SumCosts(Layers(s))
  {
    match s
    case BasicParking =>
    case Plain(inner) =>
      CostIsBasePlusLayers(inner);
      assert Layers(s)[..|Layers(s)| - 1] == Layers(inner);
    case Wash(inner) =>
      CostIsBasePlusLayers(inner);
      assert Layers(s)[..|Layers(s)| - 1] == Layers(inner);
    case Vacuum(inner) =>
      CostIsBasePlusLayers(inner);
      assert Layers(s)[..|Layers(s)| - 1] == Layers(inner);
    case Detailing(inner) =>
      CostIsBasePlusLayers(inner);
      assert Layers(s)[..|Layers(s)| - 1] == Layers(inner);
  }

  /** The layer prices only depend on how many of each layer there are. */
  lemma {:induction false} SumCostsByCount(ls: seq<Layer>)
    ensures SumCosts(ls) == 500 * multiset(ls)[WashLayer] + 300 * multiset(ls)[VacuumLayer]
                            + 1500 * multiset(ls)[DetailingLayer]
  {
    if ls != [] {
      SumCostsByCount(ls[..|ls| - 1]);
      assert ls == ls[..|ls| - 1] + [ls[|ls| - 1]];
    }
  }

  /** Wrapping order does not change the cost. */
  lemma CostOrderIndependent(a: Service, b: Service)
    requires multiset(Layers(a)) == multiset(Layers(b))
    ensures Cost(a) == Cost(b)
  {
    CostIsBasePlusLayers(a);
    CostIsBasePlusLayers(b);
    SumCostsByCount(Layers(a));
    SumCostsByCount(Layers(b));
  }

  lemma SuffixesSnoc(ls: seq<Layer>, l: Layer)
    ensures Suffixes(ls + [l]) == Suffixes(ls) + LayerSuffix(l)
  {
    assert (ls + [l])[..|ls|] == ls;
  }

  /** The description is "Basic Parking" followed by one suffix per layer,
      innermost first. */
  lemma DescriptionIsBasePlusLayers(s: Service)
    ensures Description(s) == "Basic Parking" + Suffixes(Layers(s))
  {
    DescriptionFromBase(s);
  }

  lemma {:induction false} DescriptionFromBase(s: Service)
    ensures Description(s) == Description(BasicParking) + Suffixes(Layers(s))
  {
    if s != BasicParking {
      var l := Layers(s)[|Layers(s)| - 1];
      DescriptionStep(s);
      DescriptionFromBase(s.inner);
      SuffixesSnoc(Layers(s.inner), l);
      Lists.AppendAssociative(Description(BasicParking), Suffixes(Layers(s.inner)), LayerSuffix(l));
    }
  }

  /** The outermost layer appends its own suffix to what it wraps. */
  lemma DescriptionStep(s: Service)
    requires s != BasicParking
    ensures Layers(s) == Layers(s.inner) + [Layers(s)[|Layers(s)| - 1]]
    ensures Description(s) == Description(s.inner) + LayerSuffix(Layers(s)[|Layers(s)| - 1])
  {
  }

  /** The module's demonstration: vacuum then detailing on basic parking. */
  lemma FullServiceDemonstration()
    ensures Cost(Detailing(Vacuum(BasicParking))) == 2800
    ensures Description(Detailing(Vacuum(BasicParking))) == "Basic Parking, Vacuum, Detailing"
  {
  }

  // --------------------------------------------------------------- observers

  /** The messages the facade sends; the Python text also capitalises the
      vehicle type, which is formatting. */
  datatype Notice =
    | Entered(vehicleType: string, licensePlate: string, spot: int)
    | Denied
    | Exited(licensePlate: string, spot: int)

  class ParkingLotSubject {
    var observers: seq<ObserverId>
    /** Every `announce` call made so far, in call order. */
    ghost var delivered: seq<Delivery<Notice>>

    constructor ()
      ensures observers == [] && delivered == []
    {
      observers := [];
      delivered := [];
    }

    /** Appends; registering twice means being notified twice. */
    method RegisterObserver(o: ObserverId)
      modifies this
      ensures observers == old(observers) + [o]
      ensures delivered == old(delivered)
    {
      observers := observers + [o];
    }

    /** `list.remove`: deletes the first registration of o, or raises
        ValueError and changes nothing when o is not registered. */
    method RemoveObserver(o: ObserverId) returns (r: Outcome)
      modifies this
      ensures r == if o in old(observers) then Pass else Raise(ValueError)
      ensures observers == Lists.RemoveFirst(old(observers), o)
      ensures delivered == old(delivered)
    {
      if o in observers {
        observers := Lists.RemoveFirst(observers, o);
        r := Pass;
      } else {
        r := Raise(ValueError);
      }
    }

    /** Announces m to every registration, in registration order. */
    method NotifyObservers(m: Notice)
      modifies this
      ensures observers == old(observers)
      ensures delivered == old(delivered) + Broadcast(observers, m)
    {
      ghost var sent: seq<Delivery<Notice>> := [];
      for i := 0 to |observers|
        invariant delivered == old(delivered) + sent
        invariant Receivers(sent) == observers[..i]
        invariant AllCarry(sent, m)
      {
        ReceiversAppend(sent, Delivery(observers[i], m));
        assert observers[..i + 1] == observers[..i] + [observers[i]];
        delivered := delivered + [Delivery(observers[i], m)];
        sent := sent + [Delivery(observers[i], m)];
      }
      assert observers[..|observers|] == observers;
      BroadcastUnique(sent, observers, m);
    }
  }

  // ------------------------------------------------------------------ facade

  datatype PaymentStrategy = Cash | CreditCard | Mobile

  /** One `pay(amount, license_plate)` call on the payment strategy. */
  datatype Payment = Payment(strategy: PaymentStrategy, amount: real, licensePlate: string)

  /** The facade. In the source it is itself the subject (it inherits
      `ParkingLotSubject`); here it holds one. */
  class ParkingLotFacade {
    const paymentStrategy: PaymentStrategy
    const subject: ParkingLotSubject
    const manager: ParkingLotManager
    const gate: ParkingGate
    /** Every payment made so far. */
    ghost var payments: seq<Payment>

    /** Obtains the manager through the singleton slot with 50 spots, which
        is ignored when a manager already exists. */
    constructor (paymentStrategy: PaymentStrategy, singleton: ManagerSingleton)
      modifies singleton
      ensures this.paymentStrategy == paymentStrategy && payments == []
      ensures fresh(subject) && subject.observers == [] && subject.delivered == []
      ensures fresh(gate) && gate.state == Closed && gate.prevState == None
      ensures old(singleton.instance).Some? ==> manager == old(singleton.instance).value
      ensures old(singleton.instance).None? ==> fresh(manager) && manager.freeSpots == 50
      ensures singleton.instance == Some(manager)
    {
      this.paymentStrategy := paymentStrategy;
      subject := new ParkingLotSubject();
      var m := singleton.Instance(50);
      manager := m;
      gate := new ParkingGate();
      payments := [];
    }

    /** Opens the gate one step, builds the vehicle (an unknown type raises
        here, with the gate already moved and nothing else touched), then
        either issues a ticket for the spot numbered by the current count and
        takes one spot, or announces a denial; a second request moves the gate
        again in both cases. */
    method EnterParkingLot(vehicleType: string, licensePlate: string) returns (r: Result<Option<Ticket>>)
      modifies gate, manager, subject
      ensures subject.observers == old(subject.observers)
      ensures CreateVehicle(vehicleType, licensePlate).Err? ==>
        && r == Err(ValueError)
        && gate.state == Advance(old(gate.state), 1)
        && gate.prevState == Some(old(gate.state))
        && manager.freeSpots == old(manager.freeSpots)
        && subject.delivered == old(subject.delivered)
      ensures CreateVehicle(vehicleType, licensePlate).Ok? ==>
        gate.state == Advance(old(gate.state), 2) && gate.prevState == Some(Advance(old(gate.state), 1))
      ensures CreateVehicle(vehicleType, licensePlate).Ok? && old(manager.freeSpots) > 0 ==>
        && r == Ok(Some(Ticket(licensePlate, "Current date", old(manager.freeSpots), None)))
        && manager.freeSpots == old(manager.freeSpots) - 1
        && subject.delivered == old(subject.delivered)
             + Broadcast(subject.observers, Entered(vehicleType, licensePlate, old(manager.freeSpots)))
      ensures CreateVehicle(vehicleType, licensePlate).Ok? && old(manager.freeSpots) <= 0 ==>
        && r == Ok(None)
        && manager.freeSpots == old(manager.freeSpots)
        && subject.delivered == old(subject.delivered) + Broadcast(subject.observers, Denied)
    {
      gate.Request();
      var vehicle := CreateVehicle(vehicleType, licensePlate);
      if vehicle.Err? {
        return Err(ValueError);
      }
      if manager.freeSpots > 0 {
        var ticket := Ticket(licensePlate, "Current date", manager.freeSpots, None);
        manager.freeSpots := manager.freeSpots - 1;
        subject.NotifyObservers(Entered(TypeName(vehicle.value.kind), licensePlate, ticket.spotLocation));
        gate.Request();
        r := Ok(Some(ticket));
      } else {
        subject.NotifyObservers(Denied);
        gate.Request();
        r := Ok(None);
      }
    }

    /** Moves the gate, takes the payment, frees one spot (with no upper
        bound), announces the exit, and moves the gate again. */
    method ExitParkingLot(ticket: Ticket, amount: real)
      modifies this, gate, manager, subject
      ensures payments == old(payments) + [Payment(paymentStrategy, amount, ticket.licensePlate)]
      ensures gate.state == Advance(old(gate.state), 2) && gate.prevState == Some(Advance(old(gate.state), 1))
      ensures manager.freeSpots == old(manager.freeSpots) + 1
      ensures subject.observers == old(subject.observers)
      ensures subject.delivered == old(subject.delivered)
        + Broadcast(subject.observers, Exited(ticket.licensePlate, ticket.spotLocation))
    {
      gate.Request();
      payments := payments + [Payment(paymentStrategy, amount, ticket.licensePlate)];
      manager.freeSpots := manager.freeSpots + 1;
      subject.NotifyObservers(Exited(ticket.licensePlate, ticket.spotLocation));
      gate.Request();
    }
  }

  /** An entry that gets a ticket followed by its exit restores the free
      count and, from Closed, the gate. */
  method EnterThenExit(facade: ParkingLotFacade, vehicleType: string, licensePlate: string, amount: real)
      returns (r: Result<Option<Ticket>>)
    requires vehicleType in {"car", "motorcycle", "truck"}
    requires facade.manager.freeSpots > 0 && facade.gate.state == Closed
    modifies facade, facade.gate, facade.manager, facade.subject
    ensures r == Ok(Some(Ticket(licensePlate, "Current date", old(facade.manager.freeSpots), None)))
    ensures facade.manager.freeSpots == old(facade.manager.freeSpots)
    ensures facade.gate.state == Closed
    ensures facade.subject.observers == old(facade.subject.observers)
  {
    r := facade.EnterParkingLot(vehicleType, licensePlate);
    assert facade.gate.state == Open;
    facade.ExitParkingLot(r.value.value, amount);
  }

  const Security: ObserverId := 1
  const Billing: ObserverId := 2

  /** Removing the billing observer leaves the security observer alone. */
  lemma RemoveBilling()
    ensures Lists.RemoveFirst([Security, Billing], Billing) == [Security]
  {
    assert Lists.IndexOf([Security, Billing], Billing) == 1;
  }

  /** The module's closing script. The facade asks the singleton for 50
      spots but receives the manager made earlier in the module, which holds
      51; both cars therefore get spot 51. */
  method FacadeDemonstration() returns (system: ParkingLotFacade, first: Result<Option<Ticket>>,
                                        second: Result<Option<Ticket>>)
    ensures first == Ok(Some(Ticket("ABC123", "Current date", 51, None)))
    ensures second == Ok(Some(Ticket("XYZ789", "Current date", 51, None)))
    ensures system.manager.freeSpots == 51
    ensures system.gate.state == Closed
    ensures system.subject.observers == [Security]
  {
    var singleton := new ManagerSingleton();
    var manager := singleton.Instance(50);
    var another := singleton.Instance(100);
    manager.freeSpots := manager.freeSpots + 1;
    system := new ParkingLotFacade(Cash, singleton);
    assert system.manager.freeSpots == 51 && system.gate.state == Closed;
    system.subject.RegisterObserver(Security);
    system.subject.RegisterObserver(Billing);
    assert system.subject.observers == [Security, Billing];
    first := EnterThenExit(system, "car", "ABC123", 10.0);
    assert system.manager.freeSpots == 51 && system.gate.state == Closed;
    var removed := system.subject.RemoveObserver(Billing);
    RemoveBilling();
    assert system.manager.freeSpots == 51 && system.gate.state == Closed;
    second := EnterThenExit(system, "truck", "XYZ789", 20.0);
  }
}
