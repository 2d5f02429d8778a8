/** The Java parking-lot system of Java/ParkingLotApp.java. It shares the
    vehicle kinds, gate automaton, services, tickets, notices and the
    first-call-wins manager slot with the Python model (module ParkingLot)
    and differs where the Java code does: its factory throws
    IllegalArgumentException, its gate keeps no previous state, removing an
    unregistered observer is a no-op, and its facade never calls the
    factory, so any vehicle type is let in. */
module ParkingLotJava {
  import opened Wrappers
  import opened Registry
  import Lists
  import opened ParkingLot

  /** `VehicleFactory.createVehicle`: the same switch over the three type
      names, failing with IllegalArgumentException. */
  function CreateVehicleJava(vehicleType: string, licensePlate: string): (r: Result<Vehicle>)
    ensures r.Ok? <==> vehicleType in {"car", "motorcycle", "truck"}
    ensures r.Ok? ==> TypeName(r.value.kind) == vehicleType && r.value.licensePlate == licensePlate
    ensures r.Err? ==> r.error == IllegalArgument
  {
    match CreateVehicle(vehicleType, licensePlate)
    case Ok(v) => Ok(v)
    case Err(_) => Err(IllegalArgument)
  }

  /** The two factories accept the same inputs and build the same vehicles. */
  lemma FactoriesAgree(vehicleType: string, licensePlate: string)
    ensures CreateVehicleJava(vehicleType, licensePlate).Ok? == CreateVehicle(vehicleType, licensePlate).Ok?
    ensures CreateVehicle(vehicleType, licensePlate).Ok? ==>
      CreateVehicleJava(vehicleType, licensePlate) == CreateVehicle(vehicleType, licensePlate)
  {
  }

  // ------------------------------------------------------------ parking spot

  class ParkingSpot {
    var spotNumber: int
    var spotSize: string
    var isReserved: bool

    constructor (spotNumber: int, spotSize: string, isReserved: bool)
      ensures this.spotNumber == spotNumber && this.spotSize == spotSize && this.isReserved == isReserved
    {
      this.spotNumber := spotNumber;
      this.spotSize := spotSize;
      this.isReserved := isReserved;
    }

    /** `Object.clone`: a new object holding the same field values. */
    method Clone() returns (c: ParkingSpot)
      ensures fresh(c)
      ensures c.spotNumber == spotNumber && c.spotSize == spotSize && c.isReserved == isReserved
    {
      c := new ParkingSpot(spotNumber, spotSize, isReserved);
    }

    method SetSpotNumber(n: int)
      modifies this
      ensures spotNumber == n && spotSize == old(spotSize) && isReserved == old(isReserved)
    {
      spotNumber := n;
    }

    method SetReserved(reserved: bool)
      modifies this
      ensures isReserved == reserved && spotNumber == old(spotNumber) && spotSize == old(spotSize)
    {
      isReserved := reserved;
    }
  }

  /** Changing a clone through its setters leaves the original as it was. */
  method CloneIndependence(original: ParkingSpot, n: int, reserved: bool) returns (copy: ParkingSpot)
    ensures copy != original
    ensures copy.spotNumber == n && copy.isReserved == reserved && copy.spotSize == original.spotSize
    ensures original.spotNumber == old(original.spotNumber) && original.isReserved == old(original.isReserved)
  {
    copy := original.Clone();
    copy.SetSpotNumber(n);
    copy.SetReserved(reserved);
  }

  // --------------------------------------------------------------- observers

  class ParkingLotSubjectJava {
    var observers: seq<ObserverId>
    /** Every `announce` call made so far, in call order. */
    ghost var delivered: seq<Delivery<Notice>>

    constructor ()
      ensures observers == [] && delivered == []
    {
      observers := [];
      delivered := [];
    }

    /** `ArrayList.add`: appends, duplicates allowed. */
    method RegisterObserver(o: ObserverId)
      modifies this
      ensures observers == old(observers) + [o]
      ensures delivered == old(delivered)
    {
      observers := observers + [o];
    }

    /** `ArrayList.remove(Object)`: deletes the first equal entry; an absent
        observer leaves the list as it was. */
    method RemoveObserver(o: ObserverId)
      modifies this
      ensures observers == Lists.RemoveFirst(old(observers), o)
      ensures o !in old(observers) ==> observers == old(observers)
      ensures delivered == old(delivered)
    {
      observers := Lists.RemoveFirst(observers, o);
    }

    /** Announces m to every entry, in list order. */
    method NotifyObservers(m: Notice)
      modifies this
      ensures observers == old(observers)
      ensures delivered == old(delivered) + Broadcast(observers, m)
    {
      ghost var sent: seq<Delivery<Notice>> := [];
      for i := 0 to |observers|
        invariant delivered == old(delivered) + sent
        invariant Receivers(sent) == observers[..i]
        invariant AllCarry(sent, m)
      {
        ReceiversAppend(sent, Delivery(observers[i], m));
        assert observers[..i + 1] == observers[..i] + [observers[i]];
        delivered := delivered + [Delivery(observers[i], m)];
        sent := sent + [Delivery(observers[i], m)];
      }
      assert observers[..|observers|] == observers;
      BroadcastUnique(sent, observers, m);
    }
  }

  // -------------------------------------------------------------------- gate

  class ParkingGateJava {
    var state: GateState

    /** A new gate is closed. */
    constructor ()
      ensures state == Closed
    {
      state := Closed;
    }

    method SetState(s: GateState)
      modifies this
      ensures state == s
    {
      state := s;
    }

    /** Delegates to the current state, which installs its successor. */
    method Request()
      modifies this
      ensures state == Next(old(state))
    {
      SetState(Next(state));
    }
  }

  // ------------------------------------------------------------ Java int

  const MinInt32: int := -0x8000_0000
  const MaxInt32: int := 0x7FFF_FFFF

  /** Java `int` addition: the exact result brought back into the signed
      32-bit range modulo 2^32. */
  function WrapInt32(x: int): (r: int)
    ensures MinInt32 <= r <= MaxInt32
    ensures (r - x) % 0x1_0000_0000 == 0
    ensures MinInt32 <= x <= MaxInt32 ==> r == x
  {
    (x - MinInt32) % 0x1_0000_0000 + MinInt32
  }

  /** Freeing a spot when the count is already the largest `int` wraps it
      to the smallest. */
  lemma FreeSpotsWrap()
    ensures WrapInt32(MaxInt32 + 1) == MinInt32
  {
  }

  // ------------------------------------------------------------------ facade

  class ParkingLotFacadeJava {
    const paymentStrategy: PaymentStrategy
    const subject: ParkingLotSubjectJava
    const manager: ParkingLotManager
    const gate: ParkingGateJava
    /** Every payment made so far. */
    ghost var payments: seq<Payment>

    /** `getInstance(50)`: 50 spots unless a manager already exists. */
    constructor (paymentStrategy: PaymentStrategy, singleton: ManagerSingleton)
      modifies singleton
      ensures this.paymentStrategy == paymentStrategy && payments == []
      ensures fresh(subject) && subject.observers == [] && subject.delivered == []
      ensures fresh(gate) && gate.state == Closed
      ensures old(singleton.instance).Some? ==> manager == old(singleton.instance).value
      ensures old(singleton.instance).None? ==> fresh(manager) && manager.freeSpots == 50
      ensures singleton.instance == Some(manager)
    {
      this.paymentStrategy := paymentStrategy;
      subject := new ParkingLotSubjectJava();
      var m := singleton.Instance(50);
      manager := m;
      gate := new ParkingGateJava();
      payments := [];
    }

    /** Moves the gate, then either issues a STANDARD ticket for the spot
        numbered by the current count and takes one spot, or announces a
        denial; the gate moves again in both cases. The vehicle type is only
        echoed in the notice, never checked. */
    method EnterParkingLot(vehicleType: string, licensePlate: string) returns (r: Option<Ticket>)
      modifies gate, manager, subject
      ensures gate.state == Advance(old(gate.state), 2)
      ensures subject.observers == old(subject.observers)
      ensures old(manager.freeSpots) > 0 ==>
        && r == Some(Ticket(licensePlate, "Current date and time", old(manager.freeSpots), Some(Standard)))
        && manager.freeSpots == old(manager.freeSpots) - 1
        && subject.delivered == old(subject.delivered)
             + Broadcast(subject.observers, Entered(vehicleType, licensePlate, old(manager.freeSpots)))
      ensures old(manager.freeSpots) <= 0 ==>
        && r == None
        && manager.freeSpots == old(manager.freeSpots)
        && subject.delivered == old(subject.delivered) + Broadcast(subject.observers, Denied)
    {
      gate.Request();
      if manager.freeSpots > 0 {
        var ticket := Ticket(licensePlate, "Current date and time", manager.freeSpots, Some(Standard));
        manager.freeSpots := manager.freeSpots - 1;
        subject.NotifyObservers(Entered(vehicleType, licensePlate, ticket.spotLocation));
        gate.Request();
        r := Some(ticket);
      } else {
        subject.NotifyObservers(Denied);
        gate.Request();
        r := None;
      }
    }

    /** Moves the gate, takes the payment, frees one spot (an unguarded
        `int` increment, which wraps at the largest `int`), sends one
        notification, and moves the gate again. */
    method ExitParkingLot(ticket: Ticket, amount: real)
      modifies this, gate, manager, subject
      ensures payments == old(payments) + [Payment(paymentStrategy, amount, ticket.licensePlate)]
      ensures gate.state == Advance(old(gate.state), 2)
      ensures manager.freeSpots == WrapInt32(old(manager.freeSpots) + 1)
      ensures subject.observers == old(subject.observers)
      ensures subject.delivered == old(subject.delivered)
        + Broadcast(subject.observers, Exited(ticket.licensePlate, ticket.spotLocation))
    {
      gate.Request();
      payments := payments + [Payment(paymentStrategy, amount, ticket.licensePlate)];
      manager.freeSpots := WrapInt32(manager.freeSpots + 1);
      subject.NotifyObservers(Exited(ticket.licensePlate, ticket.spotLocation));
      gate.Request();
    }
  }

  /** An entry with a spot free followed by its exit restores the count
      and, from Closed, the gate. */
  method EnterThenExitJava(facade: ParkingLotFacadeJava, vehicleType: string, licensePlate: string, amount: real)
      returns (r: Option<Ticket>)
    requires 0 < facade.manager.freeSpots <= MaxInt32 && facade.gate.state == Closed
    modifies facade, facade.gate, facade.manager, facade.subject
    ensures r == Some(Ticket(licensePlate, "Current date and time", old(facade.manager.freeSpots), Some(Standard)))
    ensures facade.manager.freeSpots == old(facade.manager.freeSpots)
    ensures facade.gate.state == Closed
    ensures facade.subject.observers == old(facade.subject.observers)
  {
    r := facade.EnterParkingLot(vehicleType, licensePlate);
    assert facade.gate.state == Open;
    facade.ExitParkingLot(r.value, amount);
  }

  const SecurityJava: ObserverId := 1
  const BillingJava: ObserverId := 2

  /** Removing the billing observer leaves the security observer alone. */
  lemma RemoveBilling()
    ensures Lists.RemoveFirst([SecurityJava, BillingJava], BillingJava) == [SecurityJava]
  {
    assert Lists.IndexOf([SecurityJava, BillingJava], BillingJava) == 1;
  }

  /** `ParkingLotApp.main`: the first `getInstance` creates the manager with
      50 spots, so both vehicles are given spot 50. */
  method FacadeDemonstrationJava() returns (system: ParkingLotFacadeJava, first: Option<Ticket>,
                                            second: Option<Ticket>)
    ensures first == Some(Ticket("ABC123", "Current date and time", 50, Some(Standard)))
    ensures second == Some(Ticket("XYZ789", "Current date and time", 50, Some(Standard)))
    ensures system.manager.freeSpots == 50
    ensures system.gate.state == Closed
    ensures system.subject.observers == [SecurityJava]
  {
    var singleton := new ManagerSingleton();
    system := new ParkingLotFacadeJava(Cash, singleton);
    assert system.manager.freeSpots == 50 && system.gate.state == Closed;
    system.subject.RegisterObserver(SecurityJava);
    system.subject.RegisterObserver(BillingJava);
    assert system.subject.observers == [SecurityJava, BillingJava];
    first := EnterThenExitJava(system, "car", "ABC123", 10.0);
    assert system.manager.freeSpots == 50 && system.gate.state == Closed;
    system.subject.RemoveObserver(BillingJava);
    RemoveBilling();
    assert system.manager.freeSpots == 50 && system.gate.state == Closed;
    second := EnterThenExitJava(system, "truck", "XYZ789", 20.0);
  }
}
