/** The set-based notification system of Patterns/Observer.py. Observers are
    kept in a set, so adding one twice is the same as adding it once;
    removing an absent observer raises KeyError; a notification reaches each
    registered observer exactly once, in no particular order. */
module ObserverPy {
  import opened Wrappers
  import opened Registry

  /** `add_observer` takes one observer or a tuple of them. */
  datatype ObserverArg = Single(observer: ObserverId) | Many(observers: seq<ObserverId>)

  function Members(arg: ObserverArg): (s: set<ObserverId>)
    ensures arg.Single? ==> s == {arg.observer}
    ensures arg.Many? ==> forall o :: o in s <==> o in arg.observers
  {
    match arg
    case Single(o) => {o}
    case Many(os) => set o | o in os
  }

  class NotificationSystem {
    var observers: set<ObserverId>
    /** Every `announce` call made so far, in call order. */
    ghost var delivered: seq<Delivery<string>>

    constructor ()
      ensures observers == {} && delivered == []
    {
      observers := {};
      delivered := [];
    }

    /** Adds one observer, or every element of a tuple; re-adding changes nothing. */
    method AddObserver(arg: ObserverArg)
      modifies this
      ensures observers == old(observers) + Members(arg)
      ensures delivered == old(delivered)
    {
      match arg
      case Single(o) => observers := observers + {o};
      case Many(os) => observers := observers + set o | o in os;
    }

    /** Removes a registered observer; an absent one raises KeyError and
        leaves the set as it was. */
    method RemoveObserver(o: ObserverId) returns (r: Outcome)
      modifies this
      ensures r == if o in old(observers) then Pass else Raise(KeyError)
      ensures observers == old(observers) - {o}
      ensures delivered == old(delivered)
    {
      if o in observers {
        observers := observers - {o};
        r := Pass;
      } else {
        r := Raise(KeyError);
      }
    }

    /** Calls `announce(message)` once on each registered observer. */
    method NotifyObservers(message: string)
      modifies this
      ensures observers == old(observers)
      ensures |delivered| >= |old(delivered)| && delivered[..|old(delivered)|] == old(delivered)
      ensures OnceEach(delivered[|old(delivered)|..], observers, message)
    {
      var pending := observers;
      ghost var sent: seq<Delivery<string>> := [];
      while pending != {}
        invariant pending <= observers == old(observers)
        invariant delivered == old(delivered) + sent
        invariant AllCarry(sent, message)
        invariant multiset(Receivers(sent)) + multiset(pending) == multiset(observers)
        decreases pending
      {
        var o :| o in pending;
        ReceiversAppend(sent, Delivery(o, message));
        assert multiset(pending) == multiset(pending - {o}) + multiset{o};
        delivered := delivered + [Delivery(o, message)];
        sent := sent + [Delivery(o, message)];
        pending := pending - {o};
      }
      assert delivered[|old(delivered)|..] == sent;
    }
  }

  const Josh: ObserverId := 1
  const Alina: ObserverId := 2
  const Jacob: ObserverId := 3

  /** The module's demonstration: after Josh is removed, the third
      notification reaches Alina and Jacob, once each, and nobody else. */
  method Demonstration() returns (system: NotificationSystem)
    ensures |system.delivered| == 8
    ensures OnceEach(system.delivered[6..], {Alina, Jacob}, "The front window is broken.")
  {
    system := new NotificationSystem();
    system.AddObserver(Many([Josh, Alina, Jacob]));
    assert system.observers == {Josh, Alina, Jacob};
    system.NotifyObservers("There is a car approaching.");
    OnceEachLength(system.delivered, {Josh, Alina, Jacob}, "There is a car approaching.");
    assert |system.delivered| == 3;
    system.NotifyObservers("There is a person at the front door.");
    OnceEachLength(system.delivered[3..], {Josh, Alina, Jacob}, "There is a person at the front door.");
    assert |system.delivered| == 6;
    var removed := system.RemoveObserver(Josh);
    assert system.observers == {Alina, Jacob};
    system.NotifyObservers("The front window is broken.");
    OnceEachLength(system.delivered[6..], {Alina, Jacob}, "The front window is broken.");
  }
}
