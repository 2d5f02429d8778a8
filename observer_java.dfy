/** The HashSet-based notification system of Java/Patterns/Observer.java.
    Unlike the Python version, removing an absent observer is a silent
    no-op. */
module ObserverJava {
  import opened Registry

  class NotificationSystem {
    var observers: set<ObserverId>
    /** Every `announce` call made so far, in call order. */
    ghost var delivered: seq<Delivery<string>>

    constructor ()
      ensures observers == {} && delivered == []
    {
      observers := {};
      delivered := [];
    }

    /** `HashSet.add`: adding a registered observer changes nothing. */
    method AddObserver(o: ObserverId)
      modifies this
      ensures observers == old(observers) + {o}
      ensures delivered == old(delivered)
    {
      observers := observers + {o};
    }

    /** The varargs `addObservers`: every argument is added. */
    method AddObservers(os: seq<ObserverId>)
      modifies this
      ensures forall o :: o in observers <==> o in old(observers) || o in os
      ensures delivered == old(delivered)
    {
      observers := observers + set o | o in os;
    }

    /** `HashSet.remove`: the observer is gone afterwards whether or not it
        was registered. */
    method RemoveObserver(o: ObserverId)
      modifies this
      ensures observers == old(observers) - {o}
      ensures delivered == old(delivered)
    {
      observers := observers - {o};
    }

    /** Calls `announce(message)` once on each registered observer, in an
        order the hash set chooses. */
    method NotifyObservers(message: string)
      modifies this
      ensures observers == old(observers)
      ensures |delivered| >= |old(delivered)| && delivered[..|old(delivered)|] == old(delivered)
      ensures OnceEach(delivered[|old(delivered)|..], observers, message)
    {
      var pending := observers;
      ghost var sent: seq<Delivery<string>> := [];
      while pending != {}
        invariant pending <= observers == old(observers)
        invariant delivered == old(delivered) + sent
        invariant AllCarry(sent, message)
        invariant multiset(Receivers(sent)) + multiset(pending) == multiset(observers)
        decreases pending
      {
        var o :| o in pending;
        ReceiversAppend(sent, Delivery(o, message));
        assert multiset(pending) == multiset(pending - {o}) + multiset{o};
        delivered := delivered + [Delivery(o, message)];
        sent := sent + [Delivery(o, message)];
        pending := pending - {o};
      }
      assert delivered[|old(delivered)|..] == sent;
    }
  }

  const Josh: ObserverId := 1
  const Alina: ObserverId := 2
  const Jacob: ObserverId := 3

  /** The class's `main`: after Josh is removed, the last notification
      reaches exactly Alina and Jacob. */
  method Demonstration() returns (system: NotificationSystem)
    ensures |system.delivered| == 8
    ensures OnceEach(system.delivered[6..], {Alina, Jacob}, "The front window is broken.")
  {
    system := new NotificationSystem();
    system.AddObservers([Josh, Alina, Jacob]);
    assert system.observers == {Josh, Alina, Jacob};
    system.NotifyObservers("There is a car approaching.");
    OnceEachLength(system.delivered, {Josh, Alina, Jacob}, "There is a car approaching.");
    assert |system.delivered| == 3;
    system.NotifyObservers("There is a person at the front door.");
    OnceEachLength(system.delivered[3..], {Josh, Alina, Jacob}, "There is a person at the front door.");
    assert |system.delivered| == 6;
    system.RemoveObserver(Josh);
    assert system.observers == {Alina, Jacob};
    system.NotifyObservers("The front window is broken.");
    OnceEachLength(system.delivered[6..], {Alina, Jacob}, "The front window is broken.");
  }
}
