/** The State pattern of Python/Patterns/State.py and Java/Patterns/State.java:
    a traffic light starts red and each switch moves it to the next colour of
    the cycle red -> green -> yellow -> red. The two files behave alike;
    the concrete state classes become the constructors of `Light`. */
module TrafficLights {

  datatype Light = Green | Yellow | Red

  /** What each concrete state's `switch` installs. */
  function Next(l: Light): (r: Light)
    ensures r != l
  {
    match l
    case Green => Yellow
    case Yellow => Red
    case Red => Green
  }

  /** The light after n switches starting from l. */
  function After(l: Light, n: nat): Light {
    if n == 0 then l else Next(After(l, n - 1))
  }

  /** Position in the cycle, counted from the initial red. */
  function Phase(l: Light): (p: nat)
    ensures p < 3
  {
    match l
    case Red => 0
    case Green => 1
    case Yellow => 2
  }

  /** Independent description of the cycle: n switches advance the phase by
      n modulo 3. */
  lemma {:induction false} AfterPhase(l: Light, n: nat)
    ensures Phase(After(l, n)) == (Phase(l) + n) % 3
  {
    if n > 0 {
      AfterPhase(l, n - 1);
    }
  }

  /** The phase determines the light. */
  lemma PhaseInjective(a: Light, b: Light)
    requires Phase(a) == Phase(b)
    ensures a == b
  {
  }

  /** Every three switches bring the light back to where it was. */
  lemma PeriodThree(l: Light, n: nat)
    ensures After(l, n + 3) == After(l, n)
  {
    AfterPhase(l, n + 3);
    AfterPhase(l, n);
    PhaseInjective(After(l, n + 3), After(l, n));
  }

  /** Three different colours are visited within any three switches. */
  lemma CycleVisitsAll(l: Light)
    ensures {After(l, 0), After(l, 1), After(l, 2)} == {Green, Yellow, Red}
  {
  }

  class TrafficLight {
    var state: Light

    /** A new light is red. */
    constructor ()
      ensures state == Red
    {
      state := Red;
    }

    /** The Java getter. */
    function GetState(): (l: Light)
      reads this
      ensures l == state
    {
      state
    }

    /** The setter both versions expose. */
    method SetState(l: Light)
      modifies this
      ensures state == l
    {
      state := l;
    }

    /** Delegates to the current state, which installs its successor. */
    method Switch()
      modifies this
      ensures state == Next(old(state))
    {
      SetState(Next(state));
    }

    /** Switches n times, returning the colour after each switch. */
    method SwitchTimes(n: nat) returns (visited: seq<Light>)
      modifies this
      ensures |visited| == n
      ensures forall i :: 0 <= i < n ==> visited[i] == After(old(state), i + 1)
      ensures state == After(old(state), n)
    {
      visited := [];
      var i := 0;
      while i < n
        invariant 0 <= i <= n
        invariant |visited| == i
        invariant forall k :: 0 <= k < i ==> visited[k] == After(old(state), k + 1)
        invariant state == After(old(state), i)
      {
        Switch();
        visited := visited + [state];
        i := i + 1;
      }
    }
  }

  /** Both programs' test: six switches from a new light pass through each
      colour twice and end on red again. */
  method Demonstration() returns (visited: seq<Light>)
    ensures visited == [Green, Yellow, Red, Green, Yellow, Red]
  {
    var light := new TrafficLight();
    visited := light.SwitchTimes(6);
  }
}
