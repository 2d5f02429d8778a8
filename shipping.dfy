/** The shipping-cost strategies of Python/Patterns/Strategy.py and
    Java/Patterns/Strategy.java, which compute the same formulas: a
    calculator holds a weight, a quantity and (once set) a strategy, and
    delegates to it. Costs are exact `real`s; the sources use doubles. */
module Shipping {
  import opened Wrappers

  datatype Strategy = Electronic | Clothing | Book

  /** Each strategy's `calculate_cost(weight, quantity)`: a fixed part of
      10 plus a rate times weight times quantity, with books over five items
      discounted by a fifth. */
  function Cost(s: Strategy, weight: real, quantity: int): (r: real)
    ensures weight == 0.0 || quantity == 0 ==> r == if s == Book && quantity > 5 then 8.0 else 10.0
    ensures weight >= 0.0 && quantity >= 0 ==> r >= if s == Book && quantity > 5 then 8.0 else 10.0
  {
    assert weight >= 0.0 && quantity >= 0 ==> weight * quantity as real >= 0.0;
    match s
    case Electronic => (weight * 20.0) * quantity as real + 10.0
    case Clothing => weight * quantity as real + 10.0
    case Book =>
      var base := (weight * 10.0) * quantity as real + 10.0;
      if quantity > 5 then base * 0.8 else base
  }

  /** Every strategy charges the same 10 fixed part; electronics charge 20
      times what clothing charges per unit of weight and quantity, and books
      10 times (before the discount). */
  lemma StrategiesCompared(weight: real, quantity: int)
    ensures Cost(Electronic, weight, quantity) - 10.0 == 20.0 * (Cost(Clothing, weight, quantity) - 10.0)
    ensures quantity <= 5 ==> Cost(Book, weight, quantity) - 10.0 == 10.0 * (Cost(Clothing, weight, quantity) - 10.0)
    ensures Cost(Electronic, 0.0, quantity) == Cost(Clothing, 0.0, quantity) == 10.0
  {
  }

  /** Above five items a book order costs four fifths of the undiscounted
      book rate, which is ten times the clothing rate on the variable part. */
  lemma BookDiscount(weight: real, quantity: int)
    ensures quantity > 5 ==> Cost(Book, weight, quantity) == 0.8 * (10.0 * (Cost(Clothing, weight, quantity) - 10.0) + 10.0)
    ensures quantity <= 5 ==> Cost(Book, weight, quantity) == 10.0 * (Cost(Clothing, weight, quantity) - 10.0) + 10.0
  {
  }

  /** For a positive weight, six books cost less than five: the discount
      more than pays for the sixth. */
  lemma SixBooksCheaperThanFive(weight: real)
    requires weight > 0.0
    ensures Cost(Book, weight, 6) < Cost(Book, weight, 5)
  {
  }

  /** With a non-negative weight, more items never cost less, except across
      the book discount. */
  lemma CostMonotone(s: Strategy, weight: real, q1: int, q2: int)
    requires weight >= 0.0 && q1 <= q2
    requires s == Book ==> (q1 > 5) == (q2 > 5)
    ensures Cost(s, weight, q1) <= Cost(s, weight, q2)
  {
    var d := (q2 - q1) as real;
    assert weight * q2 as real == weight * q1 as real + weight * d;
    assert weight * d >= 0.0;
    assert weight * q1 as real <= weight * q2 as real;
    assert (weight * 20.0) * q1 as real == 20.0 * (weight * q1 as real);
    assert (weight * 20.0) * q2 as real == 20.0 * (weight * q2 as real);
    assert (weight * 10.0) * q1 as real == 10.0 * (weight * q1 as real);
    assert (weight * 10.0) * q2 as real == 10.0 * (weight * q2 as real);
  }

  class ShippingCalculator {
    var strategy: Option<Strategy>
    var weight: real
    var quantity: int
    /** What a missing strategy raises: ValueError in Python,
        IllegalStateException in Java. */
    const missing: Error

    /** The Python calculator: no strategy yet. */
    constructor Python(weight: real, quantity: int)
      ensures strategy == None && this.weight == weight && this.quantity == quantity
      ensures missing == ValueError
    {
      strategy := None;
      this.weight := weight;
      this.quantity := quantity;
      missing := ValueError;
    }

    /** The Java calculator: no strategy yet. */
    constructor Java(weight: real, quantity: int)
      ensures strategy == None && this.weight == weight && this.quantity == quantity
      ensures missing == IllegalState
    {
      strategy := None;
      this.weight := weight;
      this.quantity := quantity;
      missing := IllegalState;
    }

    method SetStrategy(s: Strategy)
      modifies this
      ensures strategy == Some(s) && weight == old(weight) && quantity == old(quantity)
    {
      strategy := Some(s);
    }

    method SetWeight(w: real)
      modifies this
      ensures weight == w && strategy == old(strategy) && quantity == old(quantity)
    {
      weight := w;
    }

    method SetQuantity(q: int)
      modifies this
      ensures quantity == q && strategy == old(strategy) && weight == old(weight)
    {
      quantity := q;
    }

    /** Raises while no strategy is set; otherwise the strategy's cost for
        the stored weight and quantity. */
    method CalculateCost() returns (r: Result<real>)
      ensures strategy.None? ==> r == Err(missing)
      ensures strategy.Some? ==> r == Ok(Cost(strategy.value, weight, quantity))
    {
      if strategy.None? {
        return Err(missing);
      }
      r := Ok(Cost(strategy.value, weight, quantity));
    }
  }

  /** The demonstration both programs run: electronics and clothing at
      weight 5 and quantity 2, then books at weight 0.5 and quantity 6. */
  method Demonstration() returns (electronics: Result<real>, clothing: Result<real>, books: Result<real>)
    ensures electronics == Ok(210.0)
    ensures clothing == Ok(20.0)
    ensures books == Ok(32.0)
  {
    var calculator := new ShippingCalculator.Python(5.0, 2);
    calculator.SetStrategy(Electronic);
    electronics := calculator.CalculateCost();
    calculator.SetStrategy(Clothing);
    clothing := calculator.CalculateCost();
    calculator.SetStrategy(Book);
    calculator.SetWeight(0.5);
    calculator.SetQuantity(6);
    books := calculator.CalculateCost();
  }
}
