/** The pizza order of Java/Questions/Pizza.java. Pricing follows the same
    rule as the Python version (PizzaOrders.PriceOf) but a missing size
    throws IllegalArgumentException; there is no gluten-free class; the
    order copies the list it is given and ignores removal of an absent
    pizza. Prices are in cents. */
module PizzaOrdersJava {
  import opened Wrappers
  import Lists
  import opened PizzaOrders

  /** A pizza. No field is reassigned after construction; `toppings` holds
      the contents of the caller's list when the pizza is made, not the list
      object itself. */
  class PizzaJava {
    const pizzaType: string
    const size: Size
    const toppings: seq<string>
    const sizePrices: map<string, int>
    const toppingPrice: int

    /** The base class: 10/15/20 and 1.50 per topping. */
    constructor (pizzaType: string, size: Size, toppings: seq<string>)
      ensures this.pizzaType == pizzaType && this.size == size && this.toppings == toppings
      ensures sizePrices == Table(1000, 1500, 2000) && toppingPrice == 150
    {
      this.pizzaType := pizzaType;
      this.size := size;
      this.toppings := toppings;
      sizePrices := Table(1000, 1500, 2000);
      toppingPrice := 150;
    }

    /** 12/16/22 and 2 per topping. */
    constructor Margherita(size: Size, toppings: seq<string>)
      ensures pizzaType == "margherita" && this.size == size && this.toppings == toppings
      ensures sizePrices == Table(1200, 1600, 2200) && toppingPrice == 200
    {
      pizzaType := "margherita";
      this.size := size;
      this.toppings := toppings;
      sizePrices := Table(1200, 1600, 2200);
      toppingPrice := 200;
    }

    /** 14/18/25 and 2 per topping. */
    constructor Pepperoni(size: Size, toppings: seq<string>)
      ensures pizzaType == "pepperoni" && this.size == size && this.toppings == toppings
      ensures sizePrices == Table(1400, 1800, 2500) && toppingPrice == 200
    {
      pizzaType := "pepperoni";
      this.size := size;
      this.toppings := toppings;
      sizePrices := Table(1400, 1800, 2500);
      toppingPrice := 200;
    }

    /** `calculatePrice`; a size missing from the table throws
        IllegalArgumentException. */
    function CalculatePrice(): (r: Result<int>)
      ensures r.Ok? <==> SizeValue(size) in sizePrices
      ensures r.Ok? ==> r.value == sizePrices[SizeValue(size)] + toppingPrice * |toppings|
      ensures r.Err? ==> r.error == IllegalArgument
    {
      PriceOf(sizePrices, toppingPrice, size, |toppings|, IllegalArgument)
    }
  }

  /** The same pizza priced by either version: equal when the size is in the
      table, and otherwise the same failure under each language's name. */
  lemma VersionsAgree(sizePrices: map<string, int>, toppingPrice: int, size: Size, toppings: nat)
    ensures PriceOf(sizePrices, toppingPrice, size, toppings, IllegalArgument).Ok?
         == PriceOf(sizePrices, toppingPrice, size, toppings, ValueError).Ok?
    ensures SizeValue(size) in sizePrices ==>
      PriceOf(sizePrices, toppingPrice, size, toppings, IllegalArgument)
      == PriceOf(sizePrices, toppingPrice, size, toppings, ValueError)
  {
  }

  class PizzaListJava {
    var elems: seq<PizzaJava>

    constructor (elems: seq<PizzaJava>)
      ensures this.elems == elems
    {
      this.elems := elems;
    }

    method Append(p: PizzaJava)
      modifies this
      ensures elems == old(elems) + [p]
    {
      elems := elems + [p];
    }
  }

  function TotalOfJava(items: seq<PizzaJava>): (r: Result<int>)
    ensures r.Ok? <==> forall i :: 0 <= i < |items| ==> items[i].CalculatePrice().Ok?
    ensures r.Err? ==> r.error == IllegalArgument
  {
    if items == [] then Ok(0)
    else
      var rest := TotalOfJava(items[..|items| - 1]);
      var last := items[|items| - 1].CalculatePrice();
      if rest.Err? then rest
      else if last.Err? then last
      else Ok(rest.value + last.value)
  }

  /** The total of an empty order is 0, and appending an item adds its price. */
  lemma TotalOfJavaAppend(items: seq<PizzaJava>, p: PizzaJava)
    requires TotalOfJava(items).Ok? && p.CalculatePrice().Ok?
    ensures TotalOfJava([]) == Ok(0)
    ensures TotalOfJava(items + [p]) == Ok(TotalOfJava(items).value + p.CalculatePrice().value)
  {
    var s := items + [p];
    assert s[..|s| - 1] == items && s[|s| - 1] == p;
  }

  lemma TotalErrExtendsJava(items: seq<PizzaJava>, k: nat)
    requires k <= |items| && TotalOfJava(items[..k]).Err?
    ensures TotalOfJava(items) == Err(IllegalArgument)
  {
    var i :| 0 <= i < k && !items[..k][i].CalculatePrice().Ok?;
    assert items[i] == items[..k][i];
  }

  class OrderJava {
    const items: PizzaListJava
    const payment: PaymentMethod

    /** `new ArrayList<>(items)`: the order owns a copy. */
    constructor (items: PizzaListJava, payment: PaymentMethod)
      ensures fresh(this.items) && this.items.elems == items.elems && this.payment == payment
    {
      this.items := new PizzaListJava(items.elems);
      this.payment := payment;
    }

    method AddPizza(p: PizzaJava)
      modifies items
      ensures items.elems == old(items.elems) + [p]
    {
      items.elems := items.elems + [p];
    }

    /** `List.remove(Object)`: deletes the first equal pizza; an absent one
        changes nothing. */
    method RemovePizza(p: PizzaJava)
      modifies items
      ensures items.elems == Lists.RemoveFirst(old(items.elems), p)
      ensures p !in old(items.elems) ==> items.elems == old(items.elems)
    {
      items.elems := Lists.RemoveFirst(items.elems, p);
    }

    /** Adds the prices in list order, stopping at the first that throws. */
    method CalculateTotal() returns (r: Result<int>)
      ensures r == TotalOfJava(items.elems)
    {
      var total := 0;
      var i := 0;
      while i < |items.elems|
        invariant 0 <= i <= |items.elems|
        invariant TotalOfJava(items.elems[..i]) == Ok(total)
      {
        var price := items.elems[i].CalculatePrice();
        assert items.elems[..i + 1][..i] == items.elems[..i];
        if price.Err? {
          TotalErrExtendsJava(items.elems, i + 1);
          return price;
        }
        total := total + price.value;
        i := i + 1;
      }
      assert items.elems[..i] == items.elems;
      r := Ok(total);
    }
  }

  /** Because the order copied the caller's list, a pizza the caller appends
      afterwards is not part of the order. */
  method CopyDemonstration(p: PizzaJava) returns (order: OrderJava, mine: PizzaListJava)
    ensures order.items.elems == []
    ensures mine.elems == [p]
  {
    mine := new PizzaListJava([]);
    order := new OrderJava(mine, Cash);
    mine.Append(p);
  }
}
