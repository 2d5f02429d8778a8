/** The pizza order of Questions/Pizza.py: every pizza class carries its own
    size-price table and per-topping price, the price is the table entry for
    the size plus one topping price per topping, and an order keeps (and
    shares) the caller's list of pizzas. Prices are in cents. */
module PizzaOrders {
  import opened Wrappers
  import Lists

  datatype Size = Small | Medium | Large

  /** The enum's value, the key of the price tables. */
  function SizeValue(s: Size): string {
    match s
    case Small => "Small"
    case Medium => "Medium"
    case Large => "Large"
  }

  function Table(small: int, medium: int, large: int): (t: map<string, int>)
    ensures forall s: Size :: SizeValue(s) in t
  {
    map["Small" := small, "Medium" := medium, "Large" := large]
  }

  /** The price rule both languages share: the size's table entry plus the
      per-topping price times the number of toppings; a size missing from the
      table is an error, reported as `missing`. */
  function PriceOf(sizePrices: map<string, int>, toppingPrice: int, size: Size, toppings: nat, missing: Error)
    : (r: Result<int>)
    ensures r.Ok? <==> SizeValue(size) in sizePrices
    ensures r.Err? ==> r.error == missing
  {
    if SizeValue(size) !in sizePrices then Err(missing)
    else Ok(sizePrices[SizeValue(size)] + toppingPrice * toppings)
  }

  /** One more topping costs exactly one more topping price. */
  lemma PriceOfOneMoreTopping(sizePrices: map<string, int>, toppingPrice: int, size: Size, toppings: nat, missing: Error)
    requires SizeValue(size) in sizePrices
    ensures PriceOf(sizePrices, toppingPrice, size, toppings + 1, missing).value
         == PriceOf(sizePrices, toppingPrice, size, toppings, missing).value + toppingPrice
  {
  }

  /** With no toppings the price is the table entry. */
  lemma PriceOfNoToppings(sizePrices: map<string, int>, toppingPrice: int, size: Size, missing: Error)
    requires SizeValue(size) in sizePrices
    ensures PriceOf(sizePrices, toppingPrice, size, 0, missing) == Ok(sizePrices[SizeValue(size)])
  {
  }

  /** A pizza. No attribute is reassigned after construction, so they are
      constants; `toppings` holds the contents of the caller's list when the
      pizza is made, not the list object itself. Pizzas are compared by
      identity, as Python objects without `__eq__` are. */
  class Pizza {
    const pizzaType: string
    const size: Size
    const toppings: seq<string>
    const sizePrices: map<string, int>
    const toppingPrice: int

    /** The base class: 10/15/20 and 1.50 per topping. */
    constructor (pizzaType: string, size: Size, toppings: seq<string>)
      ensures this.pizzaType == pizzaType && this.size == size && this.toppings == toppings
      ensures sizePrices == Table(1000, 1500, 2000) && toppingPrice == 150
    {
      this.pizzaType := pizzaType;
      this.size := size;
      this.toppings := toppings;
      sizePrices := Table(1000, 1500, 2000);
      toppingPrice := 150;
    }

    /** 12/16/22 and 2 per topping. */
    constructor Margherita(size: Size, toppings: seq<string>)
      ensures pizzaType == "margherita" && this.size == size && this.toppings == toppings
      ensures sizePrices == Table(1200, 1600, 2200) && toppingPrice == 200
    {
      pizzaType := "margherita";
      this.size := size;
      this.toppings := toppings;
      sizePrices := Table(1200, 1600, 2200);
      toppingPrice := 200;
    }

    /** 14/18/25 and 2 per topping. */
    constructor Pepperoni(size: Size, toppings: seq<string>)
      ensures pizzaType == "pepperoni" && this.size == size && this.toppings == toppings
      ensures sizePrices == Table(1400, 1800, 2500) && toppingPrice == 200
    {
      pizzaType := "pepperoni";
      this.size := size;
      this.toppings := toppings;
      sizePrices := Table(1400, 1800, 2500);
      toppingPrice := 200;
    }

    /** 14/18/25 and nothing per topping. */
    constructor GlutenFree(size: Size, toppings: seq<string>)
      ensures pizzaType == "gluten-free" && this.size == size && this.toppings == toppings
      ensures sizePrices == Table(1400, 1800, 2500) && toppingPrice == 0
    {
      pizzaType := "gluten-free";
      this.size := size;
      this.toppings := toppings;
      sizePrices := Table(1400, 1800, 2500);
      toppingPrice := 0;
    }

    /** `calculate_price`; a size missing from the table raises ValueError. */
    function CalculatePrice(): (r: Result<int>)
      ensures r.Ok? <==> SizeValue(size) in sizePrices
      ensures r.Ok? ==> r.value == sizePrices[SizeValue(size)] + toppingPrice * |toppings|
      ensures r.Err? ==> r.error == ValueError
    {
      PriceOf(sizePrices, toppingPrice, size, |toppings|, ValueError)
    }
  }

  /** Every table a constructor installs covers every size, so a pizza built
      by the constructors always has a price; a gluten-free pizza's price
      ignores its toppings. */
  lemma ConstructorTables(size: Size, n: nat, m: nat)
    ensures PriceOf(Table(1000, 1500, 2000), 150, size, n, ValueError).Ok?
    ensures PriceOf(Table(1200, 1600, 2200), 200, size, n, ValueError).Ok?
    ensures PriceOf(Table(1400, 1800, 2500), 200, size, n, ValueError).Ok?
    ensures PriceOf(Table(1400, 1800, 2500), 0, size, n, ValueError)
         == PriceOf(Table(1400, 1800, 2500), 0, size, m, ValueError)
  {
  }

  datatype PaymentMethod = CreditCard | PayPal | Cash

  /** The `type` attribute each payment class passes to PaymentMethod. */
  function PaymentType(p: PaymentMethod): (t: string)
    ensures t in {"credit", "paypal", "cash"}
  {
    match p
    case CreditCard => "credit"
    case PayPal => "paypal"
    case Cash => "cash"
  }

  /** The `type` attribute tells the payment classes apart. */
  lemma PaymentTypeInjective(p: PaymentMethod, q: PaymentMethod)
    ensures PaymentType(p) == PaymentType(q) ==> p == q
  {
  }

  /** A Python list of pizzas: the caller and the order may hold the same one. */
  class PizzaList {
    var elems: seq<Pizza>

    constructor (elems: seq<Pizza>)
      ensures this.elems == elems
    {
      this.elems := elems;
    }

    /** A caller appending to its own list. */
    method Append(p: Pizza)
      modifies this
      ensures elems == old(elems) + [p]
    {
      elems := elems + [p];
    }
  }

  /** The order total: the sum of the item prices, or the error of the first
      item without one. */
  function TotalOf(items: seq<Pizza>): (r: Result<int>)
    ensures r.Ok? <==> forall i :: 0 <= i < |items| ==> items[i].CalculatePrice().Ok?
    ensures r.Err? ==> r.error == ValueError
  {
    if items == [] then Ok(0)
    else
      var rest := TotalOf(items[..|items| - 1]);
      var last := items[|items| - 1].CalculatePrice();
      if rest.Err? then rest
      else if last.Err? then last
      else Ok(rest.value + last.value)
  }

  /** The total of an empty order is 0, and appending an item adds its price. */
  lemma TotalOfAppend(items: seq<Pizza>, p: Pizza)
    requires TotalOf(items).Ok? && p.CalculatePrice().Ok?
    ensures TotalOf([]) == Ok(0)
    ensures TotalOf(items + [p]) == Ok(TotalOf(items).value + p.CalculatePrice().value)
  {
    var s := items + [p];
    assert s[..|s| - 1] == items && s[|s| - 1] == p;
  }

  class Order {
    const items: PizzaList
    const payment: PaymentMethod

    /** Keeps the caller's list itself, not a copy. */
    constructor (items: PizzaList, payment: PaymentMethod)
      ensures this.items == items && this.payment == payment
    {
      this.items := items;
      this.payment := payment;
    }

    method AddPizza(p: Pizza)
      modifies items
      ensures items.elems == old(items.elems) + [p]
    {
      items.elems := items.elems + [p];
    }

    /** Deletes the first occurrence; an absent pizza raises ValueError and
        leaves the list as it was. */
    method RemovePizza(p: Pizza) returns (r: Outcome)
      modifies items
      ensures r == if p in old(items.elems) then Pass else Raise(ValueError)
      ensures items.elems == Lists.RemoveFirst(old(items.elems), p)
    {
      if p in items.elems {
        items.elems := Lists.RemoveFirst(items.elems, p);
        r := Pass;
      } else {
        r := Raise(ValueError);
      }
    }

    /** Adds the prices in list order, stopping at the first that raises. */
    method CalculateTotal() returns (r: Result<int>)
      ensures r == TotalOf(items.elems)
    {
      var total := 0;
      var i := 0;
      while i < |items.elems|
        invariant 0 <= i <= |items.elems|
        invariant TotalOf(items.elems[..i]) == Ok(total)
      {
        var price := items.elems[i].CalculatePrice();
        assert items.elems[..i + 1][..i] == items.elems[..i];
        if price.Err? {
          TotalErrExtends(items.elems, i + 1);
          return price;
        }
        total := total + price.value;
        i := i + 1;
      }
      assert items.elems[..i] == items.elems;
      r := Ok(total);
    }
  }

  /** An item without a price anywhere in a prefix makes the whole total fail. */
  lemma TotalErrExtends(items: seq<Pizza>, k: nat)
    requires k <= |items| && TotalOf(items[..k]).Err?
    ensures TotalOf(items) == Err(ValueError)
  {
    var i :| 0 <= i < k && !items[..k][i].CalculatePrice().Ok?;
    assert items[i] == items[..k][i];
  }

  /** Because the order shares the caller's list, a pizza the caller appends
      afterwards is part of the order. */
  method AliasingDemonstration(p: Pizza) returns (order: Order)
    ensures order.items.elems == [p]
  {
    var mine := new PizzaList([]);
    order := new Order(mine, Cash);
    mine.Append(p);
  }
}
