/** The pizza shop of Questions/PizzaShop.py: a pizza whose toppings are a
    set filled in place by a builder, a fixed-recipe factory, table-driven
    pricing (in cents), an order whose status walks through four states and
    records each one, and a cashier that only books delivered orders. */
module PizzaShop {
  import opened Wrappers
  import opened Text
  import opened Registry
  import Lists
  import ObserverPy

  datatype Size = Small | Medium | Large
  datatype Crust = Thin | Thick
  datatype Sauce = Tomato | Marinara | Bbq
  datatype Topping = Jalapeno | Olives | Pineapple | Mushrooms | Sausage | Pepperoni

  /** What a pizza holds at a given moment; the attributes start as None. */
  datatype Recipe = Recipe(size: Option<Size>, crust: Option<Crust>, sauce: Option<Sauce>,
                           toppings: set<Topping>)

  class Pizza {
    var size: Option<Size>
    var crust: Option<Crust>
    var sauce: Option<Sauce>
    var toppings: set<Topping>

    constructor ()
      ensures size == None && crust == None && sauce == None && toppings == {}
    {
      size := None;
      crust := None;
      sauce := None;
      toppings := {};
    }

    function Value(): Recipe
      reads this
    {
      Recipe(size, crust, sauce, toppings)
    }
  }

  // ------------------------------------------------------------------ builder

  /** An argument as Python receives it: an instance of the expected type, or
      any other object (None included), which the type checks refuse. */
  datatype Arg<T> = Instance(value: T) | NotInstance

  /** `add_topping` accepts a Topping, a tuple of them, or (silently
      ignored) anything else. */
  datatype ToppingArg = One(topping: Topping) | Several(toppings: seq<Topping>) | Other

  /** The topping set after `add_topping(arg)`. */
  function WithArg(ts: set<Topping>, arg: ToppingArg): (r: set<Topping>)
    ensures forall t :: t in r <==> t in ts || (arg.One? && t == arg.topping) || (arg.Several? && t in arg.toppings)
  {
    match arg
    case One(t) => ts + {t}
    case Several(more) => ts + set t | t in more
    case Other => ts
  }

  /** Adding the same argument twice is the same as adding it once. */
  lemma WithArgIdempotent(ts: set<Topping>, arg: ToppingArg)
    ensures WithArg(WithArg(ts, arg), arg) == WithArg(ts, arg)
  {
  }

  /** The order in which arguments are added does not matter. */
  lemma WithArgCommutes(ts: set<Topping>, a: ToppingArg, b: ToppingArg)
    ensures WithArg(WithArg(ts, a), b) == WithArg(WithArg(ts, b), a)
  {
  }

  /** The order inside a tuple does not matter either. */
  lemma TupleOrderIrrelevant(ts: set<Topping>, xs: seq<Topping>, ys: seq<Topping>)
    requires multiset(xs) == multiset(ys)
    ensures WithArg(ts, Several(xs)) == WithArg(ts, Several(ys))
  {
    forall t | t in xs ensures t in ys {
      assert t in multiset(xs);
    }
    forall t | t in ys ensures t in xs {
      assert t in multiset(ys);
    }
  }

  class PizzaBuilder {
    const pizza: Pizza

    constructor ()
      ensures fresh(pizza) && pizza.Value() == Recipe(None, None, None, {})
    {
      pizza := new Pizza();
    }

    /** `set_size`, through the `size` property's setter, which raises
        ValueError for anything that is not a Size and then changes nothing. */
    method SetSize(size: Arg<Size>) returns (o: Outcome)
      modifies pizza
      ensures o.Pass? <==> size.Instance?
      ensures o.Raise? ==> o.error == ValueError && pizza.Value() == old(pizza.Value())
      ensures o.Pass? ==> pizza.Value() == old(pizza.Value()).(size := Some(size.value))
    {
      if size.NotInstance? {
        return Raise(ValueError);
      }
      pizza.size := Some(size.value);
      o := Pass;
    }

    /** `set_crust`, with the same type check as the size. */
    method SetCrust(crust: Arg<Crust>) returns (o: Outcome)
      modifies pizza
      ensures o.Pass? <==> crust.Instance?
      ensures o.Raise? ==> o.error == ValueError && pizza.Value() == old(pizza.Value())
      ensures o.Pass? ==> pizza.Value() == old(pizza.Value()).(crust := Some(crust.value))
    {
      if crust.NotInstance? {
        return Raise(ValueError);
      }
      pizza.crust := Some(crust.value);
      o := Pass;
    }

    /** `set_sauce`, with the same type check as the size. */
    method SetSauce(sauce: Arg<Sauce>) returns (o: Outcome)
      modifies pizza
      ensures o.Pass? <==> sauce.Instance?
      ensures o.Raise? ==> o.error == ValueError && pizza.Value() == old(pizza.Value())
      ensures o.Pass? ==> pizza.Value() == old(pizza.Value()).(sauce := Some(sauce.value))
    {
      if sauce.NotInstance? {
        return Raise(ValueError);
      }
      pizza.sauce := Some(sauce.value);
      o := Pass;
    }

    /** Updates the pizza's topping set in place. */
    method AddTopping(arg: ToppingArg)
      modifies pizza
      ensures pizza.Value() == old(pizza.Value()).(toppings := WithArg(old(pizza.toppings), arg))
    {
      match arg
      case One(t) => pizza.toppings := pizza.toppings + {t};
      case Several(more) => pizza.toppings := pizza.toppings + set t | t in more;
      case Other =>
    }

    /** Hands out the builder's own pizza, not a copy. */
    method Build() returns (p: Pizza)
      ensures p == pizza
    {
      p := pizza;
    }
  }

  // ------------------------------------------------------------------ factory

  /** The recipe `create_pizza` produces: a name that is missing, empty or
      not a string raises ValueError; the name is lower-cased; margherita,
      pepperoni and cheese are known, and anything else raises ValueError; a
      size or crust that is not of its type raises ValueError in its setter.
      The source's defaults for size and crust are Medium and Thin. */
  function CreateRecipe(kind: Arg<string>, size: Arg<Size>, crust: Arg<Crust>): (r: Result<Recipe>)
    ensures r.Err? ==> r.error == ValueError
    ensures r.Ok? <==> kind.Instance? && Lower(kind.value) in {"margherita", "pepperoni", "cheese"}
                       && size.Instance? && crust.Instance?
    ensures r.Ok? ==> r.value.size == Some(size.value) && r.value.crust == Some(crust.value)
    ensures r.Ok? && Lower(kind.value) == "margherita" ==>
      r.value.sauce == Some(Tomato) && r.value.toppings == {Mushrooms, Olives}
    ensures r.Ok? && Lower(kind.value) == "pepperoni" ==>
      r.value.sauce == Some(Marinara) && r.value.toppings == {Pepperoni, Sausage}
    ensures r.Ok? && Lower(kind.value) == "cheese" ==>
      r.value.sauce == Some(Tomato) && r.value.toppings == {}
  {
    if kind.NotInstance? || kind.value == "" then Err(ValueError)
    else
      var name := Lower(kind.value);
      if name !in {"margherita", "pepperoni", "cheese"} || size.NotInstance? || crust.NotInstance? then
        Err(ValueError)
      else if name == "margherita" then
        Ok(Recipe(Some(size.value), Some(crust.value), Some(Tomato), {Mushrooms, Olives}))
      else if name == "pepperoni" then
        Ok(Recipe(Some(size.value), Some(crust.value), Some(Marinara), {Pepperoni, Sausage}))
      else
        Ok(Recipe(Some(size.value), Some(crust.value), Some(Tomato), {}))
  }

  /** The factory does not care how the name is capitalised. */
  lemma CreateRecipeCaseInsensitive(name: string, size: Arg<Size>, crust: Arg<Crust>)
    ensures CreateRecipe(Instance(name), size, crust) == CreateRecipe(Instance(Lower(name)), size, crust)
  {
    LowerIdempotent(name);
  }

  /** The chain every recipe starts with: size, crust, then sauce, stopping
      at the first setter that raises. */
  method SizeCrustSauce(builder: PizzaBuilder, size: Arg<Size>, crust: Arg<Crust>, sauce: Sauce)
    returns (o: Outcome)
    modifies builder.pizza
    ensures o.Pass? <==> size.Instance? && crust.Instance?
    ensures o.Raise? ==> o.error == ValueError
    ensures o.Pass? ==>
              builder.pizza.Value() ==
              old(builder.pizza.Value()).(size := Some(size.value), crust := Some(crust.value), sauce := Some(sauce))
  {
    o := builder.SetSize(size);
    if o.Raise? {
      return;
    }
    o := builder.SetCrust(crust);
    if o.Raise? {
      return;
    }
    o := builder.SetSauce(Instance(sauce));
  }

  /** `create_pizza` itself, which goes through a fresh builder. */
  method CreatePizza(kind: Arg<string>, size: Arg<Size>, crust: Arg<Crust>) returns (r: Result<Pizza>)
    ensures r.Ok? <==> CreateRecipe(kind, size, crust).Ok?
    ensures r.Err? ==> r.error == ValueError
    ensures r.Ok? ==> fresh(r.value) && r.value.Value() == CreateRecipe(kind, size, crust).value
  {
    var builder := new PizzaBuilder();
    if kind.NotInstance? || kind.value == "" {
      return Err(ValueError);
    }
    var name := Lower(kind.value);
    if name == "margherita" {
      var o := SizeCrustSauce(builder, size, crust, Tomato);
      if o.Raise? {
        return Err(o.error);
      }
      builder.AddTopping(Several([Mushrooms, Olives]));
      var p := builder.Build();
      r := Ok(p);
    } else if name == "pepperoni" {
      var o := SizeCrustSauce(builder, size, crust, Marinara);
      if o.Raise? {
        return Err(o.error);
      }
      builder.AddTopping(Several([Pepperoni, Sausage]));
      var p := builder.Build();
      r := Ok(p);
    } else if name == "cheese" {
      var o := SizeCrustSauce(builder, size, crust, Tomato);
      if o.Raise? {
        return Err(o.error);
      }
      var p := builder.Build();
      r := Ok(p);
    } else {
      r := Err(ValueError);
    }
  }

  // ------------------------------------------------------------------ pricing

  /** The size table, in cents; a pizza without a size costs nothing for it. */
  function SizePrice(size: Option<Size>): nat {
    match size
    case None => 0
    case Some(Small) => 500
    case Some(Medium) => 700
    case Some(Large) => 1000
  }

  function CrustPrice(crust: Option<Crust>): nat {
    match crust
    case None => 0
    case Some(Thin) => 0
    case Some(Thick) => 150
  }

  function ToppingPrice(t: Topping): nat {
    match t
    case Jalapeno => 75
    case Olives => 50
    case Pineapple => 100
    case Mushrooms => 75
    case Sausage => 125
    case Pepperoni => 125
  }

  /** The topping sum, one term per possible topping. */
  function ToppingsPrice(ts: set<Topping>): nat {
    (if Jalapeno in ts then 75 else 0) + (if Olives in ts then 50 else 0)
    + (if Pineapple in ts then 100 else 0) + (if Mushrooms in ts then 75 else 0)
    + (if Sausage in ts then 125 else 0) + (if Pepperoni in ts then 125 else 0)
  }

  /** Reference definition: the sum of the table price over the set's
      elements, taken one at a time in any order. */
  ghost function SumOver(ts: set<Topping>): nat {
    if ts == {} then 0 else var t :| t in ts; ToppingPrice(t) + SumOver(ts - {t})
  }

  lemma ToppingsPriceSplit(ts: set<Topping>, t: Topping)
    requires t in ts
    ensures ToppingsPrice(ts) == ToppingPrice(t) + ToppingsPrice(ts - {t})
  {
  }

  /** The per-topping sum is the sum over the distinct toppings. */
  lemma {:induction false} ToppingsPriceIsSum(ts: set<Topping>)
    ensures ToppingsPrice(ts) == SumOver(ts)
  {
    if ts != {} {
      var t :| t in ts && SumOver(ts) == ToppingPrice(t) + SumOver(ts - {t});
      ToppingsPriceSplit(ts, t);
      ToppingsPriceIsSum(ts - {t});
    }
  }

  /** `DefaultPricing.calculate_price`, in cents. */
  function Price(p: Recipe): nat {
    SizePrice(p.size) + CrustPrice(p.crust) + ToppingsPrice(p.toppings)
  }

  /** The price is the size price, plus the crust price, plus the price of
      each distinct topping. */
  lemma PriceIsSum(p: Recipe)
    ensures Price(p) == SizePrice(p.size) + CrustPrice(p.crust) + SumOver(p.toppings)
  {
    ToppingsPriceIsSum(p.toppings);
  }

  /** A topping already on the pizza adds nothing; a new one adds its price. */
  lemma PriceAddTopping(p: Recipe, t: Topping)
    ensures t in p.toppings ==> Price(p.(toppings := p.toppings + {t})) == Price(p)
    ensures t !in p.toppings ==> Price(p.(toppings := p.toppings + {t})) == Price(p) + ToppingPrice(t)
  {
    if t !in p.toppings {
      ToppingsPriceSplit(p.toppings + {t}, t);
      assert p.toppings + {t} - {t} == p.toppings;
    } else {
      assert p.toppings + {t} == p.toppings;
    }
  }

  /** A margherita, whatever the letter case of its name, costs its size
      and crust plus 1.25 for mushrooms and olives: 8.25 at the default
      medium size and thin crust. */
  lemma MargheritaPrice(kind: string, size: Size, crust: Crust)
    requires Lower(kind) == "margherita"
    ensures CreateRecipe(Instance(kind), Instance(size), Instance(crust)).Ok?
    ensures Price(CreateRecipe(Instance(kind), Instance(size), Instance(crust)).value) == SizePrice(Some(size)) + CrustPrice(Some(crust)) + 125
    ensures size == Medium && crust == Thin ==> Price(CreateRecipe(Instance(kind), Instance(size), Instance(crust)).value) == 825
  {
    var r := Recipe(Some(size), Some(crust), Some(Tomato), {Mushrooms, Olives});
    assert kind != "";
    assert CreateRecipe(Instance(kind), Instance(size), Instance(crust)) == Ok(r);
    assert ToppingsPrice(r.toppings) == 125;
  }

  /** A pepperoni pizza adds 2.50 for pepperoni and sausage: 9.50 at the
      default size and crust. */
  lemma PepperoniPrice(kind: string, size: Size, crust: Crust)
    requires Lower(kind) == "pepperoni"
    ensures CreateRecipe(Instance(kind), Instance(size), Instance(crust)).Ok?
    ensures Price(CreateRecipe(Instance(kind), Instance(size), Instance(crust)).value) == SizePrice(Some(size)) + CrustPrice(Some(crust)) + 250
    ensures size == Medium && crust == Thin ==> Price(CreateRecipe(Instance(kind), Instance(size), Instance(crust)).value) == 950
  {
    var r := Recipe(Some(size), Some(crust), Some(Marinara), {Pepperoni, Sausage});
    assert kind != "";
    assert CreateRecipe(Instance(kind), Instance(size), Instance(crust)) == Ok(r);
    assert ToppingsPrice(r.toppings) == 250;
  }

  /** A cheese pizza has no toppings: 7.00 at the default size and crust. */
  lemma CheesePrice(kind: string, size: Size, crust: Crust)
    requires Lower(kind) == "cheese"
    ensures CreateRecipe(Instance(kind), Instance(size), Instance(crust)).Ok?
    ensures Price(CreateRecipe(Instance(kind), Instance(size), Instance(crust)).value) == SizePrice(Some(size)) + CrustPrice(Some(crust))
    ensures size == Medium && crust == Thin ==> Price(CreateRecipe(Instance(kind), Instance(size), Instance(crust)).value) == 700
  {
    var r := Recipe(Some(size), Some(crust), Some(Tomato), {});
    assert kind != "";
    assert CreateRecipe(Instance(kind), Instance(size), Instance(crust)) == Ok(r);
  }

  // ------------------------------------------------------------ order states

  datatype OrderState = Received | InPreparation | Ready | Delivered

  /** The class name the status history records. */
  function StateName(s: OrderState): string {
    match s
    case Received => "ReceivedState"
    case InPreparation => "InPreparationState"
    case Ready => "ReadyState"
    case Delivered => "DeliveredState"
  }

  /** What each state's `update` installs next; Delivered stays. */
  function NextState(s: OrderState): (r: OrderState)
    ensures r == s <==> s == Delivered
  {
    match s
    case Received => InPreparation
    case InPreparation => Ready
    case Ready => Delivered
    case Delivered => Delivered
  }

  /** The message each state's `update` returns. */
  function StateMessage(s: OrderState): string {
    match s
    case Received => "Order is being prepared."
    case InPreparation => "Order is ready for pickup or delivery."
    case Ready => "Order is delivered."
    case Delivered => "Order has already been delivered."
  }

  function Step(s: OrderState): (n: nat)
    ensures n < 4
  {
    match s
    case Received => 0
    case InPreparation => 1
    case Ready => 2
    case Delivered => 3
  }

  /** The names of every state from Received up to s, in order. */
  function History(s: OrderState): (h: seq<string>)
    decreases Step(s)
    ensures |h| == Step(s) + 1 && |h| <= 4
    ensures h[0] == "ReceivedState" && h[|h| - 1] == StateName(s)
  {
    match s
    case Received => ["ReceivedState"]
    case InPreparation => History(Received) + ["InPreparationState"]
    case Ready => History(InPreparation) + ["ReadyState"]
    case Delivered => History(Ready) + ["DeliveredState"]
  }

  /** A status change adds exactly one name, the new state's. */
  lemma HistoryStep(s: OrderState)
    requires s != Delivered
    ensures History(NextState(s)) == History(s) + [StateName(NextState(s))]
  {
  }

  /** Each state answers with its own message. */
  lemma StateMessageInjective(s: OrderState, t: OrderState)
    requires StateMessage(s) == StateMessage(t)
    ensures s == t
  {
  }

  /** The text sent to the observers on `update_status`. */
  function StatusMessage(orderId: int, s: OrderState): (m: string)
    ensures |m| > 7 && m[..6] == "Order "
  {
    "Order " + ShowInt(orderId) + ": " + StateMessage(s)
  }

  /** After "Order " come the id, the colon and the state's message. */
  lemma MessageAfterPrefix(i: int, s: OrderState)
    ensures StatusMessage(i, s)[6..] == ShowInt(i) + [':'] + (" " + StateMessage(s))
  {
  }

  /** An observer can read the order id and the state back from the
      message: different orders or states never send the same text. */
  lemma StatusMessageDetermines(i: int, s: OrderState, j: int, t: OrderState)
    requires StatusMessage(i, s) == StatusMessage(j, t)
    ensures i == j && s == t
  {
    ShowIntChars(i, ':');
    ShowIntChars(j, ':');
    MessageAfterPrefix(i, s);
    MessageAfterPrefix(j, t);
    Lists.SplitAtSeparator(ShowInt(i), " " + StateMessage(s), ShowInt(j), " " + StateMessage(t), ':');
    ShowIntInjective(i, j);
    assert StateMessage(s) == (" " + StateMessage(s))[1..];
    assert StateMessage(t) == (" " + StateMessage(t))[1..];
    StateMessageInjective(s, t);
  }

  // ------------------------------------------------------------------- order

  class Order {
    const orderId: int
    var items: seq<Pizza>
    /** Running total, in cents. */
    var total: int
    var status: OrderState
    var statusHistory: seq<string>
    const notificationSystem: ObserverPy.NotificationSystem

    ghost predicate Valid()
      reads this
    {
      statusHistory == History(status)
    }

    constructor (orderId: int)
      ensures Valid()
      ensures this.orderId == orderId && items == [] && total == 0
      ensures status == Received && statusHistory == ["ReceivedState"]
      ensures fresh(notificationSystem) && notificationSystem.observers == {}
      ensures notificationSystem.delivered == []
    {
      this.orderId := orderId;
      items := [];
      total := 0;
      status := Received;
      statusHistory := ["ReceivedState"];
      notificationSystem := new ObserverPy.NotificationSystem();
    }

    /** The `status` setter: installs s and records its name. */
    method SetStatus(s: OrderState)
      modifies this
      ensures status == s && statusHistory == old(statusHistory) + [StateName(s)]
      ensures items == old(items) && total == old(total)
    {
      status := s;
      statusHistory := statusHistory + [StateName(s)];
    }

    /** Appends the pizza and raises the total by its price. */
    method AddItem(item: Pizza)
      modifies this
      ensures items == old(items) + [item]
      ensures total == old(total) + Price(item.Value())
      ensures status == old(status) && statusHistory == old(statusHistory)
    {
      items := items + [item];
      total := total + Price(item.Value());
    }

    /** Lets the current state advance the order, then sends
        "Order {id}: {message}" once to each observer. A delivered order
        keeps its status and history. */
    method UpdateStatus()
      requires Valid()
      modifies this, notificationSystem
      ensures Valid()
      ensures status == NextState(old(status))
      ensures old(status) == Delivered ==> statusHistory == old(statusHistory)
      ensures old(status) != Delivered ==> statusHistory == old(statusHistory) + [StateName(status)]
      ensures items == old(items) && total == old(total)
      ensures notificationSystem.observers == old(notificationSystem.observers)
      ensures |notificationSystem.delivered| >= |old(notificationSystem.delivered)|
      ensures notificationSystem.delivered[..|old(notificationSystem.delivered)|] == old(notificationSystem.delivered)
      ensures OnceEach(notificationSystem.delivered[|old(notificationSystem.delivered)|..],
                       notificationSystem.observers, StatusMessage(orderId, old(status)))
    {
      var previous := status;
      if status != Delivered {
        HistoryStep(status);
        SetStatus(NextState(status));
      }
      notificationSystem.NotifyObservers(StatusMessage(orderId, previous));
    }

    method AddCustomerObserver(o: ObserverId)
      modifies notificationSystem
      ensures notificationSystem.observers == old(notificationSystem.observers) + {o}
      ensures notificationSystem.delivered == old(notificationSystem.delivered)
    {
      notificationSystem.AddObserver(ObserverPy.Single(o));
    }

    /** Raises KeyError when o is not an observer. */
    method RemoveCustomerObserver(o: ObserverId) returns (r: Outcome)
      modifies notificationSystem
      ensures r == if o in old(notificationSystem.observers) then Pass else Raise(KeyError)
      ensures notificationSystem.observers == old(notificationSystem.observers) - {o}
      ensures notificationSystem.delivered == old(notificationSystem.delivered)
    {
      r := notificationSystem.RemoveObserver(o);
    }
  }

  /** Four updates of a new order: the history lists the four states once
      each, and the fourth update changes nothing but still notifies. */
  method OrderLifecycle(order: Order)
    requires order.Valid() && order.status == Received
    modifies order, order.notificationSystem
    ensures order.status == Delivered
    ensures order.statusHistory == ["ReceivedState", "InPreparationState", "ReadyState", "DeliveredState"]
  {
    order.UpdateStatus();
    assert order.status == InPreparation;
    order.UpdateStatus();
    assert order.status == Ready;
    order.UpdateStatus();
    assert order.status == Delivered;
    order.UpdateStatus();
    FullHistory();
  }

  /** The history of a delivered order names the four states in order. */
  lemma FullHistory()
    ensures History(Delivered) == ["ReceivedState", "InPreparationState", "ReadyState", "DeliveredState"]
  {
  }

  // ----------------------------------------------------------------- cashier

  class Cashier {
    /** Booked revenue, in cents. */
    var total: int
    var orders: seq<Order>

    constructor ()
      ensures total == 0 && orders == []
    {
      total := 0;
      orders := [];
    }

    function GetOrderCount(): (n: nat)
      reads this
      ensures n == |orders|
    {
      |orders|
    }

    /** Numbers the new order after the ones already created and keeps it. */
    method CreateOrder() returns (order: Order)
      modifies this
      ensures fresh(order) && fresh(order.notificationSystem)
      ensures order.orderId == |old(orders)| + 1
      ensures order.Valid() && order.status == Received && order.items == [] && order.total == 0
      ensures order.notificationSystem.observers == {} && order.notificationSystem.delivered == []
      ensures orders == old(orders) + [order]
      ensures total == old(total)
    {
      order := new Order(|orders| + 1);
      orders := orders + [order];
    }

    /** Books the order's total only when it has been delivered. Nothing
        stops the same order from being booked twice. */
    method CompleteOrder(order: Order)
      modifies this
      ensures total == old(total) + (if order.status == Delivered then order.total else 0)
      ensures orders == old(orders)
    {
      if order.status == Delivered {
        total := total + order.total;
      }
    }
  }

  /** The class-level `_instance` slot of `Cashier.__new__`: the first
      construction creates an empty ledger and every later one returns it. */
  class CashierSingleton {
    var instance: Option<Cashier>

    constructor ()
      ensures instance == None
    {
      instance := None;
    }

    method Instance() returns (c: Cashier)
      modifies this
      ensures old(instance).Some? ==> c == old(instance).value && instance == old(instance)
      ensures old(instance).None? ==> fresh(c) && c.total == 0 && c.orders == [] && instance == Some(c)
    {
      if instance.None? {
        c := new Cashier();
        instance := Some(c);
      } else {
        c := instance.value;
      }
    }
  }
}
