/** The meal builders of Patterns/Builder.py and Typescript/Patterns/Builder.ts.
    Both keep a Meal and write its fields in place. The Python builder keeps
    one Meal for good. The TypeScript builder hands its Meal out on `build`
    and starts a new one, whose side list has no initial value. */
module Meals {
  import opened Wrappers
  import opened Lists

  datatype MainItem = Burger | Sandwich | Salad
  /** Python offers a side salad and TypeScript chips; both offer fries and
      onion rings. */
  datatype SideItem = Fries | OnionRings | SideSalad | Chips
  datatype Drink = Soda | Juice | Water
  datatype Dessert = IceCream | Pie | Cookies

  /** A meal under construction. `sides` is `None` where the list was never
      created (the TypeScript field has no initialiser). */
  class Meal {
    var mainItem: Option<MainItem>
    var sides: Option<seq<SideItem>>
    var drink: Option<Drink>
    var dessert: Option<Dessert>

    /** Python `Meal()`: nothing chosen, an empty side list. */
    constructor Python()
      ensures mainItem == None && sides == Some([]) && drink == None && dessert == None
    {
      mainItem := None;
      sides := Some([]);
      drink := None;
      dessert := None;
    }

    /** TypeScript `new Meal()`: nothing chosen, and no side list at all. */
    constructor TypeScript()
      ensures mainItem == None && sides == None && drink == None && dessert == None
    {
      mainItem := None;
      sides := None;
      drink := None;
      dessert := None;
    }

    method SetMainItem(m: MainItem)
      modifies this
      ensures mainItem == Some(m)
      ensures sides == old(sides) && drink == old(drink) && dessert == old(dessert)
    {
      mainItem := Some(m);
    }

    method SetSides(s: seq<SideItem>)
      modifies this
      ensures sides == Some(s)
      ensures mainItem == old(mainItem) && drink == old(drink) && dessert == old(dessert)
    {
      sides := Some(s);
    }

    method SetDrink(d: Drink)
      modifies this
      ensures drink == Some(d)
      ensures mainItem == old(mainItem) && sides == old(sides) && dessert == old(dessert)
    {
      drink := Some(d);
    }

    method SetDessert(d: Dessert)
      modifies this
      ensures dessert == Some(d)
      ensures mainItem == old(mainItem) && sides == old(sides) && drink == old(drink)
    {
      dessert := Some(d);
    }

    /** Appends to the side list in place; raises TypeError where there is
        no list to append to, changing nothing. */
    method PushSides(items: seq<SideItem>) returns (r: Outcome)
      modifies this
      ensures old(sides).None? ==> r == Raise(TypeError) && sides == None
      ensures old(sides).Some? ==> r == Pass && sides == Some(old(sides).value + items)
      ensures mainItem == old(mainItem) && drink == old(drink) && dessert == old(dessert)
    {
      if sides.None? {
        return Raise(TypeError);
      }
      sides := Some(sides.value + items);
      r := Pass;
    }
  }

  /** Python `MealBuilder`: one Meal for the builder's whole life. */
  class MealBuilder {
    const meal: Meal

    /** The Python meal's side list always exists. */
    predicate Valid()
      reads this, meal
    {
      meal.sides.Some?
    }

    constructor ()
      ensures fresh(meal) && Valid()
      ensures meal.mainItem == None && meal.sides == Some([]) && meal.drink == None && meal.dessert == None
    {
      meal := new Meal.Python();
    }

    method SetMainItem(m: MainItem) returns (b: MealBuilder)
      requires Valid()
      modifies meal
      ensures b == this && Valid()
      ensures meal.mainItem == Some(m)
      ensures meal.sides == old(meal.sides) && meal.drink == old(meal.drink) && meal.dessert == old(meal.dessert)
    {
      meal.SetMainItem(m);
      b := this;
    }

    /** `add_side`: a list is extended onto the sides in order, a single side
        appended once. */
    method AddSide(side: OneOrMany<SideItem>) returns (b: MealBuilder)
      requires Valid()
      modifies meal
      ensures b == this && Valid()
      ensures meal.sides == Some(old(meal.sides).value + Items(side))
      ensures meal.mainItem == old(meal.mainItem) && meal.drink == old(meal.drink) && meal.dessert == old(meal.dessert)
    {
      var r := meal.PushSides(Items(side));
      b := this;
    }

    method SetDrink(d: Drink) returns (b: MealBuilder)
      requires Valid()
      modifies meal
      ensures b == this && Valid()
      ensures meal.drink == Some(d)
      ensures meal.mainItem == old(meal.mainItem) && meal.sides == old(meal.sides) && meal.dessert == old(meal.dessert)
    {
      meal.SetDrink(d);
      b := this;
    }

    method SetDessert(d: Dessert) returns (b: MealBuilder)
      requires Valid()
      modifies meal
      ensures b == this && Valid()
      ensures meal.dessert == Some(d)
      ensures meal.mainItem == old(meal.mainItem) && meal.sides == old(meal.sides) && meal.drink == old(meal.drink)
    {
      meal.SetDessert(d);
      b := this;
    }

    /** The held meal itself, every time. */
    method Build() returns (m: Meal)
      ensures m == meal
    {
      m := meal;
    }
  }

  /** TypeScript `MealBuilder`: `build` hands out the current meal and
      replaces it with a new one. */
  class MealBuilderTs {
    var meal: Meal

    constructor ()
      ensures fresh(meal)
      ensures meal.mainItem == None && meal.sides == None && meal.drink == None && meal.dessert == None
    {
      meal := new Meal.TypeScript();
    }

    method SetMainItem(m: MainItem) returns (b: MealBuilderTs)
      modifies meal
      ensures b == this
      ensures meal.mainItem == Some(m)
      ensures meal.sides == old(meal.sides) && meal.drink == old(meal.drink) && meal.dessert == old(meal.dessert)
    {
      meal.SetMainItem(m);
      b := this;
    }

    /** `addSide`: pushes every element of an array, or the single side, onto
        the meal's side list; on a list that was never created the push
        raises TypeError and nothing changes. */
    method AddSide(side: OneOrMany<SideItem>) returns (r: Outcome)
      modifies meal
      ensures old(meal.sides).None? ==> r == Raise(TypeError) && meal.sides == None
      ensures old(meal.sides).Some? ==> r == Pass && meal.sides == Some(old(meal.sides).value + Items(side))
      ensures meal.mainItem == old(meal.mainItem) && meal.drink == old(meal.drink) && meal.dessert == old(meal.dessert)
    {
      r := meal.PushSides(Items(side));
    }

    method SetDrink(d: Drink) returns (b: MealBuilderTs)
      modifies meal
      ensures b == this
      ensures meal.drink == Some(d)
      ensures meal.mainItem == old(meal.mainItem) && meal.sides == old(meal.sides) && meal.dessert == old(meal.dessert)
    {
      meal.SetDrink(d);
      b := this;
    }

    method SetDessert(d: Dessert) returns (b: MealBuilderTs)
      modifies meal
      ensures b == this
      ensures meal.dessert == Some(d)
      ensures meal.mainItem == old(meal.mainItem) && meal.sides == old(meal.sides) && meal.drink == old(meal.drink)
    {
      meal.SetDessert(d);
      b := this;
    }

    /** The accumulated meal; the builder goes on with a new, empty one. */
    method Build() returns (m: Meal)
      modifies this
      ensures m == old(meal)
      ensures fresh(meal)
      ensures meal.mainItem == None && meal.sides == None && meal.drink == None && meal.dessert == None
    {
      m := meal;
      meal := new Meal.TypeScript();
    }
  }

  /** The Python chain: sandwich, onion rings and side salad as one list,
      juice, cookies. */
  method Demonstration() returns (m: Meal)
    ensures m.mainItem == Some(Sandwich)
    ensures m.sides == Some([OnionRings, SideSalad])
    ensures m.drink == Some(Juice) && m.dessert == Some(Cookies)
  {
    var builder := new MealBuilder();
    var b := builder.SetMainItem(Sandwich);
    b := b.AddSide(Many([OnionRings, SideSalad]));
    assert [] + [OnionRings, SideSalad] == [OnionRings, SideSalad];
    b := b.SetDrink(Juice);
    b := b.SetDessert(Cookies);
    m := b.Build();
  }

  /** In TypeScript two builds in a row give two different meals, the second
      one empty; and adding a side to a new builder's meal raises. */
  method DemonstrationTs() returns (first: Meal, second: Meal, r: Outcome)
    ensures first != second
    ensures first.mainItem == Some(Burger) && first.drink == Some(Water)
    ensures second.mainItem == None && second.drink == None
    ensures r == Raise(TypeError)
  {
    var builder := new MealBuilderTs();
    var b := builder.SetMainItem(Burger);
    b := b.SetDrink(Water);
    first := b.Build();
    second := b.Build();
    r := b.AddSide(One(Fries));
  }
}
