/** The custom-pizza builders of Questions/PizzaBuilder.py and
    Java/Questions/PizzaBuilder.java. Both hold one Pizza object from
    construction on; the setters write one of its fields and the topping
    calls grow its topping list in place, so every `build` hands out that
    same object. */
module PizzaBuilders {
  import opened Wrappers
  import opened Lists

  datatype Size = Small | Medium | Large
  datatype Crust = Thin | Thick
  datatype Sauce = Tomato | Bbq
  datatype Topping = Jalapeno | Olives | Pineapple | Mushrooms

  /** A pizza under construction: size, crust and sauce start unset
      (`None` / Java `null`), toppings start empty and keep duplicates. */
  class Pizza {
    var size: Option<Size>
    var crust: Option<Crust>
    var sauce: Option<Sauce>
    var toppings: seq<Topping>

    constructor ()
      ensures size == None && crust == None && sauce == None && toppings == []
    {
      size := None;
      crust := None;
      sauce := None;
      toppings := [];
    }

    method SetSize(s: Size)
      modifies this
      ensures size == Some(s)
      ensures crust == old(crust) && sauce == old(sauce) && toppings == old(toppings)
    {
      size := Some(s);
    }

    method SetCrust(c: Crust)
      modifies this
      ensures crust == Some(c)
      ensures size == old(size) && sauce == old(sauce) && toppings == old(toppings)
    {
      crust := Some(c);
    }

    method SetSauce(s: Sauce)
      modifies this
      ensures sauce == Some(s)
      ensures size == old(size) && crust == old(crust) && toppings == old(toppings)
    {
      sauce := Some(s);
    }

    method SetToppings(ts: seq<Topping>)
      modifies this
      ensures toppings == ts
      ensures size == old(size) && crust == old(crust) && sauce == old(sauce)
    {
      toppings := ts;
    }

    /** Java `toString`: the four fields in the fixed order size, crust,
        sauce, toppings, each under its own name. */
    function ToString(): (r: string)
      reads this
      ensures |r| > 12 && r[..11] == "Pizza(size=" && r[|r| - 1] == ')'
    {
      Text(size, crust, sauce, toppings)
    }
  }

  /** The `toString` text, built field by field: each field's label and
      name, a comma before the next field, and the closing parenthesis. */
  function Text(size: Option<Size>, crust: Option<Crust>, sauce: Option<Sauce>, toppings: seq<Topping>): string {
    "Pizza(size=" + SizeName(size) + "," + AfterSize(crust, sauce, toppings)
  }

  /** The text after the size's name and its comma. */
  function AfterSize(crust: Option<Crust>, sauce: Option<Sauce>, toppings: seq<Topping>): string {
    " crust=" + CrustName(crust) + "," + AfterCrust(sauce, toppings)
  }

  /** The text after the crust's name and its comma. */
  function AfterCrust(sauce: Option<Sauce>, toppings: seq<Topping>): string {
    " sauce=" + SauceName(sauce) + "," + AfterSauce(toppings)
  }

  /** The text after the sauce's name and its comma. */
  function AfterSauce(toppings: seq<Topping>): string {
    " toppings=" + ListText(toppings) + ")"
  }

  lemma DemonstrationList()
    ensures ListText([Jalapeno, Olives]) == "[JALAPENO, OLIVES]"
  {
    assert [Jalapeno, Olives][1..] == [Olives];
    assert Joined([Jalapeno, Olives]) == "JALAPENO, OLIVES";
  }

  lemma DemonstrationToppings()
    ensures AfterSauce([Jalapeno, Olives]) == " toppings=[JALAPENO, OLIVES])"
  {
    DemonstrationList();
  }

  lemma DemonstrationSauce()
    ensures AfterCrust(Some(Tomato), [Jalapeno, Olives]) == " sauce=TOMATO," + " toppings=[JALAPENO, OLIVES])"
  {
    DemonstrationToppings();
    assert SauceName(Some(Tomato)) == "TOMATO";
  }

  lemma DemonstrationCrust()
    ensures AfterSize(Some(Thin), Some(Tomato), [Jalapeno, Olives]) == " crust=THIN," + " sauce=TOMATO," + " toppings=[JALAPENO, OLIVES])"
  {
    DemonstrationSauce();
    assert CrustName(Some(Thin)) == "THIN";
  }

  /** Java's enum constant names, with `null` for an unset field. */
  function SizeName(s: Option<Size>): string {
    match s
    case None => "null"
    case Some(Small) => "SMALL"
    case Some(Medium) => "MEDIUM"
    case Some(Large) => "LARGE"
  }

  function CrustName(c: Option<Crust>): string {
    match c
    case None => "null"
    case Some(Thin) => "THIN"
    case Some(Thick) => "THICK"
  }

  function SauceName(s: Option<Sauce>): string {
    match s
    case None => "null"
    case Some(Tomato) => "TOMATO"
    case Some(Bbq) => "BBQ"
  }

  function ToppingName(t: Topping): string {
    match t
    case Jalapeno => "JALAPENO"
    case Olives => "OLIVES"
    case Pineapple => "PINEAPPLE"
    case Mushrooms => "MUSHROOMS"
  }

  /** The names joined by ", ". */
  function Joined(ts: seq<Topping>): string {
    if |ts| == 0 then ""
    else if |ts| == 1 then ToppingName(ts[0])
    else ToppingName(ts[0]) + ", " + Joined(ts[1..])
  }

  /** Java's `List.toString`: the elements in order inside brackets. */
  function ListText(ts: seq<Topping>): string {
    "[" + Joined(ts) + "]"
  }

  // ------------------------------------------- reading the text back

  /** No rendered name holds a comma, and each names one value only. */
  lemma NamesDistinct(a: Option<Size>, b: Option<Size>, c: Option<Crust>, d: Option<Crust>,
                      e: Option<Sauce>, f: Option<Sauce>, t: Topping, u: Topping)
    ensures ',' !in SizeName(a) && ',' !in CrustName(c) && ',' !in SauceName(e) && ',' !in ToppingName(t)
    ensures SizeName(a) == SizeName(b) ==> a == b
    ensures CrustName(c) == CrustName(d) ==> c == d
    ensures SauceName(e) == SauceName(f) ==> e == f
    ensures ToppingName(t) == ToppingName(u) ==> t == u
  {
    SizeNamesDistinct(a, b);
    CrustNamesDistinct(c, d);
    SauceNamesDistinct(e, f);
    ToppingNamesDistinct(t, u);
  }

  lemma SizeNamesDistinct(a: Option<Size>, b: Option<Size>)
    ensures ',' !in SizeName(a) && (SizeName(a) == SizeName(b) ==> a == b)
  {
  }

  lemma CrustNamesDistinct(c: Option<Crust>, d: Option<Crust>)
    ensures ',' !in CrustName(c) && (CrustName(c) == CrustName(d) ==> c == d)
  {
  }

  lemma SauceNamesDistinct(e: Option<Sauce>, f: Option<Sauce>)
    ensures ',' !in SauceName(e) && (SauceName(e) == SauceName(f) ==> e == f)
  {
  }

  lemma ToppingNamesDistinct(t: Topping, u: Topping)
    ensures ',' !in ToppingName(t) && (ToppingName(t) == ToppingName(u) ==> t == u)
  {
  }

  /** A joined list is empty exactly when the list is, and holds a comma
      exactly when the list has two or more elements. */
  lemma JoinedShape(ts: seq<Topping>)
    ensures |Joined(ts)| == 0 <==> |ts| == 0
    ensures ',' in Joined(ts) <==> |ts| > 1
  {
    NamesDistinct(None, None, None, None, None, None, if |ts| > 0 then ts[0] else Olives, Olives);
    if |ts| > 1 {
      assert Joined(ts)[|ToppingName(ts[0])|] == ',';
    }
  }

  lemma JoinedCons(ts: seq<Topping>)
    requires |ts| > 1
    ensures Joined(ts) == ToppingName(ts[0]) + [','] + (" " + Joined(ts[1..]))
  {
  }

  /** Different topping lists are joined into different texts. */
  lemma {:induction false} JoinedInjective(a: seq<Topping>, b: seq<Topping>)
    requires Joined(a) == Joined(b)
    ensures a == b
  {
    JoinedShape(a);
    JoinedShape(b);
    if |a| == 1 {
      NamesDistinct(None, None, None, None, None, None, a[0], b[0]);
    } else if |a| > 1 {
      NamesDistinct(None, None, None, None, None, None, a[0], b[0]);
      NamesDistinct(None, None, None, None, None, None, b[0], a[0]);
      JoinedCons(a);
      JoinedCons(b);
      Lists.SplitAtSeparator(ToppingName(a[0]), " " + Joined(a[1..]), ToppingName(b[0]), " " + Joined(b[1..]), ',');
      assert Joined(a[1..]) == (" " + Joined(a[1..]))[1..];
      assert Joined(b[1..]) == (" " + Joined(b[1..]))[1..];
      JoinedInjective(a[1..], b[1..]);
      assert a == [a[0]] + a[1..] && b == [b[0]] + b[1..];
    }
  }

  /** Dropping a label from label + name + "," + rest leaves the name, the
      comma and the rest. */
  lemma AfterLabel(whole: string, tag: string, name: string, rest: string)
    requires whole == tag + name + [','] + rest
    ensures whole[|tag|..] == name + [','] + rest
  {
    assert whole == tag + (name + [','] + rest);
  }

  lemma TextAtSize(size: Option<Size>, crust: Option<Crust>, sauce: Option<Sauce>, toppings: seq<Topping>)
    ensures Text(size, crust, sauce, toppings)[11..] == SizeName(size) + [','] + AfterSize(crust, sauce, toppings)
  {
    AfterLabel(Text(size, crust, sauce, toppings), "Pizza(size=", SizeName(size), AfterSize(crust, sauce, toppings));
  }

  lemma TextAtCrust(crust: Option<Crust>, sauce: Option<Sauce>, toppings: seq<Topping>)
    ensures AfterSize(crust, sauce, toppings)[7..] == CrustName(crust) + [','] + AfterCrust(sauce, toppings)
  {
    AfterLabel(AfterSize(crust, sauce, toppings), " crust=", CrustName(crust), AfterCrust(sauce, toppings));
  }

  lemma TextAtSauce(sauce: Option<Sauce>, toppings: seq<Topping>)
    ensures AfterCrust(sauce, toppings)[7..] == SauceName(sauce) + [','] + AfterSauce(toppings)
  {
    AfterLabel(AfterCrust(sauce, toppings), " sauce=", SauceName(sauce), AfterSauce(toppings));
  }

  lemma TextAtToppings(toppings: seq<Topping>)
    ensures |AfterSauce(toppings)| >= 13
    ensures AfterSauce(toppings)[11..|AfterSauce(toppings)| - 2] == Joined(toppings)
  {
  }

  /** `toString` loses nothing: two pizzas with the same text have the same
      size, crust, sauce and toppings, in the same order. */
  lemma TextDeterminesFields(size: Option<Size>, crust: Option<Crust>, sauce: Option<Sauce>, toppings: seq<Topping>,
                             size': Option<Size>, crust': Option<Crust>, sauce': Option<Sauce>, toppings': seq<Topping>)
    requires Text(size, crust, sauce, toppings) == Text(size', crust', sauce', toppings')
    ensures size == size' && crust == crust' && sauce == sauce' && toppings == toppings'
  {
    NamesDistinct(size, size', crust, crust', sauce, sauce', Olives, Olives);
    NamesDistinct(size', size, crust', crust, sauce', sauce, Olives, Olives);
    TextAtSize(size, crust, sauce, toppings);
    TextAtSize(size', crust', sauce', toppings');
    Lists.SplitAtSeparator(SizeName(size), AfterSize(crust, sauce, toppings), SizeName(size'), AfterSize(crust', sauce', toppings'), ',');
    TextAtCrust(crust, sauce, toppings);
    TextAtCrust(crust', sauce', toppings');
    Lists.SplitAtSeparator(CrustName(crust), AfterCrust(sauce, toppings), CrustName(crust'), AfterCrust(sauce', toppings'), ',');
    TextAtSauce(sauce, toppings);
    TextAtSauce(sauce', toppings');
    Lists.SplitAtSeparator(SauceName(sauce), AfterSauce(toppings), SauceName(sauce'), AfterSauce(toppings'), ',');
    TextAtToppings(toppings);
    TextAtToppings(toppings');
    JoinedInjective(toppings, toppings');
  }

  class PizzaBuilder {
    /** The one pizza this builder ever works on. */
    const pizza: Pizza

    constructor ()
      ensures fresh(pizza)
      ensures pizza.size == None && pizza.crust == None && pizza.sauce == None && pizza.toppings == []
    {
      pizza := new Pizza();
    }

    method SetSize(s: Size) returns (b: PizzaBuilder)
      modifies pizza
      ensures b == this
      ensures pizza.size == Some(s)
      ensures pizza.crust == old(pizza.crust) && pizza.sauce == old(pizza.sauce)
      ensures pizza.toppings == old(pizza.toppings)
    {
      pizza.SetSize(s);
      b := this;
    }

    method SetCrust(c: Crust) returns (b: PizzaBuilder)
      modifies pizza
      ensures b == this
      ensures pizza.crust == Some(c)
      ensures pizza.size == old(pizza.size) && pizza.sauce == old(pizza.sauce)
      ensures pizza.toppings == old(pizza.toppings)
    {
      pizza.SetCrust(c);
      b := this;
    }

    method SetSauce(s: Sauce) returns (b: PizzaBuilder)
      modifies pizza
      ensures b == this
      ensures pizza.sauce == Some(s)
      ensures pizza.size == old(pizza.size) && pizza.crust == old(pizza.crust)
      ensures pizza.toppings == old(pizza.toppings)
    {
      pizza.SetSauce(s);
      b := this;
    }

    /** Java `addTopping`: one more topping at the end. */
    method AddTopping(t: Topping) returns (b: PizzaBuilder)
      modifies pizza
      ensures b == this
      ensures pizza.toppings == old(pizza.toppings) + [t]
      ensures pizza.size == old(pizza.size) && pizza.crust == old(pizza.crust)
      ensures pizza.sauce == old(pizza.sauce)
    {
      pizza.SetToppings(pizza.toppings + [t]);
      b := this;
    }

    /** Java `addToppings`: all of the given toppings at the end, in order. */
    method AddToppings(ts: seq<Topping>) returns (b: PizzaBuilder)
      modifies pizza
      ensures b == this
      ensures pizza.toppings == old(pizza.toppings) + ts
      ensures pizza.size == old(pizza.size) && pizza.crust == old(pizza.crust)
      ensures pizza.sauce == old(pizza.sauce)
    {
      pizza.SetToppings(pizza.toppings + ts);
      b := this;
    }

    /** Python `add_topping`: a list is extended onto the toppings, any
        other value appended once. */
    method AddToppingOrList(arg: OneOrMany<Topping>) returns (b: PizzaBuilder)
      modifies pizza
      ensures b == this
      ensures pizza.toppings == old(pizza.toppings) + Items(arg)
      ensures pizza.size == old(pizza.size) && pizza.crust == old(pizza.crust)
      ensures pizza.sauce == old(pizza.sauce)
    {
      match arg
      case One(t) => b := AddTopping(t);
      case Many(ts) => b := AddToppings(ts);
    }

    /** The held pizza itself, not a copy. */
    method Build() returns (p: Pizza)
      ensures p == pizza
    {
      p := pizza;
    }
  }

  /** The chain both programs run: large, thin, tomato, then jalapeno and
      olives added as one list; Java prints the result as
      `Pizza(size=LARGE, crust=THIN, sauce=TOMATO, toppings=[JALAPENO, OLIVES])`. */
  method Demonstration() returns (p: Pizza)
    ensures p.size == Some(Large) && p.crust == Some(Thin) && p.sauce == Some(Tomato)
    ensures p.toppings == [Jalapeno, Olives]
    ensures p.ToString() == "Pizza(size=LARGE," + " crust=THIN," + " sauce=TOMATO," + " toppings=[JALAPENO, OLIVES])"
  {
    var builder := new PizzaBuilder();
    var b := builder.SetSize(Large);
    b := b.SetCrust(Thin);
    b := b.SetSauce(Tomato);
    b := b.AddToppingOrList(Many([Jalapeno, Olives]));
    p := b.Build();
    DemonstrationText();
  }

  lemma DemonstrationText()
    ensures Text(Some(Large), Some(Thin), Some(Tomato), [Jalapeno, Olives])
         == "Pizza(size=LARGE," + " crust=THIN," + " sauce=TOMATO," + " toppings=[JALAPENO, OLIVES])"
  {
    DemonstrationCrust();
    assert "Pizza(size=" + SizeName(Some(Large)) + "," == "Pizza(size=LARGE,";
    Lists.AppendAssociative("Pizza(size=LARGE,", " crust=THIN," + " sauce=TOMATO,", " toppings=[JALAPENO, OLIVES])");
    Lists.AppendAssociative("Pizza(size=LARGE,", " crust=THIN,", " sauce=TOMATO,");
  }

  /** Building does not end the builder's hold on the pizza: a topping added
      after `build` shows up in the pizza built before, because both builds
      return the same object. */
  method BuildAliasing() returns (first: Pizza, second: Pizza)
    ensures first == second
    ensures first.toppings == [Mushrooms, Mushrooms]
  {
    var builder := new PizzaBuilder();
    var b := builder.AddTopping(Mushrooms);
    first := b.Build();
    b := b.AddToppingOrList(One(Mushrooms));
    second := b.Build();
  }
}
