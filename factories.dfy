/** The factory exercises: the theme-park attraction factories of
    Patterns/Factory.py, Java/Patterns/Main.java and
    Typescript/Patterns/Factory.ts, the shape factory of
    Java/Patterns/Factory.java and the pizza factory of
    Typescript/Patterns/Factory.ts. Each factory is a dispatch on a name;
    an object's behaviour is determined by which class was chosen, so the
    products are modelled as the choice itself. */
module Factories {
  import opened Wrappers
  import opened Text

  datatype Attraction = RollerCoaster | HauntedHouse | WaterSlide

  /** The name each factory matches for an attraction (also the string
      values of the TypeScript `AttractionType` enum). */
  function Name(a: Attraction): string {
    match a
    case RollerCoaster => "rollercoaster"
    case HauntedHouse => "hauntedhouse"
    case WaterSlide => "waterslide"
  }

  /** The requirement keys of each attraction. */
  function Keys(a: Attraction): set<string> {
    match a
    case RollerCoaster => {"height", "health"}
    case HauntedHouse => {"age", "warning"}
    case WaterSlide => {"swimming", "lockers"}
  }

  /** `get_requirements` / `getRequirements` in Python and Java: a fresh map
      with exactly two fixed entries. */
  function Requirements(a: Attraction): (r: map<string, string>)
    ensures r.Keys == Keys(a) && |r| == 2
  {
    match a
    case RollerCoaster =>
      map["height" := "Must be at least 48 inches tall",
          "health" := "No heart conditions or recent surgeries"]
    case HauntedHouse =>
      map["age" := "Must be at least 12 years old",
          "warning" := "Not recommended for individuals with heart conditions"]
    case WaterSlide =>
      map["swimming" := "Must be able to swim",
          "lockers" := "Locker rental available for personal items"]
  }

  /** No two attractions share a requirement key. */
  lemma KeysDisjoint(a: Attraction, b: Attraction)
    requires a != b
    ensures Keys(a) !! Keys(b)
  {
  }

  /** Python `create_attraction`: exact, case-sensitive match, ValueError
      otherwise. */
  function CreateAttraction(kind: string): (r: Result<Attraction>)
    ensures r.Ok? <==> kind in {"rollercoaster", "hauntedhouse", "waterslide"}
    ensures r.Ok? ==> Name(r.value) == kind
    ensures r.Err? ==> r.error == ValueError
  {
    if kind == "rollercoaster" then Ok(RollerCoaster)
    else if kind == "hauntedhouse" then Ok(HauntedHouse)
    else if kind == "waterslide" then Ok(WaterSlide)
    else Err(ValueError)
  }

  /** Every attraction is created from its own name, and only from it. */
  lemma CreateAttractionRoundTrip(a: Attraction, kind: string)
    ensures CreateAttraction(Name(a)) == Ok(a)
    ensures CreateAttraction(kind) == Ok(a) ==> kind == Name(a)
  {
  }

  /** Java `createAttraction`: the name is lower-cased first, so a null
      name fails with NullPointerException; unknown names throw
      IllegalArgumentException. */
  function CreateAttractionJava(kind: Option<string>): (r: Result<Attraction>)
    ensures kind.None? ==> r == Err(NullPointer)
    ensures kind.Some? ==> (r.Ok? <==> Lower(kind.value) in {"rollercoaster", "hauntedhouse", "waterslide"})
    ensures kind.Some? && r.Ok? ==> Name(r.value) == Lower(kind.value)
    ensures kind.Some? && r.Err? ==> r.error == IllegalArgument
  {
    match kind
    case None => Err(NullPointer)
    case Some(k) =>
      var lower := Lower(k);
      if lower == "rollercoaster" then Ok(RollerCoaster)
      else if lower == "hauntedhouse" then Ok(HauntedHouse)
      else if lower == "waterslide" then Ok(WaterSlide)
      else Err(IllegalArgument)
  }

  /** The Java factory does not see letter case, and on a name with no
      upper-case letters it picks what the Python factory picks. */
  lemma AttractionFactoriesAgree(kind: string)
    ensures CreateAttractionJava(Some(kind)) == CreateAttractionJava(Some(Lower(kind)))
    ensures CreateAttractionJava(Some(kind)).Ok? <==> CreateAttraction(Lower(kind)).Ok?
    ensures CreateAttraction(Lower(kind)).Ok? ==> CreateAttractionJava(Some(kind)) == CreateAttraction(Lower(kind))
  {
    LowerIdempotent(kind);
  }

  /** A name that differs from an attraction's name only in letter case,
      such as "WaterSlide": accepted by Java, rejected by Python. */
  lemma CapitalisedName(kind: string, a: Attraction)
    requires Lower(kind) == Name(a) && kind != Name(a)
    ensures CreateAttractionJava(Some(kind)) == Ok(a)
    ensures CreateAttraction(kind) == Err(ValueError)
  {
    forall b: Attraction
      ensures Lower(Name(b)) == Name(b)
    {
      NameLowerCase(b);
    }
    AttractionFactoriesAgree(kind);
    CreateAttractionRoundTrip(a, kind);
    assert kind != Name(RollerCoaster) && kind != Name(HauntedHouse) && kind != Name(WaterSlide);
  }

  /** The attraction names are already lower case. */
  lemma NameLowerCase(a: Attraction)
    ensures Lower(Name(a)) == Name(a)
  {
    var n := Name(a);
    assert forall i :: 0 <= i < |n| ==> !IsUpper(n[i]);
    LowerKeeps(n);
  }

  /** TypeScript `AttractionType`; its string values are the attraction names. */
  datatype AttractionType = ROLLERCOASTER | HAUNTEDHOUSE | WATERSLIDE

  /** TypeScript `AttractionFactory.create`: every enum member has its class. */
  function Create(t: AttractionType): (a: Attraction)
    ensures CreateAttraction(TypeValue(t)) == Ok(a)
  {
    match t
    case ROLLERCOASTER => RollerCoaster
    case HAUNTEDHOUSE => HauntedHouse
    case WATERSLIDE => WaterSlide
  }

  function TypeValue(t: AttractionType): string {
    match t
    case ROLLERCOASTER => "rollercoaster"
    case HAUNTEDHOUSE => "hauntedhouse"
    case WATERSLIDE => "waterslide"
  }

  /** TypeScript `getRequirements`: a single number per attraction. */
  function RequirementNumber(a: Attraction): (n: nat)
    ensures n in {20, 50, 75}
  {
    match a
    case RollerCoaster => 20
    case HauntedHouse => 50
    case WaterSlide => 75
  }

  /** The TypeScript factory is one-to-one, and the number tells the
      attractions apart. */
  lemma CreateInjective(t: AttractionType, u: AttractionType)
    ensures Create(t) == Create(u) <==> t == u
    ensures RequirementNumber(Create(t)) == RequirementNumber(Create(u)) <==> t == u
  {
  }

  datatype Shape = Circle | Triangle | Rectangle | Square

  /** Java `ShapeFactory.getShape`: null in, null out; otherwise the
      lower-cased name picks circle, square or rectangle, and every other
      name, "triangle" included, throws IllegalArgumentException. */
  function GetShape(shapeType: Option<string>): (r: Result<Option<Shape>>)
    ensures shapeType.None? <==> r == Ok(None)
    ensures shapeType.Some? ==> (r.Ok? <==> Lower(shapeType.value) in {"circle", "square", "rectangle"})
    ensures shapeType.Some? && r.Err? ==> r.error == IllegalArgument
    ensures r != Ok(Some(Triangle))
  {
    match shapeType
    case None => Ok(None)
    case Some(s) =>
      var lower := Lower(s);
      if lower == "circle" then Ok(Some(Circle))
      else if lower == "square" then Ok(Some(Square))
      else if lower == "rectangle" then Ok(Some(Rectangle))
      else Err(IllegalArgument)
  }

  /** The Triangle class exists but no name reaches it. */
  lemma TriangleUnreachable(s: Option<string>)
    ensures GetShape(Some("triangle")) == Err(IllegalArgument)
    ensures GetShape(s).Ok? && GetShape(s).value.Some? ==> GetShape(s).value.value in {Circle, Square, Rectangle}
  {
    LowerKeeps("triangle");
  }

  /** The shape factory does not see letter case. */
  lemma GetShapeCaseInsensitive(s: string)
    ensures GetShape(Some(s)) == GetShape(Some(Lower(s)))
  {
    LowerIdempotent(s);
  }

  /** The TypeScript pizza kinds and the steps `orderPizza` runs on them. */
  datatype PizzaKind = Margherita | Pepperoni
  datatype Step = Prepare | Bake | Cut | Box

  /** NewYork `build`: exact, case-sensitive names; anything else throws. */
  function BuildNewYork(kind: string): (r: Result<PizzaKind>)
    ensures r.Ok? <==> kind in {"margherita", "pepperoni"}
    ensures r.Err? ==> r.error == UnknownPizza
  {
    if kind == "margherita" then Ok(Margherita)
    else if kind == "pepperoni" then Ok(Pepperoni)
    else Err(UnknownPizza)
  }

  /** The outcome of `orderPizza` with the steps it ran, in order. */
  datatype Ordered = Ordered(pizza: Result<PizzaKind>, steps: seq<(PizzaKind, Step)>)

  /** `orderPizza`: build, then prepare, bake, cut and box the built pizza
      once each in that order; a failed build throws before any step. */
  function OrderPizza(kind: string): (r: Ordered)
    ensures r.pizza == BuildNewYork(kind)
    ensures r.pizza.Ok? ==> |r.steps| == 4 && forall i :: 0 <= i < 4 ==> r.steps[i].0 == r.pizza.value
    ensures r.pizza.Ok? ==> StepsOf(r.steps) == [Prepare, Bake, Cut, Box]
    ensures r.pizza.Ok? ==> multiset(StepsOf(r.steps)) == multiset{Prepare, Bake, Cut, Box}
    ensures r.pizza.Err? ==> r.steps == []
  {
    match BuildNewYork(kind)
    case Err(e) => Ordered(Err(e), [])
    case Ok(p) => Ordered(Ok(p), [(p, Prepare), (p, Bake), (p, Cut), (p, Box)])
  }

  /** The step of each (pizza, step) record, in order. */
  function StepsOf(steps: seq<(PizzaKind, Step)>): (r: seq<Step>)
    ensures |r| == |steps| && forall i :: 0 <= i < |steps| ==> r[i] == steps[i].1
  {
    seq(|steps|, i requires 0 <= i < |steps| => steps[i].1)
  }
}
