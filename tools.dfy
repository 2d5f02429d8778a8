/** The enchanted tools of Patterns/Decorators.py and
    Java/Patterns/Decorators.java, which behave alike: a base tool with fixed
    damage, durability and speed, wrapped in decorators that each add their
    value to one stat and one suffix to the description. A tool is a value:
    every field of the source classes is final and each query only delegates
    to the wrapped tool. */
module Tools {
  import Lists

  datatype Tool =
    | Sword
    | Bow
    | Hammer
    | Plain(tool: Tool)                                   // the bare ToolDecorator
    | Sharpness(tool: Tool, sharpnessValue: real)
    | Durability(tool: Tool, durabilityValue: real)
    | SpeedBoost(tool: Tool, speedValue: real)

  /** The Python decorators' default values; the Java constructors have none. */
  const DefaultSharpness: real := 5.0
  const DefaultDurability: real := 10.0
  const DefaultSpeed: real := 10.0

  predicate IsBase(t: Tool) {
    t.Sword? || t.Bow? || t.Hammer?
  }

  function Damage(t: Tool): real {
    match t
    case Sword => 50.0
    case Bow => 30.0
    case Hammer => 40.0
    case Plain(inner) => Damage(inner)
    case Sharpness(inner, v) => v + Damage(inner)
    case Durability(inner, _) => Damage(inner)
    case SpeedBoost(inner, _) => Damage(inner)
  }

  function DurabilityOf(t: Tool): real {
    match t
    case Sword => 25.0
    case Bow => 15.0
    case Hammer => 50.0
    case Plain(inner) => DurabilityOf(inner)
    case Sharpness(inner, _) => DurabilityOf(inner)
    case Durability(inner, v) => v + DurabilityOf(inner)
    case SpeedBoost(inner, _) => DurabilityOf(inner)
  }

  function Speed(t: Tool): real {
    match t
    case Sword => 40.0
    case Bow => 10.0
    case Hammer => 10.0
    case Plain(inner) => Speed(inner)
    case Sharpness(inner, _) => Speed(inner)
    case Durability(inner, _) => Speed(inner)
    case SpeedBoost(inner, v) => v + Speed(inner)
  }

  /** A description with its numbers kept as numbers: the base tool's name,
      then one suffix per enchantment, innermost first. Rendering the values
      as text ("+7.0") is float formatting and is not modelled. */
  datatype DescPart =
    | Name(name: string)
    | WithSharpness(damage: real)
    | WithDurability(amount: real)
    | WithSpeedBoost(speed: real)

  function Description(t: Tool): (d: seq<DescPart>)
    ensures |d| > 0 && d[0].Name?
  {
    match t
    case Sword => [Name("Sword")]
    case Bow => [Name("Bow")]
    case Hammer => [Name("Hammer")]
    case Plain(inner) => Description(inner)
    case Sharpness(inner, v) => Description(inner) + [WithSharpness(v)]
    case Durability(inner, v) => Description(inner) + [WithDurability(v)]
    case SpeedBoost(inner, v) => Description(inner) + [WithSpeedBoost(v)]
  }

  // ----------------------------------------------------- stacks of layers

  datatype Layer = PlainLayer | SharpnessLayer(v: real) | DurabilityLayer(v: real) | SpeedLayer(v: real)

  datatype Stat = DamageStat | DurabilityStat | SpeedStat

  /** The tool at the bottom of the stack. */
  function BaseOf(t: Tool): (b: Tool)
    ensures IsBase(b)
  {
    if IsBase(t) then t else BaseOf(t.tool)
  }

  /** The decorators of t, innermost first. */
  function Layers(t: Tool): (ls: seq<Layer>)
    ensures |ls| == 0 <==> IsBase(t)
  {
    match t
    case Sword => []
    case Bow => []
    case Hammer => []
    case Plain(inner) => Layers(inner) + [PlainLayer]
    case Sharpness(inner, v) => Layers(inner) + [SharpnessLayer(v)]
    case Durability(inner, v) => Layers(inner) + [DurabilityLayer(v)]
    case SpeedBoost(inner, v) => Layers(inner) + [SpeedLayer(v)]
  }

  function StatOf(t: Tool, s: Stat): real {
    match s
    case DamageStat => Damage(t)
    case DurabilityStat => DurabilityOf(t)
    case SpeedStat => Speed(t)
  }

  /** What one layer adds to a stat: its value for its own stat, else 0. */
  function Contribution(l: Layer, s: Stat): real {
    match (l, s)
    case (SharpnessLayer(v), DamageStat) => v
    case (DurabilityLayer(v), DurabilityStat) => v
    case (SpeedLayer(v), SpeedStat) => v
    case _ => 0.0
  }

  function Sum(ls: seq<Layer>, s: Stat): real {
    if ls == [] then 0.0 else Sum(ls[..|ls| - 1], s) + Contribution(ls[|ls| - 1], s)
  }

  /** Each decorator delegates to the tool it wraps and adds its value to
      its own stat only; the bare decorator adds nothing. */
  lemma DecoratorTouchesOwnStat(t: Tool, s: Stat)
    requires !IsBase(t)
    ensures StatOf(t, s) == StatOf(t.tool, s) + Contribution(Layers(t)[|Layers(t)| - 1], s)
    ensures Layers(t)[|Layers(t)| - 1].PlainLayer? ==> StatOf(t, s) == StatOf(t.tool, s)
  {
  }

  /** Every stat is the base tool's stat plus the values of the layers that
      touch it. */
  lemma {:induction false} StatIsBasePlusLayers(t: Tool, s: Stat)
    ensures StatOf(t, s) == StatOf(BaseOf(t), s) + Sum(Layers(t), s)
  {
    if !IsBase(t) {
      StatIsBasePlusLayers(t.tool, s);
      var ls := Layers(t);
      assert ls[..|ls| - 1] == Layers(t.tool);
    }
  }

  lemma SumSnoc(ls: seq<Layer>, l: Layer, s: Stat)
    ensures Sum(ls + [l], s) == Sum(ls, s) + Contribution(l, s)
  {
    assert (ls + [l])[..|ls|] == ls;
  }

  /** Taking one layer out of a stack removes exactly its contribution. */
  lemma {:induction false} SumRemove(ls: seq<Layer>, j: nat, s: Stat)
    requires j < |ls|
    ensures Sum(ls, s) == Sum(ls[..j] + ls[j + 1..], s) + Contribution(ls[j], s)
  {
    var n := |ls| - 1;
    var front := ls[..n];
    assert ls == front + [ls[n]];
    SumSnoc(front, ls[n], s);
    if j == n {
      assert ls[..j] + ls[j + 1..] == front;
    } else {
      SumRemove(front, j, s);
      assert ls[..j] == front[..j];
      assert ls[j + 1..] == front[j + 1..] + [ls[n]];
      Lists.AppendAssociative(front[..j], front[j + 1..], [ls[n]]);
      SumSnoc(front[..j] + front[j + 1..], ls[n], s);
    }
  }

  /** The layer sum only depends on which layers there are, not their order. */
  lemma {:induction false} SumPermutation(a: seq<Layer>, b: seq<Layer>, s: Stat)
    requires multiset(a) == multiset(b)
    ensures Sum(a, s) == Sum(b, s)
  {
    if a == [] {
      assert |b| == |multiset(b)| == 0;
    } else {
      var n := |a| - 1;
      var x := a[n];
      Lists.RemoveAt(a, n);
      assert a[..n] + a[n + 1..] == a[..n];
      var j := Lists.FindIndex(b, x);
      Lists.RemoveAt(b, j);
      SumPermutation(a[..n], b[..j] + b[j + 1..], s);
      SumRemove(a, n, s);
      SumRemove(b, j, s);
    }
  }

  /** Two stacks on the same base with the same enchantments, in whatever
      order, have the same stats. */
  lemma WrappingOrderIrrelevant(a: Tool, b: Tool, s: Stat)
    requires BaseOf(a) == BaseOf(b) && multiset(Layers(a)) == multiset(Layers(b))
    ensures StatOf(a, s) == StatOf(b, s)
  {
    StatIsBasePlusLayers(a, s);
    StatIsBasePlusLayers(b, s);
    SumPermutation(Layers(a), Layers(b), s);
  }

  /** The description part a layer appends; the bare decorator adds none. */
  function Suffix(l: Layer): seq<DescPart> {
    match l
    case PlainLayer => []
    case SharpnessLayer(v) => [WithSharpness(v)]
    case DurabilityLayer(v) => [WithDurability(v)]
    case SpeedLayer(v) => [WithSpeedBoost(v)]
  }

  function Suffixes(ls: seq<Layer>): seq<DescPart> {
    if ls == [] then [] else Suffixes(ls[..|ls| - 1]) + Suffix(ls[|ls| - 1])
  }

  lemma SuffixesSnoc(ls: seq<Layer>, l: Layer)
    ensures Suffixes(ls + [l]) == Suffixes(ls) + Suffix(l)
  {
    assert (ls + [l])[..|ls|] == ls;
  }

  /** The description is the base name followed by one suffix per
      enchantment, innermost first; the base name is always first. */
  lemma {:induction false} DescriptionIsBasePlusLayers(t: Tool)
    ensures Description(t) == Description(BaseOf(t)) + Suffixes(Layers(t))
  {
    if !IsBase(t) {
      var ls := Layers(t);
      var l := ls[|ls| - 1];
      DescriptionIsBasePlusLayers(t.tool);
      SuffixesSnoc(Layers(t.tool), l);
      assert Description(t) == Description(t.tool) + Suffix(l);
    }
  }

  /** Both programs' demonstration: a sword with sharpness 7, durability 12
      and a speed boost of 15. */
  lemma FullyEnchantedSword()
    ensures Damage(SpeedBoost(Durability(Sharpness(Sword, 7.0), 12.0), 15.0)) == 57.0
    ensures DurabilityOf(SpeedBoost(Durability(Sharpness(Sword, 7.0), 12.0), 15.0)) == 37.0
    ensures Speed(SpeedBoost(Durability(Sharpness(Sword, 7.0), 12.0), 15.0)) == 55.0
    ensures Description(SpeedBoost(Durability(Sharpness(Sword, 7.0), 12.0), 15.0))
         == [Name("Sword"), WithSharpness(7.0), WithDurability(12.0), WithSpeedBoost(15.0)]
  {
  }
}
