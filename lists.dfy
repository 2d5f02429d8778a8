/** Removal of the first equal element, as Python's `list.remove` and Java's
    `List.remove(Object)` do. */
module Lists {

  /** The index of the first occurrence of x in s. */
  function IndexOf<T(==)>(s: seq<T>, x: T): (i: nat)
    requires x in s
    ensures i < |s| && s[i] == x && x !in s[..i]
  {
    if s[0] == x then 0 else 1 + IndexOf(s[1..], x)
  }

  /** s without its first occurrence of x; s itself when x does not occur.
      Everything before that occurrence stays in place and everything after it
      moves up by one. */
  function RemoveFirst<T(==)>(s: seq<T>, x: T): (r: seq<T>)
    ensures x !in s ==> r == s
    ensures x in s ==> |r| == |s| - 1
    ensures x in s ==> forall k :: 0 <= k < IndexOf(s, x) ==> r[k] == s[k]
    ensures x in s ==> forall k :: IndexOf(s, x) <= k < |r| ==> r[k] == s[k + 1]
    ensures multiset(r) == multiset(s) - multiset{x}
  {
    if x !in s then s
    else
      var i := IndexOf(s, x);
      assert s == s[..i] + [x] + s[i + 1..];
      s[..i] + s[i + 1..]
  }

  /** An argument that is either a single element or a list of them, as the
      builders' `add_topping` / `add_side` / `addSide` accept. */
  datatype OneOrMany<T> = One(item: T) | Many(items: seq<T>)

  /** The elements such an argument contributes, in order. */
  function Items<T>(arg: OneOrMany<T>): seq<T> {
    match arg
    case One(x) => [x]
    case Many(xs) => xs
  }

  /** Dropping the element at j takes one copy of it out of the multiset. */
  lemma RemoveAt<T>(s: seq<T>, j: nat)
    requires j < |s|
    ensures multiset(s[..j] + s[j + 1..]) == multiset(s) - multiset{s[j]}
  {
    assert s == s[..j] + [s[j]] + s[j + 1..];
  }

  /** An element of the multiset of s has a position in s. */
  lemma FindIndex<T>(s: seq<T>, x: T) returns (j: nat)
    requires x in multiset(s)
    ensures j < |s| && s[j] == x
  {
    j :| j < |s| && s[j] == x;
  }

  lemma AppendAssociative<T>(a: seq<T>, b: seq<T>, c: seq<T>)
    ensures (a + b) + c == a + (b + c)
  {
  }

  /** A separator that occurs in neither head splits a joined sequence at one
      place only: the heads before it and the tails after it agree. */
  lemma SplitAtSeparator<T>(a: seq<T>, x: seq<T>, b: seq<T>, y: seq<T>, sep: T)
    requires sep !in a && sep !in b
    requires a + [sep] + x == b + [sep] + y
    ensures a == b && x == y
  {
    var m := a + [sep] + x;
    assert forall k :: 0 <= k < |a| ==> m[k] != sep;
    assert forall k :: 0 <= k < |b| ==> m[k] != sep;
    assert m[|a|] == sep && m[|b|] == sep;
    assert a == m[..|a|] == b;
    assert x == m[|a| + 1..] == y;
  }
}
