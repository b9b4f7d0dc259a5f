/** Lists read from the left: what a loop over them has built after each item. */
module Lists {
  function Front<T>(s: seq<T>): seq<T>
    requires s != []
  {
    s[..|s| - 1]
  }

  function Last<T>(s: seq<T>): T
    requires s != []
  {
    s[|s| - 1]
  }

  lemma Prefix<T>(s: seq<T>, k: nat)
    requires k < |s|
    ensures s[..k + 1] != [] && Front(s[..k + 1]) == s[..k] && Last(s[..k + 1]) == s[k]
  {
  }

  function Filter<T(!new)>(s: seq<T>, keep: T -> bool): (r: seq<T>)
    ensures forall x :: x in r <==> x in s && keep(x)
    ensures |r| <= |s|
  {
    if s == [] then []
    else if keep(Last(s)) then Filter(Front(s), keep) + [Last(s)]
    else Filter(Front(s), keep)
  }

  /** The keys of a list, in the order they first appear. */
  function Groups<T(!new), K(==,!new)>(s: seq<T>, of: T -> K): (r: seq<K>)
    ensures forall w :: w in r <==> exists x :: x in s && of(x) == w
    ensures forall a, b :: 0 <= a < b < |r| ==> r[a] != r[b]
  {
    if s == [] then []
    else
      var r := Groups(Front(s), of);
      assert s == Front(s) + [Last(s)];
      if of(Last(s)) in r then r else r + [of(Last(s))]
  }

  /** The items of one key, in order. */
  function In<T(!new), K(==,!new)>(s: seq<T>, of: T -> K, w: K): seq<T> { Filter(s, x => of(x) == w) }

  method GroupBy<T(!new), K(==,!new)>(items: seq<T>, of: T -> K) returns (order: seq<K>, groups: map<K, seq<T>>)
    ensures order == Groups(items, of)
    ensures forall w :: w in groups <==> w in order
    ensures forall w :: w in groups ==> groups[w] == In(items, of, w)
  {
    order, groups := [], map[];
    for k := 0 to |items|
      invariant order == Groups(items[..k], of)
      invariant forall w :: w in groups <==> w in order
      invariant forall w :: w in groups ==> groups[w] == In(items[..k], of, w)
    {
      Prefix(items, k);
      var w := of(items[k]);
      if w !in groups {
        order, groups := order + [w], groups[w := []];
        NoneYet(items[..k], of, w);
      }
      groups := groups[w := groups[w] + [items[k]]];
    }
    assert items[..|items|] == items;
  }

  lemma {:induction false} NoneYet<T(!new), K(!new)>(items: seq<T>, of: T -> K, w: K)
    requires w !in Groups(items, of)
    ensures In(items, of, w) == []
  {
    if items != [] { NoneYet(Front(items), of, w); }
  }

  function Occurs(values: seq<string>, u: string): nat {
    if values == [] then 0 else Occurs(Front(values), u) + if Last(values) == u then 1 else 0
  }

  method CountBy(values: seq<string>) returns (counts: map<string, nat>)
    ensures forall u :: Occurs(values, u) == if u in counts then counts[u] else 0
  {
    counts := map[];
    for k := 0 to |values|
      invariant forall u :: Occurs(values[..k], u) == if u in counts then counts[u] else 0
    {
      Prefix(values, k);
      var v := values[k];
      counts := counts[v := (if v in counts then counts[v] else 0) + 1];
    }
    assert values[..|values|] == values;
  }

  lemma {:induction false} OccursIn(values: seq<string>, u: string)
    ensures Occurs(values, u) > 0 <==> u in values
  {
    if values != [] {
      assert values == Front(values) + [Last(values)];
      OccursIn(Front(values), u);
    }
  }

  /** A value counted more than once stands at another place too. */
  lemma {:induction false} OccursTwice(values: seq<string>, i: nat)
    requires i < |values|
    ensures Occurs(values, values[i]) > 1 <==> exists j :: 0 <= j < |values| && j != i && values[j] == values[i]
  {
    var f, n := Front(values), |values| - 1;
    OccursIn(f, values[i]);
    if i == n {
      assert values[i] in f <==> exists j :: 0 <= j < n && f[j] == values[i];
    } else {
      OccursTwice(f, i);
      OccursIn(f, values[i]);
      if Last(values) == values[i] { assert values[n] == values[i]; }
    }
  }
}
