/** What putting tabs in a group, and gathering groups, leaves as it was. */
module TabGroupsTheorems {
  import opened Prelude
  import opened TabGroups

  ghost predicate Unique(s: Strip) { forall i, j :: 0 <= i < j < |s| ==> s[i].id != s[j].id }

  ghost predicate Distinct(ids: seq<int>) { forall i, j :: 0 <= i < j < |ids| ==> ids[i] != ids[j] }

  ghost predicate Has(s: Strip, id: int) { exists i :: 0 <= i < |s| && s[i].id == id }

  /* ---- strips ---- */

  lemma {:induction false} SubAppend(s: Strip, t: Strip, gone: set<int>)
    ensures Sub(s + t, gone) == Sub(s, gone) + Sub(t, gone)
  {
    if s == [] {
      assert s + t == t;
    } else {
      assert (s + t)[0] == s[0] && (s + t)[1..] == s[1..] + t;
      SubAppend(s[1..], t, gone);
      var h := if s[0].id in gone then [] else [s[0]];
      assert h + (Sub(s[1..], gone) + Sub(t, gone)) == (h + Sub(s[1..], gone)) + Sub(t, gone);
    }
  }

  lemma {:induction false} MembersAppend(s: Strip, t: Strip, g: int)
    ensures Members(s + t, g) == Members(s, g) + Members(t, g)
  {
    if s == [] {
      assert s + t == t;
    } else {
      assert (s + t)[0] == s[0] && (s + t)[1..] == s[1..] + t;
      MembersAppend(s[1..], t, g);
      var h := if s[0].group == g then [s[0].id] else [];
      assert h + (Members(s[1..], g) + Members(t, g)) == (h + Members(s[1..], g)) + Members(t, g);
    }
  }

  lemma {:induction false} MinusAppend(a: seq<int>, b: seq<int>, gone: set<int>)
    ensures Minus(a + b, gone) == Minus(a, gone) + Minus(b, gone)
  {
    if a == [] {
      assert a + b == b;
    } else {
      assert (a + b)[0] == a[0] && (a + b)[1..] == a[1..] + b;
      MinusAppend(a[1..], b, gone);
      var h := if a[0] in gone then [] else [a[0]];
      assert h + (Minus(a[1..], gone) + Minus(b, gone)) == (h + Minus(a[1..], gone)) + Minus(b, gone);
    }
  }

  lemma {:induction false} SubIs(s: Strip, gone: set<int>)
    ensures forall t :: t in Sub(s, gone) <==> t in s && t.id !in gone
  {
    if s != [] { SubIs(s[1..], gone); }
  }

  lemma {:induction false} MembersAre(s: Strip, g: int)
    ensures forall id :: id in Members(s, g) <==> Tab(id, g) in s
  {
    if s != [] { MembersAre(s[1..], g); }
  }

  lemma {:induction false} MinusIs(ids: seq<int>, gone: set<int>)
    ensures forall id :: id in Minus(ids, gone) <==> id in ids && id !in gone
  {
    if ids != [] { MinusIs(ids[1..], gone); }
  }

  lemma {:induction false} SubSub(s: Strip, a: set<int>, b: set<int>)
    ensures Sub(Sub(s, a), b) == Sub(s, a + b)
  {
    if s != [] {
      SubSub(s[1..], a, b);
      SubAppend(if s[0].id in a then [] else [s[0]], Sub(s[1..], a), b);
    }
  }

  lemma {:induction false} SubNone(s: Strip, gone: set<int>)
    requires forall t :: t in s ==> t.id !in gone
    ensures Sub(s, gone) == s
  {
    if s != [] { SubNone(s[1..], gone); }
  }

  lemma {:induction false} MinusNone(ids: seq<int>, gone: set<int>)
    requires forall id :: id in ids ==> id !in gone
    ensures Minus(ids, gone) == ids
  {
    if ids != [] {
      var x := ids[0];
      assert x in ids && x !in gone;
      MinusNone(ids[1..], gone);
      assert Minus(ids, gone) == [x] + Minus(ids[1..], gone);
      assert ids == [x] + ids[1..];
    }
  }

  lemma {:induction false} MembersSub(s: Strip, gone: set<int>, g: int)
    ensures Members(Sub(s, gone), g) == Minus(Members(s, g), gone)
  {
    if s != [] {
      MembersSub(s[1..], gone, g);
      MembersAppend(if s[0].id in gone then [] else [s[0]], Sub(s[1..], gone), g);
      MinusAppend(if s[0].group == g then [s[0].id] else [], Members(s[1..], g), gone);
    }
  }

  lemma {:induction false} SubUnique(s: Strip, gone: set<int>)
    requires Unique(s)
    ensures Unique(Sub(s, gone))
  {
    if s != [] {
      SubUnique(s[1..], gone);
      SubIs(s[1..], gone);
    }
  }

  lemma {:induction false} NoneAfterLast(s: Strip, g: int)
    ensures Members(s[PastLast(s, g)..], g) == []
  {
    if s != [] {
      var n := |s| - 1;
      if s[n].group != g {
        NoneAfterLast(s[..n], g);
        var k := PastLast(s[..n], g);
        assert s[k..] == s[..n][k..] + [s[n]];
        MembersAppend(s[..n][k..], [s[n]], g);
      }
    }
  }

  /* ---- one tab into a group ---- */

  /** The tabs of `ids` are the last of the group, in that order, and nothing else
      of the strip moved. */
  ghost predicate Joined(s: Strip, t: Strip, ids: seq<int>, g: int) {
    && Sub(t, Set(ids)) == Sub(s, Set(ids))
    && Members(t, g) == Minus(Members(s, g), Set(ids)) + ids
    && (forall x :: x in t && x.id in ids ==> x.group == g)
    && Unique(t)
  }

  lemma InsertSub(a: Strip, b: Strip, x: Tab)
    requires forall t :: t in a || t in b ==> t.id != x.id
    ensures Sub(a + [x] + b, {x.id}) == a + b
  {
    var gone := {x.id};
    assert Sub(a, gone) == a by { SubNone(a, gone); }
    assert Sub(b, gone) == b by { SubNone(b, gone); }
    assert Sub([x], gone) == [];
    assert Sub(a + [x], gone) == a + [] == a by { SubAppend(a, [x], gone); }
    SubAppend(a + [x], b, gone);
  }

  lemma InsertMembers(a: Strip, b: Strip, x: Tab)
    requires Members(b, x.group) == []
    ensures Members(a + [x] + b, x.group) == Members(a + b, x.group) + [x.id]
  {
    MembersAppend(a, b, x.group);
    MembersAppend(a + [x], b, x.group);
    MembersAppend(a, [x], x.group);
    assert Members([x], x.group) == [x.id];
  }

  lemma InsertUnique(a: Strip, b: Strip, x: Tab)
    requires Unique(a + b) && forall t :: t in a + b ==> t.id != x.id
    ensures Unique(a + [x] + b)
  {
    var t := a + [x] + b;
    forall i, j | 0 <= i < j < |t| ensures t[i].id != t[j].id {
      var p := if i < |a| then i else i - 1;
      var q := if j < |a| then j else j - 1;
      assert i != |a| ==> (a + b)[p] == t[i] && t[i] in a + b;
      assert j != |a| ==> (a + b)[q] == t[j] && t[j] in a + b;
    }
  }

  lemma PutJoins(s: Strip, id: int, g: int)
    requires Unique(s)
    ensures Joined(s, Put(s, id, g), [id], g)
  {
    var r := Sub(s, {id});
    var k := PastLast(r, g);
    var x := Tab(id, g);
    assert r == r[..k] + r[k..] && Set([id]) == {id};
    SubIs(s, {id});
    SubUnique(s, {id});
    InsertSub(r[..k], r[k..], x);
    NoneAfterLast(r, g);
    InsertMembers(r[..k], r[k..], x);
    InsertUnique(r[..k], r[k..], x);
    MembersSub(s, {id}, g);
  }

  lemma SetAppend(a: seq<int>, b: seq<int>)
    ensures Set(a + b) == Set(a) + Set(b)
  {
  }

  lemma {:induction false} MinusMinus(ids: seq<int>, a: set<int>, b: set<int>)
    ensures Minus(Minus(ids, a), b) == Minus(ids, a + b)
  {
    if ids != [] {
      MinusMinus(ids[1..], a, b);
      MinusAppend(if ids[0] in a then [] else [ids[0]], Minus(ids[1..], a), b);
    }
  }

  lemma JoinedMembers(m: seq<int>, a: seq<int>, b: seq<int>)
    requires forall id :: id in a ==> id !in b
    ensures Minus(Minus(m, Set(a)) + a, Set(b)) + b == Minus(m, Set(a + b)) + (a + b)
  {
    SetAppend(a, b);
    MinusAppend(Minus(m, Set(a)), a, Set(b));
    MinusMinus(m, Set(a), Set(b));
    MinusNone(a, Set(b));
  }

  lemma JoinedThen(s: Strip, t: Strip, u: Strip, a: seq<int>, b: seq<int>, g: int)
    requires Joined(s, t, a, g) && Joined(t, u, b, g) && forall id :: id in a ==> id !in b
    ensures Joined(s, u, a + b, g)
  {
    assert Sub(u, Set(a + b)) == Sub(s, Set(a + b)) by {
      SetAppend(a, b);
      JoinedSub(s, t, u, Set(a), Set(b));
    }
    JoinedMembers(Members(s, g), a, b);
    JoinedGroup(t, u, a, b, g);
  }

  lemma JoinedSub(s: Strip, t: Strip, u: Strip, x: set<int>, y: set<int>)
    requires Sub(t, x) == Sub(s, x) && Sub(u, y) == Sub(t, y)
    ensures Sub(u, x + y) == Sub(s, x + y)
  {
    SubSub(u, y, x);
    SubSub(t, y, x);
    SubSub(t, x, y);
    SubSub(s, x, y);
    assert y + x == x + y;
  }

  lemma JoinedGroup(t: Strip, u: Strip, a: seq<int>, b: seq<int>, g: int)
    requires forall x :: x in t && x.id in a ==> x.group == g
    requires forall x :: x in u && x.id in b ==> x.group == g
    requires Sub(u, Set(b)) == Sub(t, Set(b))
    ensures forall x :: x in u && x.id in a + b ==> x.group == g
  {
    SubIs(u, Set(b));
    SubIs(t, Set(b));
    forall x | x in u && x.id in a && x.id !in b ensures x.group == g {
      assert x in Sub(u, Set(b));
    }
  }

  lemma {:induction false} PutAllJoins(s: Strip, ids: seq<int>, g: int)
    requires Unique(s) && Distinct(ids)
    ensures Joined(s, PutAll(s, ids, g), ids, g)
    decreases |ids|
  {
    if ids == [] {
      SubNone(s, {});
      MinusNone(Members(s, g), {});
      assert Set([]) == {} && Members(s, g) + [] == Members(s, g);
    } else {
      PutJoins(s, ids[0], g);
      PutAllJoins(Put(s, ids[0], g), ids[1..], g);
      assert [ids[0]] + ids[1..] == ids;
      JoinedThen(s, Put(s, ids[0], g), PutAll(s, ids, g), [ids[0]], ids[1..], g);
    }
  }

  /* ---- a new group ---- */

  lemma FormJoins(s: Strip, id: int, g: int)
    requires Unique(s) && Has(s, id) && Members(s, g) == []
    ensures Joined(s, Form(s, id, g), [id], g)
  {
    var k :| 0 <= k < |s| && s[k].id == id;
    FormAt(s, k, g);
    assert s == s[..k] + [s[k]] + s[k + 1..];
    SwapJoins(s[..k], s[k + 1..], s[k], Tab(id, g));
  }

  lemma SwapJoins(a: Strip, b: Strip, y: Tab, x: Tab)
    requires Unique(a + [y] + b) && y.id == x.id && Members(a + [y] + b, x.group) == []
    ensures Joined(a + [y] + b, a + [x] + b, [x.id], x.group)
  {
    RestUnique(a, y, b);
    assert Set([x.id]) == {x.id};
    assert Sub(a + [x] + b, {x.id}) == Sub(a + [y] + b, {x.id}) by {
      InsertSub(a, b, y);
      InsertSub(a, b, x);
    }
    assert Members(a + [x] + b, x.group) == [x.id] by { SwapMembers(a, b, y, x); }
    InsertUnique(a, b, x);
    assert forall t :: t in a + [x] + b && t.id == x.id ==> t == x;
  }

  lemma SwapMembers(a: Strip, b: Strip, y: Tab, x: Tab)
    requires Members(a + [y] + b, x.group) == []
    ensures Members(a + [x] + b, x.group) == [x.id]
  {
    MembersAppend(a + [y], b, x.group);
    MembersAppend(a, [y], x.group);
    MembersAppend(a, b, x.group);
    InsertMembers(a, b, x);
  }

  lemma RestUnique(a: Strip, x: Tab, b: Strip)
    requires Unique(a + [x] + b)
    ensures Unique(a + b) && forall t :: t in a + b ==> t.id != x.id
  {
    var s := a + [x] + b;
    forall i | 0 <= i < |a + b| ensures (a + b)[i] == s[if i < |a| then i else i + 1] {
    }
    assert s[|a|] == x;
  }

  lemma {:induction false} FormAt(s: Strip, k: nat, g: int)
    requires Unique(s) && k < |s|
    ensures Form(s, s[k].id, g) == s[..k] + [Tab(s[k].id, g)] + s[k + 1..]
  {
    var id := s[k].id;
    if k == 0 {
      FormNone(s[1..], id, g);
    } else {
      var r := s[1..];
      assert r[k - 1] == s[k];
      FormAt(r, k - 1, g);
      assert s[..k] == [s[0]] + r[..k - 1] && s[k + 1..] == r[k..];
      assert Form(s, id, g) == [s[0]] + Form(r, id, g);
    }
  }

  lemma {:induction false} FormNone(s: Strip, id: int, g: int)
    requires forall t :: t in s ==> t.id != id
    ensures Form(s, id, g) == s
  {
    if s != [] { FormNone(s[1..], id, g); }
  }

  lemma {:induction false} InOrderIs(s: Strip, ids: set<int>)
    requires Unique(s)
    ensures Distinct(InOrder(s, ids)) && forall id :: id in InOrder(s, ids) <==> id in ids && Has(s, id)
  {
    if s != [] {
      InOrderIs(s[1..], ids);
      forall id ensures Has(s, id) <==> id == s[0].id || Has(s[1..], id) {
        if Has(s[1..], id) {
          var i :| 0 <= i < |s[1..]| && s[1..][i].id == id;
          assert s[i + 1].id == id;
        }
        if Has(s, id) && id != s[0].id {
          var i :| 0 <= i < |s| && s[i].id == id;
          assert s[1..][i - 1].id == id;
        }
      }
      assert !Has(s[1..], s[0].id);
    }
  }

  /* ---- the order inside a group ---- */

  lemma {:induction false} MembersDistinct(s: Strip, g: int)
    requires Unique(s)
    ensures Distinct(Members(s, g))
  {
    if s != [] {
      MembersDistinct(s[1..], g);
      MembersAre(s[1..], g);
    }
  }

  lemma {:induction false} MinusDistinct(ids: seq<int>, gone: set<int>)
    requires Distinct(ids)
    ensures Distinct(Minus(ids, gone))
  {
    if ids != [] {
      MinusDistinct(ids[1..], gone);
      MinusIs(ids[1..], gone);
    }
  }

  lemma {:induction false} MinusAll(ids: seq<int>, gone: set<int>)
    requires forall id :: id in ids ==> id in gone
    ensures Minus(ids, gone) == []
  {
    if ids != [] {
      var x := ids[0];
      assert x in ids && x in gone;
      MinusAll(ids[1..], gone);
    }
  }

  lemma {:induction false} NamedAll(current: seq<int>, wanted: seq<int>)
    requires Distinct(wanted) && forall id :: id in wanted ==> id in current
    ensures Named(current, wanted) == wanted
    decreases |wanted|
  {
    if wanted != [] {
      var n := |wanted| - 1;
      NamedAll(current, wanted[..n]);
      assert wanted[n] in wanted && wanted == wanted[..n] + [wanted[n]];
    }
  }

  lemma DistinctJoin(a: seq<int>, b: seq<int>)
    requires Distinct(a) && Distinct(b) && forall id :: id in a ==> id !in b
    ensures Distinct(a + b)
  {
    forall i, j | 0 <= i < j < |a + b| ensures (a + b)[i] != (a + b)[j] {
      if i < |a| <= j { assert a[i] in a && b[j - |a|] in b; }
    }
  }

  lemma OrderIs(current: seq<int>, wanted: seq<int>)
    requires Distinct(current) && Distinct(wanted) && forall id :: id in wanted ==> id in current
    ensures Order(current, wanted) == Minus(current, Set(wanted)) + wanted
    ensures Distinct(Order(current, wanted)) && forall id :: id in Order(current, wanted) <==> id in current
  {
    NamedAll(current, wanted);
    MinusDistinct(current, Set(wanted));
    MinusIs(current, Set(wanted));
    DistinctJoin(Minus(current, Set(wanted)), wanted);
  }

  lemma PrefixApart(ids: seq<int>, k: nat)
    requires Distinct(ids) && k <= |ids|
    ensures Distinct(ids[k..]) && forall id :: id in ids[..k] ==> id !in ids[k..]
  {
  }

  /** What is left in place is exactly what the plan says comes first. */
  lemma MovesKeepTheRest(current: seq<int>, wanted: seq<int>)
    requires Distinct(current) && Distinct(wanted) && forall id :: id in wanted ==> id in current
    ensures var moves := Moves(current, wanted);
            && Distinct(moves) && (forall id :: id in moves ==> id in current)
            && Minus(current, Set(moves)) + moves == Order(current, wanted)
  {
    OrderIs(current, wanted);
    var order := Order(current, wanted);
    TailGoes(current, order, InPlace(order, current));
  }

  /** Two listings of the same ids that begin alike: without what follows in one,
      the other is the beginning. */
  lemma TailGoes(current: seq<int>, order: seq<int>, k: nat)
    requires Distinct(current) && Distinct(order) && forall id :: id in order <==> id in current
    requires k <= |order| && k <= |current| && order[..k] == current[..k]
    ensures var moves := order[k..];
            Distinct(moves) && (forall id :: id in moves ==> id in current) && Minus(current, Set(moves)) + moves == order
  {
    var front, moves := order[..k], order[k..];
    PrefixApart(order, k);
    PrefixApart(current, k);
    assert order == front + moves && current == front + current[k..];
    forall id | id in current[k..] ensures id in Set(moves) {
      assert id in current && id in order && id !in front;
    }
    MinusAppend(front, current[k..], Set(moves));
    MinusNone(front, Set(moves));
    MinusAll(current[k..], Set(moves));
    assert front + [] == front;
  }

  /* ---- groupTabs ---- */

  ghost function All(s: Strip, ids: seq<int>, g: int): set<int> { Set(Members(s, g)) + Set(ids) }

  /** The members nobody named stay, in their order, ahead of the named ones; no
      tab outside the group and the named ones moves or changes its group. */
  ghost predicate Regrouped(s: Strip, t: Strip, ids: seq<int>, g: int) {
    && Members(t, g) == Minus(Members(s, g), Set(ids)) + ids
    && Sub(t, All(s, ids, g)) == Sub(s, All(s, ids, g))
    && (forall x :: x in t && x.id in All(s, ids, g) ==> x.group == g)
    && Unique(t)
  }

  lemma SubMore(s: Strip, t: Strip, a: set<int>, b: set<int>)
    requires Sub(t, a) == Sub(s, a) && a <= b
    ensures Sub(t, b) == Sub(s, b)
  {
    SubSub(t, a, b);
    SubSub(s, a, b);
    assert a + b == b;
  }

  /** A tab that was not touched is the tab it was. */
  lemma Untouched(s: Strip, t: Strip, gone: set<int>, x: Tab)
    requires Sub(t, gone) == Sub(s, gone) && x.id !in gone
    ensures x in t <==> x in s
  {
    SubIs(s, gone);
    SubIs(t, gone);
  }

  lemma OneTab(s: Strip, x: Tab, y: Tab)
    requires Unique(s) && x in s && y in s && x.id == y.id
    ensures x == y
  {
  }

  /** After chrome.tabs.group: the given tabs joined, in some order. */
  lemma GroupJoins(s: Strip, ids: seq<int>, g: int, isNew: bool) returns (added: seq<int>)
    requires Unique(s) && Distinct(ids) && forall id :: id in ids ==> Has(s, id)
    requires isNew ==> Members(s, g) == []
    ensures Joined(s, Group(s, ids, g, isNew), added, g) && Distinct(added)
    ensures forall id :: id in added <==> id in ids && id !in Members(s, g)
  {
    if !isNew {
      added := Minus(ids, Set(Members(s, g)));
      MinusDistinct(ids, Set(Members(s, g)));
      MinusIs(ids, Set(Members(s, g)));
      PutAllJoins(s, added, g);
    } else {
      added := InOrder(s, Set(ids));
      InOrderIs(s, Set(ids));
      if added == [] { PutAllJoins(s, [], g); } else { NewJoins(s, added, g); }
    }
  }

  lemma NewJoins(s: Strip, sorted: seq<int>, g: int)
    requires Unique(s) && Members(s, g) == [] && sorted != [] && Distinct(sorted) && Has(s, sorted[0])
    ensures Joined(s, PutAll(Form(s, sorted[0], g), sorted[1..], g), sorted, g)
  {
    var first, rest := [sorted[0]], sorted[1..];
    FormJoins(s, sorted[0], g);
    PutAllJoins(Form(s, sorted[0], g), rest, g);
    assert sorted == first + rest;
    forall id | id in first ensures id !in rest {
    }
    JoinedThen(s, Form(s, sorted[0], g), PutAll(Form(s, sorted[0], g), rest, g), first, rest, g);
  }

  lemma CurrentMinus(m: seq<int>, added: seq<int>, ids: seq<int>)
    requires forall id :: id in added <==> id in ids && id !in m
    ensures Minus(m, Set(added)) + added == m + added
    ensures Minus(m + added, Set(ids)) == Minus(m, Set(ids))
    ensures forall id :: id in m + added <==> id in m || id in ids
  {
    MinusNone(m, Set(added));
    MinusAppend(m, added, Set(ids));
    MinusAll(added, Set(ids));
  }

  /** groupTabs puts the given tabs in the group in the order given, after the
      members it was not given, and moves nothing else. */
  lemma GroupTabsRegroups(s: Strip, ids: seq<int>, g: int, isNew: bool)
    requires Unique(s) && Distinct(ids) && forall id :: id in ids ==> Has(s, id)
    requires isNew ==> Members(s, g) == []
    ensures Regrouped(s, GroupTabs(s, ids, g, isNew), ids, g)
  {
    var added := GroupJoins(s, ids, g, isNew);
    var t := Group(s, ids, g, isNew);
    var current := Members(t, g);
    CurrentMinus(Members(s, g), added, ids);
    MembersDistinct(t, g);
    OrderIs(current, ids);
    MovesKeepTheRest(current, ids);
    var moves := Moves(current, ids);
    PutAllJoins(t, moves, g);
    var u := GroupTabs(s, ids, g, isNew);
    assert Members(u, g) == Minus(Members(s, g), Set(ids)) + ids;
    MovedWithin(s, t, u, added, moves, ids, g);
  }

  lemma MovedWithin(s: Strip, t: Strip, u: Strip, added: seq<int>, moves: seq<int>, ids: seq<int>, g: int)
    requires Unique(s) && Joined(s, t, added, g) && Joined(t, u, moves, g)
    requires forall id :: id in added ==> id in ids
    requires forall id :: id in ids ==> id in added || id in Members(s, g)
    requires forall id :: id in moves ==> id in Members(s, g) || id in ids
    ensures Sub(u, All(s, ids, g)) == Sub(s, All(s, ids, g))
    ensures forall x :: x in u && x.id in All(s, ids, g) ==> x.group == g
  {
    var all := All(s, ids, g);
    forall id: int | id in Set(added) || id in Set(moves) ensures id in all {
      assert id in ids || id in Members(s, g);
    }
    SubMore(s, t, Set(added), all);
    SubMore(t, u, Set(moves), all);
    MembersAre(s, g);
    forall x | x in u && x.id in all && x.id !in moves && x.id !in added ensures x.group == g {
      Untouched(t, u, Set(moves), x);
      Untouched(s, t, Set(added), x);
      OneTab(s, x, Tab(x.id, g));
    }
    forall x | x in u && x.id in added && x.id !in moves ensures x.group == g {
      Untouched(t, u, Set(moves), x);
    }
  }
}
