/** The groups of the title in the other windows come into the host one after the
    other, and disturb nothing else. */
module GatherTheorems {
  import opened Prelude
  import opened TabGroups
  import opened TabGroupsTheorems

  /* ---- the leftmost group ---- */

  lemma {:induction false} LeftmostAppend(s: Strip, t: Strip, titled: set<int>)
    ensures Leftmost(s + t, titled) == if Leftmost(s, titled).Some? then Leftmost(s, titled) else Leftmost(t, titled)
  {
    if s == [] {
      assert s + t == t;
    } else {
      assert (s + t)[1..] == s[1..] + t;
      LeftmostAppend(s[1..], t, titled);
    }
  }

  lemma {:induction false} LeftmostSub(s: Strip, gone: set<int>, titled: set<int>)
    requires forall x :: x in s && x.id in gone ==> x.group !in titled
    ensures Leftmost(Sub(s, gone), titled) == Leftmost(s, titled)
  {
    if s != [] {
      assert s[0] in s;
      LeftmostSub(s[1..], gone, titled);
      LeftmostAppend(if s[0].id in gone then [] else [s[0]], Sub(s[1..], gone), titled);
    }
  }

  lemma {:induction false} LeftmostIn(s: Strip, titled: set<int>)
    ensures Leftmost(s, titled).Some? ==> Leftmost(s, titled).value in titled && exists x :: x in s && x.group == Leftmost(s, titled).value
    ensures Leftmost(s, titled).None? ==> forall x :: x in s ==> x.group !in titled
  {
    if s != [] { LeftmostIn(s[1..], titled); }
  }

  /** A loose tab put after the leftmost group leaves it the leftmost. */
  lemma LeftmostPut(s: Strip, id: int, g: int, titled: set<int>)
    requires Leftmost(s, titled) == Some(g) && forall x :: x in s && x.id == id ==> x.group !in titled
    ensures Leftmost(Put(s, id, g), titled) == Some(g)
  {
    var r := Sub(s, {id});
    var k := PastLast(r, g);
    LeftmostSub(s, {id}, titled);
    assert r == r[..k] + r[k..];
    LeftmostAppend(r[..k], r[k..], titled);
    NoneAfterLast(r, g);
    MembersAre(r[k..], g);
    LeftmostIn(r[k..], titled);
    forall x | x in r[k..] ensures x.group != g {
      assert x == Tab(x.id, x.group);
    }
    LeftmostAppend(r[..k], [Tab(id, g)] + r[k..], titled);
    assert Put(s, id, g) == r[..k] + ([Tab(id, g)] + r[k..]);
  }

  lemma {:induction false} LeftmostPutAll(s: Strip, ids: seq<int>, g: int, titled: set<int>)
    requires Unique(s) && Distinct(ids)
    requires Leftmost(s, titled) == Some(g) && forall x :: x in s && x.id in ids ==> x.group !in titled
    ensures Leftmost(PutAll(s, ids, g), titled) == Some(g)
    decreases |ids|
  {
    if ids != [] {
      LeftmostPut(s, ids[0], g, titled);
      PutJoins(s, ids[0], g);
      var t := Put(s, ids[0], g);
      forall x | x in t && x.id in ids[1..] ensures x.group !in titled {
        assert x.id != ids[0];
        Untouched(s, t, Set([ids[0]]), x);
      }
      LeftmostPutAll(t, ids[1..], g, titled);
    }
  }

  /* ---- members of the other groups ---- */

  lemma {:induction false} MembersLoose(ids: seq<int>, g: int)
    requires g != NONE
    ensures Members(Loose(ids), g) == []
    decreases |ids|
  {
    if ids != [] {
      assert Loose(ids)[1..] == Loose(ids[1..]);
      MembersLoose(ids[1..], g);
    }
  }

  lemma {:induction false} SubLoose(ids: seq<int>, gone: set<int>)
    requires forall id :: id in ids ==> id in gone
    ensures Sub(Loose(ids), gone) == []
    decreases |ids|
  {
    if ids != [] {
      var x := ids[0];
      assert x in ids && x in gone;
      assert Loose(ids)[1..] == Loose(ids[1..]);
      SubLoose(ids[1..], gone);
    }
  }

  /** What touched tabs of no group but `g` leaves the members of another alone. */
  lemma OtherMembers(s: Strip, t: Strip, gone: set<int>, h: int)
    requires Sub(t, gone) == Sub(s, gone)
    requires forall x :: x in t && x.id in gone ==> x.group != h
    ensures Members(t, h) == Minus(Members(s, h), gone)
  {
    MembersSub(t, gone, h);
    MembersSub(s, gone, h);
    MembersAre(t, h);
    forall id | id in Members(t, h) ensures id !in gone {
      assert Tab(id, h) in t;
    }
    MinusNone(Members(t, h), gone);
  }

  /* ---- tabs of another window into the host's group ---- */

  /** The host's strip with loose tabs at its end. */
  lemma ArrivedUnique(s: Strip, ids: seq<int>)
    requires Unique(s) && Distinct(ids) && forall id :: id in ids ==> !Has(s, id)
    ensures Unique(s + Loose(ids)) && forall id :: id in ids ==> Has(s + Loose(ids), id)
  {
    var t := s + Loose(ids);
    forall i, j | 0 <= i < j < |t| ensures t[i].id != t[j].id {
      if i < |s| <= j { assert ids[j - |s|] in ids && Has(s, s[i].id); }
    }
    forall id | id in ids ensures Has(t, id) {
      var i :| 0 <= i < |ids| && ids[i] == id;
      assert t[|s| + i].id == id;
    }
  }

  lemma InPlaceAll(ids: seq<int>)
    ensures InPlace(ids, ids) == |ids|
  {
    if ids != [] { InPlaceAll(ids[1..]); }
  }

  /** Tabs that were not in the group need no ordering after they joined it. */
  lemma NoMoves(s: Strip, ids: seq<int>, g: int)
    requires Unique(s) && Distinct(ids) && forall id :: id in ids ==> id !in Members(s, g)
    ensures GroupTabs(s, ids, g, false) == PutAll(s, ids, g)
  {
    MinusNone(ids, Set(Members(s, g)));
    PutAllJoins(s, ids, g);
    var t := PutAll(s, ids, g);
    var current := Members(t, g);
    MembersDistinct(t, g);
    OrderIs(current, ids);
    var stay := Minus(Members(s, g), Set(ids));
    MinusIs(Members(s, g), Set(ids));
    MinusAppend(stay, ids, Set(ids));
    MinusNone(stay, Set(ids));
    MinusAll(ids, Set(ids));
    assert stay + [] == stay;
    assert Order(current, ids) == current;
    InPlaceAll(current);
    assert Moves(current, ids) == [];
  }

  /** `t` is the strip `s` with the tabs `ids`, new to it, last in the group. */
  ghost predicate Arrived(s: Strip, t: Strip, ids: seq<int>, g: int) {
    && Sub(t, All(s, ids, g)) == Sub(s, All(s, ids, g))
    && Members(t, g) == Members(s, g) + ids
    && (forall x :: x in t && x.id in All(s, ids, g) ==> x.group == g)
    && Unique(t)
  }

  lemma RegroupedArrived(s: Strip, ids: seq<int>, g: int, isNew: bool)
    requires Unique(s) && Distinct(ids) && (forall id :: id in ids ==> !Has(s, id)) && g != NONE
    requires isNew ==> Members(s, g) == []
    ensures Arrived(s, GroupTabs(s + Loose(ids), ids, g, isNew), ids, g)
  {
    var s1 := s + Loose(ids);
    ArrivedUnique(s, ids);
    MembersAppend(s, Loose(ids), g);
    MembersLoose(ids, g);
    assert Members(s1, g) == Members(s, g);
    GroupTabsRegroups(s1, ids, g, isNew);
    NotMembers(s, ids, g);
    MinusNone(Members(s, g), Set(ids));
    var all := All(s, ids, g);
    SubAppend(s, Loose(ids), all);
    forall id: int | id in ids ensures id in all {
    }
    SubLoose(ids, all);
    assert Sub(s1, all) == Sub(s, all) + [];
  }

  lemma NotMembers(s: Strip, ids: seq<int>, g: int)
    requires forall id :: id in ids ==> !Has(s, id)
    ensures forall id :: id in Members(s, g) ==> id !in Set(ids)
    ensures forall id :: id in ids ==> id !in Members(s, g)
  {
    MembersAre(s, g);
    forall id | id in Members(s, g) ensures Has(s, id) {
      var i :| 0 <= i < |s| && s[i] == Tab(id, g);
    }
  }

  lemma ArrivesInto(s: Strip, ids: seq<int>, g: int, titled: set<int>)
    requires Unique(s) && Distinct(ids) && (forall id :: id in ids ==> !Has(s, id)) && NONE !in titled
    requires Leftmost(s, titled) == Some(g)
    ensures Leftmost(s + Loose(ids), titled) == Some(g)
    ensures var t := GroupTabs(s + Loose(ids), ids, g, false); Arrived(s, t, ids, g) && Leftmost(t, titled) == Some(g)
  {
    var s1 := s + Loose(ids);
    LeftmostIn(s, titled);
    RegroupedArrived(s, ids, g, false);
    LeftmostAppend(s, Loose(ids), titled);
    ArrivedUnique(s, ids);
    NotMembers(s, ids, g);
    MembersAppend(s, Loose(ids), g);
    MembersLoose(ids, g);
    NoMoves(s1, ids, g);
    forall x | x in s ensures x.id !in ids {
      assert Has(s, x.id);
    }
    LeftmostPutAll(s1, ids, g, titled);
  }

  lemma {:induction false} NoMembers(s: Strip, g: int)
    requires forall x :: x in s ==> x.group != g
    ensures Members(s, g) == []
  {
    if s != [] {
      assert s[0] in s;
      NoMembers(s[1..], g);
    }
  }

  lemma {:induction false} LooseUntitled(ids: seq<int>, titled: set<int>)
    requires NONE !in titled
    ensures Leftmost(Loose(ids), titled) == None
    decreases |ids|
  {
    if ids != [] {
      assert Loose(ids)[1..] == Loose(ids[1..]);
      LooseUntitled(ids[1..], titled);
    }
  }

  lemma ArrivesAsNew(s: Strip, ids: seq<int>, made: int, titled: set<int>)
    requires Unique(s) && Distinct(ids) && ids != [] && (forall id :: id in ids ==> !Has(s, id)) && NONE !in titled
    requires Leftmost(s, titled) == None && made != NONE && forall x :: x in s ==> x.group != made
    ensures Leftmost(s + Loose(ids), titled) == None
    ensures var t := GroupTabs(s + Loose(ids), ids, made, true);
            Arrived(s, t, ids, made) && Leftmost(t, titled + {made}) == Some(made)
  {
    LeftmostIn(s, titled);
    LeftmostAppend(s, Loose(ids), titled);
    LooseUntitled(ids, titled);
    NoMembers(s, made);
    RegroupedArrived(s, ids, made, true);
    var t := GroupTabs(s + Loose(ids), ids, made, true);
    OnlyTitled(s, t, ids, made, titled);
  }

  lemma OnlyTitled(s: Strip, t: Strip, ids: seq<int>, made: int, titled: set<int>)
    requires Arrived(s, t, ids, made) && ids != []
    requires forall x :: x in s ==> x.group !in titled
    ensures Leftmost(t, titled + {made}) == Some(made)
  {
    var all := All(s, ids, made);
    LeftmostIn(t, titled + {made});
    MembersAre(t, made);
    assert Members(t, made)[|Members(s, made)|] == ids[0];
    assert Tab(ids[0], made) in t;
    forall x | x in t && x.group in titled + {made} ensures x.group == made {
      if x.id !in all { Untouched(s, t, all, x); }
    }
  }

  /* ---- many windows ---- */

  /** Each tab once. */
  ghost predicate Apart(b: Browser) {
    && (forall w :: Unique(At(b, w)))
    && (forall w, v, id :: w != v && Has(At(b, w), id) ==> !Has(At(b, v), id))
  }

  /** A browser as it is; `made` is no group yet. */
  ghost predicate Well(b: Browser, made: int) {
    && NONE !in b.titled && made != NONE && made !in b.titled
    && Apart(b)
    && (forall w, x :: x in At(b, w) ==> x.group != made)
  }

  /** `outs` lists the groups of the title outside the host, each once. */
  ghost predicate Outside(b: Browser, host: int, outs: seq<(int, int)>) {
    && (forall i :: 0 <= i < |outs| ==> outs[i].0 != host && outs[i].1 in b.titled)
    && (forall i, j :: 0 <= i < j < |outs| ==> outs[i] != outs[j])
    && (forall w, x :: w != host && x in At(b, w) && x.group in b.titled ==> (w, x.group) in outs)
  }

  /** The tabs of the groups of the title. */
  ghost predicate InTitle(b: Browser, id: int) { exists w, x :: x in At(b, w) && x.id == id && x.group in b.titled }

  ghost predicate Covers(b: Browser, tabs: set<int>) { forall id :: id in tabs <==> InTitle(b, id) }

  /** The outside tabs, group by group. */
  ghost function Coming(b: Browser, outs: seq<(int, int)>): seq<int> {
    if outs == [] then [] else Coming(b, outs[..|outs| - 1]) + Members(At(b, outs[|outs| - 1].0), outs[|outs| - 1].1)
  }

  /** The group everything goes into. */
  ghost function Target(b: Browser, host: int, made: int): int {
    if Leftmost(At(b, host), b.titled).Some? then Leftmost(At(b, host), b.titled).value else made
  }

  /** The group kept so far: the host's own leftmost, or the one made for the
      first tabs that came. */
  ghost function Kept(b: Browser, host: int, made: int, came: seq<int>): Option<int> {
    var k := Target(b, host, made);
    if k == made && came == [] then None else Some(k)
  }

  ghost predicate RestStays(b: Browser, c: Browser, tabs: set<int>) {
    forall w :: Sub(At(c, w), tabs) == Sub(At(b, w), tabs)
  }

  /** The first `n` groups of `outs` are gone, the others are as they were. */
  ghost predicate OutsAre(b: Browser, c: Browser, host: int, outs: seq<(int, int)>, n: nat)
    requires n <= |outs|
  {
    forall w, g :: w != host && g in b.titled ==>
      Members(At(c, w), g) == if (w, g) in outs[..n] then [] else Members(At(b, w), g)
  }

  ghost predicate OthersStay(b: Browser, c: Browser, host: int, k: int) {
    forall g :: g in b.titled && g != k ==> Members(At(c, host), g) == Members(At(b, host), g)
  }

  ghost predicate MadeIsHere(c: Browser, host: int, made: int, k: int) {
    forall w, x :: x in At(c, w) && x.group == made ==> w == host && k == made
  }

  /** What came is in the kept group, after the members it had. */
  ghost predicate Came(b: Browser, c: Browser, host: int, made: int, came: seq<int>) {
    var k := Target(b, host, made);
    && Members(At(c, host), k) == Members(At(b, host), k) + came
    && c.titled == (if k == made && came != [] then b.titled + {made} else b.titled)
    && Leftmost(At(c, host), c.titled) == c.keep == Kept(b, host, made, came)
  }

  /** The host's other groups of the title, in the order they were in. */
  ghost predicate OrderStays(b: Browser, c: Browser, host: int, k: int) {
    TitledIn(At(c, host), b.titled - {k}) == TitledIn(At(b, host), b.titled - {k})
  }

  /** How `c` stands once the first `n` outside groups of `b` came in. */
  ghost predicate CameIn(b: Browser, c: Browser, host: int, made: int, tabs: set<int>, outs: seq<(int, int)>, n: nat)
    requires n <= |outs|
  {
    && Apart(c)
    && RestStays(b, c, tabs)
    && OutsAre(b, c, host, outs, n)
    && OthersStay(b, c, host, Target(b, host, made))
    && OrderStays(b, c, host, Target(b, host, made))
    && MadeIsHere(c, host, made, Target(b, host, made))
    && Came(b, c, host, made, Coming(b, outs[..n]))
  }

  /** The tabs `ids` went from the window `w` to the end of the host's group `k`. */
  ghost predicate Shifted(c: Browser, d: Browser, host: int, w: int, ids: seq<int>, k: int) {
    && Arrived(At(c, host), At(d, host), ids, k)
    && At(d, w) == Sub(At(c, w), Set(ids))
    && (forall v :: v != host && v != w ==> At(d, v) == At(c, v))
  }

  lemma HasTab(s: Strip, x: Tab)
    requires x in s
    ensures Has(s, x.id)
  {
  }

  /** Every tab of an arrived strip was there, or is one of those that came. */
  lemma ArrivedFrom(s: Strip, t: Strip, ids: seq<int>, k: int, id: int)
    requires Arrived(s, t, ids, k) && Has(t, id)
    ensures Has(s, id) || id in ids
  {
    var i :| 0 <= i < |t| && t[i].id == id;
    if id in All(s, ids, k) {
      MembersAre(s, k);
      if id in Members(s, k) { HasTab(s, Tab(id, k)); }
    } else {
      Untouched(s, t, All(s, ids, k), t[i]);
    }
  }

  lemma SubHas(s: Strip, gone: set<int>, id: int)
    requires Has(Sub(s, gone), id)
    ensures Has(s, id) && id !in gone
  {
    var t := Sub(s, gone);
    var i :| 0 <= i < |t| && t[i].id == id;
    SubIs(s, gone);
    assert t[i] in t;
  }

  lemma ShiftedApart(c: Browser, d: Browser, host: int, w: int, ids: seq<int>, k: int)
    requires Shifted(c, d, host, w, ids, k) && Apart(c) && w != host && forall id :: id in ids ==> Has(At(c, w), id)
    ensures Apart(d)
  {
    SubUnique(At(c, w), Set(ids));
    forall v ensures Unique(At(d, v)) {
      if v != host && v != w { assert Unique(At(c, v)); }
    }
    forall u, v, id | u != v && Has(At(d, u), id) && Has(At(d, v), id) ensures false {
      CameFrom(c, d, host, w, ids, k, u, id);
      CameFrom(c, d, host, w, ids, k, v, id);
    }
  }

  lemma CameFrom(c: Browser, d: Browser, host: int, w: int, ids: seq<int>, k: int, v: int, id: int)
    requires Shifted(c, d, host, w, ids, k) && w != host && Has(At(d, v), id)
    ensures (v == host && id in ids) || (Has(At(c, v), id) && (v == w ==> id !in ids))
  {
    if v == host {
      ArrivedFrom(At(c, host), At(d, host), ids, k, id);
    } else if v == w {
      SubHas(At(c, w), Set(ids), id);
    } else {
      assert At(d, v) == At(c, v);
    }
  }

  lemma ShiftedRest(c: Browser, d: Browser, host: int, w: int, ids: seq<int>, k: int, tabs: set<int>, v: int)
    requires Shifted(c, d, host, w, ids, k) && w != host
    requires All(At(c, host), ids, k) <= tabs
    ensures Sub(At(d, v), tabs) == Sub(At(c, v), tabs)
  {
    if v == host {
      SubMore(At(c, host), At(d, host), All(At(c, host), ids, k), tabs);
    } else if v == w {
      assert Set(ids) <= All(At(c, host), ids, k);
      SubSub(At(c, w), Set(ids), tabs);
      assert Set(ids) + tabs == tabs;
    } else {
      assert At(d, v) == At(c, v);
    }
  }

  /** The members of a group that is neither the one that left nor the one they
      went to. */
  lemma ShiftedMembers(c: Browser, d: Browser, host: int, w: int, g: int, ids: seq<int>, k: int, v: int, h: int)
    requires Shifted(c, d, host, w, ids, k) && w != host && Apart(c) && ids == Members(At(c, w), g)
    requires if v == host then h != k else (v, h) != (w, g)
    ensures Members(At(d, v), h) == Members(At(c, v), h)
  {
    MembersAre(At(c, v), h);
    MembersAre(At(c, w), g);
    if v == host {
      var s := At(c, host);
      MembersAre(s, k);
      var all := All(s, ids, k);
      OtherMembers(s, At(d, host), all, h);
      forall id | id in Members(s, h) ensures id !in all {
        assert Unique(s);
        HasTab(s, Tab(id, h));
        if id in Members(s, k) { OneTab(s, Tab(id, h), Tab(id, k)); }
        if id in ids { HasTab(At(c, w), Tab(id, g)); }
      }
      MinusNone(Members(s, h), all);
    } else if v == w {
      MembersSub(At(c, w), Set(ids), h);
      assert Unique(At(c, w));
      forall id | id in Members(At(c, w), h) ensures id !in Set(ids) {
        if id in ids { OneTab(At(c, w), Tab(id, h), Tab(id, g)); }
      }
      MinusNone(Members(At(c, w), h), Set(ids));
    } else {
      assert At(d, v) == At(c, v);
    }
  }

  /** What one outside group does on its way in. */
  lemma MoveInShifts(c: Browser, host: int, made: int, w: int, g: int)
    requires Apart(c) && w != host && g != NONE && Members(At(c, w), g) != [] && NONE !in c.titled && made != NONE
    requires Leftmost(At(c, host), c.titled) == None ==> forall x :: x in At(c, host) ==> x.group != made
    ensures var d, l := MoveIn(c, host, made, w, g), Leftmost(At(c, host), c.titled);
            var k := if l.Some? then l.value else made;
            && Shifted(c, d, host, w, Members(At(c, w), g), k)
            && d.titled == (if l.Some? then c.titled else c.titled + {made})
            && Leftmost(At(d, host), d.titled) == d.keep == Some(k)
  {
    var ids, s := Members(At(c, w), g), At(c, host);
    var d := Detach(c, host, w, ids);
    assert Unique(At(c, w)) && Unique(s);
    MembersDistinct(At(c, w), g);
    MembersAre(At(c, w), g);
    forall id | id in ids ensures !Has(s, id) {
      HasTab(At(c, w), Tab(id, g));
    }
    assert At(d, w) == Sub(At(c, w), Set(ids)) && At(d, host) == s + Loose(ids);
    var l := Leftmost(s, c.titled);
    if l.Some? { ArrivesInto(s, ids, l.value, c.titled); } else { ArrivesAsNew(s, ids, made, c.titled); }
  }

  /* ---- one group after the other ---- */

  lemma ComingNext(b: Browser, outs: seq<(int, int)>, n: nat)
    requires n < |outs|
    ensures Coming(b, outs[..n + 1]) == Coming(b, outs[..n]) + Members(At(b, outs[n].0), outs[n].1)
  {
    assert outs[..n + 1][..n] == outs[..n];
  }

  /** `tabs` has every tab of every group of the title. */
  ghost predicate Hold(b: Browser, tabs: set<int>) {
    forall w, g :: g in b.titled ==> Set(Members(At(b, w), g)) <= tabs
  }

  lemma {:induction false} ComingHeld(b: Browser, tabs: set<int>, outs: seq<(int, int)>)
    requires Hold(b, tabs) && forall i :: 0 <= i < |outs| ==> outs[i].1 in b.titled
    ensures Set(Coming(b, outs)) <= tabs
    decreases |outs|
  {
    if outs != [] {
      var front, g := outs[..|outs| - 1], outs[|outs| - 1];
      ComingHeld(b, tabs, front);
      SetAppend(Coming(b, front), Members(At(b, g.0), g.1));
    }
  }

  lemma TargetIs(b: Browser, host: int, made: int)
    requires Well(b, made)
    ensures var k := Target(b, host, made);
            && k != NONE && (k == made || k in b.titled)
            && (k == made ==> Members(At(b, host), k) == [] && Leftmost(At(b, host), b.titled) == None)
  {
    LeftmostIn(At(b, host), b.titled);
    NoMembers(At(b, host), made);
  }

  lemma TargetHeld(b: Browser, c: Browser, host: int, made: int, tabs: set<int>, outs: seq<(int, int)>)
    requires Well(b, made) && Hold(b, tabs) && forall i :: 0 <= i < |outs| ==> outs[i].1 in b.titled
    requires Came(b, c, host, made, Coming(b, outs))
    ensures Set(Members(At(c, host), Target(b, host, made))) <= tabs
  {
    TargetIs(b, host, made);
    ComingHeld(b, tabs, outs);
    SetAppend(Members(At(b, host), Target(b, host, made)), Coming(b, outs));
  }

  lemma NoneMade(b: Browser, c: Browser, host: int, made: int, came: seq<int>)
    requires Well(b, made) && Came(b, c, host, made, came) && c.keep == None
    ensures forall x :: x in At(c, host) ==> x.group != made
  {
    TargetIs(b, host, made);
    MembersAre(At(c, host), made);
    forall x | x in At(c, host) ensures x.group != made {
      assert x == Tab(x.id, x.group);
    }
  }

  lemma CameMore(b: Browser, c: Browser, d: Browser, host: int, made: int, came: seq<int>, ids: seq<int>)
    requires Came(b, c, host, made, came) && ids != []
    requires made !in b.titled && (Target(b, host, made) == made ==> Leftmost(At(b, host), b.titled) == None)
    requires var k := Target(b, host, made);
             && Members(At(d, host), k) == Members(At(c, host), k) + ids
             && d.titled == (if c.keep.Some? then c.titled else c.titled + {made})
             && Leftmost(At(d, host), d.titled) == d.keep == Some(k)
    ensures Came(b, d, host, made, came + ids)
  {
    var k := Target(b, host, made);
    assert Members(At(b, host), k) + (came + ids) == Members(At(b, host), k) + came + ids;
  }

  /** The next group of the title shifts into the target. */
  lemma NextShifts(b: Browser, c: Browser, d: Browser, host: int, made: int, came: seq<int>, w: int, g: int)
    requires Well(b, made) && Came(b, c, host, made, came) && Apart(c)
    requires w != host && g in b.titled && Members(At(c, w), g) != [] && d == MoveIn(c, host, made, w, g)
    ensures Shifted(c, d, host, w, Members(At(c, w), g), Target(b, host, made))
    ensures Came(b, d, host, made, came + Members(At(c, w), g))
  {
    TargetIs(b, host, made);
    if c.keep == None { NoneMade(b, c, host, made, came); }
    MoveInShifts(c, host, made, w, g);
    CameMore(b, c, d, host, made, came, Members(At(c, w), g));
  }

  lemma InNext(outs: seq<(int, int)>, n: nat, p: (int, int))
    requires n < |outs|
    ensures p in outs[..n + 1] <==> p in outs[..n] || p == outs[n]
  {
    assert outs[..n + 1] == outs[..n] + [outs[n]];
  }

  lemma NextOuts(b: Browser, c: Browser, d: Browser, host: int, k: int, outs: seq<(int, int)>, n: nat, v: int, h: int)
    requires n < |outs| && outs[n].0 != host && Apart(c) && v != host
    requires Members(At(c, v), h) == if (v, h) in outs[..n] then [] else Members(At(b, v), h)
    requires Shifted(c, d, host, outs[n].0, Members(At(c, outs[n].0), outs[n].1), k)
    ensures Members(At(d, v), h) == if (v, h) in outs[..n + 1] then [] else Members(At(b, v), h)
  {
    var w, g := outs[n].0, outs[n].1;
    var ids := Members(At(c, w), g);
    InNext(outs, n, (v, h));
    if v == w && h == g {
      MembersSub(At(c, w), Set(ids), g);
      MinusAll(ids, Set(ids));
    } else {
      ShiftedMembers(c, d, host, w, g, ids, k, v, h);
    }
  }

  /** No tab comes into a window other than the host. */
  lemma OnlyIntoHost(c: Browser, d: Browser, host: int, w: int, ids: seq<int>, k: int, v: int)
    requires Shifted(c, d, host, w, ids, k) && v != host
    ensures forall x :: x in At(d, v) ==> x in At(c, v)
  {
    if v == w { SubIs(At(c, w), Set(ids)); } else { assert At(d, v) == At(c, v); }
  }

  lemma NextMade(c: Browser, d: Browser, host: int, made: int, w: int, ids: seq<int>, k: int)
    requires MadeIsHere(c, host, made, k) && Shifted(c, d, host, w, ids, k)
    ensures MadeIsHere(d, host, made, k)
  {
    forall v, x | x in At(d, v) ensures x.group == made ==> v == host && k == made {
      if v != host {
        OnlyIntoHost(c, d, host, w, ids, k, v);
      } else {
        var all := All(At(c, host), ids, k);
        if x.id !in all { Untouched(At(c, host), At(d, host), all, x); }
      }
    }
  }

  lemma NextRest(b: Browser, c: Browser, d: Browser, host: int, w: int, ids: seq<int>, k: int, tabs: set<int>)
    requires RestStays(b, c, tabs) && Shifted(c, d, host, w, ids, k) && w != host
    requires Set(Members(At(c, host), k)) <= tabs && Set(ids) <= tabs
    ensures RestStays(b, d, tabs)
  {
    forall v ensures Sub(At(d, v), tabs) == Sub(At(b, v), tabs) {
      ShiftedRest(c, d, host, w, ids, k, tabs, v);
    }
  }

  lemma NextOthers(b: Browser, c: Browser, d: Browser, host: int, w: int, g: int, k: int)
    requires OthersStay(b, c, host, k) && Shifted(c, d, host, w, Members(At(c, w), g), k) && w != host && Apart(c)
    ensures OthersStay(b, d, host, k)
  {
    forall h | h in b.titled && h != k ensures Members(At(d, host), h) == Members(At(b, host), h) {
      ShiftedMembers(c, d, host, w, g, Members(At(c, w), g), k, host, h);
    }
  }

  lemma {:induction false} TitledSub(s: Strip, gone: set<int>, titled: set<int>)
    requires forall x :: x in s && x.id in gone ==> x.group !in titled
    ensures TitledIn(Sub(s, gone), titled) == TitledIn(s, titled)
  {
    if s != [] {
      var n := |s| - 1;
      TitledSub(s[..n], gone, titled);
      assert s == s[..n] + [s[n]];
      SubAppend(s[..n], [s[n]], gone);
      var r := Sub(s[..n], gone);
      if s[n].id in gone {
        assert Sub([s[n]], gone) == [] && r + [] == r && s[n] in s;
      } else {
        assert Sub([s[n]], gone) == [s[n]] && (r + [s[n]])[..|r|] == r;
      }
    }
  }

  lemma NextOrder(b: Browser, c: Browser, d: Browser, host: int, w: int, ids: seq<int>, k: int)
    requires OrderStays(b, c, host, k) && Shifted(c, d, host, w, ids, k) && Apart(c)
    requires forall id :: id in ids ==> !Has(At(c, host), id)
    ensures OrderStays(b, d, host, k)
  {
    var s, t, rest := At(c, host), At(d, host), b.titled - {k};
    var all := All(s, ids, k);
    MembersAre(s, k);
    assert Unique(s);
    forall x | x in s && x.id in all ensures x.group == k {
      HasTab(s, x);
      OneTab(s, x, Tab(x.id, k));
    }
    TitledSub(s, all, rest);
    TitledSub(t, all, rest);
  }

  /** It is the outside group it was, and it is there still. */
  lemma NextIsThere(b: Browser, c: Browser, host: int, outs: seq<(int, int)>, n: nat)
    requires Outside(b, host, outs) && n < |outs| && OutsAre(b, c, host, outs, n)
    ensures Members(At(c, outs[n].0), outs[n].1) == Members(At(b, outs[n].0), outs[n].1)
  {
    assert outs[n] !in outs[..n];
    assert outs[n] == (outs[n].0, outs[n].1);
  }

  lemma NextCameIn(b: Browser, c: Browser, host: int, made: int, tabs: set<int>, outs: seq<(int, int)>, n: nat)
    requires Well(b, made) && Outside(b, host, outs) && Hold(b, tabs) && n < |outs|
             && CameIn(b, c, host, made, tabs, outs, n)
    requires Members(At(b, outs[n].0), outs[n].1) != []
    ensures CameIn(b, MoveIn(c, host, made, outs[n].0, outs[n].1), host, made, tabs, outs, n + 1)
  {
    var w, g, k := outs[n].0, outs[n].1, Target(b, host, made);
    var d, ids := MoveIn(c, host, made, w, g), Members(At(b, w), g);
    NextIsThere(b, c, host, outs, n);
    NextShifts(b, c, d, host, made, Coming(b, outs[..n]), w, g);
    ComingNext(b, outs, n);
    TargetHeld(b, c, host, made, tabs, outs[..n]);
    NextRest(b, c, d, host, w, ids, k, tabs);
    MembersHere(At(c, w), g);
    ShiftedApart(c, d, host, w, ids, k);
    NextOrder(b, c, d, host, w, ids, k);
    NextMade(c, d, host, made, w, ids, k);
    NextOthers(b, c, d, host, w, g, k);
    forall v, h | v != host && h in b.titled
      ensures Members(At(d, v), h) == if (v, h) in outs[..n + 1] then [] else Members(At(b, v), h)
    {
      NextOuts(b, c, d, host, k, outs, n, v, h);
    }
  }

  lemma MembersHere(s: Strip, g: int)
    ensures forall id :: id in Members(s, g) ==> Has(s, id)
  {
    MembersAre(s, g);
    forall id | id in Members(s, g) ensures Has(s, id) {
      HasTab(s, Tab(id, g));
    }
  }

  /** A listed group that has no tabs changes nothing. */
  lemma NextIsGone(b: Browser, c: Browser, host: int, outs: seq<(int, int)>, n: nat)
    requires Outside(b, host, outs) && n < |outs| && OutsAre(b, c, host, outs, n)
    requires Members(At(b, outs[n].0), outs[n].1) == []
    ensures OutsAre(b, c, host, outs, n + 1) && Coming(b, outs[..n + 1]) == Coming(b, outs[..n])
    ensures Members(At(c, outs[n].0), outs[n].1) == []
  {
    NextIsThere(b, c, host, outs, n);
    ComingNext(b, outs, n);
    assert outs[..n + 1] == outs[..n] + [outs[n]];
    forall w, g | w != host && g in b.titled
      ensures Members(At(c, w), g) == if (w, g) in outs[..n + 1] then [] else Members(At(b, w), g)
    {
      assert (w, g) in outs[..n + 1] <==> (w, g) in outs[..n] || (w, g) == outs[n];
    }
  }

  lemma NextStands(b: Browser, c: Browser, host: int, made: int, tabs: set<int>, outs: seq<(int, int)>, n: nat)
    requires Well(b, made) && Outside(b, host, outs) && Hold(b, tabs) && n < |outs|
             && CameIn(b, c, host, made, tabs, outs, n)
    ensures CameIn(b, MoveIn(c, host, made, outs[n].0, outs[n].1), host, made, tabs, outs, n + 1)
  {
    if Members(At(b, outs[n].0), outs[n].1) == [] {
      NextIsGone(b, c, host, outs, n);
    } else {
      NextCameIn(b, c, host, made, tabs, outs, n);
    }
  }

  lemma MoveNext(c: Browser, host: int, made: int, outs: seq<(int, int)>, n: nat) returns (d: Browser)
    requires n < |outs|
    ensures d == MoveIn(c, host, made, outs[n].0, outs[n].1)
    ensures MoveAllIn(c, host, made, outs[n..]) == MoveAllIn(d, host, made, outs[n + 1..])
  {
    d := MoveIn(c, host, made, outs[n].0, outs[n].1);
    assert outs[n..][0] == outs[n] && outs[n..][1..] == outs[n + 1..];
  }

  lemma {:induction false} AllCameIn(b: Browser, c: Browser, e: Browser, host: int, made: int, tabs: set<int>,
      outs: seq<(int, int)>, n: nat)
    requires Well(b, made) && Outside(b, host, outs) && Hold(b, tabs) && n <= |outs|
             && CameIn(b, c, host, made, tabs, outs, n)
    requires e == MoveAllIn(c, host, made, outs[n..])
    ensures CameIn(b, e, host, made, tabs, outs, |outs|)
    decreases |outs| - n
  {
    if n == |outs| {
      assert outs[n..] == [] && e == c;
    } else {
      var d := MoveNext(c, host, made, outs, n);
      NextStands(b, c, host, made, tabs, outs, n);
      AllCameIn(b, d, e, host, made, tabs, outs, n + 1);
    }
  }

  lemma {:induction false} FirstTitled(s: Strip, titled: set<int>)
    ensures First(TitledIn(s, titled)) == Leftmost(s, titled)
  {
    if s != [] {
      var n := |s| - 1;
      FirstTitled(s[..n], titled);
      assert s == s[..n] + [s[n]];
      LeftmostAppend(s[..n], [s[n]], titled);
      assert Leftmost([s[n]], titled) == if s[n].group in titled then Some(s[n].group) else None;
    }
  }

  lemma StartCame(b: Browser, host: int, made: int)
    requires Well(b, made)
    ensures Came(b, Start(b, host), host, made, [])
  {
    FirstTitled(At(b, host), b.titled);
    TargetIs(b, host, made);
    assert Members(At(b, host), Target(b, host, made)) + [] == Members(At(b, host), Target(b, host, made));
  }

  lemma StartsOut(b: Browser, host: int, made: int, tabs: set<int>, outs: seq<(int, int)>)
    requires Well(b, made)
    ensures CameIn(b, Start(b, host), host, made, tabs, outs, 0)
  {
    StartCame(b, host, made);
    forall w ensures At(Start(b, host), w) == At(b, w) {
    }
    assert Coming(b, outs[..0]) == [];
  }
}
