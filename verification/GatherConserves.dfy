/** Gathering conserves tabs: every group of the title becomes one, its members
    those of the old ones, and nothing else moves. */
module GatherConserves {
  import opened Prelude
  import opened TabGroups
  import opened TabGroupsTheorems
  import opened GatherTheorems

  /* ---- the fold ---- */

  /** The members of the groups `others`, group by group. */
  ghost function Gathered(s: Strip, others: seq<int>): seq<int>
    decreases |others|
  {
    if others == [] then [] else Members(s, others[0]) + Gathered(s, others[1..])
  }

  lemma {:induction false} GatheredAre(s: Strip, others: seq<int>, id: int)
    ensures id in Gathered(s, others) <==> exists i :: 0 <= i < |others| && id in Members(s, others[i])
    decreases |others|
  {
    if others != [] {
      var rest := others[1..];
      GatheredAre(s, rest, id);
      forall i | 0 <= i < |others| && id in Members(s, others[i]) ensures id in Gathered(s, others) {
        if i > 0 { assert rest[i - 1] == others[i]; }
      }
    }
  }

  lemma {:induction false} SameGathered(s: Strip, t: Strip, others: seq<int>)
    requires forall i :: 0 <= i < |others| ==> Members(t, others[i]) == Members(s, others[i])
    ensures Gathered(t, others) == Gathered(s, others)
    decreases |others|
  {
    if others != [] { SameGathered(s, t, others[1..]); }
  }

  lemma GroupsApart(s: Strip, g: int, h: int)
    requires Unique(s) && g != h
    ensures forall id :: id in Members(s, g) ==> id !in Members(s, h)
  {
    MembersAre(s, g);
    MembersAre(s, h);
    forall id | id in Members(s, g) && id in Members(s, h) ensures false {
      OneTab(s, Tab(id, g), Tab(id, h));
    }
  }

  lemma FoldOne(s: Strip, k: int, o: int, h: int)
    requires Unique(s) && o != k && h != k && h != o
    ensures Members(PutAll(s, Members(s, o), k), h) == Members(s, h)
  {
    var ids := Members(s, o);
    MembersDistinct(s, o);
    PutAllJoins(s, ids, k);
    GroupsApart(s, h, o);
    OtherMembers(s, PutAll(s, ids, k), Set(ids), h);
    MinusNone(Members(s, h), Set(ids));
  }

  lemma {:induction false} FoldJoins(s: Strip, k: int, others: seq<int>)
    requires Unique(s) && Distinct(others) && k !in others
    ensures Joined(s, Fold(s, k, others), Gathered(s, others), k)
    decreases |others|
  {
    if others == [] {
      PutAllJoins(s, [], k);
    } else {
      var o, rest := others[0], others[1..];
      var ids := Members(s, o);
      var t := PutAll(s, ids, k);
      MembersDistinct(s, o);
      PutAllJoins(s, ids, k);
      forall i | 0 <= i < |rest| ensures Members(t, rest[i]) == Members(s, rest[i]) {
        assert rest[i] == others[i + 1];
        FoldOne(s, k, o, rest[i]);
      }
      SameGathered(s, t, rest);
      FoldJoins(t, k, rest);
      forall id | id in ids ensures id !in Gathered(s, rest) {
        GatheredAre(s, rest, id);
        forall i | 0 <= i < |rest| ensures id !in Members(s, rest[i]) {
          assert rest[i] == others[i + 1];
          GroupsApart(s, o, rest[i]);
        }
      }
      JoinedThen(s, t, Fold(s, k, others), ids, Gathered(s, rest), k);
    }
  }

  lemma {:induction false} TitledDistinct(s: Strip, titled: set<int>)
    ensures Distinct(TitledIn(s, titled))
    ensures forall g :: g in TitledIn(s, titled) <==> g in titled && Members(s, g) != []
  {
    if s != [] {
      var n := |s| - 1;
      TitledDistinct(s[..n], titled);
      assert s == s[..n] + [s[n]];
      forall g ensures Members(s, g) == Members(s[..n], g) + if s[n].group == g then [s[n].id] else [] {
        MembersAppend(s[..n], [s[n]], g);
      }
    }
  }

  lemma {:induction false} TitledMinus(s: Strip, titled: set<int>, k: int)
    ensures Minus(TitledIn(s, titled), {k}) == TitledIn(s, titled - {k})
  {
    if s != [] {
      var n := |s| - 1;
      TitledMinus(s[..n], titled, k);
      var front, g := TitledIn(s[..n], titled), s[n].group;
      MinusIs(front, {k});
      MinusAppend(front, [g], {k});
      assert Minus([g], {k}) == if g == k then [] else [g];
    }
  }

  /* ---- the whole gather ---- */

  lemma {:induction false} ComingAre(b: Browser, outs: seq<(int, int)>, id: int)
    ensures id in Coming(b, outs) <==> exists i :: 0 <= i < |outs| && id in Members(At(b, outs[i].0), outs[i].1)
    decreases |outs|
  {
    if outs != [] {
      var n := |outs| - 1;
      ComingAre(b, outs[..n], id);
      forall i | 0 <= i < |outs| && id in Members(At(b, outs[i].0), outs[i].1) ensures id in Coming(b, outs) {
        if i < n { assert outs[..n][i] == outs[i]; }
      }
    }
  }

  /** The host's own groups of the title other than `k`, left to right. */
  ghost function Others(b: Browser, host: int, k: int): seq<int> { TitledIn(At(b, host), b.titled - {k}) }

  /** A tab of the title was in the target, is outside, or is in another group of
      the host. */
  lemma WhereItWas(b: Browser, host: int, made: int, outs: seq<(int, int)>, w: int, x: Tab)
    requires Well(b, made) && Outside(b, host, outs) && x in At(b, w) && x.group in b.titled
    ensures var k := Target(b, host, made);
            x.id in Members(At(b, host), k) || x.id in Coming(b, outs) || x.id in Gathered(At(b, host), Others(b, host, k))
  {
    var k, g, s := Target(b, host, made), x.group, At(b, host);
    MembersAre(At(b, w), g);
    assert x == Tab(x.id, g);
    if w != host {
      var i :| 0 <= i < |outs| && outs[i] == (w, g);
      ComingAre(b, outs, x.id);
    } else if g != k {
      TitledDistinct(s, b.titled - {k});
      var others := Others(b, host, k);
      assert g in others;
      var i :| 0 <= i < |others| && others[i] == g;
      GatheredAre(s, others, x.id);
    }
  }

  lemma SomethingIsKept(b: Browser, host: int, made: int, outs: seq<(int, int)>, tabs: set<int>)
    requires Well(b, made) && Outside(b, host, outs) && Covers(b, tabs) && tabs != {}
    ensures Kept(b, host, made, Coming(b, outs)) == Some(Target(b, host, made))
  {
    var id := Pick(tabs);
    assert InTitle(b, id);
    var w, x :| x in At(b, w) && x.id == id && x.group in b.titled;
    LeftmostIn(At(b, host), b.titled);
    if w != host {
      WhereItWas(b, host, made, outs, w, x);
      TargetIs(b, host, made);
      var i :| 0 <= i < |outs| && outs[i] == (w, x.group);
      MembersAre(At(b, w), x.group);
      assert x == Tab(x.id, x.group);
      ComingAre(b, outs, id);
    }
  }

  lemma CoversHolds(b: Browser, tabs: set<int>)
    requires Covers(b, tabs)
    ensures Hold(b, tabs)
  {
    forall w, g | g in b.titled ensures Set(Members(At(b, w), g)) <= tabs {
      MembersAre(At(b, w), g);
      forall id | id in Members(At(b, w), g) ensures id in tabs {
        assert Tab(id, g) in At(b, w) && InTitle(b, id);
      }
    }
  }

  /** The gather, once every outside group came in as `m`. */
  lemma FoldIs(b: Browser, m: Browser, host: int, made: int, outs: seq<(int, int)>, k: int)
    requires m == MoveAllIn(Start(b, host), host, made, outs)
    requires Leftmost(At(m, host), m.titled) == m.keep == Some(k)
    ensures var f := Gather(b, host, made, outs);
            && f.keep == Some(k)
            && At(f, host) == Fold(At(m, host), k, TitledIn(At(m, host), m.titled - {k}))
            && forall w :: w != host ==> At(f, w) == At(m, w)
  {
    FirstTitled(At(m, host), m.titled);
    TitledMinus(At(m, host), m.titled, k);
  }

  /** The fold of what came in, told of the browser as it was. */
  lemma FoldFromStart(b: Browser, m: Browser, host: int, made: int, tabs: set<int>, outs: seq<(int, int)>, t: Strip)
    requires Well(b, made) && Outside(b, host, outs) && Hold(b, tabs) && CameIn(b, m, host, made, tabs, outs, |outs|)
    requires m.keep.Some? && t == Fold(At(m, host), m.keep.value, TitledIn(At(m, host), m.titled - {m.keep.value}))
    ensures var k := Target(b, host, made);
            var gathered := Gathered(At(b, host), Others(b, host, k));
            && Members(t, k) == Members(At(b, host), k) + Coming(b, outs) + gathered
            && Joined(At(m, host), t, gathered, k) && Set(gathered) <= tabs
  {
    var k, s := Target(b, host, made), At(m, host);
    assert outs[..|outs|] == outs;
    assert m.titled - {k} == b.titled - {k};
    assert Unique(s);
    FoldOthers(b, s, host, k, tabs);
  }

  lemma FoldOthers(b: Browser, s: Strip, host: int, k: int, tabs: set<int>)
    requires Unique(s) && Hold(b, tabs)
    requires forall g :: g in b.titled && g != k ==> Members(s, g) == Members(At(b, host), g)
    ensures var others := Others(b, host, k);
            var t, gathered := Fold(s, k, others), Gathered(At(b, host), others);
            Members(t, k) == Members(s, k) + gathered && Joined(s, t, gathered, k) && Set(gathered) <= tabs
  {
    var others := Others(b, host, k);
    TitledDistinct(At(b, host), b.titled - {k});
    FoldJoins(s, k, others);
    forall i | 0 <= i < |others| ensures others[i] in b.titled && others[i] != k {
      assert others[i] in others;
    }
    SameGathered(At(b, host), s, others);
    var gathered := Gathered(s, others);
    forall id | id in gathered ensures id in tabs && id !in Members(s, k) {
      GatheredAre(s, others, id);
      var i :| 0 <= i < |others| && id in Members(s, others[i]);
      GroupsApart(s, others[i], k);
      assert Set(Members(At(b, host), others[i])) <= tabs;
    }
    MinusNone(Members(s, k), Set(gathered));
  }

  /** No tab of the title is left outside the kept group. */
  lemma AllAreKept(b: Browser, host: int, made: int, outs: seq<(int, int)>, tabs: set<int>, members: seq<int>)
    requires Well(b, made) && Outside(b, host, outs) && Covers(b, tabs)
    requires var k := Target(b, host, made);
             members == Members(At(b, host), k) + Coming(b, outs) + Gathered(At(b, host), Others(b, host, k))
    ensures forall id :: id in tabs ==> id in members
  {
    forall id | id in tabs ensures id in members {
      assert InTitle(b, id);
      var w, x :| x in At(b, w) && x.id == id && x.group in b.titled;
      WhereItWas(b, host, made, outs, w, x);
    }
  }

  lemma MembersHeld(b: Browser, host: int, made: int, outs: seq<(int, int)>, tabs: set<int>, gathered: seq<int>)
    requires Well(b, made) && Outside(b, host, outs) && Hold(b, tabs) && Set(gathered) <= tabs
    ensures Set(Members(At(b, host), Target(b, host, made)) + Coming(b, outs) + gathered) <= tabs
  {
    TargetIs(b, host, made);
    ComingHeld(b, tabs, outs);
    SetAppend(Members(At(b, host), Target(b, host, made)), Coming(b, outs));
    SetAppend(Members(At(b, host), Target(b, host, made)) + Coming(b, outs), gathered);
  }

  /** The windows that gave their tabs keep all the others, in their order. */
  lemma LeftBehind(b: Browser, m: Browser, t: Strip, host: int, w: int, k: int, gathered: seq<int>, tabs: set<int>)
    requires Apart(m) && RestStays(b, m, tabs) && w != host
    requires Joined(At(m, host), t, gathered, k)
    requires (forall id :: id in tabs ==> id in Members(t, k)) && forall id :: id in gathered ==> Has(At(m, host), id)
    ensures At(m, w) == Sub(At(b, w), tabs)
  {
    MembersAre(At(m, host), k);
    MinusIs(Members(At(m, host), k), Set(gathered));
    forall id | id in tabs ensures Has(At(m, host), id) {
      if id in Members(At(m, host), k) { HasTab(At(m, host), Tab(id, k)); }
    }
    forall x | x in At(m, w) ensures x.id !in tabs {
      HasTab(At(m, w), x);
    }
    SubNone(At(m, w), tabs);
  }

  /** What a gather leaves: one group of the title, in the host, with the tabs
      `members`; every other tab where it was. */
  ghost predicate GatheredInto(b: Browser, f: Browser, host: int, k: int, members: seq<int>, tabs: set<int>) {
    && f.keep == Some(k)
    && Members(At(f, host), k) == members
    && (forall id :: id in tabs <==> id in members)
    && Sub(At(f, host), tabs) == Sub(At(b, host), tabs)
    && (forall w :: w != host ==> At(f, w) == Sub(At(b, w), tabs))
    && Unique(At(f, host))
  }

  lemma GatheredHere(s: Strip, gathered: seq<int>, others: seq<int>)
    requires gathered == Gathered(s, others)
    ensures forall id :: id in gathered ==> Has(s, id)
  {
    forall id | id in gathered ensures Has(s, id) {
      GatheredAre(s, others, id);
      var i :| 0 <= i < |others| && id in Members(s, others[i]);
      MembersHere(s, others[i]);
    }
  }

  /** What a fold of tabs already in the host leaves, given where the others are. */
  lemma FoldLeaves(b: Browser, m: Browser, f: Browser, host: int, k: int, gathered: seq<int>, members: seq<int>,
      tabs: set<int>)
    requires Apart(m) && RestStays(b, m, tabs) && f.keep == Some(k) && Members(At(f, host), k) == members
    requires Joined(At(m, host), At(f, host), gathered, k) && Set(gathered) <= tabs
    requires (forall id :: id in tabs <==> id in members) && forall id :: id in gathered ==> Has(At(m, host), id)
    requires forall w :: w != host ==> At(f, w) == At(m, w)
    ensures GatheredInto(b, f, host, k, members, tabs)
  {
    SubMore(At(m, host), At(f, host), Set(gathered), tabs);
    forall w | w != host ensures At(f, w) == Sub(At(b, w), tabs) {
      LeftBehind(b, m, At(f, host), host, w, k, gathered, tabs);
    }
  }

  lemma SameTabs(b: Browser, host: int, made: int, outs: seq<(int, int)>, tabs: set<int>, gathered: seq<int>,
      members: seq<int>)
    requires Well(b, made) && Outside(b, host, outs) && Covers(b, tabs) && Hold(b, tabs) && Set(gathered) <= tabs
    requires var k := Target(b, host, made);
             gathered == Gathered(At(b, host), Others(b, host, k)) && members == Members(At(b, host), k) + Coming(b, outs) + gathered
    ensures forall id :: id in tabs <==> id in members
  {
    AllAreKept(b, host, made, outs, tabs, members);
    MembersHeld(b, host, made, outs, tabs, gathered);
    forall id | id in members ensures id in tabs {
      assert id in Set(members);
    }
  }

  lemma GatheredStay(b: Browser, m: Browser, host: int, k: int)
    requires OthersStay(b, m, host, k)
    ensures forall id :: id in Gathered(At(b, host), Others(b, host, k)) ==> Has(At(m, host), id)
  {
    var others := Others(b, host, k);
    TitledDistinct(At(b, host), b.titled - {k});
    forall i | 0 <= i < |others| ensures Members(At(m, host), others[i]) == Members(At(b, host), others[i]) {
      assert others[i] in others;
    }
    SameGathered(At(b, host), At(m, host), others);
    GatheredHere(At(m, host), Gathered(At(m, host), others), others);
  }

  /** All groups of the title become one in the host: the host's leftmost one, or
      a new one when it had none. Its members are those it had, then the outside
      groups' tabs, then those of the host's other groups, each group's in its own
      order; every other tab keeps its window and its place among the others. */
  lemma GatherConserves(b: Browser, host: int, made: int, tabs: set<int>, outs: seq<(int, int)>)
    requires Well(b, made) && Outside(b, host, outs) && Covers(b, tabs) && tabs != {}
    ensures var k := Target(b, host, made);
            GatheredInto(b, Gather(b, host, made, outs), host, k,
              Members(At(b, host), k) + Coming(b, outs) + Gathered(At(b, host), Others(b, host, k)), tabs)
  {
    var c := Start(b, host);
    var m := MoveAllIn(c, host, made, outs);
    CoversHolds(b, tabs);
    StartsOut(b, host, made, tabs, outs);
    assert outs[0..] == outs && outs[..|outs|] == outs;
    AllCameIn(b, c, m, host, made, tabs, outs, 0);
    SomethingIsKept(b, host, made, outs, tabs);
    FoldIs(b, m, host, made, outs, Target(b, host, made));
    var f, k := Gather(b, host, made, outs), Target(b, host, made);
    var gathered := Gathered(At(b, host), Others(b, host, k));
    FoldFromStart(b, m, host, made, tabs, outs, At(f, host));
    SameTabs(b, host, made, outs, tabs, gathered, Members(At(f, host), k));
    GatheredStay(b, m, host, k);
    FoldLeaves(b, m, f, host, k, gathered, Members(At(f, host), k), tabs);
  }

  lemma CountNext(b: Browser, c: Browser, host: int, made: int, outs: seq<(int, int)>, n: nat) returns (d: Browser)
    requires Outside(b, host, outs) && n < |outs| && OutsAre(b, c, host, outs, n)
    ensures d == MoveIn(c, host, made, outs[n].0, outs[n].1)
    ensures |Coming(b, outs[..n])| + MovedTabs(c, host, made, outs[n..])
         == |Coming(b, outs[..n + 1])| + MovedTabs(d, host, made, outs[n + 1..])
  {
    NextIsThere(b, c, host, outs, n);
    ComingNext(b, outs, n);
    d := MoveIn(c, host, made, outs[n].0, outs[n].1);
    assert outs[n..][0] == outs[n] && outs[n..][1..] == outs[n + 1..];
  }

  lemma CountNone(b: Browser, c: Browser, host: int, made: int, outs: seq<(int, int)>)
    ensures MovedTabs(c, host, made, outs[|outs|..]) == 0 && Coming(b, outs[..|outs|]) == Coming(b, outs)
  {
    assert outs[|outs|..] == [] && outs[..|outs|] == outs;
  }

  lemma {:induction false} AllCounted(b: Browser, c: Browser, count: nat, host: int, made: int, tabs: set<int>,
      outs: seq<(int, int)>, n: nat)
    requires Well(b, made) && Outside(b, host, outs) && Hold(b, tabs) && n <= |outs|
             && CameIn(b, c, host, made, tabs, outs, n)
    requires count == MovedTabs(c, host, made, outs[n..])
    ensures |Coming(b, outs[..n])| + count == |Coming(b, outs)|
    decreases |outs| - n
  {
    if n == |outs| {
      CountNone(b, c, host, made, outs);
    } else {
      var d := CountNext(b, c, host, made, outs, n);
      NextStands(b, c, host, made, tabs, outs, n);
      AllCounted(b, d, MovedTabs(d, host, made, outs[n + 1..]), host, made, tabs, outs, n + 1);
    }
  }

  /** The count a gather reports is that of the title's tabs outside the host. */
  lemma EveryTabIsCounted(b: Browser, host: int, made: int, tabs: set<int>, outs: seq<(int, int)>)
    requires Well(b, made) && Outside(b, host, outs) && Covers(b, tabs)
    ensures MovedTabs(Start(b, host), host, made, outs) == |Coming(b, outs)|
  {
    CoversHolds(b, tabs);
    StartsOut(b, host, made, tabs, outs);
    assert outs[0..] == outs && Coming(b, outs[..0]) == [];
    AllCounted(b, Start(b, host), MovedTabs(Start(b, host), host, made, outs), host, made, tabs, outs, 0);
  }

  /** No window without tabs is there, but perhaps the host. */
  ghost predicate NoneEmpty(b: Browser, host: int) { forall w :: w in b.strips && w != host ==> b.strips[w] != [] }

  lemma InLeavesNoneEmpty(b: Browser, host: int, made: int, w: int, g: int)
    requires NoneEmpty(b, host) && w != host
    ensures var m := MoveIn(b, host, made, w, g);
            NoneEmpty(m, host) && forall v :: v in m.strips ==> v in b.strips || v == host
  {
  }

  lemma {:induction false} AllInLeaveNoneEmpty(b: Browser, host: int, made: int, outs: seq<(int, int)>)
    requires NoneEmpty(b, host) && forall o :: o in outs ==> o.0 != host
    ensures var m := MoveAllIn(b, host, made, outs);
            NoneEmpty(m, host) && forall w :: w in m.strips ==> w in b.strips || w == host
    decreases |outs|
  {
    if outs != [] {
      assert outs[0] in outs;
      InLeavesNoneEmpty(b, host, made, outs[0].0, outs[0].1);
      AllInLeaveNoneEmpty(MoveIn(b, host, made, outs[0].0, outs[0].1), host, made, outs[1..]);
    }
  }

  /** A window that lost its last tab to the gather is closed, and none opens. */
  lemma EmptiedWindowsClose(b: Browser, host: int, made: int, outs: seq<(int, int)>)
    requires NoneEmpty(b, host) && Outside(b, host, outs)
    ensures var f := Gather(b, host, made, outs);
            (forall w :: w != host && At(f, w) == [] ==> w !in f.strips) && (forall w :: w in f.strips ==> w in b.strips || w == host)
  {
    AllInLeaveNoneEmpty(Start(b, host), host, made, outs);
  }
}
