/** tab-groups.js as it runs: one tab-strip edit after the other. */
module Gatherer {
  import opened Prelude
  import opened TabGroups
  import T = TabGroupsTheorems

  /** chrome.tabs.move: one tab to the end of the host, in no group there. */
  function MoveTab(b: Browser, host: int, w: int, id: int): Browser {
    Between(b, w, Sub(At(b, w), {id}), host, At(b, host) + [Tab(id, NONE)])
  }

  lemma BetweenTwice(b: Browser, w: int, r: Strip, host: int, h: Strip, r2: Strip, h2: Strip)
    requires w != host
    ensures Between(Between(b, w, r, host, h), w, r2, host, h2) == Between(b, w, r2, host, h2)
    ensures At(Between(b, w, r, host, h), w) == r && At(Between(b, w, r, host, h), host) == h
  {
    assert Between(Between(b, w, r, host, h), w, r2, host, h2).strips == Between(b, w, r2, host, h2).strips;
  }

  lemma DetachNext(b: Browser, host: int, w: int, ids: seq<int>, k: nat)
    requires w != host && k < |ids|
    ensures MoveTab(if k == 0 then b else Detach(b, host, w, ids[..k]), host, w, ids[k]) == Detach(b, host, w, ids[..k + 1])
  {
    var front, id := ids[..k], ids[k];
    assert ids[..k + 1] == front + [id];
    assert Set(front + [id]) == Set(front) + {id};
    assert Loose(front + [id]) == Loose(front) + [Tab(id, NONE)];
    assert At(b, host) + Loose(front) + [Tab(id, NONE)] == At(b, host) + Loose(front + [id]);
    if k > 0 {
      var r, h := Sub(At(b, w), Set(front)), At(b, host) + Loose(front);
      T.SubSub(At(b, w), Set(front), {id});
      BetweenTwice(b, w, r, host, h, Sub(r, {id}), h + [Tab(id, NONE)]);
    } else {
      assert Set(front) + {id} == {id} && At(b, host) + Loose(front) == At(b, host);
    }
  }

  class Profile {
    var strips: map<int, Strip>
    var titled: set<int>

    constructor (strips: map<int, Strip>, titled: set<int>)
      ensures this.strips == strips && this.titled == titled
    {
      this.strips, this.titled := strips, titled;
    }

    function View(keep: Option<int>): Browser
      reads this
    {
      Browser(strips, titled, keep)
    }

    /** groupTabs: the group call, then every move its plan asks for. */
    method GroupTabs(w: int, ids: seq<int>, g: int, isNew: bool)
      modifies this`strips
      ensures strips == old(strips)[w := TabGroups.GroupTabs(At(old(View(None)), w), ids, g, isNew)]
    {
      var s := Group(At(View(None), w), ids, g, isNew);
      var moves := Moves(Members(s, g), ids);
      ghost var done := PutAll(s, moves, g);
      for k := 0 to |moves|
        invariant PutAll(s, moves[k..], g) == done
      {
        assert moves[k..][0] == moves[k] && moves[k..][1..] == moves[k + 1..];
        s := Put(s, moves[k], g);
      }
      assert moves[|moves|..] == [];
      strips := strips[w := s];
    }

    /** The tabs `ids` of a window to the end of the host, one at a time. */
    method MoveTabs(host: int, w: int, ids: seq<int>)
      requires w != host && ids != []
      modifies this`strips
      ensures View(None) == Detach(old(View(None)), host, w, ids)
    {
      ghost var b := View(None);
      for k := 0 to |ids|
        invariant View(None) == if k == 0 then b else Detach(b, host, w, ids[..k])
      {
        DetachNext(b, host, w, ids, k);
        ghost var before := View(None);
        strips := MoveTab(View(None), host, w, ids[k]).strips;
        assert View(None) == MoveTab(before, host, w, ids[k]);
      }
      assert ids[..|ids|] == ids;
    }

    /** moveGroupTabsIn: the group's tabs into the host's leftmost group of the
        title, or a new one. */
    method MoveGroupTabsIn(host: int, made: int, w: int, g: int, keep: Option<int>) returns (kept: Option<int>,
        count: nat)
      requires w != host
      modifies this
      ensures View(kept) == MoveIn(old(View(keep)), host, made, w, g)
      ensures count == |Members(At(old(View(keep)), w), g)|
    {
      ghost var b := View(keep);
      var ids := Members(At(View(keep), w), g);
      count := |ids|;
      if ids == [] { return keep, 0; }
      MoveTabs(host, w, ids);
      assert View(keep) == Detach(b, host, w, ids);
      var existing := Leftmost(At(View(None), host), titled);
      var into := if existing.Some? then existing.value else made;
      GroupTabs(host, ids, into, existing.None?);
      if existing.None? { titled := titled + {made}; }
      kept := Some(into);
      assert View(kept).strips == MoveIn(b, host, made, w, g).strips;
    }

    /** The host's other groups of the title, one call each. */
    method FoldOthers(host: int, keep: int, others: seq<int>)
      modifies this`strips
      ensures strips == old(strips)[host := Fold(At(old(View(None)), host), keep, others)]
    {
      var s := At(View(None), host);
      ghost var folded := Fold(s, keep, others);
      for k := 0 to |others|
        invariant Fold(s, keep, others[k..]) == folded
      {
        assert others[k..][0] == others[k] && others[k..][1..] == others[k + 1..];
        s := PutAll(s, Members(s, others[k]), keep);
      }
      assert others[|others|..] == [];
      strips := strips[host := s];
    }

    /** gatherGroup, over the groups of the title the browser lists outside the
        host. */
    method GatherGroup(host: int, made: int, outs: seq<(int, int)>) returns (keep: Option<int>, tabsMoved: nat)
      requires forall i :: 0 <= i < |outs| ==> outs[i].0 != host
      modifies this
      ensures View(keep) == Gather(old(View(None)), host, made, outs)
      ensures tabsMoved == MovedTabs(Start(old(View(None)), host), host, made, outs)
    {
      ghost var b := View(None);
      keep := First(TitledIn(At(View(None), host), titled));
      ghost var c := Start(b, host);
      tabsMoved := 0;
      for k := 0 to |outs|
        invariant MoveAllIn(View(keep), host, made, outs[k..]) == MoveAllIn(c, host, made, outs)
        invariant tabsMoved + MovedTabs(View(keep), host, made, outs[k..]) == MovedTabs(c, host, made, outs)
      {
        assert outs[k..][0] == outs[k] && outs[k..][1..] == outs[k + 1..];
        var count;
        keep, count := MoveGroupTabsIn(host, made, outs[k].0, outs[k].1, keep);
        tabsMoved := tabsMoved + count;
      }
      assert outs[|outs|..] == [] && outs[0..] == outs;
      ghost var m := View(keep);
      assert m == MoveAllIn(c, host, made, outs);
      var here := TitledIn(At(View(keep), host), titled);
      if here != [] {
        keep := if keep.Some? && keep.value in here then keep else Some(here[0]);
        FoldOthers(host, keep.value, Minus(here, {keep.value}));
      }
    }
  }
}
