/** routes.mjs as it runs: the table's map, changed in place, and the listener
    that gives a moved route its new generation. */
module RouteTable {
  import opened Prelude
  import opened Lists
  import opened Handles
  import opened RouteLabels
  import opened RouteEpochs

  ghost predicate Distincts(ids: seq<string>) { forall a, b :: 0 <= a < b < |ids| ==> ids[a] != ids[b] }

  /** `ids` lists `keys`, each once: the order of a Map. */
  ghost predicate Orders(ids: seq<string>,
      keys: set<string>) { Distincts(ids) && forall id :: id in ids <==> id in keys }

  function Wanted(ms: Table, id: string): string { if id in ms then Base(ms, id) else "" }

  lemma {:induction false} InDistinct(ids: seq<string>, of: string -> string, w: string)
    requires Distincts(ids)
    ensures Distincts(In(ids, of, w))
  {
    if ids != [] {
      InDistinct(Front(ids), of, w);
      forall x | x in In(Front(ids), of, w) ensures x != Last(ids) {
        assert x in Front(ids);
      }
    }
  }

  /** `group` is every route that wants `base`. */
  ghost predicate IsGroup(ms: Table, base: string, group: seq<string>) {
    Distincts(group) && group != [] && forall id :: id in group <==> id in ms && Base(ms, id) == base
  }

  lemma GroupAlone(ms: Table, base: string, group: seq<string>, k: nat)
    requires IsGroup(ms, base, group) && k < |group|
    ensures group[k] in ms && Base(ms, group[k]) == base
    ensures Alone(ms, group[k]) <==> |group| == 1
  {
    assert group[k] in group;
    if |group| > 1 {
      var o := group[if k == 0 then 1 else 0];
      assert o in group && o != group[k];
    }
  }

  lemma GroupSame(h: Hash, ms: Table, base: string, group: seq<string>, names: seq<string>, k: nat)
    requires IsGroup(ms, base, group) && k < |group| == |names|
    requires forall j :: 0 <= j < |group| ==> group[j] in ms && names[j] == Suffixed(h, ms, group[j])
    ensures group[k] in ms && (SameSuffix(h, ms, group[k]) <==> Occurs(names, names[k]) > 1)
  {
    OccursTwice(names, k);
    if SameSuffix(h, ms, group[k]) {
      var o :| o in ms && o != group[k] && Base(ms, o) == Base(ms, group[k]) && Suffixed(h, ms, o) == Suffixed(h, ms, group[k]);
      assert group[k] in group && o in group;
      var j :| 0 <= j < |group| && group[j] == o;
      assert names[j] == names[k];
    }
    if j :| 0 <= j < |names| && j != k && names[j] == names[k] {
      assert group[j] in group && group[k] in group;
    }
  }

  method SuffixGroup(h: Hash, ms: Table, base: string, group: seq<string>) returns (suffixed: seq<string>)
    requires IsGroup(ms, base, group)
    ensures |suffixed| == |group|
    ensures forall k :: 0 <= k < |group| ==> group[k] in ms && suffixed[k] == Suffixed(h, ms, group[k])
  {
    suffixed := [];
    for k := 0 to |group|
      invariant |suffixed| == k
      invariant forall j :: 0 <= j < k ==> group[j] in ms && suffixed[j] == Suffixed(h, ms, group[j])
    {
      GroupAlone(ms, base, group, k);
      var want := ms[group[k]];
      suffixed := suffixed + [base + "-" + if want.slug != "" then want.slug else h(want.key)];
    }
  }

  lemma GroupProposal(h: Hash, ms: Table, base: string, group: seq<string>, suffixed: seq<string>, k: nat)
    requires IsGroup(ms, base, group) && k < |group| == |suffixed| && |group| > 1
    requires forall j :: 0 <= j < |group| ==> group[j] in ms && suffixed[j] == Suffixed(h, ms, group[j])
    ensures Occurs(suffixed, suffixed[k]) > 0
    ensures Proposal(h, ms, group[k]) == if Occurs(suffixed, suffixed[k]) > 1 then base + "-" + h(group[k]) else suffixed[k]
  {
    GroupAlone(ms, base, group, k);
    GroupSame(h, ms, base, group, suffixed, k);
    OccursIn(suffixed, suffixed[k]);
  }

  ghost predicate Names(h: Hash, ms: Table, ids: seq<string>, names: seq<string>) {
    |names| == |ids| && forall k :: 0 <= k < |ids| ==> ids[k] in ms && names[k] == Proposal(h, ms, ids[k])
  }

  lemma NamesNext(h: Hash, ms: Table, group: seq<string>, names: seq<string>, k: nat, name: string)
    requires k < |group| && Names(h, ms, group[..k], names) && group[k] in ms && name == Proposal(h, ms, group[k])
    ensures Names(h, ms, group[..k + 1], names + [name])
  {
    assert group[..k + 1] == group[..k] + [group[k]];
    NamesJoin(h, ms, group[..k], names, [group[k]], [name]);
  }

  lemma NamesJoin(h: Hash, ms: Table, ids: seq<string>, names: seq<string>, group: seq<string>, more: seq<string>)
    requires Names(h, ms, ids, names) && Names(h, ms, group, more)
    ensures Names(h, ms, ids + group, names + more)
  {
    forall k | 0 <= k < |ids + group| ensures (ids + group)[k] in ms && (names + more)[k] == Proposal(h, ms, (ids + group)[k]) {
      if k >= |ids| { assert (ids + group)[k] == group[k - |ids|] && (names + more)[k] == more[k - |ids|]; }
    }
  }

  /** The names proposed for one group. */
  method ProposeGroup(h: Hash, ms: Table, base: string, group: seq<string>) returns (names: seq<string>)
    requires IsGroup(ms, base, group)
    ensures Names(h, ms, group, names)
  {
    if |group| == 1 {
      GroupAlone(ms, base, group, 0);
      return [base];
    }
    var suffixed := SuffixGroup(h, ms, base, group);
    var counts := CountBy(suffixed);
    names := [];
    for k := 0 to |group|
      invariant Names(h, ms, group[..k], names)
    {
      GroupProposal(h, ms, base, group, suffixed, k);
      var name := if counts[suffixed[k]] > 1 then base + "-" + h(group[k]) else suffixed[k];
      GroupAlone(ms, base, group, k);
      NamesNext(h, ms, group, names, k, name);
      names := names + [name];
    }
    assert group[..|group|] == group;
  }

  ghost predicate Proposed(h: Hash, ms: Table, ids: seq<string>, names: seq<string>) {
    Distincts(ids) && Names(h, ms, ids, names)
  }

  lemma MoreProposed(h: Hash, ms: Table, ids: seq<string>, names: seq<string>, group: seq<string>, more: seq<string>)
    requires Proposed(h, ms, ids, names) && Distincts(group) && Names(h, ms, group, more)
    requires forall id :: id in group ==> id !in ids
    ensures Proposed(h, ms, ids + group, names + more)
  {
    forall a, b | 0 <= a < b < |ids + group| ensures (ids + group)[a] != (ids + group)[b] {
      if a < |ids| <= b { assert group[b - |ids|] in group && ids[a] in ids; }
    }
    NamesJoin(h, ms, ids, names, group, more);
  }

  method GroupRoutes(ms: Table, order: seq<string>) returns (bases: seq<string>, groups: map<string, seq<string>>)
    requires Orders(order, ms.Keys)
    ensures Distincts(bases) && forall b :: b in bases ==> b in groups && IsGroup(ms, b, groups[b])
    ensures forall id :: id in ms ==> Base(ms, id) in bases
  {
    bases, groups := GroupBy(order, (id: string) => Wanted(ms, id));
    forall b | b in bases ensures IsGroup(ms, b, groups[b]) {
      InDistinct(order, (id: string) => Wanted(ms, id), b);
      IsWholeGroup(ms, order, b, groups[b]);
    }
    forall id | id in ms ensures Base(ms, id) in bases {
      assert id in order && Wanted(ms, id) == Base(ms, id);
    }
  }

  lemma IsWholeGroup(ms: Table, order: seq<string>, base: string, group: seq<string>)
    requires Orders(order, ms.Keys) && Distincts(group)
    requires forall id :: id in group <==> id in order && Wanted(ms, id) == base
    requires exists id :: id in order && Wanted(ms, id) == base
    ensures IsGroup(ms, base, group)
  {
  }

  ghost predicate Covers(ms: Table, ids: seq<string>, bases: seq<string>) {
    forall id :: id in ids <==> id in ms && Base(ms, id) in bases
  }

  method Propose(h: Hash, ms: Table, order: seq<string>) returns (ids: seq<string>, names: seq<string>)
    requires Orders(order, ms.Keys)
    ensures Proposed(h, ms, ids, names) && Orders(ids, ms.Keys)
  {
    var bases, groups := GroupRoutes(ms, order);
    ids, names := [], [];
    for k := 0 to |bases|
      invariant Proposed(h, ms, ids, names) && Covers(ms, ids, bases[..k])
    {
      ids, names := ProposeNext(h, ms, ids, names, bases, k, groups[bases[k]]);
    }
    assert bases[..|bases|] == bases;
  }

  method ProposeNext(h: Hash, ms: Table, ids: seq<string>, names: seq<string>, ghost bases: seq<string>,
      ghost k: nat, group: seq<string>)
    returns (ids': seq<string>, names': seq<string>)
    requires Proposed(h, ms, ids, names) && k < |bases| && Distincts(bases) && Covers(ms, ids, bases[..k])
    requires IsGroup(ms, bases[k], group)
    ensures Proposed(h, ms, ids', names') && Covers(ms, ids', bases[..k + 1])
  {
    var base := Wanted(ms, group[0]);
    assert group[0] in group && base == bases[k];
    var more := ProposeGroup(h, ms, base, group);
    assert bases[..k + 1] == bases[..k] + [bases[k]];
    MoreProposed(h, ms, ids, names, group, more);
    ids', names' := ids + group, names + more;
  }

  lemma NamesContested(h: Hash, ms: Table, ids: seq<string>, names: seq<string>, k: nat)
    requires Proposed(h, ms, ids, names) && Orders(ids, ms.Keys) && k < |ids|
    ensures Contested(h, ms, ids[k]) <==> Occurs(names, names[k]) > 1
  {
    OccursTwice(names, k);
    if Contested(h, ms, ids[k]) {
      var o :| o in ms && o != ids[k] && Proposal(h, ms, o) == Proposal(h, ms, ids[k]);
      assert o in ids;
      var j :| 0 <= j < |ids| && ids[j] == o;
      assert names[j] == names[k];
    }
    if j :| 0 <= j < |names| && j != k && names[j] == names[k] {
      assert ids[j] in ms && ids[j] != ids[k];
    }
  }

  /** Every label of the table, the names proposed twice told apart by hash. */
  method Decide(h: Hash, ms: Table, order: seq<string>) returns (ids: seq<string>, labels: seq<string>)
    requires Orders(order, ms.Keys)
    ensures Orders(ids, ms.Keys) && |labels| == |ids|
    ensures forall k :: 0 <= k < |ids| ==> ids[k] in ms && labels[k] == Labels(h, ms)[ids[k]]
  {
    var names;
    ids, names := Propose(h, ms, order);
    var counts := CountBy(names);
    labels := [];
    for k := 0 to |ids|
      invariant |labels| == k
      invariant forall j :: 0 <= j < k ==> ids[j] in ms && labels[j] == Labels(h, ms)[ids[j]]
    {
      NamesContested(h, ms, ids, names, k);
      OccursIn(names, names[k]);
      labels := labels + [if counts[names[k]] > 1 then names[k] + "-" + h(ids[k]) else names[k]];
    }
  }

  /** Every live route under its label. */
  function Renamed(live: map<string, Live>, labels: map<string, string>): map<string, Live> {
    map id | id in live && id in labels :: live[id].(name := Some(labels[id]))
  }

  /** `now` is `live` with the routes `done` under their labels; `announce` is
      who of them moved off a name. */
  ghost predicate Assigned(live: map<string, Live>, labels: map<string, string>, done: seq<string>,
      now: map<string, Live>, announce: seq<string>)
    requires live.Keys == labels.Keys
  {
    && now.Keys == live.Keys
    && (forall id :: id in live ==> now[id] == if id in done then live[id].(name := Some(labels[id])) else live[id])
    && Distincts(announce)
    && (forall id :: id in announce <==> id in done && Moves(live, labels, id))
  }

  lemma AssignNext(live: map<string, Live>, labels: map<string, string>, ids: seq<string>, k: nat,
      now: map<string, Live>, announce: seq<string>)
    requires live.Keys == labels.Keys && k < |ids| && ids[k] in live && Distincts(ids)
    requires Assigned(live, labels, ids[..k], now, announce)
    ensures now[ids[k]] == live[ids[k]]
    ensures var id := ids[k];
            Assigned(live, labels, ids[..k + 1],
                     now[id := now[id].(name := Some(labels[id]))],
                     if Moves(live, labels, id) then announce + [id] else announce)
  {
    assert ids[..k + 1] == ids[..k] + [ids[k]] && ids[k] !in ids[..k];
  }

  class RouteTable {
    const shortHash: Hash
    var byInstall: map<string, Live>
    var order: seq<string>
    var store: map<string, nat>

    ghost predicate Valid()
      reads this
    {
      Orders(order, byInstall.Keys)
    }

    ghost function View(): Bridge
      reads this
    {
      Bridge(store, byInstall)
    }

    constructor (h: Hash, saved: map<string, nat>)
      ensures Valid() && View() == Bridge(saved, map[]) && shortHash == h
    {
      shortHash, byInstall, order, store := h, map[], [], saved;
    }

    /** #applyLabels: every label from every wanted name; who moved off a name. */
    method ApplyLabels() returns (announce: seq<string>)
      requires Valid()
      modifies this`byInstall
      ensures Valid() && byInstall == Renamed(old(byInstall), Labels(shortHash, Wants(old(byInstall))))
      ensures Distincts(announce)
      ensures forall id :: id in announce <==> Moves(old(byInstall), Labels(shortHash, Wants(old(byInstall))), id)
    {
      var ids, labels := Decide(shortHash, Wants(byInstall), order);
      announce := Assign(ids, labels, Labels(shortHash, Wants(byInstall)));
    }

    method Assign(ids: seq<string>, labels: seq<string>,
        ghost final: map<string, string>) returns (announce: seq<string>)
      requires Distincts(ids) && |labels| == |ids| && final.Keys == byInstall.Keys
      requires forall id :: id in ids <==> id in byInstall
      requires forall k :: 0 <= k < |ids| ==> ids[k] in final && labels[k] == final[ids[k]]
      modifies this`byInstall
      ensures byInstall == Renamed(old(byInstall), final) && Distincts(announce)
      ensures forall id :: id in announce <==> Moves(old(byInstall), final, id)
    {
      announce := [];
      for k := 0 to |ids|
        invariant Assigned(old(byInstall), final, ids[..k], byInstall, announce)
      {
        var id := ids[k];
        assert id in ids;
        AssignNext(old(byInstall), final, ids, k, byInstall, announce);
        var previous := byInstall[id].name;
        if previous != Some(labels[k]) {
          byInstall := byInstall[id := byInstall[id].(name := Some(labels[k]))];
          if previous.Some? { announce := announce + [id]; }
        }
      }
      assert ids[..|ids|] == ids;
    }

    /** #resolveTable: first every label, then the listener for each that moved. */
    method ResolveTable()
      requires Valid()
      modifies this`byInstall, this`store
      ensures Valid() && View() == Resolve(shortHash, old(View()))
    {
      var announce := ApplyLabels();
      Announce(announce);
      RelabelIs(old(View()), Labels(shortHash, Wants(old(byInstall))), announce, View());
    }

    method Announce(announce: seq<string>)
      requires Distincts(announce) && forall id :: id in announce ==> id in byInstall
      modifies this`byInstall, this`store
      ensures NewGenerations(old(View()), announce, View())
    {
      for k := 0 to |announce|
        invariant NewGenerations(old(View()), announce[..k], View())
      {
        assert announce[k] in announce;
        RaiseNext(old(View()), announce, k, View());
        OnLabelChanged(announce[k]);
      }
      assert announce[..|announce|] == announce;
    }

    /** The broker's listener: a label change invalidates every handle. */
    method OnLabelChanged(id: string)
      requires id in byInstall
      modifies this`byInstall, this`store
      ensures View() == Bump(old(View()), id)
    {
      var g := NextGeneration(id);
      byInstall := byInstall[id := byInstall[id].(gen := g)];
    }

    method NextGeneration(id: string) returns (g: nat)
      modifies this`store
      ensures g == Gen(old(store), id) + 1 && store == old(store)[id := g]
    {
      g := (if id in store then store[id] else 0) + 1;
      store := store[id := g];
    }

    method Attach(id: string, want: Want, custom: bool)
      requires Valid()
      modifies this
      ensures Valid() && View() == RouteEpochs.Attach(shortHash, old(View()), id, want, custom)
    {
      var g := NextGeneration(id);
      Replace(id, Live(want, custom, None, g));
      assert View() == Added(old(View()), id, want, custom);
      ResolveTable();
    }

    /** A restart replaces, it does not duplicate. */
    method Replace(id: string, route: Live)
      requires Valid()
      modifies this`byInstall, this`order
      ensures Valid() && byInstall == old(byInstall)[id := route]
    {
      Remove(id);
      AddDistinct(order, byInstall.Keys, id);
      byInstall, order := byInstall[id := route], order + [id];
      assert byInstall.Keys == (old(byInstall) - {id}).Keys + {id};
      assert byInstall == old(byInstall)[id := route];
    }

    method Remove(id: string)
      requires Valid()
      modifies this`byInstall, this`order
      ensures Valid() && byInstall == old(byInstall) - {id}
    {
      FilterDistinct(order, (o: string) => o != id);
      byInstall, order := byInstall - {id}, Filter(order, (o: string) => o != id);
    }

    method Detach(id: string)
      requires Valid()
      modifies this
      ensures Valid() && View() == Step(shortHash, old(View()), Leave(id))
    {
      if id !in byInstall { return; }
      Remove(id);
      ResolveTable();
    }

    method SetDesiredLabel(id: string, desired: string, custom: bool)
      requires Valid() && id in byInstall
      modifies this
      ensures Valid() && View() == Desire(shortHash, old(View()), id, desired, custom)
    {
      byInstall := byInstall[id := byInstall[id].(want := byInstall[id].want.(desired := desired), custom := custom)];
      ResolveTable();
    }

    /** claimProfile. */
    method ClaimProfile(id: string, slug: string, desired: string)
      requires Valid() && id in byInstall
      modifies this
      ensures Valid() && View() == ClaimAs(shortHash, old(View()), id, slug, desired)
    {
      byInstall := byInstall[id := byInstall[id].(want := byInstall[id].want.(slug := slug))];
      OnLabelChanged(id);
      if !byInstall[id].custom { SetDesiredLabel(id, desired, false); }
    }

    method ValidateHandle(id: string, text: string) returns (tab: Option<nat>)
      requires id in byInstall
      ensures tab == Validate(byInstall[id], text)
    {
      var parsed := Parse(text);
      if parsed.None? { return None; }
      if Some(parsed.value.name) != byInstall[id].name { return None; }
      if parsed.value.generation != byInstall[id].gen { return None; }
      tab := Some(parsed.value.tabId);
    }
  }

  lemma {:induction false} FilterDistinct(ids: seq<string>, keep: string -> bool)
    requires Distincts(ids)
    ensures Distincts(Filter(ids, keep))
  {
    if ids != [] {
      FilterDistinct(Front(ids), keep);
      forall x | x in Filter(Front(ids), keep) ensures x != Last(ids) {
        assert x in Front(ids);
      }
    }
  }

  lemma AddDistinct(ids: seq<string>, keys: set<string>, id: string)
    requires Orders(ids, keys) && id !in keys
    ensures Orders(ids + [id], keys + {id})
  {
  }

  /** `t` is `s` with a new generation for each of `ids`. */
  ghost predicate NewGenerations(s: Bridge, ids: seq<string>, t: Bridge) {
    && t.live.Keys == s.live.Keys
    && (forall id :: id in t.store <==> id in s.store || id in ids)
    && (forall id :: id in s.live ==> t.live[id] == if id in ids then s.live[id].(gen := Gen(s.store, id) + 1) else s.live[id])
    && (forall id :: id in t.store ==> t.store[id] == Gen(s.store, id) + if id in ids then 1 else 0)
  }

  lemma RaiseNext(s: Bridge, ids: seq<string>, k: nat, t: Bridge)
    requires k < |ids| && Distincts(ids) && ids[k] in s.live && NewGenerations(s, ids[..k], t)
    ensures NewGenerations(s, ids[..k + 1], Bump(t, ids[k]))
  {
    assert ids[..k + 1] == ids[..k] + [ids[k]] && ids[k] !in ids[..k];
  }

  lemma RelabelIs(s: Bridge, labels: map<string, string>, ids: seq<string>, t: Bridge)
    requires labels.Keys == s.live.Keys && forall id :: id in ids <==> Moves(s.live, labels, id)
    requires NewGenerations(Bridge(s.store, Renamed(s.live, labels)), ids, t)
    ensures t == Relabel(s, labels)
  {
    RelabelStore(s, labels, ids, t.store);
    assert t.live == Relabel(s, labels).live;
  }

  lemma RelabelStore(s: Bridge, labels: map<string, string>, ids: seq<string>, store: map<string, nat>)
    requires forall id :: id in ids <==> Moves(s.live, labels, id)
    requires forall id :: id in store <==> id in s.store || id in ids
    requires forall id :: id in store ==> store[id] == Gen(s.store, id) + if id in ids then 1 else 0
    ensures store == Relabel(s, labels).store
  {
  }
}
