/** What the re-key must not leave undone: an entry and a tab of one address are
    both left over only where it could not be told which belongs to which. */
module TabAgesComplete {
  import opened Prelude
  import opened Lists
  import opened TabAges
  import opened TabAgesTheorems
  import opened TabAgesRestart

  /** Some tab took the entry. */
  ghost predicate Used(m: map<int, int>, key: int) { exists id :: id in m && m[id] == key }

  /* ---- the first pass ---- */

  /** `t` took an entry of its own index and address. */
  ghost predicate Spotted(olds: seq<Entry>, t: Tab, m: map<int, int>) {
    t.id in m && exists e :: e in olds && e.key == m[t.id] && e.i == t.i && e.u == t.u && t.u != ""
  }

  /** A tab of `news` is either left over or has an entry, at its own place. */
  ghost predicate Split(olds: seq<Entry>, news: seq<Tab>, c: Carried) {
    && (forall t :: t in c.rest ==> t in news && t.id !in c.from)
    && (forall t :: t in news && t !in c.rest ==> Spotted(olds, t, c.from))
    && (forall id :: id in c.from ==> c.from[id] in c.taken && HasId(news, id))
  }

  ghost predicate HasId(news: seq<Tab>, id: int) { exists t :: t in news && t.id == id }

  /** The entry was taken by a tab at its place. */
  ghost predicate PlaceTaken(news: seq<Tab>, m: map<int, int>, e: Entry) {
    exists t :: t in news && t.id in m && m[t.id] == e.key && t.i == e.i && t.u == e.u
  }

  ghost predicate AllPlaced(olds: seq<Entry>, news: seq<Tab>, c: Carried) {
    forall e :: e in olds && e.key in c.taken ==> PlaceTaken(news, c.from, e)
  }

  /** No tab left over has a free entry at its place. */
  ghost predicate NonePlaced(olds: seq<Entry>, c: Carried) {
    forall t, e :: t in c.rest && e in olds && e.i == t.i && e.u == t.u && t.u != "" ==> e.key in c.taken
  }

  ghost predicate AfterSpots(olds: seq<Entry>, news: seq<Tab>, c: Carried) {
    Split(olds, news, c) && AllPlaced(olds, news, c) && NonePlaced(olds, c)
  }

  lemma {:induction false} Unlisted(news: seq<Tab>)
    requires news != [] && DistinctIds(news)
    ensures !HasId(Front(news), Last(news).id) && DistinctIds(Front(news))
    ensures forall t :: t in news <==> t in Front(news) || t == Last(news)
  {
    var f := Front(news);
    assert news == f + [Last(news)];
    forall t | t in f ensures t.id != Last(news).id {
      var k :| 0 <= k < |f| && f[k] == t;
      assert news[k] == t && news[|news| - 1] == Last(news);
    }
  }

  /** The same tabs, and `t`, which none of them is. */
  ghost predicate Adds(news: seq<Tab>, t: Tab, all: seq<Tab>) {
    !HasId(news, t.id) && forall s :: s in all <==> s in news || s == t
  }

  lemma TakenSplit(olds: seq<Entry>, news: seq<Tab>, t: Tab, all: seq<Tab>, c: Carried, e: Entry)
    requires Adds(news, t, all) && Split(olds, news, c)
    requires e in olds && e.i == t.i && e.u == t.u && t.u != ""
    ensures Split(olds, all, Take(c, t, e))
  {
    var d := Take(c, t, e);
    forall s | s in d.rest ensures s in all && s.id !in d.from {
      assert HasId(news, s.id);
    }
    forall s | s in all && s !in d.rest ensures Spotted(olds, s, d.from) {
      if s != t {
        assert Spotted(olds, s, c.from);
        assert HasId(news, s.id);
      }
    }
    forall id | id in d.from ensures d.from[id] in d.taken && HasId(all, id) {
      if id != t.id {
        var s :| s in news && s.id == id;
        assert s in all;
      } else {
        assert t in all;
      }
    }
  }

  lemma TakenPlaced(olds: seq<Entry>, news: seq<Tab>, t: Tab, all: seq<Tab>, c: Carried, e: Entry)
    requires DistinctKeys(olds) && Adds(news, t, all) && AllPlaced(olds, news, c)
    requires e in olds && e.i == t.i && e.u == t.u
    ensures AllPlaced(olds, all, Take(c, t, e))
  {
    var d := Take(c, t, e);
    forall f | f in olds && f.key in d.taken ensures PlaceTaken(all, d.from, f) {
      if f.key != e.key {
        assert PlaceTaken(news, c.from, f);
        var s :| s in news && s.id in c.from && c.from[s.id] == f.key && s.i == f.i && s.u == f.u;
        assert HasId(news, s.id);
        assert s in all;
      } else {
        assert f == e && t in all && t.id in d.from;
      }
    }
  }

  lemma MissedSpots(olds: seq<Entry>, news: seq<Tab>, t: Tab, all: seq<Tab>, c: Carried)
    requires Adds(news, t, all) && AfterSpots(olds, news, c) && FindSpot(olds, c.taken, t).None?
    ensures AfterSpots(olds, all, c.(rest := c.rest + [t]))
  {
    var d := c.(rest := c.rest + [t]);
    assert forall id :: id in c.from ==> HasId(news, id);
    forall f | f in olds && f.key in d.taken ensures PlaceTaken(all, d.from, f) {
      assert PlaceTaken(news, c.from, f);
      var s :| s in news && s.id in c.from && c.from[s.id] == f.key && s.i == f.i && s.u == f.u;
      assert s in all;
    }
    forall id | id in d.from ensures d.from[id] in d.taken && HasId(all, id) {
      assert HasId(news, id);
      var s :| s in news && s.id == id;
      assert s in all;
    }
  }

  lemma {:induction false} SpotsDone(olds: seq<Entry>, news: seq<Tab>)
    requires DistinctKeys(olds) && DistinctIds(news)
    ensures AfterSpots(olds, news, BySpot(olds, news))
  {
    if news != [] {
      var f, t := Front(news), Last(news);
      Unlisted(news);
      SpotsDone(olds, f);
      var c := BySpot(olds, f);
      var e := FindSpot(olds, c.taken, t);
      if e.Some? {
        TakenSplit(olds, f, t, news, c, e.value);
        TakenPlaced(olds, f, t, news, c, e.value);
      } else {
        MissedSpots(olds, f, t, news, c);
      }
    }
  }

  /* ---- the second pass ---- */

  /** The address is that of one free entry and of one tab left over. */
  ghost predicate Sole(olds: seq<Entry>, first: Carried, u: string) { OnlyOne(olds, first.taken, first.rest, u) }

  /** An address that is free once belongs to one entry. */
  lemma FreeOnce(olds: seq<Entry>, taken: set<int>, u: string, d: Entry, e: Entry)
    requires DistinctKeys(olds) && Occurs(OldAddresses(olds, taken), u) == 1
    requires d in olds && e in olds && d.key !in taken && e.key !in taken && d.u == u && e.u == u
    ensures d == e
  {
    var free := Filter(olds, (x: Entry) => x.key !in taken);
    var us := OldAddresses(olds, taken);
    var a :| 0 <= a < |free| && free[a] == d;
    var b :| 0 <= b < |free| && free[b] == e;
    OccursTwice(us, a);
    assert us[a] == u && us[b] == u;
  }

  /** One that is free, but not once, belongs to another entry too. */
  lemma FreeTwice(olds: seq<Entry>, taken: set<int>, e: Entry) returns (d: Entry)
    requires DistinctKeys(olds) && e in olds && e.key !in taken && Occurs(OldAddresses(olds, taken), e.u) != 1
    ensures d in olds && d.key !in taken && d.u == e.u && d != e
  {
    var free := Filter(olds, (x: Entry) => x.key !in taken);
    var us := OldAddresses(olds, taken);
    FilterKeepsKeys(olds, (x: Entry) => x.key !in taken);
    var a :| 0 <= a < |free| && free[a] == e;
    OccursTwice(us, a);
    OccursIn(us, e.u);
    assert us[a] == e.u;
    var b :| 0 <= b < |us| && b != a && us[b] == e.u;
    d := free[b];
    assert d.key != e.key;
  }

  lemma LeftTwice(rest: seq<Tab>, t: Tab) returns (s: Tab)
    requires DistinctIds(rest) && t in rest && Occurs(NewAddresses(rest), t.u) != 1
    ensures s in rest && s.u == t.u && s != t
  {
    var us := NewAddresses(rest);
    var a :| 0 <= a < |rest| && rest[a] == t;
    OccursTwice(us, a);
    OccursIn(us, t.u);
    assert us[a] == t.u;
    var b :| 0 <= b < |us| && b != a && us[b] == t.u;
    s := rest[b];
    assert s.id != t.id;
  }

  /** It was taken by the one tab left over that has its address. */
  ghost predicate TakenSole(first: Carried, c: Carried, e: Entry, k: nat)
    requires k <= |first.rest|
  {
    exists j :: 0 <= j < k && first.rest[j].u == e.u && first.rest[j].id in c.from && c.from[first.rest[j].id] == e.key
  }

  /** The first `k` tabs left over were served. */
  ghost predicate Served(olds: seq<Entry>, first: Carried, c: Carried, k: nat) {
    && k <= |first.rest| && first.taken <= c.taken
    && (forall id :: id in first.from ==> id in c.from && c.from[id] == first.from[id])
    && (forall j :: 0 <= j < |first.rest| ==> (first.rest[j].id in c.from <==> j < k && Sole(olds, first, first.rest[j].u)))
    && (forall e :: e in olds && e.key in c.taken && e.key !in first.taken ==> TakenSole(first, c, e, k))
  }

  lemma Alone(rest: seq<Tab>, i: nat, j: nat)
    requires i < |rest| && j < |rest| && rest[i].u == rest[j].u && Occurs(NewAddresses(rest), rest[i].u) == 1
    ensures i == j
  {
    OccursTwice(NewAddresses(rest), i);
    assert NewAddresses(rest)[j] == rest[i].u;
  }

  /** Whose turn it is, if its address is the only one of both, finds its entry. */
  lemma Finds(olds: seq<Entry>, first: Carried, c: Carried, k: nat)
    requires DistinctKeys(olds) && k < |first.rest| && Served(olds, first, c, k) && Sole(olds, first, first.rest[k].u)
    ensures FindAddress(olds, c.taken, first.rest[k].u).Some?
  {
    var u, us := first.rest[k].u, OldAddresses(olds, first.taken);
    OccursIn(us, u);
    var a :| 0 <= a < |us| && us[a] == u;
    var e := Filter(olds, (x: Entry) => x.key !in first.taken)[a];
    assert e in olds && e.key !in first.taken && e.u == u;
    if e.key in c.taken {
      assert TakenSole(first, c, e, k);
      var j :| 0 <= j < k && first.rest[j].u == e.u;
      Alone(first.rest, k, j);
    }
  }

  lemma Serves(olds: seq<Entry>, first: Carried, c: Carried, k: nat, e: Entry)
    requires DistinctKeys(olds) && DistinctIds(first.rest) && k < |first.rest| && Served(olds, first, c, k)
    requires forall t :: t in first.rest ==> t.id !in first.from
    requires Sole(olds, first, first.rest[k].u) && e in olds && e.u == first.rest[k].u && e.key !in c.taken
    ensures Served(olds, first, Take(c, first.rest[k], e), k + 1)
  {
    var t := first.rest[k];
    var d := Take(c, t, e);
    forall j | 0 <= j < |first.rest| && j != k ensures first.rest[j].id != t.id { }
    forall f | f in olds && f.key in d.taken && f.key !in first.taken ensures TakenSole(first, d, f, k + 1) {
      if f.key == e.key {
        assert first.rest[k].u == f.u;
      } else {
        assert TakenSole(first, c, f, k);
        var j :| 0 <= j < k && first.rest[j].u == f.u && first.rest[j].id in c.from && c.from[first.rest[j].id] == f.key;
        assert first.rest[j].id != t.id;
      }
    }
  }

  lemma Skips(olds: seq<Entry>, first: Carried, c: Carried, k: nat)
    requires k < |first.rest| && Served(olds, first, c, k) && !Sole(olds, first, first.rest[k].u)
    ensures Served(olds, first, c, k + 1)
  {
    forall e | e in olds && e.key in c.taken && e.key !in first.taken ensures TakenSole(first, c, e, k + 1) {
      assert TakenSole(first, c, e, k);
    }
  }

  lemma NextServed(olds: seq<Entry>, first: Carried, c: Carried, k: nat)
    requires DistinctKeys(olds) && DistinctIds(first.rest) && k < |first.rest| && Served(olds, first, c, k)
    requires forall t :: t in first.rest ==> t.id !in first.from
    requires c == ByAddress(olds, first, k)
    ensures Served(olds, first, ByAddress(olds, first, k + 1), k + 1)
  {
    var t := first.rest[k];
    if Sole(olds, first, t.u) {
      Finds(olds, first, c, k);
      Serves(olds, first, c, k, FindAddress(olds, c.taken, t.u).value);
    } else {
      Skips(olds, first, c, k);
    }
  }

  lemma {:induction false} AddressesDone(olds: seq<Entry>, first: Carried, k: nat)
    requires DistinctKeys(olds) && DistinctIds(first.rest) && k <= |first.rest|
    requires forall t :: t in first.rest ==> t.id !in first.from
    ensures Served(olds, first, ByAddress(olds, first, k), k)
    decreases k
  {
    if k > 0 {
      AddressesDone(olds, first, k - 1);
      NextServed(olds, first, ByAddress(olds, first, k - 1), k - 1);
    }
  }

  lemma {:induction false} RestDistinct(olds: seq<Entry>, news: seq<Tab>)
    requires DistinctIds(news)
    ensures DistinctIds(BySpot(olds, news).rest) && forall t :: t in BySpot(olds, news).rest ==> t in news
  {
    if news != [] {
      Unlisted(news);
      RestDistinct(olds, Front(news));
      var c := BySpot(olds, Front(news));
      forall t | t in c.rest ensures t.id != Last(news).id {
        assert HasId(Front(news), t.id);
      }
    }
  }

  /** Both passes over a pair of windows. */
  lemma Passes(olds: seq<Entry>, news: seq<Tab>) returns (first: Carried, c: Carried)
    requires DistinctKeys(olds) && DistinctIds(news)
    ensures AfterSpots(olds, news, first) && Served(olds, first, c, |first.rest|) && DistinctIds(first.rest)
    ensures c.from == WindowMatch(olds, news)
  {
    first := BySpot(olds, news);
    c := ByAddress(olds, first, |first.rest|);
    SpotsDone(olds, news);
    RestDistinct(olds, news);
    AddressesDone(olds, first, |first.rest|);
  }

  /* ---- inside a pair of windows ---- */

  lemma Lost(olds: seq<Entry>, news: seq<Tab>, first: Carried, c: Carried, t: Tab)
    requires AfterSpots(olds, news, first) && Served(olds, first, c, |first.rest|)
    requires t in news && t.id !in c.from
    ensures t in first.rest && !Sole(olds, first, t.u)
  {
    assert t !in first.rest ==> Spotted(olds, t, first.from);
    var j :| 0 <= j < |first.rest| && first.rest[j] == t;
  }

  lemma TakenIsUsed(olds: seq<Entry>, news: seq<Tab>, first: Carried, c: Carried, e: Entry)
    requires AfterSpots(olds, news, first) && Served(olds, first, c, |first.rest|)
    requires e in olds && (e.key in first.taken || e.key in c.taken)
    ensures Used(c.from, e.key)
  {
    if e.key in first.taken {
      assert PlaceTaken(news, first.from, e);
      var s :| s in news && s.id in first.from && first.from[s.id] == e.key;
      assert c.from[s.id] == e.key;
    } else {
      assert TakenSole(first, c, e, |first.rest|);
    }
  }

  /** What the second pass does not single out it does not take. */
  lemma NotSole(olds: seq<Entry>, news: seq<Tab>, first: Carried, c: Carried, e: Entry)
    requires DistinctKeys(olds) && DistinctIds(news) && AfterSpots(olds, news, first) && Served(olds, first, c, |first.rest|)
    requires Sound(olds, news, c.from) && e in olds && e.key !in first.taken && !Sole(olds, first, e.u)
    ensures !Used(c.from, e.key)
  {
    forall id | id in c.from ensures c.from[id] != e.key {
      assert Fits(olds, news, id, c.from[id]);
      var t, f :| t in news && f in olds && t.id == id && f.key == c.from[id] && f.u == t.u;
      if t in first.rest {
        var j :| 0 <= j < |first.rest| && first.rest[j] == t;
        assert Sole(olds, first, t.u);
      } else {
        assert Spotted(olds, t, first.from);
      }
    }
  }

  /** A tab and an entry of one address are both left over only if the entry is
      not at the tab's place, and another entry or another tab left over has that
      address too. */
  lemma LeftOnlyWhenAmbiguous(olds: seq<Entry>, news: seq<Tab>, t: Tab, e: Entry)
    requires DistinctKeys(olds) && DistinctIds(news) && t in news && e in olds && e.u == t.u && t.u != ""
    requires t.id !in WindowMatch(olds, news) && !Used(WindowMatch(olds, news), e.key)
    ensures e.i != t.i
    ensures (exists d :: d in olds && d != e && d.u == e.u && !Used(WindowMatch(olds, news), d.key))
         || (exists s :: s in news && s != t && s.u == t.u && s.id !in WindowMatch(olds, news))
  {
    var first, c := Passes(olds, news);
    WindowMatchSound(olds, news);
    Lost(olds, news, first, c, t);
    assert e.key !in first.taken && e.key !in c.taken by {
      if e.key in first.taken || e.key in c.taken { TakenIsUsed(olds, news, first, c, e); }
    }
    if Occurs(OldAddresses(olds, first.taken), t.u) != 1 {
      var d := FreeTwice(olds, first.taken, e);
      NotSole(olds, news, first, c, d);
    } else {
      var s := LeftTwice(first.rest, t);
      var j :| 0 <= j < |first.rest| && first.rest[j] == s;
      assert s in news && s.id !in c.from;
    }
  }

  /** An entry and a tab that alone have an address in their two windows find each
      other, wherever the tab is. */
  lemma SoleAddressIsCarried(olds: seq<Entry>, news: seq<Tab>, t: Tab, e: Entry)
    requires DistinctKeys(olds) && DistinctIds(news) && t in news && e in olds && e.u == t.u && t.u != ""
    requires forall d :: d in olds && d.u == e.u ==> d == e
    requires forall s :: s in news && s.u == t.u ==> s == t
    ensures t.id in WindowMatch(olds, news) && WindowMatch(olds, news)[t.id] == e.key
  {
    var m := WindowMatch(olds, news);
    WindowMatchSound(olds, news);
    forall id | id in m && m[id] == e.key ensures id == t.id {
      assert Fits(olds, news, id, e.key);
    }
    if t.id in m {
      assert Fits(olds, news, t.id, m[t.id]);
    } else {
      LeftOnlyWhenAmbiguous(olds, news, t, e);
    }
  }

  /** A tab takes an entry from another place only when every entry at its own
      place with its address went to a tab at that place. */
  lemma PlaceComesFirst(olds: seq<Entry>, news: seq<Tab>, t: Tab, e: Entry, d: Entry)
    requires DistinctKeys(olds) && DistinctIds(news) && t in news && e in olds && d in olds
    requires t.id in WindowMatch(olds, news) && WindowMatch(olds, news)[t.id] == e.key && e.i != t.i
    requires d.i == t.i && d.u == t.u && t.u != ""
    ensures PlaceTaken(news, WindowMatch(olds, news), d)
  {
    var first, c := Passes(olds, news);
    assert t !in first.rest ==> Spotted(olds, t, first.from);
    assert PlaceTaken(news, first.from, d);
    var s :| s in news && s.id in first.from && first.from[s.id] == d.key && s.i == d.i && s.u == d.u;
    assert c.from[s.id] == d.key;
  }

  /* ---- over all windows ---- */

  /** Every tab carried to so far is in a window paired so far. */
  ghost predicate ToPaired(news: seq<Tab>, chosen: seq<Pair>, m: map<int, int>) {
    forall id, t :: id in m && t in news && t.id == id ==> Paired(chosen, t.w)
  }

  lemma FitsInside(olds: seq<Entry>, news: seq<Tab>, p: Pair, id: int, key: int)
    requires DistinctKeys(olds) && DistinctIds(news) && Fits(OldIn(olds, p.ow), NewIn(news, p.nw), id, key)
    ensures forall t :: t in news && t.id == id ==> t.w == p.nw
    ensures forall e :: e in olds && e.key == key ==> e.w == p.ow
  {
    var t, e :| t in NewIn(news, p.nw) && e in OldIn(olds, p.ow) && t.id == id && e.key == key;
    assert t in news && e in olds;
  }

  lemma MatchInside(olds: seq<Entry>, news: seq<Tab>, p: Pair)
    requires DistinctKeys(olds) && DistinctIds(news)
    ensures var m := WindowMatch(OldIn(olds, p.ow), NewIn(news, p.nw));
            && (forall id, t :: id in m && t in news && t.id == id ==> t.w == p.nw)
            && (forall id, e :: id in m && e in olds && e.key == m[id] ==> e.w == p.ow)
  {
    var m := WindowMatch(OldIn(olds, p.ow), NewIn(news, p.nw));
    WindowMatchSound(OldIn(olds, p.ow), NewIn(news, p.nw));
    forall id, t | id in m && t in news && t.id == id ensures t.w == p.nw {
      FitsInside(olds, news, p, id, m[id]);
    }
    forall id, e | id in m && e in olds && e.key == m[id] ensures e.w == p.ow {
      FitsInside(olds, news, p, id, m[id]);
    }
  }

  lemma {:induction false} CarryToPaired(olds: seq<Entry>, news: seq<Tab>, chosen: seq<Pair>)
    requires DistinctKeys(olds) && DistinctIds(news)
    ensures ToPaired(news, chosen, Carry(olds, news, chosen))
  {
    if chosen != [] {
      CarryToPaired(olds, news, Front(chosen));
      MatchInside(olds, news, Last(chosen));
      assert chosen == Front(chosen) + [Last(chosen)];
      var m := Carry(olds, news, chosen);
      forall id, t | id in m && t in news && t.id == id ensures Paired(chosen, t.w) {
        if t.w != Last(chosen).nw { assert Paired(Front(chosen), t.w); }
      }
    }
  }

  /** What all pairs together carry is, in the windows of one of them, what that
      one carries. */
  ghost predicate AsInPair(olds: seq<Entry>, news: seq<Tab>, q: Pair, m: map<int, int>) {
    var n := WindowMatch(OldIn(olds, q.ow), NewIn(news, q.nw));
    && (forall t :: t in news && t.w == q.nw ==> (t.id in m <==> t.id in n) && (t.id in n ==> m[t.id] == n[t.id]))
    && (forall e :: e in olds && e.w == q.ow ==> (Used(m, e.key) <==> Used(n, e.key)))
  }

  lemma LastPair(olds: seq<Entry>, news: seq<Tab>, chosen: seq<Pair>)
    requires DistinctKeys(olds) && DistinctIds(news) && chosen != [] && OneToOne(chosen)
    ensures AsInPair(olds, news, Last(chosen), Carry(olds, news, chosen))
  {
    var q, f := Last(chosen), Front(chosen);
    var n, m := WindowMatch(OldIn(olds, q.ow), NewIn(news, q.nw)), Carry(olds, news, f);
    CarryToPaired(olds, news, f);
    CarrySound(olds, news, f);
    MatchInside(olds, news, q);
    forall t | t in news && t.w == q.nw ensures t.id !in m {
      assert !Paired(f, q.nw);
    }
    forall e | e in olds && e.w == q.ow ensures Used(m + n, e.key) <==> Used(n, e.key) {
      if Used(n, e.key) {
        var id :| id in n && n[id] == e.key;
        assert (m + n)[id] == e.key;
      }
      assert forall p :: p in f ==> p.ow != e.w;
      assert forall id :: id in m ==> m[id] != e.key;
    }
  }

  lemma EarlierPair(olds: seq<Entry>, news: seq<Tab>, chosen: seq<Pair>, q: Pair)
    requires DistinctKeys(olds) && DistinctIds(news) && chosen != [] && OneToOne(chosen) && q in Front(chosen)
    requires AsInPair(olds, news, q, Carry(olds, news, Front(chosen)))
    ensures AsInPair(olds, news, q, Carry(olds, news, chosen))
  {
    var p := Last(chosen);
    var n, m := WindowMatch(OldIn(olds, p.ow), NewIn(news, p.nw)), Carry(olds, news, Front(chosen));
    MatchInside(olds, news, p);
    forall t | t in news && t.w == q.nw ensures t.id !in n { }
    WindowMatchSound(OldIn(olds, p.ow), NewIn(news, p.nw));
    CarrySound(olds, news, Front(chosen));
    forall e | e in olds && e.w == q.ow ensures Used(m + n, e.key) <==> Used(m, e.key) {
      if Used(m, e.key) {
        var id :| id in m && m[id] == e.key;
        assert id !in n by { Apart(olds, news, Front(chosen), p, q, id, e); }
        assert (m + n)[id] == e.key;
      }
    }
  }

  /** A tab that took an entry in one pair took none in another. */
  lemma Apart(olds: seq<Entry>, news: seq<Tab>, chosen: seq<Pair>, p: Pair, q: Pair, id: int, e: Entry)
    requires DistinctKeys(olds) && DistinctIds(news) && q.nw != p.nw && q in chosen && e in olds && e.w == q.ow
    requires AsInPair(olds, news, q, Carry(olds, news, chosen))
    requires id in Carry(olds, news, chosen) && Carry(olds, news, chosen)[id] == e.key
    requires Sound(olds, news, Carry(olds, news, chosen))
    ensures id !in WindowMatch(OldIn(olds, p.ow), NewIn(news, p.nw))
  {
    var m, n := Carry(olds, news, chosen), WindowMatch(OldIn(olds, q.ow), NewIn(news, q.nw));
    assert Used(m, e.key);
    var x :| x in n && n[x] == e.key;
    WindowMatchSound(OldIn(olds, q.ow), NewIn(news, q.nw));
    assert Fits(OldIn(olds, q.ow), NewIn(news, q.nw), x, n[x]);
    var t :| t in NewIn(news, q.nw) && t.id == x;
    assert m[t.id] == e.key;
    assert x == id;
    MatchInside(olds, news, p);
  }

  lemma {:induction false} CarryInPair(olds: seq<Entry>, news: seq<Tab>, chosen: seq<Pair>, q: Pair)
    requires DistinctKeys(olds) && DistinctIds(news) && OneToOne(chosen) && q in chosen
    ensures AsInPair(olds, news, q, Carry(olds, news, chosen))
  {
    assert chosen == Front(chosen) + [Last(chosen)];
    if q == Last(chosen) {
      LastPair(olds, news, chosen);
    } else {
      CarryInPair(olds, news, Front(chosen), q);
      EarlierPair(olds, news, chosen, q);
    }
  }

  /** The whole re-key, in the windows of one of its pairs. */
  lemma RekeyInPair(stored: seq<Entry>, tabs: seq<Tab>, q: Pair)
    requires DistinctKeys(stored) && DistinctIds(tabs) && q in Choice(stored, tabs)
    ensures DistinctKeys(Olds(stored, tabs)) && DistinctIds(News(stored, tabs))
    ensures AsInPair(Olds(stored, tabs), News(stored, tabs), q, From(stored, tabs))
  {
    var olds, news := Olds(stored, tabs), News(stored, tabs);
    var carry, kept, m := Carry(olds, news, Choice(stored, tabs)), Kept(stored, tabs), From(stored, tabs);
    FilterKeepsKeys(stored, (e: Entry) => Carriable(stored, tabs, e));
    FilterKeepsIds(tabs, (t: Tab) => !Stays(stored, t));
    ChosenOneToOne(Sorted(Pairs(olds, news, Groups(olds, (e: Entry) => e.w), Groups(news, (t: Tab) => t.w))));
    CarryInPair(olds, news, Choice(stored, tabs), q);
    forall t | t in news ensures t.id !in kept {
      forall s | s in tabs && Stays(stored, s) ensures s.id != t.id { TabOfTab(tabs, s); TabOfTab(tabs, t); }
    }
    forall e | e in olds ensures Used(m, e.key) <==> Used(carry, e.key) {
      if Used(carry, e.key) {
        var id :| id in carry && carry[id] == e.key;
        assert m[id] == e.key;
      }
      forall id | id in kept ensures kept[id] != e.key {
        var t :| t in tabs && Stays(stored, t) && t.id == id;
      }
    }
  }

  /** Over the whole re-key: in two paired windows, a tab and an entry of one
      address are both left over only if the entry is not at the tab's place, and
      another entry or another tab left over has that address too. */
  lemma RekeyLeavesOnlyTheAmbiguous(stored: seq<Entry>, tabs: seq<Tab>, q: Pair, t: Tab, e: Entry)
    requires DistinctKeys(stored) && DistinctIds(tabs) && q in Choice(stored, tabs)
    requires t in NewIn(News(stored, tabs), q.nw) && e in OldIn(Olds(stored, tabs), q.ow) && e.u == t.u && t.u != ""
    requires t.id !in From(stored, tabs) && !Used(From(stored, tabs), e.key)
    ensures e.i != t.i
    ensures (exists d :: d in OldIn(Olds(stored, tabs), q.ow) && d != e && d.u == e.u && !Used(From(stored, tabs), d.key))
         || (exists s :: s in NewIn(News(stored, tabs), q.nw) && s != t && s.u == t.u && s.id !in From(stored, tabs))
  {
    var o, n := OldIn(Olds(stored, tabs), q.ow), NewIn(News(stored, tabs), q.nw);
    RekeyInPair(stored, tabs, q);
    InKeepsKeys(Olds(stored, tabs), (x: Entry) => x.w, q.ow);
    InKeepsIds(News(stored, tabs), (x: Tab) => x.w, q.nw);
    LeftOnlyWhenAmbiguous(o, n, t, e);
    if d :| d in o && d != e && d.u == e.u && !Used(WindowMatch(o, n), d.key) {
      assert !Used(From(stored, tabs), d.key);
    } else {
      var s :| s in n && s != t && s.u == t.u && s.id !in WindowMatch(o, n);
      assert s.id !in From(stored, tabs);
    }
  }

  /** Over the whole re-key: an entry and a tab that alone have an address in two
      paired windows find each other, wherever in its window the tab is. */
  lemma RekeyFindsTheSole(stored: seq<Entry>, tabs: seq<Tab>, q: Pair, t: Tab, e: Entry)
    requires DistinctKeys(stored) && DistinctIds(tabs) && q in Choice(stored, tabs)
    requires t in NewIn(News(stored, tabs), q.nw) && e in OldIn(Olds(stored, tabs), q.ow) && e.u == t.u && t.u != ""
    requires forall d :: d in OldIn(Olds(stored, tabs), q.ow) && d.u == e.u ==> d == e
    requires forall s :: s in NewIn(News(stored, tabs), q.nw) && s.u == t.u ==> s == t
    ensures t.id in From(stored, tabs) && From(stored, tabs)[t.id] == e.key
  {
    RekeyInPair(stored, tabs, q);
    InKeepsKeys(Olds(stored, tabs), (x: Entry) => x.w, q.ow);
    InKeepsIds(News(stored, tabs), (x: Tab) => x.w, q.nw);
    SoleAddressIsCarried(OldIn(Olds(stored, tabs), q.ow), NewIn(News(stored, tabs), q.nw), t, e);
  }

  /** A tab that kept its id and its address keeps its entry. */
  lemma SameIdIsKept(stored: seq<Entry>, tabs: seq<Tab>, t: Tab, e: Entry)
    requires DistinctKeys(stored) && DistinctIds(tabs) && t in tabs && e in stored
    requires e.key == t.id && e.at.Some? && e.u == t.u
    ensures t.id in From(stored, tabs) && From(stored, tabs)[t.id] == e.key
  {
    RekeySound(stored, tabs);
    assert Stays(stored, t) && t.id in Kept(stored, tabs);
    var olds, news := Olds(stored, tabs), News(stored, tabs);
    var carry := Carry(olds, news, Choice(stored, tabs));
    FilterKeepsKeys(stored, (x: Entry) => Carriable(stored, tabs, x));
    ChosenOneToOne(Sorted(Pairs(olds, news, Groups(olds, (x: Entry) => x.w), Groups(news, (x: Tab) => x.w))));
    CarrySound(olds, news, Choice(stored, tabs));
    if t.id in carry {
      assert Fits(olds, news, t.id, carry[t.id]);
      var s :| s in news && s.id == t.id;
      TabOfTab(tabs, s);
      TabOfTab(tabs, t);
    }
  }

  /* ---- which windows are paired ---- */

  /** How many entries of the old window have a tab at their place in the new one,
      and how many have one of their address anywhere in it. */
  ghost function Exact(olds: seq<Entry>, news: seq<Tab>, o: int, n: int): set<int> {
    set e | e in olds && e.w == o && (exists t :: t in news && t.w == n && t.i == e.i && t.u == e.u) :: e.key
  }

  ghost function Shared(olds: seq<Entry>, news: seq<Tab>, o: int, n: int): set<int> {
    set e | e in olds && e.w == o && e.u != "" && (exists t :: t in news && t.w == n && t.u == e.u) :: e.key
  }

  lemma CountOf(es: seq<Entry>, keep: Entry -> bool, keys: set<int>)
    requires DistinctKeys(es) && forall k :: k in keys <==> exists e :: e in es && keep(e) && e.key == k
    ensures |Filter(es, keep)| == |keys|
  {
    var f := Filter(es, keep);
    FilterKeepsKeys(es, keep);
    KeyCount(f);
    forall k ensures k in Keys(f) <==> k in keys {
      assert k in Keys(f) <==> exists e :: e in f && e.key == k;
    }
    assert Keys(f) == keys;
  }

  lemma ScoreIs(olds: seq<Entry>, news: seq<Tab>, o: int, n: int)
    requires DistinctKeys(olds)
    ensures Score(olds, news, o, n) == Pair(o, n, |Exact(olds, news, o, n)|, |Shared(olds, news, o, n)|)
  {
    var os, ns := OldIn(olds, o), NewIn(news, n);
    InKeepsKeys(olds, (e: Entry) => e.w, o);
    forall k ensures k in Exact(olds, news, o, n) <==> exists e :: e in os && HasSpot(ns, e) && e.key == k {
      if k in Exact(olds, news, o, n) {
        var e :| e in olds && e.w == o && (exists t :: t in news && t.w == n && t.i == e.i && t.u == e.u) && e.key == k;
        var t :| t in news && t.w == n && t.i == e.i && t.u == e.u;
        assert t in ns && e in os && HasSpot(ns, e);
      }
      if e :| e in os && HasSpot(ns, e) && e.key == k {
        var t :| t in ns && t.i == e.i && t.u == e.u;
        assert t in news && t.w == n;
      }
    }
    forall k ensures k in Shared(olds, news, o, n) <==> exists e :: e in os && HasAddress(ns, e) && e.key == k {
      if k in Shared(olds, news, o, n) {
        var e :| e in olds && e.w == o && e.u != "" && (exists t :: t in news && t.w == n && t.u == e.u) && e.key == k;
        var t :| t in news && t.w == n && t.u == e.u;
        assert t in ns && e in os && HasAddress(ns, e);
      }
      if e :| e in os && HasAddress(ns, e) && e.key == k {
        var t :| t in ns && t.u == e.u;
        assert t in news && t.w == n;
      }
    }
    CountOf(os, e => HasSpot(ns, e), Exact(olds, news, o, n));
    CountOf(os, e => HasAddress(ns, e), Shared(olds, news, o, n));
  }

  /** Best first, by both scores. */
  ghost predicate Ranked(ps: seq<Pair>) {
    forall a, b :: 0 <= a < b < |ps| ==> AsGood(ps[a], ps[b].exact, ps[b].shared)
  }

  ghost predicate AsGood(q: Pair, exact: nat, shared: nat) { q.exact > exact || (q.exact == exact && q.shared >= shared) }

  lemma {:induction false} InsertRanked(p: Pair, ps: seq<Pair>)
    requires Ranked(ps)
    ensures Ranked(Insert(p, ps))
  {
    if ps != [] && Before(p, Last(ps)) {
      InsertRanked(p, Front(ps));
      var r := Insert(p, Front(ps));
      forall q | q in r ensures AsGood(q, Last(ps).exact, Last(ps).shared) {
        assert q in multiset(r);
        assert q == p || q in multiset(Front(ps));
        assert q == p || q in Front(ps);
      }
    }
  }

  lemma {:induction false} SortedRanked(ps: seq<Pair>)
    ensures Ranked(Sorted(ps))
  {
    if ps != [] {
      SortedRanked(Front(ps));
      InsertRanked(Last(ps), Sorted(Front(ps)));
    }
  }

  ghost predicate Beaten(chosen: seq<Pair>, p: Pair) {
    exists q :: q in chosen && (q.ow == p.ow || q.nw == p.nw) && AsGood(q, p.exact, p.shared)
  }

  lemma BeatenStays(chosen: seq<Pair>, more: seq<Pair>, p: Pair)
    requires Beaten(chosen, p) && forall q :: q in chosen ==> q in more
    ensures Beaten(more, p)
  {
  }

  lemma ClashBeats(ps: seq<Pair>)
    requires Ranked(ps) && ps != [] && Clashes(Chosen(Front(ps)), Last(ps))
    ensures Beaten(Chosen(Front(ps)), Last(ps))
  {
    var n := |ps| - 1;
    var q :| q in Chosen(Front(ps)) && (q.ow == ps[n].ow || q.nw == ps[n].nw);
    ChosenFrom(Front(ps));
    assert q in Front(ps);
    var b :| 0 <= b < n && Front(ps)[b] == q;
    assert AsGood(ps[b], ps[n].exact, ps[n].shared);
  }

  /** Whoever was not chosen clashed with one that came before it. */
  lemma {:induction false} ChosenBeats(ps: seq<Pair>, a: nat)
    requires Ranked(ps) && a < |ps|
    ensures Beaten(Chosen(ps), ps[a])
    decreases |ps|
  {
    var n := |ps| - 1;
    var c := Chosen(Front(ps));
    if a < n {
      ChosenBeats(Front(ps), a);
      BeatenStays(c, Chosen(ps), ps[a]);
    } else if Clashes(c, ps[n]) {
      ClashBeats(ps);
    } else {
      assert ps[n] in Chosen(ps);
    }
  }

  lemma {:induction false} ChosenFrom(ps: seq<Pair>)
    ensures forall q :: q in Chosen(ps) ==> q in ps
  {
    if ps != [] {
      ChosenFrom(Front(ps));
      assert ps == Front(ps) + [Last(ps)];
    }
  }

  lemma PairIsListed(olds: seq<Entry>, news: seq<Tab>, ows: seq<int>, nws: seq<int>, o: int, n: int)
    requires DistinctKeys(olds) && ows == Groups(olds, (e: Entry) => e.w) && nws == Groups(news, (t: Tab) => t.w)
    requires |Exact(olds, news, o, n)| + |Shared(olds, news, o, n)| > 0
    ensures Pair(o, n, |Exact(olds, news, o, n)|, |Shared(olds, news, o, n)|) in Sorted(Pairs(olds, news, ows, nws))
  {
    var key := Pick(Exact(olds, news, o, n) + Shared(olds, news, o, n));
    var e :| e in olds && e.w == o && e.key == key && exists t :: t in news && t.w == n;
    var t :| t in news && t.w == n;
    assert o in ows && n in nws;
    ScoreIs(olds, news, o, n);
    PairsAre(olds, news, ows, nws);
    SortedSame(Pairs(olds, news, ows, nws));
  }

  /** The pairing is greedy: of two windows that have something in common and were
      not paired, one went to a window it has at least as much in common with,
      places first and addresses second. */
  lemma BestPairIsChosen(stored: seq<Entry>, tabs: seq<Tab>, o: int, n: int)
    requires DistinctKeys(stored)
    requires var olds, news := Olds(stored, tabs), News(stored, tabs); |Exact(olds, news, o, n)| + |Shared(olds, news, o, n)| > 0
    ensures var olds, news := Olds(stored, tabs), News(stored, tabs);
            exists q :: q in Choice(stored, tabs) && (q.ow == o || q.nw == n)
                        && AsGood(q, |Exact(olds, news, o, n)|, |Shared(olds, news, o, n)|)
  {
    var olds, news := Olds(stored, tabs), News(stored, tabs);
    var ows, nws := Groups(olds, (e: Entry) => e.w), Groups(news, (t: Tab) => t.w);
    var ps := Sorted(Pairs(olds, news, ows, nws));
    FilterKeepsKeys(stored, (e: Entry) => Carriable(stored, tabs, e));
    PairIsListed(olds, news, ows, nws, o, n);
    SortedRanked(Pairs(olds, news, ows, nws));
    var a :| 0 <= a < |ps| && ps[a] == Pair(o, n, |Exact(olds, news, o, n)|, |Shared(olds, news, o, n)|);
    ChosenBeats(ps, a);
  }

  /** And only windows that have something in common are paired, each pair with
      the count of it. */
  lemma ChoiceIsScored(stored: seq<Entry>, tabs: seq<Tab>, q: Pair)
    requires DistinctKeys(stored) && q in Choice(stored, tabs)
    ensures var olds, news := Olds(stored, tabs), News(stored, tabs);
            q.exact == |Exact(olds, news, q.ow, q.nw)| && q.shared == |Shared(olds, news, q.ow, q.nw)|
    ensures q.exact + q.shared > 0
  {
    var olds, news := Olds(stored, tabs), News(stored, tabs);
    var ows, nws := Groups(olds, (e: Entry) => e.w), Groups(news, (t: Tab) => t.w);
    FilterKeepsKeys(stored, (e: Entry) => Carriable(stored, tabs, e));
    ChosenFrom(Sorted(Pairs(olds, news, ows, nws)));
    SortedSame(Pairs(olds, news, ows, nws));
    PairsAre(olds, news, ows, nws);
    ScoreIs(olds, news, q.ow, q.nw);
  }

  /* ---- tabs without an address ---- */

  lemma MatchHasAddress(olds: seq<Entry>, news: seq<Tab>, t: Tab)
    requires DistinctKeys(olds) && DistinctIds(news) && t in news && t.id in WindowMatch(olds, news)
    ensures t.u != ""
  {
    var first, c := Passes(olds, news);
    if t in first.rest {
      var j :| 0 <= j < |first.rest| && first.rest[j] == t;
      assert Sole(olds, first, t.u);
    } else {
      assert Spotted(olds, t, first.from);
    }
  }

  lemma {:induction false} CarryHasAddress(olds: seq<Entry>, news: seq<Tab>, chosen: seq<Pair>, t: Tab)
    requires DistinctKeys(olds) && DistinctIds(news) && t in news && t.id in Carry(olds, news, chosen)
    ensures t.u != ""
  {
    var p := Last(chosen);
    var o, n := OldIn(olds, p.ow), NewIn(news, p.nw);
    if t.id in WindowMatch(o, n) {
      InKeepsKeys(olds, (x: Entry) => x.w, p.ow);
      InKeepsIds(news, (x: Tab) => x.w, p.nw);
      MatchInside(olds, news, p);
      MatchHasAddress(o, n, t);
    } else {
      CarryHasAddress(olds, news, Front(chosen), t);
    }
  }

  /** A tab without an address takes no entry but its own. */
  lemma NamelessTakesOnlyItsOwn(stored: seq<Entry>, tabs: seq<Tab>, t: Tab)
    requires DistinctKeys(stored) && DistinctIds(tabs) && t in tabs && t.u == "" && t.id in From(stored, tabs)
    ensures From(stored, tabs)[t.id] == t.id
  {
    var olds, news := Olds(stored, tabs), News(stored, tabs);
    var carry := Carry(olds, news, Choice(stored, tabs));
    FilterKeepsKeys(stored, (e: Entry) => Carriable(stored, tabs, e));
    FilterKeepsIds(tabs, (x: Tab) => !Stays(stored, x));
    ChosenOneToOne(Sorted(Pairs(olds, news, Groups(olds, (e: Entry) => e.w), Groups(news, (x: Tab) => x.w))));
    CarrySound(olds, news, Choice(stored, tabs));
    if t.id in carry {
      assert Fits(olds, news, t.id, carry[t.id]);
      var s :| s in news && s.id == t.id;
      TabOfTab(tabs, s);
      TabOfTab(tabs, t);
      CarryHasAddress(olds, news, Choice(stored, tabs), t);
    }
  }
}
