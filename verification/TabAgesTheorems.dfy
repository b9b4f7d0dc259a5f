/** What the re-key keeps: it is an injection that keeps times and addresses,
    it is idempotent, and over a plain browser restart it loses nothing. */
module TabAgesTheorems {
  import opened Prelude
  import opened Lists
  import opened TabAges

  ghost predicate Injective(m: map<int, int>) {
    forall a, b :: a in m && b in m && m[a] == m[b] ==> a == b
  }

  /** Tab `id` may take entry `key`: both are there, with one address. */
  ghost predicate Fits(olds: seq<Entry>, news: seq<Tab>, id: int, key: int) {
    exists t, e :: t in news && e in olds && t.id == id && e.key == key && e.u == t.u
  }

  ghost predicate Sound(olds: seq<Entry>, news: seq<Tab>, m: map<int, int>) {
    Injective(m) && forall id :: id in m ==> Fits(olds, news, id, m[id])
  }

  ghost predicate Held(olds: seq<Entry>, news: seq<Tab>, c: Carried) {
    && Sound(olds, news, c.from)
    && (forall id :: id in c.from ==> c.from[id] in c.taken)
    && (forall t :: t in c.rest ==> t in news)
  }

  lemma TakeHeld(olds: seq<Entry>, news: seq<Tab>, c: Carried, t: Tab, e: Entry)
    requires Held(olds, news, c) && t in news && e in olds && e.key !in c.taken && e.u == t.u
    ensures Held(olds, news, Take(c, t, e))
  {
    var d := Take(c, t, e);
    forall id | id in d.from ensures Fits(olds, news, id, d.from[id]) {
      if id == t.id { assert Fits(olds, news, t.id, e.key); }
    }
  }

  lemma {:induction false} BySpotHeld(olds: seq<Entry>, all: seq<Tab>, news: seq<Tab>)
    requires forall t :: t in news ==> t in all
    ensures Held(olds, all, BySpot(olds, news))
  {
    if news != [] {
      BySpotHeld(olds, all, Front(news));
      var c, t := BySpot(olds, Front(news)), Last(news);
      var f := FindSpot(olds, c.taken, t);
      if f.Some? { TakeHeld(olds, all, c, t, f.value); }
    }
  }

  lemma {:induction false} ByAddressHeld(olds: seq<Entry>, news: seq<Tab>, first: Carried, k: nat)
    requires Held(olds, news, first) && k <= |first.rest|
    ensures Held(olds, news, ByAddress(olds, first, k))
    ensures ByAddress(olds, first, k).rest == first.rest
  {
    if k > 0 {
      ByAddressHeld(olds, news, first, k - 1);
      var c, t := ByAddress(olds, first, k - 1), first.rest[k - 1];
      var f := FindAddress(olds, c.taken, t.u);
      if f.Some? { TakeHeld(olds, news, c, t, f.value); }
    }
  }

  lemma WindowMatchSound(olds: seq<Entry>, news: seq<Tab>)
    ensures Sound(olds, news, WindowMatch(olds, news))
  {
    BySpotHeld(olds, news, news);
    var first := BySpot(olds, news);
    ByAddressHeld(olds, news, first, |first.rest|);
  }

  ghost predicate OneToOne(chosen: seq<Pair>) {
    forall a, b :: 0 <= a < b < |chosen| ==> chosen[a].ow != chosen[b].ow && chosen[a].nw != chosen[b].nw
  }

  lemma {:induction false} ChosenOneToOne(ps: seq<Pair>)
    ensures OneToOne(Chosen(ps))
  {
    if ps != [] { ChosenOneToOne(Front(ps)); }
  }

  /** Every entry carried so far was in a window paired so far. */
  ghost predicate FromPaired(olds: seq<Entry>, chosen: seq<Pair>, m: map<int, int>) {
    forall id, e :: id in m && e in olds && e.key == m[id] ==> exists q :: q in chosen && q.ow == e.w
  }

  lemma {:induction false} CarrySound(olds: seq<Entry>, news: seq<Tab>, chosen: seq<Pair>)
    requires DistinctKeys(olds) && OneToOne(chosen)
    ensures Sound(olds, news, Carry(olds, news, chosen))
    ensures FromPaired(olds, chosen, Carry(olds, news, chosen))
  {
    if chosen != [] {
      CarrySound(olds, news, Front(chosen));
      var p := Last(chosen);
      WindowMatchSound(OldIn(olds, p.ow), NewIn(news, p.nw));
      Join(olds, news, Front(chosen), p, Carry(olds, news, Front(chosen)), WindowMatch(OldIn(olds, p.ow), NewIn(news, p.nw)));
      assert chosen == Front(chosen) + [p];
    }
  }

  lemma Join(olds: seq<Entry>, news: seq<Tab>, chosen: seq<Pair>, p: Pair, m: map<int, int>, n: map<int, int>)
    requires DistinctKeys(olds) && forall q :: q in chosen ==> q.ow != p.ow
    requires Sound(olds, news, m) && FromPaired(olds, chosen, m)
    requires Sound(OldIn(olds, p.ow), NewIn(news, p.nw), n)
    ensures Sound(olds, news, m + n) && FromPaired(olds, chosen + [p], m + n)
  {
    forall id | id in n
      ensures Fits(olds, news, id, n[id]) && forall e :: e in olds && e.key == n[id] ==> e.w == p.ow
    {
      assert Fits(OldIn(olds, p.ow), NewIn(news, p.nw), id, n[id]);
    }
    forall a, b | a in m && b in n ensures m[a] != n[b] {
      assert Fits(olds, news, b, n[b]);
    }
    assert p in chosen + [p];
    forall id, e | id in m + n && e in olds && e.key == (m + n)[id]
      ensures exists q :: q in chosen + [p] && q.ow == e.w
    {
      if id !in n {
        var q :| q in chosen && q.ow == e.w;
        assert q in chosen + [p];
      }
    }
  }

  lemma {:induction false} FilterKeepsKeys(es: seq<Entry>, keep: Entry -> bool)
    requires DistinctKeys(es)
    ensures DistinctKeys(Filter(es, keep))
  {
    if es != [] {
      FilterKeepsKeys(Front(es), keep);
      forall e | e in Filter(Front(es), keep) ensures e.key != Last(es).key {
        assert e in Front(es);
      }
    }
  }

  lemma {:induction false} FilterKeepsIds(ts: seq<Tab>, keep: Tab -> bool)
    requires DistinctIds(ts)
    ensures DistinctIds(Filter(ts, keep))
  {
    if ts != [] {
      FilterKeepsIds(Front(ts), keep);
      forall t | t in Filter(Front(ts), keep) ensures t.id != Last(ts).id {
        assert t in Front(ts);
      }
    }
  }

  lemma {:induction false} TimeOfKey(stored: seq<Entry>, e: Entry)
    requires DistinctKeys(stored) && e in stored
    ensures TimeOf(stored, e.key) == e.at
  {
    if stored[0] != e {
      TimeOfKey(stored[1..], e);
    }
  }

  lemma RekeySound(stored: seq<Entry>, tabs: seq<Tab>)
    requires DistinctKeys(stored)
    ensures Sound(Readable(stored), tabs, From(stored, tabs))
  {
    var olds, news := Olds(stored, tabs), News(stored, tabs);
    var ows, nws := Groups(olds, (e: Entry) => e.w), Groups(news, (t: Tab) => t.w);
    FilterKeepsKeys(stored, (e: Entry) => Carriable(stored, tabs, e));
    ChosenOneToOne(Sorted(Pairs(olds, news, ows, nws)));
    CarrySound(olds, news, Choice(stored, tabs));
    KeptAndCarried(stored, tabs, Kept(stored, tabs), Carry(olds, news, Choice(stored, tabs)));
  }

  lemma CarriedFits(stored: seq<Entry>, tabs: seq<Tab>, id: int, key: int)
    requires Fits(Olds(stored, tabs), News(stored, tabs), id, key)
    ensures Fits(Readable(stored), tabs, id, key) && key !in Kept(stored, tabs)
  {
    var t, e :| t in News(stored, tabs) && e in Olds(stored, tabs) && t.id == id && e.key == key && e.u == t.u;
    assert t in tabs && e in Readable(stored);
  }

  lemma KeptFits(stored: seq<Entry>, tabs: seq<Tab>, id: int)
    requires id in Kept(stored, tabs)
    ensures Fits(Readable(stored), tabs, id, id)
  {
    var t :| t in tabs && Stays(stored, t) && t.id == id;
    var e :| e in stored && e.key == id && e.at.Some? && e.u == t.u;
    assert t in tabs && e in Readable(stored);
  }

  lemma Union(rows: seq<Entry>, tabs: seq<Tab>, kept: map<int, int>, carry: map<int, int>)
    requires forall id :: id in kept ==> kept[id] == id && Fits(rows, tabs, id, id)
    requires Injective(carry) && forall id :: id in carry ==> Fits(rows, tabs, id, carry[id]) && carry[id] !in kept
    ensures Sound(rows, tabs, kept + carry)
  {
  }

  lemma KeptAndCarried(stored: seq<Entry>, tabs: seq<Tab>, kept: map<int, int>, carry: map<int, int>)
    requires kept == Kept(stored, tabs)
    requires Sound(Olds(stored, tabs), News(stored, tabs), carry)
    ensures Sound(Readable(stored), tabs, kept + carry)
  {
    var rows := Readable(stored);
    forall b | b in carry ensures Fits(rows, tabs, b, carry[b]) && carry[b] !in kept {
      CarriedFits(stored, tabs, b, carry[b]);
    }
    forall id | id in kept ensures Fits(rows, tabs, id, id) && kept[id] == id {
      KeptFits(stored, tabs, id);
    }
    Union(rows, tabs, kept, carry);
  }

  /** Row `r` of tab `id` carries the open time of entry `key`, of its address. */
  ghost predicate Bears(stored: seq<Entry>, tabs: seq<Tab>, id: int, key: int, r: Entry) {
    exists t, e :: t in tabs && e in stored && t.id == id && e.key == key && e.u == t.u && e.at.Some?
                   && r == Entry(id, e.at, t.w, t.i, t.u)
  }

  lemma FitsBears(stored: seq<Entry>, tabs: seq<Tab>, id: int, key: int)
    requires DistinctKeys(stored) && DistinctIds(tabs) && Fits(Readable(stored), tabs, id, key)
    ensures TabOf(tabs, id).Some?
    ensures TimeOf(stored, key).Some? && Bears(stored, tabs, id, key, Row(stored, TabOf(tabs, id).value, key))
  {
    var t, e :| t in tabs && e in Readable(stored) && t.id == id && e.key == key && e.u == t.u;
    TimeOfKey(stored, e);
    assert TabOf(tabs, id) == Some(t);
    assert t in tabs && e in stored;
  }

  /** Every row of the ledger describes its own tab, as the tab is now. */
  ghost predicate Faithful(tabs: seq<Tab>, ledger: Ledger) {
    forall id :: id in ledger ==> Describes(tabs, id, ledger[id])
  }

  ghost predicate Describes(tabs: seq<Tab>, id: int, r: Entry) {
    && TabOf(tabs, id).Some? && r.at.Some?
    && var t := TabOf(tabs, id).value; r == Entry(id, r.at, t.w, t.i, t.u)
  }

  lemma SoundBears(stored: seq<Entry>, tabs: seq<Tab>, from: map<int, int>)
    requires DistinctKeys(stored) && DistinctIds(tabs) && Sound(Readable(stored), tabs, from)
    ensures Written(stored, tabs, from).Keys == from.Keys
    ensures forall id :: id in from ==> Bears(stored, tabs, id, from[id], Written(stored, tabs, from)[id])
    ensures Faithful(tabs, Written(stored, tabs, from))
  {
    forall id | id in from
      ensures TabOf(tabs, id).Some? && TimeOf(stored, from[id]).Some?
      ensures Bears(stored, tabs, id, from[id], Row(stored, TabOf(tabs, id).value, from[id]))
    {
      FitsBears(stored, tabs, id, from[id]);
    }
  }

  lemma {:induction false} InKeepsKeys(es: seq<Entry>, of: Entry -> int, w: int)
    requires DistinctKeys(es)
    ensures DistinctKeys(In(es, of, w))
  {
    if es != [] {
      InKeepsKeys(Front(es), of, w);
      forall e | e in In(Front(es), of, w) ensures e.key != Last(es).key {
        assert e in Front(es);
      }
    }
  }

  lemma {:induction false} InKeepsIds(ts: seq<Tab>, of: Tab -> int, w: int)
    requires DistinctIds(ts)
    ensures DistinctIds(In(ts, of, w))
  {
    if ts != [] {
      InKeepsIds(Front(ts), of, w);
      forall t | t in In(Front(ts), of, w) ensures t.id != Last(ts).id {
        assert t in Front(ts);
      }
    }
  }

  /** Each tab takes at most one entry and each entry goes to at most one tab,
      of the same address; what it was opened at is what the entry said. */
  lemma RekeyIsInjection(stored: seq<Entry>, tabs: seq<Tab>)
    requires DistinctKeys(stored) && DistinctIds(tabs)
    ensures Injective(From(stored, tabs))
    ensures Rekeyed(stored, tabs).Keys == From(stored, tabs).Keys
    ensures forall id :: id in From(stored, tabs) ==>
              Bears(stored, tabs, id, From(stored, tabs)[id], Rekeyed(stored, tabs)[id])
  {
    RekeySound(stored, tabs);
    SoundBears(stored, tabs, From(stored, tabs));
  }

  ghost function Keys(es: seq<Entry>): set<int> { set e | e in es :: e.key }

  lemma {:induction false} KeyCount(es: seq<Entry>)
    requires DistinctKeys(es)
    ensures |Keys(es)| == |es|
  {
    if es != [] {
      KeyCount(Front(es));
      assert es == Front(es) + [Last(es)];
      assert Keys(es) == Keys(Front(es)) + {Last(es).key};
    }
  }

  ghost function TakenBy(from: map<int, int>, ids: set<int>): set<int>
    requires ids <= from.Keys
  {
    set id | id in ids :: from[id]
  }

  ghost function Taken(from: map<int, int>): set<int> { TakenBy(from, from.Keys) }

  lemma {:induction false} TakenCount(m: map<int, int>, ids: set<int>)
    requires Injective(m) && ids <= m.Keys
    ensures |TakenBy(m, ids)| == |ids|
    decreases ids
  {
    if ids != {} {
      var k := Pick(ids);
      TakenCount(m, ids - {k});
      assert TakenBy(m, ids) == TakenBy(m, ids - {k}) + {m[k]};
    }
  }

  lemma TakenKeys(rows: seq<Entry>, tabs: seq<Tab>, from: map<int, int>)
    requires forall id :: id in from ==> Fits(rows, tabs, id, from[id])
    ensures Taken(from) <= Keys(rows)
  {
  }

  lemma Difference(a: set<int>, b: set<int>)
    requires b <= a
    ensures |a - b| == |a| - |b|
  {
    assert a == (a - b) + b;
  }

  lemma SoundCount(rows: seq<Entry>, tabs: seq<Tab>, from: map<int, int>)
    requires DistinctKeys(rows) && Sound(rows, tabs, from)
    ensures |rows| - |from| == |Keys(rows) - Taken(from)|
  {
    var keys, taken := Keys(rows), Taken(from);
    assert |keys| == |rows| by { KeyCount(rows); }
    assert |taken| == |from| by { TakenCount(from, from.Keys); }
    assert taken <= keys by { TakenKeys(rows, tabs, from); }
    Difference(keys, taken);
  }

  /** `dropped` counts exactly the entries no tab took. */
  lemma DroppedIsTheRest(stored: seq<Entry>, tabs: seq<Tab>)
    requires DistinctKeys(stored) && DistinctIds(tabs)
    ensures Dropped(stored, tabs) == |Keys(Readable(stored)) - Taken(From(stored, tabs))|
  {
    RekeySound(stored, tabs);
    var from := From(stored, tabs);
    SoundBears(stored, tabs, from);
    FilterKeepsKeys(stored, (e: Entry) => e.at.Some?);
    SoundCount(Readable(stored), tabs, from);
    assert |Rekeyed(stored, tabs)| == |Rekeyed(stored, tabs).Keys| == |from.Keys| == |from|;
  }

  /** `es` lists the rows of `ledger`, in some order. */
  ghost predicate Listing(es: seq<Entry>, ledger: Ledger) {
    && DistinctKeys(es)
    && (forall e :: e in es ==> e.key in ledger && ledger[e.key] == e)
    && (forall k :: k in ledger ==> ledger[k] in es && ledger[k].key == k)
  }

  ghost function Same(ledger: Ledger): map<int, int> { map k | k in ledger :: k }

  lemma {:induction false} FilterAll<T(!new)>(s: seq<T>, keep: T -> bool)
    requires forall k :: 0 <= k < |s| ==> keep(s[k])
    ensures Filter(s, keep) == s
  {
    if s != [] {
      var f, x := Front(s), Last(s);
      forall k | 0 <= k < |f| ensures keep(f[k]) {
        assert f[k] == s[k];
      }
      FilterAll(f, keep);
      assert keep(x) by { assert x == s[|s| - 1]; }
      assert Filter(s, keep) == Filter(f, keep) + [x];
      assert s == f + [x];
    }
  }

  lemma TabOfTab(tabs: seq<Tab>, t: Tab)
    requires DistinctIds(tabs) && t in tabs
    ensures TabOf(tabs, t.id) == Some(t)
  {
  }

  lemma {:induction false} FilterNone(es: seq<Entry>, keep: Entry -> bool)
    requires forall e :: e in es ==> !keep(e)
    ensures Filter(es, keep) == []
  {
    if es != [] { FilterNone(Front(es), keep); }
  }

  /** Read back, every row of a re-keyed ledger stays with its own tab. */
  lemma AllStay(tabs: seq<Tab>, ledger: Ledger, again: seq<Entry>)
    requires DistinctIds(tabs) && Faithful(tabs, ledger) && Listing(again, ledger)
    ensures Kept(again, tabs) == Same(ledger) && Olds(again, tabs) == []
  {
    forall id | id in ledger ensures TabOf(tabs, id).Some? && Stays(again, TabOf(tabs, id).value) {
      assert Describes(tabs, id, ledger[id]) && ledger[id] in again;
    }
    forall t | t in tabs && Stays(again, t) ensures t.id in ledger {
      TabOfTab(tabs, t);
    }
    forall e | e in again ensures !Carriable(again, tabs, e) {
      assert TabOf(tabs, e.key).value in tabs;
    }
    FilterNone(again, (e: Entry) => Carriable(again, tabs, e));
  }

  lemma RowCount(es: seq<Entry>, ledger: Ledger)
    requires Listing(es, ledger)
    ensures |es| == |ledger|
  {
    KeyCount(es);
    forall k | k in ledger ensures k in Keys(es) {
      assert ledger[k] in es;
    }
    assert Keys(es) == ledger.Keys;
  }

  lemma RowTime(ledger: Ledger, again: seq<Entry>, id: int)
    requires Listing(again, ledger) && id in ledger
    ensures TimeOf(again, id) == ledger[id].at
  {
    TimeOfKey(again, ledger[id]);
  }

  lemma SameRow(tabs: seq<Tab>, ledger: Ledger, again: seq<Entry>, id: int)
    requires Faithful(tabs, ledger) && Listing(again, ledger) && id in ledger
    ensures TabOf(tabs, id).Some? && Row(again, TabOf(tabs, id).value, id) == ledger[id]
  {
    assert Describes(tabs, id, ledger[id]);
    RowTime(ledger, again, id);
  }

  lemma AllReadable(tabs: seq<Tab>, ledger: Ledger, again: seq<Entry>)
    requires Faithful(tabs, ledger) && Listing(again, ledger)
    ensures Readable(again) == again
  {
    forall k | 0 <= k < |again| ensures again[k].at.Some? {
      assert again[k] in again && Describes(tabs, again[k].key, ledger[again[k].key]);
    }
    FilterAll(again, (e: Entry) => e.at.Some?);
  }

  lemma SameRows(tabs: seq<Tab>, ledger: Ledger, again: seq<Entry>)
    requires Faithful(tabs, ledger) && Listing(again, ledger)
    ensures Written(again, tabs, Same(ledger)) == ledger && |Readable(again)| == |ledger|
  {
    forall id | id in ledger ensures TabOf(tabs, id).Some? && Row(again, TabOf(tabs, id).value, id) == ledger[id] {
      SameRow(tabs, ledger, again, id);
    }
    AllReadable(tabs, ledger, again);
    RowCount(again, ledger);
  }

  lemma NoOlds(again: seq<Entry>, tabs: seq<Tab>)
    requires Olds(again, tabs) == []
    ensures From(again, tabs) == Kept(again, tabs)
  {
    assert Groups(Olds(again, tabs), (e: Entry) => e.w) == [];
    assert Choice(again, tabs) == [];
  }

  /** Re-keying what a re-key wrote against the same tabs changes nothing and
      drops nothing, in whatever order the rows are read back. */
  lemma RekeyIsIdempotent(stored: seq<Entry>, tabs: seq<Tab>, again: seq<Entry>)
    requires DistinctKeys(stored) && DistinctIds(tabs) && Listing(again, Rekeyed(stored, tabs))
    ensures Rekeyed(again, tabs) == Rekeyed(stored, tabs)
    ensures Dropped(again, tabs) == 0
  {
    RekeySound(stored, tabs);
    SoundBears(stored, tabs, From(stored, tabs));
    AllStay(tabs, Rekeyed(stored, tabs), again);
    NoOlds(again, tabs);
    SameRows(tabs, Rekeyed(stored, tabs), again);
  }
}
