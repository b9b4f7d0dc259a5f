/** tab-ages.js: the ledger of when each tab was opened, and how a browser
    restart carries it onto the tabs that came back. */
module TabAges {
  import opened Prelude
  import opened Lists

  /** A tab as the browser lists it; `u` is its short address, "" when it has none. */
  datatype Tab = Tab(id: int, w: int, i: int, u: string)

  /** One stored row: the open time (None when it is not a finite number), and
      where the tab was. */
  datatype Entry = Entry(key: int, at: Option<int>, w: int, i: int, u: string)

  datatype Pair = Pair(ow: int, nw: int, exact: nat, shared: nat)

  type Ledger = map<int, Entry>

  ghost predicate DistinctKeys(es: seq<Entry>) {
    forall a, b :: 0 <= a < b < |es| ==> es[a].key != es[b].key
  }

  ghost predicate DistinctIds(ts: seq<Tab>) {
    forall a, b :: 0 <= a < b < |ts| ==> ts[a].id != ts[b].id
  }

  /* ---- windows of a list ---- */

  function OldIn(es: seq<Entry>, w: int): seq<Entry> { In(es, (e: Entry) => e.w, w) }

  function NewIn(ts: seq<Tab>, w: int): seq<Tab> { In(ts, (t: Tab) => t.w, w) }

  /* ---- same id, same address ---- */

  predicate Stays(stored: seq<Entry>, t: Tab) {
    exists e | e in stored :: e.key == t.id && e.at.Some? && e.u == t.u
  }

  predicate Carriable(stored: seq<Entry>, tabs: seq<Tab>, e: Entry) {
    e.at.Some? && !exists t | t in tabs :: t.id == e.key && Stays(stored, t)
  }

  /** What is left to match by window. */
  function Olds(stored: seq<Entry>, tabs: seq<Tab>): seq<Entry> {
    Filter(stored, (e: Entry) => Carriable(stored, tabs, e))
  }

  function News(stored: seq<Entry>, tabs: seq<Tab>): seq<Tab> {
    Filter(tabs, (t: Tab) => !Stays(stored, t))
  }

  /* ---- windows ---- */

  predicate HasSpot(news: seq<Tab>, e: Entry) { exists t | t in news :: t.i == e.i && t.u == e.u }

  predicate HasAddress(news: seq<Tab>, e: Entry) { e.u != "" && exists t | t in news :: t.u == e.u }

  /** How many of the entries `o` sit at the same index with the same address
      as one of the tabs `n`, and how many share an address at all. */
  function Compare(o: seq<Entry>, n: seq<Tab>, ow: int, nw: int): Pair {
    Pair(ow, nw, |Filter(o, e => HasSpot(n, e))|, |Filter(o, e => HasAddress(n, e))|)
  }

  function Score(olds: seq<Entry>, news: seq<Tab>, ow: int, nw: int): Pair {
    Compare(OldIn(olds, ow), NewIn(news, nw), ow, nw)
  }

  function PairsFor(olds: seq<Entry>, news: seq<Tab>, ow: int, nws: seq<int>): seq<Pair> {
    if nws == [] then []
    else
      var ps := PairsFor(olds, news, ow, Front(nws));
      var p := Score(olds, news, ow, Last(nws));
      if p.exact + p.shared > 0 then ps + [p] else ps
  }

  function Pairs(olds: seq<Entry>, news: seq<Tab>, ows: seq<int>, nws: seq<int>): seq<Pair> {
    if ows == [] then [] else Pairs(olds, news, Front(ows), nws) + PairsFor(olds, news, Last(ows), nws)
  }

  predicate Before(p: Pair, q: Pair) { p.exact > q.exact || (p.exact == q.exact && p.shared > q.shared) }

  /** Array.prototype.sort is stable: equal pairs keep the order they came in. */
  function Insert(p: Pair, ps: seq<Pair>): (r: seq<Pair>)
    ensures multiset(r) == multiset(ps) + multiset{p}
  {
    if ps == [] then [p]
    else if Before(p, Last(ps)) then
      assert ps == Front(ps) + [Last(ps)];
      Insert(p, Front(ps)) + [Last(ps)]
    else ps + [p]
  }

  function Sorted(ps: seq<Pair>): (r: seq<Pair>)
    ensures multiset(r) == multiset(ps)
  {
    if ps == [] then []
    else
      assert ps == Front(ps) + [Last(ps)];
      Insert(Last(ps), Sorted(Front(ps)))
  }

  predicate Clashes(chosen: seq<Pair>, p: Pair) { exists q | q in chosen :: q.ow == p.ow || q.nw == p.nw }

  /** Best pair first, each window once. */
  function Chosen(ps: seq<Pair>): seq<Pair> {
    if ps == [] then []
    else
      var c := Chosen(Front(ps));
      if Clashes(c, Last(ps)) then c else c + [Last(ps)]
  }

  /* ---- inside a pair of windows ---- */

  datatype Carried = Carried(from: map<int, int>, taken: set<int>, rest: seq<Tab>)

  function FindSpot(olds: seq<Entry>, taken: set<int>, t: Tab): (r: Option<Entry>)
    ensures r.Some? ==> r.value in olds && r.value.key !in taken && r.value.i == t.i && r.value.u == t.u && t.u != ""
    ensures r.None? ==> forall e :: e in olds && e.i == t.i && e.u == t.u && t.u != "" ==> e.key in taken
  {
    if olds == [] then None
    else if olds[0].key !in taken && olds[0].i == t.i && olds[0].u == t.u && t.u != "" then Some(olds[0])
    else FindSpot(olds[1..], taken, t)
  }

  function FindAddress(olds: seq<Entry>, taken: set<int>, u: string): (r: Option<Entry>)
    ensures r.Some? ==> r.value in olds && r.value.key !in taken && r.value.u == u
    ensures r.None? ==> forall e :: e in olds && e.u == u ==> e.key in taken
  {
    if olds == [] then None
    else if olds[0].key !in taken && olds[0].u == u then Some(olds[0])
    else FindAddress(olds[1..], taken, u)
  }

  function Take(c: Carried, t: Tab, e: Entry): Carried {
    c.(from := c.from[t.id := e.key], taken := c.taken + {e.key})
  }

  /** First pass: its own index with its own address. */
  function BySpot(olds: seq<Entry>, news: seq<Tab>): Carried {
    if news == [] then Carried(map[], {}, [])
    else
      var c, t := BySpot(olds, Front(news)), Last(news);
      match FindSpot(olds, c.taken, t)
      case Some(e) => Take(c, t, e)
      case None => c.(rest := c.rest + [t])
  }

  function OldAddresses(olds: seq<Entry>, taken: set<int>): seq<string> {
    var free := Filter(olds, (e: Entry) => e.key !in taken);
    seq(|free|, k requires 0 <= k < |free| => free[k].u)
  }

  function NewAddresses(rest: seq<Tab>): seq<string> { seq(|rest|, k requires 0 <= k < |rest| => rest[k].u) }

  predicate OnlyOne(olds: seq<Entry>, taken: set<int>, rest: seq<Tab>, u: string) {
    && u != ""
    && Occurs(OldAddresses(olds, taken), u) == 1
    && Occurs(NewAddresses(rest), u) == 1
  }

  /** Second pass, over the first `k` tabs left: the one entry whose address is
      unique on both sides of what the first pass left. */
  function ByAddress(olds: seq<Entry>, first: Carried, k: nat): Carried
    requires k <= |first.rest|
  {
    if k == 0 then first
    else
      var c, t := ByAddress(olds, first, k - 1), first.rest[k - 1];
      if !OnlyOne(olds, first.taken, first.rest, t.u) then c
      else match FindAddress(olds, c.taken, t.u)
        case Some(e) => Take(c, t, e)
        case None => c
  }

  function WindowMatch(olds: seq<Entry>, news: seq<Tab>): map<int, int> {
    var first := BySpot(olds, news);
    ByAddress(olds, first, |first.rest|).from
  }

  function Carry(olds: seq<Entry>, news: seq<Tab>, chosen: seq<Pair>): map<int, int> {
    if chosen == [] then map[]
    else
      var p := Last(chosen);
      Carry(olds, news, Front(chosen)) + WindowMatch(OldIn(olds, p.ow), NewIn(news, p.nw))
  }

  /* ---- the whole re-key ---- */

  function Choose(olds: seq<Entry>, news: seq<Tab>): seq<Pair> {
    Chosen(Sorted(Pairs(olds, news, Groups(olds, (e: Entry) => e.w), Groups(news, (t: Tab) => t.w))))
  }

  function Choice(stored: seq<Entry>, tabs: seq<Tab>): seq<Pair> { Choose(Olds(stored, tabs), News(stored, tabs)) }

  function Kept(stored: seq<Entry>, tabs: seq<Tab>): map<int, int> {
    map t | t in tabs && Stays(stored, t) :: t.id := t.id
  }

  /** Tab id -> key of the entry carried to it. */
  function From(stored: seq<Entry>, tabs: seq<Tab>): map<int, int> {
    Kept(stored, tabs) + Carry(Olds(stored, tabs), News(stored, tabs), Choice(stored, tabs))
  }

  function TimeOf(stored: seq<Entry>, key: int): (r: Option<int>)
    ensures r.Some? ==> exists e :: e in stored && e.key == key && e.at == r
  {
    if stored == [] then None
    else if stored[0].key == key then stored[0].at
    else TimeOf(stored[1..], key)
  }

  function TabOf(tabs: seq<Tab>, id: int): (r: Option<Tab>)
    ensures r.Some? ==> r.value in tabs && r.value.id == id
    ensures r.None? ==> forall t :: t in tabs ==> t.id != id
  {
    if tabs == [] then None else if tabs[0].id == id then Some(tabs[0]) else TabOf(tabs[1..], id)
  }

  /** Tab `t` as the ledger writes it down, opened when the entry `key` says. */
  function Row(stored: seq<Entry>, t: Tab, key: int): Entry { Entry(t.id, TimeOf(stored, key), t.w, t.i, t.u) }

  /** The ledger written for a choice of entries. */
  function Written(stored: seq<Entry>, tabs: seq<Tab>, from: map<int, int>): Ledger {
    map id | id in from && TabOf(tabs, id).Some? :: Row(stored, TabOf(tabs, id).value, from[id])
  }

  /** The ledger rekeyLedger returns. */
  function Rekeyed(stored: seq<Entry>, tabs: seq<Tab>): Ledger { Written(stored, tabs, From(stored, tabs)) }

  function Readable(stored: seq<Entry>): seq<Entry> { Filter(stored, (e: Entry) => e.at.Some?) }

  function Dropped(stored: seq<Entry>, tabs: seq<Tab>): int {
    |Readable(stored)| - |Rekeyed(stored, tabs)|
  }
}
