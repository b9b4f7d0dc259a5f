/** The ledger as the worker keeps it: rekeyLedger's loops, and the events that
    write it between two restarts. */
module TabAgesLedger {
  import opened Prelude
  import opened Lists
  import opened TabAges
  import opened TabAgesTheorems
  import opened TabAgesRestart

  /** A tab writes the row of the entry it took. */
  lemma WritesRow(stored: seq<Entry>, tabs: seq<Tab>, from: map<int, int>, t: Tab, e: Entry)
    requires DistinctKeys(stored) && DistinctIds(tabs) && t in tabs && e in stored
    ensures Written(stored, tabs, from[t.id := e.key]) == Written(stored, tabs, from)[t.id := Entry(t.id, e.at, t.w, t.i, t.u)]
  {
    TimeOfKey(stored, e);
    TabOfTab(tabs, t);
  }

  function Find(stored: seq<Entry>, key: int): (r: Option<Entry>)
    ensures r.Some? ==> r.value in stored && r.value.key == key
    ensures r.None? ==> forall e :: e in stored ==> e.key != key
  {
    if stored == [] then None else if stored[0].key == key then Some(stored[0]) else Find(stored[1..], key)
  }

  lemma FindStays(stored: seq<Entry>, t: Tab)
    requires DistinctKeys(stored)
    ensures Stays(stored, t) <==>
              var f := Find(stored, t.id); f.Some? && f.value.at.Some? && f.value.u == t.u
  {
  }

  lemma KeptNext(stored: seq<Entry>, tabs: seq<Tab>, k: nat)
    requires k < |tabs|
    ensures Kept(stored, tabs[..k + 1]) ==
              if Stays(stored, tabs[k]) then Kept(stored, tabs[..k])[tabs[k].id := tabs[k].id] else Kept(stored, tabs[..k])
  {
    assert tabs[..k + 1] == tabs[..k] + [tabs[k]];
  }

  /** Same id and same address: the entry is kept. */
  method KeepSame(stored: seq<Entry>, tabs: seq<Tab>) returns (ledger: Ledger, matched: set<int>)
    requires DistinctKeys(stored) && DistinctIds(tabs)
    ensures ledger == Written(stored, tabs, Kept(stored, tabs)) && matched == Kept(stored, tabs).Keys
  {
    ledger, matched := map[], {};
    for k := 0 to |tabs|
      invariant ledger == Written(stored, tabs, Kept(stored, tabs[..k])) && matched == Kept(stored, tabs[..k]).Keys
    {
      var tab := tabs[k];
      var entry := Find(stored, tab.id);
      FindStays(stored, tab);
      KeptNext(stored, tabs, k);
      if entry.Some? && entry.value.at.Some? && entry.value.u == tab.u {
        WritesRow(stored, tabs, Kept(stored, tabs[..k]), tab, entry.value);
        ledger := ledger[tab.id := Entry(tab.id, entry.value.at, tab.w, tab.i, tab.u)];
        matched := matched + {tab.id};
      }
    }
    assert tabs[..|tabs|] == tabs;
  }

  /** Score every old window against every new one, best first. */
  method PairUp(olds: seq<Entry>, news: seq<Tab>, ows: seq<int>, oldIn: map<int, seq<Entry>>, nws: seq<int>,
      newIn: map<int, seq<Tab>>)
    returns (pairs: seq<Pair>)
    requires forall a :: 0 <= a < |ows| ==> ows[a] in oldIn && oldIn[ows[a]] == OldIn(olds, ows[a])
    requires forall b :: 0 <= b < |nws| ==> nws[b] in newIn && newIn[nws[b]] == NewIn(news, nws[b])
    ensures pairs == Sorted(Pairs(olds, news, ows, nws))
  {
    pairs := [];
    for a := 0 to |ows|
      invariant pairs == Pairs(olds, news, ows[..a], nws)
    {
      Prefix(ows, a);
      ghost var before := pairs;
      for b := 0 to |nws|
        invariant pairs == before + PairsFor(olds, news, ows[a], nws[..b])
      {
        Prefix(nws, b);
        var p := Compare(oldIn[ows[a]], newIn[nws[b]], ows[a], nws[b]);
        if p.exact + p.shared > 0 { pairs := pairs + [p]; }
      }
      assert nws[..|nws|] == nws;
    }
    assert ows[..|ows|] == ows;
    pairs := Sorted(pairs);
  }

  /** `carry`: the tab takes the entry. */
  method CarryTo(ghost stored: seq<Entry>, ghost tabs: seq<Tab>, ghost from: map<int, int>, ghost c: Carried,
                 ledger: Ledger, taken: set<int>, tab: Tab, entry: Entry)
    returns (ledger': Ledger, taken': set<int>)
    requires DistinctKeys(stored) && DistinctIds(tabs) && tab in tabs && entry in stored
    requires ledger == Written(stored, tabs, from + c.from) && taken == c.taken
    ensures ledger' == Written(stored, tabs, from + Take(c, tab, entry).from) && taken' == Take(c, tab, entry).taken
  {
    taken' := taken + {entry.key};
    ledger' := ledger[tab.id := Entry(tab.id, entry.at, tab.w, tab.i, tab.u)];
    assert from + c.from[tab.id := entry.key] == (from + c.from)[tab.id := entry.key];
    WritesRow(stored, tabs, from + c.from, tab, entry);
  }

  /** Inside one pair of windows. */
  method CarryWindow(stored: seq<Entry>, tabs: seq<Tab>, ghost from: map<int, int>, ledger: Ledger,
      olds: seq<Entry>, news: seq<Tab>)
    returns (ledger': Ledger)
    requires DistinctKeys(stored) && DistinctIds(tabs) && ledger == Written(stored, tabs, from)
    requires (forall e :: e in olds ==> e in stored) && (forall t :: t in news ==> t in tabs)
    ensures ledger' == Written(stored, tabs, from + WindowMatch(olds, news))
  {
    var taken, rest: seq<Tab>;
    ghost var c;
    ledger', taken, rest, c := CarryBySpot(stored, tabs, from, ledger, olds, news);
    ghost var first := c;
    var oldCounts := CountBy(OldAddresses(olds, taken));
    var newCounts := CountBy(NewAddresses(rest));
    for k := 0 to |rest|
      invariant c == ByAddress(olds, first, k) && taken == c.taken
      invariant ledger' == Written(stored, tabs, from + c.from)
    {
      var tab := rest[k];
      var one := tab.u != "" && tab.u in oldCounts && oldCounts[tab.u] == 1 && tab.u in newCounts && newCounts[tab.u] == 1;
      assert one == OnlyOne(olds, first.taken, first.rest, tab.u);
      if !one { continue; }
      var entry := FindAddress(olds, taken, tab.u);
      if entry.Some? {
        ledger', taken := CarryTo(stored, tabs, from, c, ledger', taken, tab, entry.value);
        c := Take(c, tab, entry.value);
      }
    }
  }

  method CarryBySpot(stored: seq<Entry>, tabs: seq<Tab>, ghost from: map<int, int>, ledger: Ledger,
      olds: seq<Entry>, news: seq<Tab>)
    returns (ledger': Ledger, taken: set<int>, rest: seq<Tab>, ghost c: Carried)
    requires DistinctKeys(stored) && DistinctIds(tabs) && ledger == Written(stored, tabs, from)
    requires (forall e :: e in olds ==> e in stored) && (forall t :: t in news ==> t in tabs)
    ensures c == BySpot(olds, news) && taken == c.taken && rest == c.rest
    ensures forall t :: t in rest ==> t in tabs
    ensures ledger' == Written(stored, tabs, from + c.from)
  {
    ledger', taken, rest, c := ledger, {}, [], Carried(map[], {}, []);
    assert from + map[] == from;
    for k := 0 to |news|
      invariant c == BySpot(olds, news[..k]) && taken == c.taken && rest == c.rest
      invariant forall t :: t in rest ==> t in tabs
      invariant ledger' == Written(stored, tabs, from + c.from)
    {
      Prefix(news, k);
      var tab := news[k];
      var entry := FindSpot(olds, taken, tab);
      if entry.Some? {
        ledger', taken := CarryTo(stored, tabs, from, c, ledger', taken, tab, entry.value);
        c := Take(c, tab, entry.value);
      } else {
        c, rest := c.(rest := c.rest + [tab]), rest + [tab];
      }
    }
    assert news[..|news|] == news;
  }

  ghost function OldSide(chosen: seq<Pair>): set<int> { set q | q in chosen :: q.ow }

  ghost function NewSide(chosen: seq<Pair>): set<int> { set q | q in chosen :: q.nw }

  lemma SidesNext(chosen: seq<Pair>, p: Pair)
    ensures Clashes(chosen, p) <==> p.ow in OldSide(chosen) || p.nw in NewSide(chosen)
    ensures OldSide(chosen + [p]) == OldSide(chosen) + {p.ow} && NewSide(chosen + [p]) == NewSide(chosen) + {p.nw}
  {
  }

  /** Each window once, best pair first. */
  method CarryPairs(stored: seq<Entry>, tabs: seq<Tab>, ledger: Ledger, pairs: seq<Pair>, ghost kept: map<int, int>,
                    ghost olds: seq<Entry>, ghost news: seq<Tab>, oldIn: map<int, seq<Entry>>, newIn: map<int, seq<Tab>>)
    returns (ledger': Ledger)
    requires DistinctKeys(stored) && DistinctIds(tabs) && ledger == Written(stored, tabs, kept)
    requires (forall e :: e in olds ==> e in stored) && (forall t :: t in news ==> t in tabs)
    requires forall k :: 0 <= k < |pairs| ==> pairs[k].ow in oldIn && oldIn[pairs[k].ow] == OldIn(olds, pairs[k].ow)
    requires forall k :: 0 <= k < |pairs| ==> pairs[k].nw in newIn && newIn[pairs[k].nw] == NewIn(news, pairs[k].nw)
    ensures ledger' == Written(stored, tabs, kept + Carry(olds, news, Chosen(pairs)))
  {
    ledger' := ledger;
    var pairedOld, pairedNew := {}, {};
    ghost var chosen: seq<Pair>, from := [], kept;
    assert kept + map[] == kept;
    for k := 0 to |pairs|
      invariant chosen == Chosen(pairs[..k]) && pairedOld == OldSide(chosen) && pairedNew == NewSide(chosen)
      invariant from == kept + Carry(olds, news, chosen) && ledger' == Written(stored, tabs, from)
    {
      ChosenNext(pairs, k);
      var p := pairs[k];
      SidesNext(chosen, p);
      if p.ow in pairedOld || p.nw in pairedNew { continue; }
      pairedOld, pairedNew := pairedOld + {p.ow}, pairedNew + {p.nw};
      ledger' := CarryWindow(stored, tabs, from, ledger', oldIn[p.ow], newIn[p.nw]);
      CarryNext(olds, news, chosen, p, kept);
      from := from + WindowMatch(OldIn(olds, p.ow), NewIn(news, p.nw));
      chosen := chosen + [p];
    }
    assert pairs[..|pairs|] == pairs;
  }

  lemma CarryNext(olds: seq<Entry>, news: seq<Tab>, chosen: seq<Pair>, p: Pair, kept: map<int, int>)
    ensures kept + Carry(olds, news, chosen) + WindowMatch(OldIn(olds, p.ow), NewIn(news, p.nw))
         == kept + Carry(olds, news, chosen + [p])
  {
    assert Front(chosen + [p]) == chosen && Last(chosen + [p]) == p;
  }

  /** Group what is left by window, pair the windows, carry inside each pair. */
  method CarryByWindow(stored: seq<Entry>, tabs: seq<Tab>, ledger: Ledger, ghost kept: map<int, int>,
      olds: seq<Entry>, news: seq<Tab>)
    returns (ledger': Ledger)
    requires DistinctKeys(stored) && DistinctIds(tabs) && ledger == Written(stored, tabs, kept)
    requires (forall e :: e in olds ==> e in stored) && (forall t :: t in news ==> t in tabs)
    ensures ledger' == Written(stored, tabs, kept + Carry(olds, news, Choose(olds, news)))
  {
    var ows, oldIn := GroupOlds(olds);
    var nws, newIn := GroupNews(news);
    forall b | 0 <= b < |nws| ensures nws[b] in newIn && newIn[nws[b]] == NewIn(news, nws[b]) {
      assert nws[b] in nws;
    }
    forall a | 0 <= a < |ows| ensures ows[a] in oldIn && oldIn[ows[a]] == OldIn(olds, ows[a]) {
      assert ows[a] in ows;
    }
    var pairs := PairUp(olds, news, ows, oldIn, nws, newIn);
    RankedIn(olds, news, ows, nws);
    ledger' := CarryPairs(stored, tabs, ledger, pairs, kept, olds, news, oldIn, newIn);
  }

  method GroupOlds(olds: seq<Entry>) returns (ows: seq<int>, oldIn: map<int, seq<Entry>>)
    ensures ows == Groups(olds, (e: Entry) => e.w)
    ensures forall w :: w in ows ==> w in oldIn && oldIn[w] == OldIn(olds, w)
  {
    ows, oldIn := GroupBy(olds, (e: Entry) => e.w);
  }

  method GroupNews(news: seq<Tab>) returns (nws: seq<int>, newIn: map<int, seq<Tab>>)
    ensures nws == Groups(news, (t: Tab) => t.w)
    ensures forall w :: w in nws ==> w in newIn && newIn[w] == NewIn(news, w)
  {
    nws, newIn := GroupBy(news, (t: Tab) => t.w);
  }

  /** rekeyLedger: carry the ledger onto the tabs that are open now. */
  method RekeyLedger(stored: seq<Entry>, tabs: seq<Tab>) returns (ledger: Ledger, carried: nat, dropped: int)
    requires DistinctKeys(stored) && DistinctIds(tabs)
    ensures ledger == Rekeyed(stored, tabs) && carried == |ledger| && dropped == Dropped(stored, tabs)
  {
    var entries := Readable(stored);
    var matched;
    ledger, matched := KeepSame(stored, tabs);
    var olds := Filter(entries, (e: Entry) => e.key !in matched);
    var news := Filter(tabs, (t: Tab) => t.id !in matched);
    LeftAre(stored, tabs, matched);
    ledger := CarryByWindow(stored, tabs, ledger, Kept(stored, tabs), olds, news);
    carried := |ledger|;
    dropped := |entries| - carried;
  }

  lemma RankedIn(olds: seq<Entry>, news: seq<Tab>, ows: seq<int>, nws: seq<int>)
    ensures var ps := Sorted(Pairs(olds, news, ows, nws));
            forall k :: 0 <= k < |ps| ==> ps[k].ow in ows && ps[k].nw in nws
  {
    PairsAre(olds, news, ows, nws);
    SortedSame(Pairs(olds, news, ows, nws));
  }

  lemma LeftAre(stored: seq<Entry>, tabs: seq<Tab>, matched: set<int>)
    requires DistinctIds(tabs) && matched == Kept(stored, tabs).Keys
    ensures Filter(Readable(stored), (e: Entry) => e.key !in matched) == Olds(stored, tabs)
    ensures Filter(tabs, (t: Tab) => t.id !in matched) == News(stored, tabs)
  {
    FilterTwice(stored, (e: Entry) => e.at.Some?, (e: Entry) => e.key !in matched, (e: Entry) => Carriable(stored, tabs, e));
    FilterTabs(tabs, (t: Tab) => t.id !in matched, (t: Tab) => !Stays(stored, t));
  }

  lemma {:induction false} FilterTwice(es: seq<Entry>, f: Entry -> bool, g: Entry -> bool, h: Entry -> bool)
    requires forall k :: 0 <= k < |es| ==> h(es[k]) == (f(es[k]) && g(es[k]))
    ensures Filter(Filter(es, f), g) == Filter(es, h)
  {
    if es != [] {
      FilterTwice(Front(es), f, g, h);
      assert es == Front(es) + [Last(es)];
      if f(Last(es)) { assert Front(Filter(es, f)) == Filter(Front(es), f); }
    }
  }

  lemma {:induction false} FilterTabs(ts: seq<Tab>, f: Tab -> bool, g: Tab -> bool)
    requires forall k :: 0 <= k < |ts| ==> f(ts[k]) == g(ts[k])
    ensures Filter(ts, f) == Filter(ts, g)
  {
    if ts != [] {
      FilterTabs(Front(ts), f, g);
      assert ts == Front(ts) + [Last(ts)];
    }
  }

  /* ---- between two restarts ---- */

  /** RESTORED_SLACK_MS. */
  const RESTORED_SLACK := 60_000

  /** Rows past which those of tabs that are not open are dropped. */
  const LEDGER_SOFT_CAP := 5_000

  datatype Op =
    | Opened(tab: Tab, lastShown: Option<int>, now: int)
    | Closed(id: int, windowClosing: bool)
    | Moved(tabs: seq<Tab>)

  /** Shown well before its created event: a tab that came back, not a new one. */
  predicate Restored(lastShown: Option<int>, now: int) { lastShown.Some? && now - lastShown.value > RESTORED_SLACK }

  function RecordOpened(ledger: Ledger, tab: Tab, lastShown: Option<int>, now: int): Ledger {
    if tab.id in ledger || Restored(lastShown, now) then ledger
    else ledger[tab.id := Entry(tab.id, Some(now), tab.w, tab.i, tab.u)]
  }

  function ForgetTab(ledger: Ledger, id: int, windowClosing: bool): Ledger {
    if id !in ledger || windowClosing then ledger else ledger - {id}
  }

  function MovedTo(e: Entry, tab: Tab): Entry { e.(w := tab.w, i := tab.i, u := tab.u) }

  function Refreshed(ledger: Ledger, tabs: seq<Tab>): (r: Ledger)
    ensures r.Keys == ledger.Keys
    ensures forall k :: k in r ==> r[k].at == ledger[k].at
  {
    if tabs == [] then ledger
    else
      var next, tab := Refreshed(ledger, Front(tabs)), Last(tabs);
      if tab.id !in ledger || MovedTo(ledger[tab.id], tab) == ledger[tab.id] then next
      else next[tab.id := MovedTo(ledger[tab.id], tab)]
  }

  method RefreshPositions(ledger: Ledger, tabs: seq<Tab>) returns (next: Ledger)
    ensures next == Refreshed(ledger, tabs)
  {
    next := ledger;
    for k := 0 to |tabs|
      invariant next == Refreshed(ledger, tabs[..k])
    {
      Prefix(tabs, k);
      var tab := tabs[k];
      if tab.id !in ledger { continue; }
      var entry := ledger[tab.id];
      if entry.w == tab.w && entry.i == tab.i && entry.u == tab.u { continue; }
      next := next[tab.id := entry.(w := tab.w, i := tab.i, u := tab.u)];
    }
    assert tabs[..|tabs|] == tabs;
  }

  /** Every listed tab the ledger knows is put where it is, and nothing else moves. */
  lemma {:induction false} RefreshedPlaces(ledger: Ledger, tabs: seq<Tab>)
    requires DistinctIds(tabs)
    ensures forall t :: t in tabs && t.id in ledger ==> Refreshed(ledger, tabs)[t.id] == Entry(ledger[t.id].key, ledger[t.id].at, t.w, t.i, t.u)
    ensures forall k :: k in ledger && (forall t :: t in tabs ==> t.id != k) ==> Refreshed(ledger, tabs)[k] == ledger[k]
  {
    if tabs != [] {
      RefreshedPlaces(ledger, Front(tabs));
      assert tabs == Front(tabs) + [Last(tabs)];
    }
  }

  predicate Listed(tabs: seq<Tab>, id: int) { exists t | t in tabs :: t.id == id }

  function Ids(tabs: seq<Tab>): (r: set<int>)
    ensures forall id :: id in r <==> Listed(tabs, id)
  {
    set t | t in tabs :: t.id
  }

  function Pruned(ledger: Ledger, tabs: seq<Tab>): Ledger { ledger - (ledger.Keys - Ids(tabs)) }

  method PruneClosed(ledger: Ledger, tabs: seq<Tab>) returns (next: Ledger)
    ensures next == Pruned(ledger, tabs)
  {
    var open, keys := Ids(tabs), ledger.Keys;
    next := map[];
    while keys != {}
      invariant keys <= ledger.Keys
      invariant forall k :: k in next <==> k in ledger && k !in keys && k in open
      invariant forall k :: k in next ==> next[k] == ledger[k]
      decreases |keys|
    {
      ghost var some := Pick(keys);
      var k :| k in keys;
      keys := keys - {k};
      if k in open { next := next[k := ledger[k]]; }
    }
    forall k ensures k in next <==> k in Pruned(ledger, tabs) {
      assert k in next <==> k in ledger && k in open;
    }
  }

  /** What follows a moved tab, a moment later. */
  function Repositioned(ledger: Ledger, tabs: seq<Tab>): Ledger {
    var next := Refreshed(ledger, tabs);
    if |next| > LEDGER_SOFT_CAP then Pruned(next, tabs) else next
  }

  function Apply(ledger: Ledger, op: Op): Ledger {
    match op
    case Opened(tab, lastShown, now) => RecordOpened(ledger, tab, lastShown, now)
    case Closed(id, windowClosing) => ForgetTab(ledger, id, windowClosing)
    case Moved(tabs) => Repositioned(ledger, tabs)
  }

  function ApplyAll(ledger: Ledger, ops: seq<Op>): Ledger
    decreases ops
  {
    if ops == [] then ledger else ApplyAll(Apply(ledger, ops[0]), ops[1..])
  }

  /** What withLedger does with its calls, one at a time: the first in a browser
      session re-keys the rows it reads, `listed`, onto the settled tabs. */
  function Session(listed: seq<Entry>, settled: seq<Tab>, ops: seq<Op>): Ledger {
    ApplyAll(Rekeyed(listed, settled), ops)
  }

  /** The tab `id` does not close on its own, and is open whenever positions are
      looked at. */
  ghost predicate StaysOpen(ops: seq<Op>, id: int) {
    Closed(id, false) !in ops && forall op :: op in ops && op.Moved? ==> Listed(op.tabs, id)
  }

  /** A time, once written, is never replaced, and is forgotten only once the tab
      closed on its own, or is gone when a ledger past its cap is pruned. A window
      closing, which is what a browser quitting looks like, forgets nothing. */
  lemma {:induction false} TimesLast(ledger: Ledger, ops: seq<Op>, id: int)
    requires id in ledger && StaysOpen(ops, id)
    ensures id in ApplyAll(ledger, ops) && ApplyAll(ledger, ops)[id].at == ledger[id].at
    decreases ops
  {
    if ops != [] {
      assert ops[0] in ops;
      TimesLast(Apply(ledger, ops[0]), ops[1..], id);
    }
  }

  /** Every row not there before was stamped with the time of its created event,
      and that tab had not been shown long before. */
  lemma {:induction false} OnlyNewTabsAreStamped(ledger: Ledger, ops: seq<Op>, id: int)
    requires id in ApplyAll(ledger, ops) && (id !in ledger || ApplyAll(ledger, ops)[id].at != ledger[id].at)
    ensures exists op :: op in ops && op.Opened? && op.tab.id == id && !Restored(op.lastShown, op.now)
                         && ApplyAll(ledger, ops)[id].at == Some(op.now)
    decreases ops
  {
    var next := Apply(ledger, ops[0]);
    assert ops[0] in ops;
    if id in next && next[id].at == ApplyAll(ledger, ops)[id].at {
      assert ops[0].Opened?;
    } else {
      OnlyNewTabsAreStamped(next, ops[1..], id);
    }
  }

  /** A tab that came back keeps its old time whatever created events the
      browser sends for it: they are handled after the re-key. */
  lemma CarriedBeforeStamped(listed: seq<Entry>, settled: seq<Tab>, ops: seq<Op>, id: int)
    requires DistinctKeys(listed) && DistinctIds(settled)
    requires id in From(listed, settled) && StaysOpen(ops, id)
    ensures id in Session(listed, settled, ops)
    ensures exists e :: e in listed && e.key == From(listed, settled)[id] && Session(listed, settled, ops)[id].at == e.at
  {
    RekeyIsInjection(listed, settled);
    assert Bears(listed, settled, id, From(listed, settled)[id], Rekeyed(listed, settled)[id]);
    TimesLast(Rekeyed(listed, settled), ops, id);
  }

  /** A tab is stamped with the time of its created event, if it has no row and was
      not shown more than a minute before; and keeps that time while it is open. */
  lemma NewTabKeepsItsTime(ledger: Ledger, tab: Tab, lastShown: Option<int>, now: int, ops: seq<Op>)
    requires tab.id !in ledger && (lastShown.None? || now - lastShown.value <= 60_000) && StaysOpen(ops, tab.id)
    ensures Apply(ledger, Opened(tab, lastShown, now)) == ledger[tab.id := Entry(tab.id, Some(now), tab.w, tab.i, tab.u)]
    ensures var end := ApplyAll(ledger, [Opened(tab, lastShown, now)] + ops); tab.id in end && end[tab.id].at == Some(now)
  {
    var next := Apply(ledger, Opened(tab, lastShown, now));
    assert ([Opened(tab, lastShown, now)] + ops)[1..] == ops;
    TimesLast(next, ops, tab.id);
  }

  /** No row but that of a tab shown long before its created event is left out. */
  lemma RestoredTabIsLeftOut(ledger: Ledger, tab: Tab, lastShown: int, now: int)
    requires now - lastShown > 60_000
    ensures Apply(ledger, Opened(tab, Some(lastShown), now)) == ledger
  {
  }

  /** A tab closed on its own is forgotten, until one of its id is created. */
  lemma {:induction false} ClosedTabIsForgotten(ledger: Ledger, id: int, ops: seq<Op>)
    requires forall op :: op in ops && op.Opened? ==> op.tab.id != id
    ensures id !in ApplyAll(Apply(ledger, Closed(id, false)), ops)
  {
    StaysForgotten(Apply(ledger, Closed(id, false)), id, ops);
  }

  lemma {:induction false} StaysForgotten(ledger: Ledger, id: int, ops: seq<Op>)
    requires id !in ledger && forall op :: op in ops && op.Opened? ==> op.tab.id != id
    ensures id !in ApplyAll(ledger, ops)
    decreases ops
  {
    if ops != [] {
      assert ops[0] in ops;
      StaysForgotten(Apply(ledger, ops[0]), id, ops[1..]);
    }
  }

  /** One closed with its window is not, nor is any other row. */
  lemma ClosingForgetsOnlyThat(ledger: Ledger, id: int, windowClosing: bool)
    ensures var next := Apply(ledger, Closed(id, windowClosing));
            forall k :: (k in next <==> k in ledger && (k != id || windowClosing)) && (k in next ==> next[k] == ledger[k])
  {
  }

  /** A ledger past 5000 rows loses exactly those of tabs that are not open, and one
      within them loses none. */
  lemma CapDropsOnlyTheClosed(ledger: Ledger, tabs: seq<Tab>)
    ensures var next := Apply(ledger, Moved(tabs));
            forall k :: k in next <==> k in ledger && (|ledger| <= 5_000 || exists t :: t in tabs && t.id == k)
  {
    assert |Refreshed(ledger, tabs)| == |Refreshed(ledger, tabs).Keys| == |ledger.Keys| == |ledger|;
  }
}
