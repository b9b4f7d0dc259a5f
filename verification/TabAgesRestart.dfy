/** A plain browser restart loses no age: every tab and every window came back
    under a new id, at its place and address. */
module TabAgesRestart {
  import opened Prelude
  import opened Lists
  import opened TabAges
  import opened TabAgesTheorems

  type Spot = (int, string)

  ghost function SpotsOf(es: seq<Entry>): set<Spot> { set e | e in es :: (e.i, e.u) }

  ghost function OldSpots(es: seq<Entry>, w: int): set<Spot> { set e | e in es && e.w == w :: (e.i, e.u) }

  ghost function NewSpots(ts: seq<Tab>, w: int): set<Spot> { set t | t in ts && t.w == w :: (t.i, t.u) }

  /** No two entries, and no two tabs, at one index of one window. */
  ghost predicate Placed(es: seq<Entry>, ts: seq<Tab>) {
    && (forall d, e :: d in es && e in es && d.w == e.w && d.i == e.i ==> d == e)
    && (forall s, t :: s in ts && t in ts && s.w == t.w && s.i == t.i ==> s == t)
  }

  ghost predicate CameBack(ts: seq<Tab>, ren: map<int, int>, e: Entry) {
    e.w in ren && exists t :: t in ts && t.w == ren[e.w] && t.i == e.i && t.u == e.u
  }

  ghost predicate WasThere(es: seq<Entry>, ren: map<int, int>, t: Tab) {
    exists e :: e in es && e.w in ren && ren[e.w] == t.w && t.i == e.i && t.u == e.u
  }

  /** The tabs are the entries, under the renaming `ren` of windows. */
  ghost predicate SameTabs(es: seq<Entry>, ts: seq<Tab>, ren: map<int, int>) {
    && Injective(ren)
    && (forall e :: e in es ==> e.u != "")
    && (forall e {:trigger CameBack(ts, ren, e)} :: e in es ==> CameBack(ts, ren, e))
    && (forall t {:trigger WasThere(es, ren, t)} :: t in ts ==> WasThere(es, ren, t))
  }

  /* ---- the best pair first ---- */

  ghost predicate Descends(ps: seq<Pair>) {
    forall a, b :: 0 <= a < b < |ps| ==> ps[a].exact >= ps[b].exact
  }

  lemma {:induction false} InsertDescends(p: Pair, ps: seq<Pair>)
    requires Descends(ps)
    ensures Descends(Insert(p, ps))
  {
    if ps != [] && Before(p, Last(ps)) {
      InsertDescends(p, Front(ps));
      var r := Insert(p, Front(ps));
      forall q | q in r ensures q.exact >= Last(ps).exact {
        assert q in multiset(r);
        assert q == p || q in multiset(Front(ps));
        assert q == p || q in Front(ps);
      }
    }
  }

  lemma {:induction false} SortedDescends(ps: seq<Pair>)
    ensures Descends(Sorted(ps))
  {
    if ps != [] {
      SortedDescends(Front(ps));
      InsertDescends(Last(ps), Sorted(Front(ps)));
    }
  }

  /** Each pair is scored by what its windows have in common, and two windows
      of one content are paired somewhere. */
  ghost predicate Scored(ps: seq<Pair>, os: map<int, set<Spot>>, ns: map<int, set<Spot>>) {
    && (forall p :: p in ps ==> p.ow in os && p.nw in ns && p.exact == |os[p.ow] * ns[p.nw]|)
    && (forall o, n :: o in os && n in ns && os[o] == ns[n] ==> exists p :: p in ps && p.ow == o && p.nw == n)
  }

  /** The windows not chosen yet still correspond, content for content. */
  ghost predicate Remain(left: map<int, int>, os: map<int, set<Spot>>, ns: map<int, set<Spot>>, chosen: seq<Pair>) {
    && Injective(left)
    && (forall o :: o in left ==> o in os && left[o] in ns && os[o] == ns[left[o]])
    && (forall o :: o in os ==> (o in left <==> forall q :: q in chosen ==> q.ow != o))
    && (forall n :: n in ns && (forall q :: q in chosen ==> q.nw != n) ==> exists o :: o in left && left[o] == n)
    && (forall o, q :: o in left && q in chosen ==> left[o] != q.nw)
  }

  ghost predicate Agree(chosen: seq<Pair>, os: map<int, set<Spot>>, ns: map<int, set<Spot>>) {
    forall q :: q in chosen ==> q.ow in os && q.nw in ns && os[q.ow] == ns[q.nw]
  }

  lemma Overlap<T>(a: set<T>, b: set<T>, n: nat)
    requires n == |a * b|
    ensures n >= |a| ==> a <= b
    ensures n >= |b| ==> b <= a
  {
    assert a == (a * b) + (a - b);
    assert b == (a * b) + (b - a);
    if n >= |a| { assert a - b == {}; }
    if n >= |b| { assert b - a == {}; }
  }

  /** What is left once `p` is chosen: whoever p.nw was meant for goes to where
      p.ow was meant to go. */
  lemma Swap(left: map<int, int>, os: map<int, set<Spot>>, ns: map<int, set<Spot>>, chosen: seq<Pair>, p: Pair, o: int)
    returns (left': map<int, int>)
    requires Remain(left, os, ns, chosen) && !Clashes(chosen, p)
    requires p.ow in left && o in left && left[o] == p.nw
    requires os[p.ow] == ns[p.nw]
    ensures Remain(left', os, ns, chosen + [p])
  {
    if o == p.ow { left' := left - {p.ow}; } else { left' := left[o := left[p.ow]] - {p.ow}; }
    forall n | n in ns && (forall q :: q in chosen + [p] ==> q.nw != n) ensures exists x :: x in left' && left'[x] == n {
      assert forall q :: q in chosen ==> q in chosen + [p];
      assert p in chosen + [p];
      var x :| x in left && left[x] == n;
      assert left'[if x == p.ow then o else x] == n;
    }
  }

  /** A pair that clashes with nothing chosen has not had its turn. */
  lemma Best(ps: seq<Pair>, os: map<int, set<Spot>>, ns: map<int, set<Spot>>, chosen: seq<Pair>, k: nat, o: int, n: int)
    requires k < |ps| && Descends(ps) && Scored(ps, os, ns)
    requires forall j :: 0 <= j < k ==> Clashes(chosen, ps[j])
    requires o in os && n in ns && os[o] == ns[n] && forall q :: q in chosen ==> q.ow != o && q.nw != n
    ensures ps[k].exact >= |os[o]|
  {
    var p :| p in ps && p.ow == o && p.nw == n;
    var a :| 0 <= a < |ps| && ps[a] == p;
    assert !Clashes(chosen, ps[a]) && ps[a] in ps;
    assert os[o] * ns[n] == os[o];
  }

  /** The best pair still free joins two windows of one content. */
  lemma Accept(ps: seq<Pair>, os: map<int, set<Spot>>, ns: map<int, set<Spot>>, left: map<int, int>,
      chosen: seq<Pair>, k: nat)
    returns (left': map<int, int>)
    requires k < |ps| && Descends(ps) && Scored(ps, os, ns) && Remain(left, os, ns, chosen)
    requires forall j :: 0 <= j < k ==> Clashes(chosen, ps[j])
    requires !Clashes(chosen, ps[k])
    ensures Remain(left', os, ns, chosen + [ps[k]])
    ensures ps[k].ow in os && ps[k].nw in ns && os[ps[k].ow] == ns[ps[k].nw]
  {
    var p := ps[k];
    assert p in ps && p.ow in left;
    var o :| o in left && left[o] == p.nw;
    Best(ps, os, ns, chosen, k, p.ow, left[p.ow]);
    Best(ps, os, ns, chosen, k, o, p.nw);
    Overlap(os[p.ow], ns[p.nw], p.exact);
    left' := Swap(left, os, ns, chosen, p, o);
  }

  lemma Extend(ps: seq<Pair>, os: map<int, set<Spot>>, ns: map<int, set<Spot>>, chosen: seq<Pair>, k: nat)
    requires k < |ps| && Agree(chosen, os, ns) && forall j :: 0 <= j < k ==> Clashes(chosen, ps[j])
    requires ps[k].ow in os && ps[k].nw in ns && os[ps[k].ow] == ns[ps[k].nw]
    ensures Agree(chosen + [ps[k]], os, ns)
    ensures forall j :: 0 <= j <= k ==> Clashes(chosen + [ps[k]], ps[j])
  {
    assert ps[k] in chosen + [ps[k]];
    forall j | 0 <= j < k ensures Clashes(chosen + [ps[k]], ps[j]) {
      var q :| q in chosen && (q.ow == ps[j].ow || q.nw == ps[j].nw);
      assert q in chosen + [ps[k]];
    }
  }

  /** After the first `k` pairs had their turn. */
  ghost predicate Turn(ps: seq<Pair>, os: map<int, set<Spot>>, ns: map<int, set<Spot>>, left: map<int, int>,
      chosen: seq<Pair>, k: nat) {
    && k <= |ps|
    && Remain(left, os, ns, chosen) && Agree(chosen, os, ns)
    && forall j :: 0 <= j < k ==> Clashes(chosen, ps[j])
  }

  lemma NextTurn(ps: seq<Pair>, os: map<int, set<Spot>>, ns: map<int, set<Spot>>, left: map<int, int>,
      chosen: seq<Pair>, k: nat)
    returns (left': map<int, int>)
    requires Descends(ps) && Scored(ps, os, ns) && k < |ps| && Turn(ps, os, ns, left, chosen, k)
    ensures Turn(ps, os, ns, left', if Clashes(chosen, ps[k]) then chosen else chosen + [ps[k]], k + 1)
  {
    left' := left;
    if !Clashes(chosen, ps[k]) {
      left' := Accept(ps, os, ns, left, chosen, k);
      Extend(ps, os, ns, chosen, k);
    }
  }

  lemma ChosenNext(ps: seq<Pair>, k: nat)
    requires k < |ps|
    ensures Chosen(ps[..k + 1]) == if Clashes(Chosen(ps[..k]), ps[k]) then Chosen(ps[..k]) else Chosen(ps[..k]) + [ps[k]]
  {
    assert Front(ps[..k + 1]) == ps[..k] && Last(ps[..k + 1]) == ps[k];
  }

  lemma ChosenAgree(ps: seq<Pair>, os: map<int, set<Spot>>, ns: map<int, set<Spot>>, ren: map<int, int>)
    returns (left: map<int, int>)
    requires Descends(ps) && Scored(ps, os, ns) && Remain(ren, os, ns, [])
    ensures Turn(ps, os, ns, left, Chosen(ps), |ps|)
  {
    left := ren;
    var k, chosen := 0, Chosen(ps[..0]);
    while k < |ps|
      invariant Turn(ps, os, ns, left, chosen, k) && chosen == Chosen(ps[..k])
    {
      left := NextTurn(ps, os, ns, left, chosen, k);
      ChosenNext(ps, k);
      k, chosen := k + 1, Chosen(ps[..k + 1]);
    }
    assert ps[..k] == ps;
  }

  ghost predicate Paired(chosen: seq<Pair>, n: int) { exists q :: q in chosen && q.nw == n }

  lemma NoneLeft(ps: seq<Pair>, os: map<int, set<Spot>>, ns: map<int, set<Spot>>, left: map<int, int>,
      chosen: seq<Pair>, n: int)
    requires Scored(ps, os, ns) && Turn(ps, os, ns, left, chosen, |ps|) && n in ns
    ensures Paired(chosen, n)
  {
    if !Paired(chosen, n) { assert false; }
  }

  /** Every window is paired, and with one of its own content. */
  lemma AllChosen(ps: seq<Pair>, os: map<int, set<Spot>>, ns: map<int, set<Spot>>, ren: map<int, int>)
    requires Descends(ps) && Scored(ps, os, ns) && Remain(ren, os, ns, [])
    ensures Agree(Chosen(ps), os, ns)
    ensures forall n :: n in ns ==> Paired(Chosen(ps), n)
  {
    var left := ChosenAgree(ps, os, ns, ren);
    forall n | n in ns ensures Paired(Chosen(ps), n) {
      NoneLeft(ps, os, ns, left, Chosen(ps), n);
    }
  }

  /* ---- the scores ---- */

  lemma {:induction false} SpotCount(es: seq<Entry>)
    requires DistinctKeys(es) && forall d, e :: d in es && e in es && d.i == e.i ==> d == e
    ensures |SpotsOf(es)| == |es|
  {
    if es != [] {
      assert es == Front(es) + [Last(es)];
      SpotCount(Front(es));
      assert SpotsOf(es) == SpotsOf(Front(es)) + {(Last(es).i, Last(es).u)};
    }
  }

  /** `exact` is how many places two windows have in common. */
  lemma ExactIs(olds: seq<Entry>, news: seq<Tab>, ow: int, nw: int)
    requires DistinctKeys(olds) && Placed(olds, news)
    ensures Score(olds, news, ow, nw).exact == |OldSpots(olds, ow) * NewSpots(news, nw)|
  {
    var o, n := OldIn(olds, ow), NewIn(news, nw);
    var hit := Filter(o, e => HasSpot(n, e));
    InKeepsKeys(olds, (e: Entry) => e.w, ow);
    FilterKeepsKeys(o, e => HasSpot(n, e));
    SpotCount(hit);
    HitSpots(olds, news, ow, nw, hit);
  }

  lemma HitSpots(olds: seq<Entry>, news: seq<Tab>, ow: int, nw: int, hit: seq<Entry>)
    requires forall e :: e in hit <==> e in OldIn(olds, ow) && HasSpot(NewIn(news, nw), e)
    ensures SpotsOf(hit) == OldSpots(olds, ow) * NewSpots(news, nw)
  {
    var n := NewIn(news, nw);
    forall s | s in OldSpots(olds, ow) * NewSpots(news, nw) ensures s in SpotsOf(hit) {
      var e :| e in olds && e.w == ow && s == (e.i, e.u);
      var t :| t in news && t.w == nw && s == (t.i, t.u);
      assert t in n && HasSpot(n, e) && e in OldIn(olds, ow);
    }
    forall e | e in hit ensures (e.i, e.u) in NewSpots(news, nw) {
      var t :| t in n && t.i == e.i && t.u == e.u;
      assert t in news && t.w == nw;
    }
  }

  lemma {:induction false} PairsForAre(olds: seq<Entry>, news: seq<Tab>, ow: int, nws: seq<int>)
    ensures forall p :: p in PairsFor(olds, news, ow, nws) <==>
              p.ow == ow && p.nw in nws && p == Score(olds, news, ow, p.nw) && p.exact + p.shared > 0
  {
    if nws != [] {
      PairsForAre(olds, news, ow, Front(nws));
      assert nws == Front(nws) + [Last(nws)];
    }
  }

  lemma {:induction false} PairsAre(olds: seq<Entry>, news: seq<Tab>, ows: seq<int>, nws: seq<int>)
    ensures forall p :: p in Pairs(olds, news, ows, nws) <==>
              p.ow in ows && p.nw in nws && p == Score(olds, news, p.ow, p.nw) && p.exact + p.shared > 0
  {
    if ows != [] {
      PairsAre(olds, news, Front(ows), nws);
      PairsForAre(olds, news, Last(ows), nws);
      assert ows == Front(ows) + [Last(ows)];
    }
  }

  /* ---- inside two windows of one content ---- */

  /** `t` was given an entry of its own index and address. */
  ghost predicate AtOwnSpot(olds: seq<Entry>, t: Tab, m: map<int, int>) {
    t.id in m && exists e :: e in olds && e.key == m[t.id] && e.i == t.i && e.u == t.u
  }

  lemma {:induction false} BySpotTakesAll(olds: seq<Entry>, news: seq<Tab>)
    requires DistinctIds(news) && forall s, t :: s in news && t in news && s.i == t.i ==> s == t
    requires forall d, e :: d in olds && e in olds && d.key == e.key ==> d == e
    requires forall t :: t in news ==> t.u != "" && exists e :: e in olds && e.i == t.i && e.u == t.u
    ensures var c := BySpot(olds, news);
            && c.rest == []
            && (forall t :: t in news ==> AtOwnSpot(olds, t, c.from))
            && (forall e :: e in olds && e.key in c.taken ==> exists t :: t in news && t.i == e.i)
  {
    if news != [] {
      assert news == Front(news) + [Last(news)];
      BySpotTakesAll(olds, Front(news));
      var c, t := BySpot(olds, Front(news)), Last(news);
      var e :| e in olds && e.i == t.i && e.u == t.u;
      assert e.key !in c.taken;
      var d := Take(c, t, FindSpot(olds, c.taken, t).value);
      assert BySpot(olds, news) == d;
      forall s | s in Front(news) ensures AtOwnSpot(olds, s, d.from) {
        assert AtOwnSpot(olds, s, c.from) && s.id != t.id;
      }
      assert AtOwnSpot(olds, t, d.from);
    }
  }

  /** The same, of an entry whose window has the content of the tab's own. */
  ghost predicate AtHome(olds: seq<Entry>, news: seq<Tab>, t: Tab, m: map<int, int>) {
    t.id in m && exists e :: e in olds && Home(olds, news, t, m[t.id], e)
  }

  ghost predicate Home(olds: seq<Entry>, news: seq<Tab>, t: Tab, key: int, e: Entry) {
    e.key == key && e.i == t.i && e.u == t.u && OldSpots(olds, e.w) == NewSpots(news, t.w)
  }

  lemma WindowFull(olds: seq<Entry>, news: seq<Tab>, q: Pair, t: Tab)
    requires DistinctKeys(olds) && DistinctIds(news) && Placed(olds, news)
    requires forall x :: x in news ==> x.u != ""
    requires OldSpots(olds, q.ow) == NewSpots(news, q.nw)
    requires t in news && t.w == q.nw
    ensures AtHome(olds, news, t, WindowMatch(OldIn(olds, q.ow), NewIn(news, q.nw)))
  {
    var o, n := OldIn(olds, q.ow), NewIn(news, q.nw);
    InKeepsIds(news, (x: Tab) => x.w, q.nw);
    forall x | x in n ensures exists e :: e in o && e.i == x.i && e.u == x.u {
      assert (x.i, x.u) in NewSpots(news, q.nw);
      var e :| e in olds && e.w == q.ow && (x.i, x.u) == (e.i, e.u);
      assert e in o;
    }
    BySpotTakesAll(o, n);
    assert AtOwnSpot(o, t, BySpot(o, n).from);
    var e :| e in o && e.key == BySpot(o, n).from[t.id] && e.i == t.i && e.u == t.u;
    assert e in olds && Home(olds, news, t, WindowMatch(o, n)[t.id], e);
  }

  lemma {:induction false} CarryFull(olds: seq<Entry>, news: seq<Tab>, chosen: seq<Pair>, t: Tab)
    requires DistinctKeys(olds) && DistinctIds(news) && Placed(olds, news)
    requires forall x :: x in news ==> x.u != ""
    requires forall q :: q in chosen ==> OldSpots(olds, q.ow) == NewSpots(news, q.nw)
    requires t in news && Paired(chosen, t.w)
    ensures AtHome(olds, news, t, Carry(olds, news, chosen))
  {
    var q := Last(chosen);
    assert chosen == Front(chosen) + [q];
    var n := WindowMatch(OldIn(olds, q.ow), NewIn(news, q.nw));
    if q.nw == t.w {
      WindowFull(olds, news, q, t);
    } else {
      CarryFull(olds, news, Front(chosen), t);
      WindowMatchSound(OldIn(olds, q.ow), NewIn(news, q.nw));
      assert t.id in n ==> Fits(OldIn(olds, q.ow), NewIn(news, q.nw), t.id, n[t.id]);
    }
  }

  /* ---- the restart ---- */

  ghost function OldMap(olds: seq<Entry>): map<int, set<Spot>> { map e | e in olds :: e.w := OldSpots(olds, e.w) }

  ghost function NewMap(news: seq<Tab>): map<int, set<Spot>> { map t | t in news :: t.w := NewSpots(news, t.w) }

  ghost function Windows(olds: seq<Entry>, ren: map<int, int>): map<int, int> { map o | o in OldMap(olds) && o in ren :: ren[o] }

  lemma SameSpots(olds: seq<Entry>, news: seq<Tab>, ren: map<int, int>, o: int)
    requires SameTabs(olds, news, ren) && o in ren
    ensures OldSpots(olds, o) == NewSpots(news, ren[o])
  {
    forall s | s in OldSpots(olds, o) ensures s in NewSpots(news, ren[o]) {
      var e :| e in olds && e.w == o && s == (e.i, e.u);
      assert CameBack(news, ren, e);
    }
    forall s | s in NewSpots(news, ren[o]) ensures s in OldSpots(olds, o) {
      var t :| t in news && t.w == ren[o] && s == (t.i, t.u);
      assert WasThere(olds, ren, t);
    }
  }

  lemma WindowsRemain(olds: seq<Entry>, news: seq<Tab>, ren: map<int, int>)
    requires SameTabs(olds, news, ren)
    ensures Remain(Windows(olds, ren), OldMap(olds), NewMap(news), [])
  {
    var left, os, ns := Windows(olds, ren), OldMap(olds), NewMap(news);
    forall o | o in os ensures o in left && left[o] in ns && os[o] == ns[left[o]] {
      var e :| e in olds && e.w == o;
      assert CameBack(news, ren, e);
      SameSpots(olds, news, ren, o);
    }
    forall n | n in ns ensures exists o :: o in left && left[o] == n {
      var t :| t in news && t.w == n;
      assert WasThere(olds, ren, t);
      var e :| e in olds && e.w in ren && ren[e.w] == t.w && t.i == e.i && t.u == e.u;
      assert e.w in left && left[e.w] == n;
    }
  }

  lemma AlikePaired(olds: seq<Entry>, news: seq<Tab>, o: int, n: int)
    requires DistinctKeys(olds) && Placed(olds, news)
    requires o in OldMap(olds) && n in NewMap(news) && OldMap(olds)[o] == NewMap(news)[n]
    ensures Score(olds, news, o, n).exact > 0
  {
    ExactIs(olds, news, o, n);
    var e :| e in olds && e.w == o;
    assert (e.i, e.u) in OldSpots(olds, o) * NewSpots(news, n);
  }

  lemma PairScore(olds: seq<Entry>, news: seq<Tab>, p: Pair)
    requires DistinctKeys(olds) && Placed(olds, news)
    requires p == Score(olds, news, p.ow, p.nw) && p.ow in OldMap(olds) && p.nw in NewMap(news)
    ensures p.exact == |OldMap(olds)[p.ow] * NewMap(news)[p.nw]|
  {
    ExactIs(olds, news, p.ow, p.nw);
  }

  lemma PairsScored(olds: seq<Entry>, news: seq<Tab>, ps: seq<Pair>)
    requires DistinctKeys(olds) && Placed(olds, news)
    requires forall p :: p in ps <==> p.ow in OldMap(olds) && p.nw in NewMap(news) && p == Score(olds, news, p.ow, p.nw) && p.exact + p.shared > 0
    ensures Scored(ps, OldMap(olds), NewMap(news))
  {
    var os, ns := OldMap(olds), NewMap(news);
    forall p | p in ps ensures p.exact == |os[p.ow] * ns[p.nw]| {
      PairScore(olds, news, p);
    }
    forall o, n | o in os && n in ns && os[o] == ns[n] ensures exists p :: p in ps && p.ow == o && p.nw == n {
      AlikePaired(olds, news, o, n);
      assert Score(olds, news, o, n) in ps;
    }
  }

  lemma {:induction false} SortedSame(ps: seq<Pair>)
    ensures forall p :: p in Sorted(ps) <==> p in ps
  {
    forall p ensures p in Sorted(ps) <==> p in ps {
      assert p in Sorted(ps) <==> p in multiset(Sorted(ps));
    }
  }

  lemma RankedScored(olds: seq<Entry>, news: seq<Tab>, ows: seq<int>, nws: seq<int>)
    requires DistinctKeys(olds) && Placed(olds, news)
    requires forall w :: w in ows <==> w in OldMap(olds)
    requires forall w :: w in nws <==> w in NewMap(news)
    ensures Scored(Sorted(Pairs(olds, news, ows, nws)), OldMap(olds), NewMap(news))
  {
    SortedSame(Pairs(olds, news, ows, nws));
    PairsAre(olds, news, ows, nws);
    PairsScored(olds, news, Sorted(Pairs(olds, news, ows, nws)));
  }

  /** With every tab's id fresh, no entry stays where it is. */
  lemma AllLeft(stored: seq<Entry>, tabs: seq<Tab>)
    requires forall e, t :: e in stored && t in tabs ==> e.key != t.id
    ensures Olds(stored, tabs) == Readable(stored) && News(stored, tabs) == tabs && Kept(stored, tabs) == map[]
  {
    FilterAll(tabs, (t: Tab) => !Stays(stored, t));
    FilterSame(stored, (e: Entry) => Carriable(stored, tabs, e), (e: Entry) => e.at.Some?);
  }

  lemma {:induction false} FilterSame(es: seq<Entry>, f: Entry -> bool, g: Entry -> bool)
    requires forall k :: 0 <= k < |es| ==> f(es[k]) == g(es[k])
    ensures Filter(es, f) == Filter(es, g)
  {
    if es != [] {
      FilterSame(Front(es), f, g);
      assert es == Front(es) + [Last(es)];
    }
  }

  lemma ChosenAlike(olds: seq<Entry>, news: seq<Tab>, ren: map<int, int>, ps: seq<Pair>)
    requires SameTabs(olds, news, ren) && Descends(ps) && Scored(ps, OldMap(olds), NewMap(news))
    ensures forall q :: q in Chosen(ps) ==> OldSpots(olds, q.ow) == NewSpots(news, q.nw)
    ensures forall t :: t in news ==> Paired(Chosen(ps), t.w)
  {
    WindowsRemain(olds, news, ren);
    AllChosen(ps, OldMap(olds), NewMap(news), Windows(olds, ren));
    forall t | t in news ensures Paired(Chosen(ps), t.w) {
      assert t.w in NewMap(news);
    }
  }

  lemma AllAtHome(olds: seq<Entry>, news: seq<Tab>, chosen: seq<Pair>)
    requires DistinctKeys(olds) && DistinctIds(news) && Placed(olds, news)
    requires forall x :: x in news ==> x.u != ""
    requires forall q :: q in chosen ==> OldSpots(olds, q.ow) == NewSpots(news, q.nw)
    requires forall t :: t in news ==> Paired(chosen, t.w)
    ensures forall t :: t in news ==> AtHome(olds, news, t, Carry(olds, news, chosen))
  {
    forall t | t in news ensures AtHome(olds, news, t, Carry(olds, news, chosen)) {
      CarryFull(olds, news, chosen, t);
    }
  }

  lemma ChoiceFull(olds: seq<Entry>, news: seq<Tab>, ren: map<int, int>, ows: seq<int>, nws: seq<int>)
    requires DistinctKeys(olds) && DistinctIds(news) && Placed(olds, news) && SameTabs(olds, news, ren)
    requires ows == Groups(olds, (e: Entry) => e.w) && nws == Groups(news, (t: Tab) => t.w)
    ensures forall t :: t in news ==> AtHome(olds, news, t, Carry(olds, news, Chosen(Sorted(Pairs(olds, news, ows, nws)))))
  {
    forall t | t in news ensures t.u != "" { assert WasThere(olds, ren, t); }
    RankedScored(olds, news, ows, nws);
    SortedDescends(Pairs(olds, news, ows, nws));
    ChosenAlike(olds, news, ren, Sorted(Pairs(olds, news, ows, nws)));
    AllAtHome(olds, news, Chosen(Sorted(Pairs(olds, news, ows, nws))));
  }

  ghost function CameBackAs(tabs: seq<Tab>, ren: map<int, int>, e: Entry): int
    requires CameBack(tabs, ren, e)
  {
    var t :| t in tabs && t.w == ren[e.w] && t.i == e.i && t.u == e.u;
    t.id
  }

  lemma CameApart(tabs: seq<Tab>, ren: map<int, int>, d: Entry, e: Entry)
    requires DistinctIds(tabs) && Injective(ren) && CameBack(tabs, ren, d) && CameBack(tabs, ren, e)
    requires d.w == e.w && d.i == e.i ==> d == e
    ensures CameBackAs(tabs, ren, d) == CameBackAs(tabs, ren, e) ==> d == e
  {
  }

  /** No more entries than tabs that took one. */
  lemma {:induction false} AsMany(rows: seq<Entry>, tabs: seq<Tab>, ren: map<int, int>, ids: set<int>)
    requires DistinctKeys(rows) && DistinctIds(tabs) && Injective(ren)
    requires forall d, e :: d in rows && e in rows && d.w == e.w && d.i == e.i ==> d == e
    requires forall e {:trigger CameBack(tabs, ren, e)} :: e in rows ==> CameBack(tabs, ren, e) && CameBackAs(tabs, ren, e) in ids
    ensures |rows| <= |ids|
  {
    if rows != [] {
      var e := Last(rows);
      assert rows == Front(rows) + [e] && CameBack(tabs, ren, e);
      var id := CameBackAs(tabs, ren, e);
      forall d | d in Front(rows) ensures CameBack(tabs, ren, d) && CameBackAs(tabs, ren, d) in ids - {id} {
        assert d in rows && CameBack(tabs, ren, d);
        CameApart(tabs, ren, d, e);
      }
      AsMany(Front(rows), tabs, ren, ids - {id});
    }
  }

  lemma EveryTab(rows: seq<Entry>, tabs: seq<Tab>, ren: map<int, int>, from: map<int, int>)
    requires DistinctKeys(rows) && DistinctIds(tabs) && Placed(rows, tabs) && SameTabs(rows, tabs, ren)
    requires forall t :: t in tabs ==> AtHome(rows, tabs, t, from)
    ensures |rows| <= |from|
  {
    forall e | e in rows ensures CameBack(tabs, ren, e) && CameBackAs(tabs, ren, e) in from.Keys {
      assert CameBack(tabs, ren, e);
      var t :| t in tabs && t.id == CameBackAs(tabs, ren, e);
      assert AtHome(rows, tabs, t, from);
    }
    AsMany(rows, tabs, ren, from.Keys);
  }

  /** Over a restart that brings every tab back at its place and address, under
      fresh tab ids and renamed windows, every entry is carried, and each tab's
      time comes from an entry at its own index and address in a window of
      exactly the content its own window has. */
  lemma RestartIsLossless(stored: seq<Entry>, tabs: seq<Tab>, ren: map<int, int>)
    requires DistinctKeys(stored) && DistinctIds(tabs)
    requires forall e, t :: e in stored && t in tabs ==> e.key != t.id
    requires Placed(Readable(stored), tabs) && SameTabs(Readable(stored), tabs, ren)
    ensures Dropped(stored, tabs) == 0
    ensures forall t :: t in tabs ==> AtHome(Readable(stored), tabs, t, From(stored, tabs))
  {
    AllLeft(stored, tabs);
    FilterKeepsKeys(stored, (e: Entry) => e.at.Some?);
    ChoiceFull(Readable(stored), tabs, ren, Groups(Readable(stored), (e: Entry) => e.w), Groups(tabs, (t: Tab) => t.w));
    assert From(stored, tabs) == Carry(Readable(stored), tabs, Choice(stored, tabs));
    LosesNone(stored, tabs, ren);
  }

  lemma LosesNone(stored: seq<Entry>, tabs: seq<Tab>, ren: map<int, int>)
    requires DistinctKeys(stored) && DistinctIds(tabs)
    requires Placed(Readable(stored), tabs) && SameTabs(Readable(stored), tabs, ren)
    requires forall t :: t in tabs ==> AtHome(Readable(stored), tabs, t, From(stored, tabs))
    ensures Dropped(stored, tabs) == 0
  {
    FilterKeepsKeys(stored, (e: Entry) => e.at.Some?);
    EveryTab(Readable(stored), tabs, ren, From(stored, tabs));
    RekeyIsInjection(stored, tabs);
    assert |Rekeyed(stored, tabs)| == |Rekeyed(stored, tabs).Keys| == |From(stored, tabs).Keys|;
    DroppedIsTheRest(stored, tabs);
  }
}
