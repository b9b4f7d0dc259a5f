/** What a claim of another directory would change in the labels, were they
    decided again: the claim moves one route's slug, and nothing else. */
module RouteClaims {
  import opened RouteLabels

  function Moved(ms: Table, id: string, slug: string): Table
    requires id in ms
  {
    ms[id := ms[id].(slug := slug)]
  }

  /** `o` is another route of the name `id` wants, under this suffixed name. */
  predicate Bears(h: Hash, ms: Table, id: string, o: string, name: string)
    requires id in ms
  {
    o in ms && o != id && Base(ms, o) == Base(ms, id) && Suffixed(h, ms, o) == name
  }

  ghost predicate TwoOthers(h: Hash, ms: Table, id: string, name: string)
    requires id in ms
  {
    exists p, q :: p != q && Bears(h, ms, id, p, name) && Bears(h, ms, id, q, name)
  }

  /** The claim changes no label: nobody else wants the name; or the new slug
      gives the suffix of the old; or, of the other routes of that name, two at
      least have the old suffix and two at least the new one. */
  ghost predicate Steady(h: Hash, ms: Table, id: string, slug: string)
    requires id in ms
  {
    var was, now := Suffixed(h, ms, id), Suffixed(h, Moved(ms, id, slug), id);
    Alone(ms, id) || was == now || (TwoOthers(h, ms, id, was) && TwoOthers(h, ms, id, now))
  }

  /** No suffixed name ends in its own route's hash. */
  ghost predicate NoOwnHash(h: Hash, ms: Table) {
    forall x :: x in ms ==> !EndsIn(Suffixed(h, ms, x), "-" + h(x))
  }

  ghost predicate SameProposals(h: Hash, ms: Table, ns: Table) {
    ms.Keys == ns.Keys && forall o :: o in ms ==> Proposal(h, ns, o) == Proposal(h, ms, o)
  }

  ghost predicate SameLabels(h: Hash, ms: Table, ns: Table) {
    ms.Keys == ns.Keys && forall o :: o in ms ==> Label(h, ns, o) == Label(h, ms, o)
  }

  /* ---- what moves ---- */

  lemma OnlyItsSuffix(h: Hash, ms: Table, id: string, slug: string)
    requires id in ms
    ensures var ns := Moved(ms, id, slug);
            && ns.Keys == ms.Keys
            && (forall o :: o in ms ==> Base(ns, o) == Base(ms, o))
            && (forall o :: o in ms && o != id ==> Suffixed(h, ns, o) == Suffixed(h, ms, o))
  {
  }

  lemma SameAlone(h: Hash, ms: Table, id: string, slug: string, o: string)
    requires id in ms && o in ms
    ensures Alone(Moved(ms, id, slug), o) == Alone(ms, o)
  {
    OnlyItsSuffix(h, ms, id, slug);
  }

  /** Whether a route shares its suffix, told by the others it shares it with. */
  lemma SharedBy(h: Hash, ms: Table, o: string)
    requires o in ms
    ensures SameSuffix(h, ms, o) <==> exists p :: Bears(h, ms, o, p, Suffixed(h, ms, o))
  {
    if SameSuffix(h, ms, o) {
      var p :| p in ms && p != o && Base(ms, p) == Base(ms, o) && Suffixed(h, ms, p) == Suffixed(h, ms, o);
      assert Bears(h, ms, o, p, Suffixed(h, ms, o));
    }
  }

  /** One of two different routes is not `o`. */
  lemma OneIsAnother(h: Hash, ms: Table, id: string, name: string, o: string) returns (p: string)
    requires id in ms && TwoOthers(h, ms, id, name)
    ensures p != o && Bears(h, ms, id, p, name)
  {
    var a, b :| a != b && Bears(h, ms, id, a, name) && Bears(h, ms, id, b, name);
    p := if a == o then b else a;
  }

  /** With two others on either side, every route shares its suffix before as
      after the move. */
  lemma StillShared(h: Hash, ms: Table, id: string, slug: string, o: string)
    requires id in ms && o in ms
    requires var was, now := Suffixed(h, ms, id), Suffixed(h, Moved(ms, id, slug), id);
             TwoOthers(h, ms, id, was) && TwoOthers(h, ms, id, now)
    ensures SameSuffix(h, Moved(ms, id, slug), o) == SameSuffix(h, ms, o)
    ensures o == id ==> SameSuffix(h, ms, o)
  {
    var ns := Moved(ms, id, slug);
    OnlyItsSuffix(h, ms, id, slug);
    SharedBy(h, ms, o);
    SharedBy(h, ns, o);
    var p := OneIsAnother(h, ms, id, Suffixed(h, ms, id), o);
    var q := OneIsAnother(h, ms, id, Suffixed(h, ns, id), o);
    if o == id {
      assert Bears(h, ms, o, p, Suffixed(h, ms, o)) && Bears(h, ns, o, q, Suffixed(h, ns, o));
    } else {
      if SameSuffix(h, ms, o) {
        var r :| Bears(h, ms, o, r, Suffixed(h, ms, o));
        assert Bears(h, ns, o, if r == id then p else r, Suffixed(h, ns, o));
      }
      if SameSuffix(h, ns, o) {
        var r :| Bears(h, ns, o, r, Suffixed(h, ns, o));
        assert Bears(h, ms, o, if r == id then q else r, Suffixed(h, ms, o));
      }
    }
  }

  lemma SameSuffixes(h: Hash, ms: Table, id: string, slug: string, o: string)
    requires id in ms && o in ms && (Base(ms, o) != Base(ms, id) || Suffixed(h, Moved(ms, id, slug), id) == Suffixed(h, ms, id))
    ensures SameSuffix(h, Moved(ms, id, slug), o) == SameSuffix(h, ms, o)
  {
    OnlyItsSuffix(h, ms, id, slug);
  }

  /** A steady claim leaves every proposal, and so every label. */
  lemma SteadyProposes(h: Hash, ms: Table, id: string, slug: string)
    requires id in ms && Steady(h, ms, id, slug)
    ensures SameProposals(h, ms, Moved(ms, id, slug))
  {
    var ns := Moved(ms, id, slug);
    OnlyItsSuffix(h, ms, id, slug);
    forall o | o in ms ensures Proposal(h, ns, o) == Proposal(h, ms, o) {
      SameAlone(h, ms, id, slug, o);
      if !Alone(ms, o) {
        if Base(ms, o) != Base(ms, id) || Suffixed(h, ns, id) == Suffixed(h, ms, id) {
          SameSuffixes(h, ms, id, slug, o);
        } else {
          StillShared(h, ms, id, slug, o);
        }
      }
    }
  }

  /** If proposals stay though a shared name's suffix moves, who shared it shares
      it with a second. */
  lemma SecondBearer(h: Hash, ms: Table, id: string, p: string, ns: Table, name: string)
    requires id in ms && id in ns && ns.Keys == ms.Keys && Bears(h, ms, id, p, name) && NoOwnHash(h, ms)
    requires forall o :: o in ms ==> Base(ns, o) == Base(ms, o)
    requires forall o :: o in ms && o != id ==> Suffixed(h, ns, o) == Suffixed(h, ms, o)
    requires Suffixed(h, ms, id) != name && Suffixed(h, ns, id) == name && Proposal(h, ns, p) == Proposal(h, ms, p)
    ensures TwoOthers(h, ms, id, name)
  {
    assert Bears(h, ns, p, id, name);
    SharedBy(h, ns, p);
    assert !Alone(ms, p) && !Alone(ns, p);
    assert Proposal(h, ns, p) == Base(ms, p) + "-" + h(p);
    Ends(Base(ms, p), h(p));
    assert SameSuffix(h, ms, p);
    SharedBy(h, ms, p);
    var r :| Bears(h, ms, p, r, name);
    assert Bears(h, ms, id, r, name);
  }

  lemma ProposesSteadily(h: Hash, ms: Table, id: string, slug: string)
    requires id in ms && NoOwnHash(h, ms) && NoOwnHash(h, Moved(ms, id, slug))
    requires SameProposals(h, ms, Moved(ms, id, slug))
    ensures Steady(h, ms, id, slug)
  {
    var ns := Moved(ms, id, slug);
    var was, now := Suffixed(h, ms, id), Suffixed(h, ns, id);
    OnlyItsSuffix(h, ms, id, slug);
    SameAlone(h, ms, id, slug, id);
    if !Alone(ms, id) && was != now {
      Ends(Base(ms, id), h(id));
      assert SameSuffix(h, ms, id) && SameSuffix(h, ns, id);
      SharedBy(h, ms, id);
      SharedBy(h, ns, id);
      var p :| Bears(h, ms, id, p, was);
      var q :| Bears(h, ns, id, q, now);
      assert Bears(h, ms, id, q, now) && Bears(h, ns, id, p, was);
      SecondBearer(h, ms, id, q, ns, now);
      SecondBearer(h, ns, id, p, ms, was);
      TwoStill(h, ns, ms, id, was);
    }
  }

  lemma TwoStill(h: Hash, ns: Table, ms: Table, id: string, name: string)
    requires id in ms && ns.Keys == ms.Keys && TwoOthers(h, ns, id, name)
    requires forall o :: o in ms ==> Base(ns, o) == Base(ms, o)
    requires forall o :: o in ms && o != id ==> Suffixed(h, ns, o) == Suffixed(h, ms, o)
    ensures TwoOthers(h, ms, id, name)
  {
    var p, q :| p != q && Bears(h, ns, id, p, name) && Bears(h, ns, id, q, name);
    assert Bears(h, ms, id, p, name) && Bears(h, ms, id, q, name);
  }

  /* ---- from proposals to labels ---- */

  lemma SameProposalsSameLabels(h: Hash, ms: Table, ns: Table)
    requires SameProposals(h, ms, ns)
    ensures SameLabels(h, ms, ns)
  {
    forall o | o in ms ensures Label(h, ns, o) == Label(h, ms, o) {
      SameContest(h, ms, ns, o);
      LabelIs(h, ms, o);
      LabelIs(h, ns, o);
    }
  }

  lemma SameContest(h: Hash, ms: Table, ns: Table, o: string)
    requires SameProposals(h, ms, ns) && o in ms
    ensures Contested(h, ns, o) == Contested(h, ms, o)
  {
    if Contested(h, ms, o) {
      var p :| p in ms && p != o && Proposal(h, ms, p) == Proposal(h, ms, o);
      assert p in ns && Proposal(h, ns, p) == Proposal(h, ns, o);
    }
    if Contested(h, ns, o) {
      var p :| p in ns && p != o && Proposal(h, ns, p) == Proposal(h, ns, o);
      assert p in ms && Proposal(h, ms, p) == Proposal(h, ms, o);
    }
  }

  /** The fallback of a shared name's proposal is no other proposal of its route. */
  lemma NotAFallback(h: Hash, ms: Table, ns: Table, o: string)
    requires o in ms && o in ns && NoOwnHash(h, ns) && Base(ns, o) == Base(ms, o) && !Alone(ms, o) && !Alone(ns, o)
    ensures Proposal(h, ms, o) + "-" + h(o) != Proposal(h, ns, o)
  {
    var p, q := Proposal(h, ms, o), Proposal(h, ns, o);
    Ends(p, h(o));
    assert |p| > |Base(ms, o)|;
    assert q == Suffixed(h, ns, o) || |q| == |Base(ms, o)| + 1 + |h(o)|;
  }

  lemma SameEnds(p: string, q: string, t: string)
    requires p + "-" + t == q + "-" + t
    ensures p == q
  {
    assert |p| == |q| && (p + "-" + t)[..|p|] == p && (q + "-" + t)[..|q|] == q;
  }

  lemma SameLabelsSameProposals(h: Hash, ms: Table, id: string, slug: string)
    requires id in ms && NoOwnHash(h, ms) && NoOwnHash(h, Moved(ms, id, slug))
    requires SameLabels(h, ms, Moved(ms, id, slug))
    ensures SameProposals(h, ms, Moved(ms, id, slug))
  {
    var ns := Moved(ms, id, slug);
    OnlyItsSuffix(h, ms, id, slug);
    forall o | o in ms ensures Proposal(h, ns, o) == Proposal(h, ms, o) {
      SameAlone(h, ms, id, slug, o);
      LabelIs(h, ms, o);
      LabelIs(h, ns, o);
      if !Alone(ms, o) {
        NotAFallback(h, ms, ns, o);
        NotAFallback(h, ns, ms, o);
        if Contested(h, ms, o) && Contested(h, ns, o) { SameEnds(Proposal(h, ms, o), Proposal(h, ns, o), h(o)); }
      }
    }
  }

  lemma SteadyKeeps(h: Hash, ms: Table, id: string, slug: string)
    requires id in ms && Steady(h, ms, id, slug)
    ensures SameLabels(h, ms, Moved(ms, id, slug))
  {
    SteadyProposes(h, ms, id, slug);
    SameProposalsSameLabels(h, ms, Moved(ms, id, slug));
  }

  /** Deciding the labels again after a claim would change none of them, if and
      only if the claim is steady. */
  lemma SteadyIff(h: Hash, ms: Table, id: string, slug: string)
    requires id in ms && NoOwnHash(h, ms) && NoOwnHash(h, Moved(ms, id, slug))
    ensures SameLabels(h, ms, Moved(ms, id, slug)) <==> Steady(h, ms, id, slug)
  {
    if Steady(h, ms, id, slug) { SteadyKeeps(h, ms, id, slug); }
    if SameLabels(h, ms, Moved(ms, id, slug)) {
      SameLabelsSameProposals(h, ms, id, slug);
      ProposesSteadily(h, ms, id, slug);
    }
  }
}
