/** routes.mjs: which name each live route answers to. Labels are a function of
    the set of live routes, whatever order they came in. */
module RouteLabels {
  import opened Prelude

  /** What a route brings to the naming: the name it wants ("" for none), the
      slug of its profile directory ("" for none) and its route key. */
  datatype Want = Want(desired: string, slug: string, key: string)

  /** installId -> what the live route wants. */
  type Table = map<string, Want>

  /** shortHash: the first six hex digits of SHA-256. */
  type Hash = string -> string

  ghost predicate SixLong(h: Hash) { forall s :: |h(s)| == 6 }

  ghost predicate Tells(h: Hash, ms: Table) {
    forall a, b :: a in ms && b in ms && h(a) == h(b) ==> a == b
  }

  function Base(ms: Table, id: string): string
    requires id in ms
  {
    if ms[id].desired == "" then id else ms[id].desired
  }

  predicate Alone(ms: Table, id: string)
    requires id in ms
  {
    forall o | o in ms :: o != id ==> Base(ms, o) != Base(ms, id)
  }

  function Suffixed(h: Hash, ms: Table, id: string): string
    requires id in ms
  {
    Base(ms, id) + "-" + if ms[id].slug != "" then ms[id].slug else h(ms[id].key)
  }

  predicate SameSuffix(h: Hash, ms: Table, id: string)
    requires id in ms
  {
    exists o | o in ms :: o != id && Base(ms, o) == Base(ms, id) && Suffixed(h, ms, o) == Suffixed(h, ms, id)
  }

  function Proposal(h: Hash, ms: Table, id: string): string
    requires id in ms
  {
    if Alone(ms, id) then Base(ms, id)
    else if SameSuffix(h, ms, id) then Base(ms, id) + "-" + h(id)
    else Suffixed(h, ms, id)
  }

  predicate Contested(h: Hash, ms: Table, id: string)
    requires id in ms
  {
    exists o | o in ms :: o != id && Proposal(h, ms, o) == Proposal(h, ms, id)
  }

  function Label(h: Hash, ms: Table, id: string): string
    requires id in ms
  {
    if Contested(h, ms, id) then Proposal(h, ms, id) + "-" + h(id) else Proposal(h, ms, id)
  }

  function Labels(h: Hash, ms: Table): map<string, string> { map id | id in ms :: Label(h, ms, id) }

  ghost predicate Distinct(h: Hash, ms: Table) {
    forall a, b {:trigger Label(h, ms, a), Label(h, ms, b)} ::
      a in ms && b in ms && a != b ==> Label(h, ms, a) != Label(h, ms, b)
  }

  /** A name proposed for `b` alone is what `a` falls back to. */
  ghost predicate Impersonates(h: Hash, ms: Table, b: string, a: string)
    requires a in ms && b in ms
  {
    Contested(h, ms, a) && !Contested(h, ms, b) && Proposal(h, ms, b) == Proposal(h, ms, a) + "-" + h(a)
  }

  ghost predicate NoneImpersonates(h: Hash, ms: Table) {
    forall a, b {:trigger Impersonates(h, ms, b, a)} :: a in ms && b in ms && a != b ==> !Impersonates(h, ms, b, a)
  }

  lemma SameTail(s: string, t: string, u: string, v: string)
    requires |u| == |v| && s + "-" + u == t + "-" + v
    ensures u == v
  {
    var w := s + "-" + u;
    assert w[|w| - |u|..] == u && w[|w| - |v|..] == v;
  }

  /** Labels are pairwise distinct exactly when no uncontested proposal is some
      contested route's fallback. */
  lemma LabelsDistinctIff(h: Hash, ms: Table)
    requires SixLong(h) && Tells(h, ms)
    ensures Distinct(h, ms) <==> NoneImpersonates(h, ms)
  {
    if NoneImpersonates(h, ms) {
      forall a, b | a in ms && b in ms && a != b ensures Label(h, ms, a) != Label(h, ms, b) {
        PairApart(h, ms, a, b);
      }
    }
    if Distinct(h, ms) {
      forall a, b | a in ms && b in ms && a != b ensures !Impersonates(h, ms, b, a) {
        PairApart(h, ms, a, b);
      }
    }
  }

  lemma PairApart(h: Hash, ms: Table, a: string, b: string)
    requires SixLong(h) && Tells(h, ms) && a in ms && b in ms && a != b
    ensures Label(h, ms, a) != Label(h, ms, b) <==> !Impersonates(h, ms, b, a) && !Impersonates(h, ms, a, b)
  {
    LabelIs(h, ms, a);
    LabelIs(h, ms, b);
    if Contested(h, ms, a) {
      if Contested(h, ms, b) && Label(h, ms, a) == Label(h, ms, b) {
        SameTail(Proposal(h, ms, a), Proposal(h, ms, b), h(a), h(b));
      }
    } else if !Contested(h, ms, b) {
      Uncontested(h, ms, a, b);
    }
  }

  lemma LabelIs(h: Hash, ms: Table, id: string)
    requires id in ms
    ensures Contested(h, ms, id) ==> Label(h, ms, id) == Proposal(h, ms, id) + "-" + h(id)
    ensures !Contested(h, ms, id) ==> Label(h, ms, id) == Proposal(h, ms, id)
  {
  }

  lemma Uncontested(h: Hash, ms: Table, a: string, b: string)
    requires a in ms && b in ms && a != b && !Contested(h, ms, a)
    ensures Proposal(h, ms, a) != Proposal(h, ms, b)
  {
  }

  ghost predicate EndsIn(s: string, t: string) { exists p :: s == p + t }

  /** So they are distinct whenever no route's proposal ends in another's hash. */
  lemma LabelsDistinct(h: Hash, ms: Table)
    requires SixLong(h) && Tells(h, ms)
    requires forall a, b :: a in ms && b in ms && a != b ==> !EndsIn(Proposal(h, ms, b), "-" + h(a))
    ensures Distinct(h, ms)
  {
    forall a, b | a in ms && b in ms && a != b ensures !Impersonates(h, ms, b, a) {
      Ends(Proposal(h, ms, a), h(a));
    }
    LabelsDistinctIff(h, ms);
  }

  /** A proposal ends in another's hash only if the wanted name does, or the name
      with its directory's or key's suffix. */
  lemma ProposalEnds(h: Hash, ms: Table, a: string, b: string)
    requires SixLong(h) && Tells(h, ms) && a in ms && b in ms && a != b
    requires !EndsIn(Base(ms, b), "-" + h(a)) && !EndsIn(Suffixed(h, ms, b), "-" + h(a))
    ensures !EndsIn(Proposal(h, ms, b), "-" + h(a))
  {
    var own := Base(ms, b) + "-" + h(b);
    assert !EndsIn(own, "-" + h(a)) by {
      if EndsIn(own, "-" + h(a)) {
        var p :| own == p + ("-" + h(a));
        assert own == p + "-" + h(a);
        SameTail(Base(ms, b), p, h(b), h(a));
      }
    }
  }

  /** In terms of what routes bring: labels are distinct whenever no wanted name,
      bare or with its suffix, ends in another live route's hash. */
  lemma LabelsDistinctByNames(h: Hash, ms: Table)
    requires SixLong(h) && Tells(h, ms)
    requires forall a, b :: a in ms && b in ms && a != b ==> !EndsIn(Base(ms, b), "-" + h(a))
    requires forall a, b :: a in ms && b in ms && a != b ==> !EndsIn(Suffixed(h, ms, b), "-" + h(a))
    ensures Distinct(h, ms)
  {
    forall a, b | a in ms && b in ms && a != b ensures !EndsIn(Proposal(h, ms, b), "-" + h(a)) {
      ProposalEnds(h, ms, a, b);
    }
    LabelsDistinct(h, ms);
  }

  lemma Ends(p: string, t: string)
    ensures EndsIn(p + "-" + t, "-" + t)
  {
    assert p + "-" + t == p + ("-" + t);
  }

  /** When several routes want one name, none of them keeps it. */
  lemma NobodyKeepsTheBareName(h: Hash, ms: Table, id: string)
    requires id in ms && !Alone(ms, id)
    ensures Label(h, ms, id) != Base(ms, id)
    ensures forall o :: o in ms && Base(ms, o) == Base(ms, id) ==> Label(h, ms, o) != Base(ms, id)
  {
    forall o | o in ms && Base(ms, o) == Base(ms, id) ensures |Label(h, ms, o)| > |Base(ms, id)| {
      assert !Alone(ms, o);
    }
  }

  /** Wanted by one route only, and proposed for no other, a name is kept byte for byte. */
  lemma UncontestedKeepsItsName(h: Hash, ms: Table, id: string)
    requires id in ms && Alone(ms, id)
    ensures Label(h, ms, id) == Base(ms, id) <==> forall o :: o in ms && o != id ==> Proposal(h, ms, o) != Base(ms, id)
  {
    if Contested(h, ms, id) { assert |Label(h, ms, id)| > |Base(ms, id)|; }
  }

  /** Two share a name, a third wants what one of them would be called, and a
      fourth wants what the fallback of that one spells. */
  function Four(h: Hash): Table {
    map["a" := Want("c", "d", "k"), "b" := Want("c", "e", "k"), "x" := Want("c-d", "", "k"), "y" := Want("c-d-" + h("a"), "", "k")]
  }

  lemma FourAlone(h: Hash)
    requires SixLong(h)
    ensures Alone(Four(h), "x") && Alone(Four(h), "y") && !Alone(Four(h), "a") && !Alone(Four(h), "b")
  {
    var ms := Four(h);
    assert |Base(ms, "y")| == 10 && Base(ms, "x") == "c-d" && Base(ms, "a") == "c" && Base(ms, "b") == "c";
  }

  lemma FourProposals(h: Hash)
    requires SixLong(h)
    ensures var ms := Four(h);
            && Proposal(h, ms, "a") == "c-d" && Proposal(h, ms, "b") == "c-e" && Proposal(h, ms, "x") == "c-d"
            && Proposal(h, ms, "y") == "c-d-" + h("a")
  {
    var ms := Four(h);
    FourAlone(h);
    assert Suffixed(h, ms, "a") == "c-d" && Suffixed(h, ms, "b") == "c-e";
  }

  lemma FourContested(h: Hash) returns (ms: Table)
    requires SixLong(h)
    ensures "a" in ms && "y" in ms && Contested(h, ms, "a") && !Contested(h, ms, "y")
    ensures Proposal(h, ms, "a") == "c-d" && Proposal(h, ms, "y") == "c-d-" + h("a")
  {
    ms := Four(h);
    FourProposals(h);
    assert "x" in ms && Proposal(h, ms, "x") == Proposal(h, ms, "a");
    forall o | o in ms && o != "y" ensures Proposal(h, ms, o) != Proposal(h, ms, "y") {
      assert |Proposal(h, ms, o)| == 3 && |Proposal(h, ms, "y")| == 10;
    }
  }

  /** Two labels can come out the same, whatever the hash. */
  lemma LabelsCanCoincide(h: Hash) returns (ms: Table)
    requires SixLong(h)
    ensures "a" in ms && "y" in ms && Label(h, ms, "a") == Label(h, ms, "y")
  {
    ms := FourContested(h);
    LabelIs(h, ms, "a");
    LabelIs(h, ms, "y");
    assert "c-d" + "-" == "c-d-";
  }
}
