/** profiles.mjs: who a registering browser profile is, and what the store
    remembers of it. */
module ProfileStore {
  import opened Prelude
  import opened Lists
  import opened IdentityDrift

  /** A durable record: the claim, and the evidence it was made on. */
  datatype Saved = Saved(claimed: bool, vendor: string, dir: Text, evidence: Text, changed: bool, generation: nat)

  datatype Source = FromState | FromAddress | IdentityChanged | Unclaimed

  /** What resolveIdentity returns, and what it leaves in the store. */
  datatype Resolution = Resolution(claimed: bool, dir: Text, source: Source, unverified: bool, adopted: Text, saved: Option<Saved>)

  predicate NonEmpty(v: Text) { v.Some? && v.value != "" }

  /** An address the extension reports, if it is one. */
  function Address(email: Text): Text { if email.Some? && '@' in email.value then email else None }

  predicate Names(w: Words, v: Text, needle: string) { NonEmpty(v) && w.lower(w.trim(v.value)) == needle }

  predicate Hit(w: Words, c: Candidate, needle: string) {
    Names(w, c.row.email, needle) || Names(w, c.row.name, needle)
  }

  /** matchProfileByEmail: anything but exactly one hit is no match. */
  function Match(w: Words, cs: seq<Candidate>, email: Text): (r: Option<Candidate>)
    ensures r.Some? ==> r.value in cs && Address(email).Some? && Hit(w, r.value, w.lower(w.trim(email.value)))
  {
    if Address(email).None? then None
    else
      var needle := w.lower(w.trim(email.value));
      var hits := Filter(cs, (c: Candidate) => Hit(w, c, needle));
      if |hits| == 1 then Some(hits[0]) else None
  }

  /** forgetClaim: the join, and the evidence behind it. */
  function Forget(s: Saved, changed: bool): Saved {
    s.(claimed := false, dir := None, evidence := None, changed := s.changed || changed)
  }

  /** The store has a claim of this browser's, on a directory. */
  predicate HasClaim(saved: Option<Saved>, vendor: string) {
    saved.Some? && saved.value.claimed && NonEmpty(saved.value.dir) && saved.value.vendor == vendor
  }

  predicate Contradicts(a: Text, b: Text) { NonEmpty(a) && NonEmpty(b) && Kind(a) == Kind(b) && a != b }

  /** The record a patch is laid over. */
  function Remembered(saved: Option<Saved>): Saved {
    if saved.Some? then saved.value else Saved(false, "", None, None, false, 0)
  }

  /** Step 2: exactly one candidate carries the reported address. */
  function ByAddress(w: Words, saved: Option<Saved>, evidence: Text, cs: seq<Candidate>, email: Text): Resolution {
    var m := Match(w, cs, email);
    if m.None? || Contradicts(evidence, ClaimEvidence(w, m.value.row)) then Resolution(false, None, Unclaimed, false, None, saved)
    else
      var f := ClaimEvidence(w, m.value.row);
      Resolution(true, Some(m.value.dir), FromAddress, false, None,
                 if f.Some? then Some(Remembered(saved).(evidence := f)) else saved)
  }

  /** resolveIdentity, of a browser whose vendor is known. */
  function Resolve(w: Words, saved: Option<Saved>, vendor: string, cs: seq<Candidate>, email: Text): Resolution {
    var evidence := if saved.Some? && NonEmpty(saved.value.evidence) then saved.value.evidence else None;
    if !HasClaim(saved, vendor) then ByAddress(w, saved, evidence, cs, email)
    else
      var s := saved.value;
      var hit := FindDir(cs, s.dir.value);
      if hit.None? then
        if cs == [] then Resolution(true, s.dir, FromState, true, None, saved)
        else ByAddress(w, Some(Forget(s, false)), None, cs, email)
      else
        var d := Identity(w, evidence, Some(hit.value.row), Address(email), true);
        if d.changed then Resolution(false, None, IdentityChanged, false, None, Some(Forget(s, true)))
        else
          var adopted := if evidence.None? then d.current else None;
          Resolution(true, s.dir, FromState, !d.checked, adopted, Some(if adopted.Some? then s.(evidence := adopted) else s))
  }

  class Store {
    var profiles: map<string, Saved>

    constructor ()
      ensures profiles == map[]
    {
      profiles := map[];
    }

    function Get(id: string): Option<Saved>
      reads this
    {
      if id in profiles then Some(profiles[id]) else None
    }

    /** nextGeneration: bumped, and remembered. */
    method NextGeneration(id: string) returns (g: nat)
      modifies this
      ensures g == Remembered(old(Get(id))).generation + 1
      ensures profiles == old(profiles)[id := Remembered(old(Get(id))).(generation := g)]
    {
      var prev := Remembered(Get(id));
      g := prev.generation + 1;
      profiles := profiles[id := prev.(generation := g)];
    }

    method ForgetClaim(id: string, changed: bool)
      requires id in profiles
      modifies this
      ensures profiles == old(profiles)[id := Forget(old(profiles)[id], changed)]
    {
      var s := profiles[id];
      profiles := profiles[id := s.(claimed := false, dir := None, evidence := None, changed := s.changed || changed)];
    }

    method ResolveIdentity(w: Words, id: string, vendor: string, cs: seq<Candidate>, email: Text)
      returns (claimed: bool, dir: Text, source: Source, unverified: bool, adopted: Text)
      modifies this
      ensures var r := Resolve(w, old(Get(id)), vendor, cs, email);
              && claimed == r.claimed && dir == r.dir && source == r.source && unverified == r.unverified && adopted == r.adopted
              && Get(id) == r.saved
      ensures forall o :: o != id ==> Get(o) == old(Get(o))
    {
      unverified, adopted := false, None;
      var saved := Get(id);
      var evidence := if saved.Some? && NonEmpty(saved.value.evidence) then saved.value.evidence else None;
      if HasClaim(saved, vendor) {
        var hit := FindDir(cs, saved.value.dir.value);
        if hit.None? && |cs| == 0 { return true, saved.value.dir, FromState, true, None; }
        if hit.Some? {
          var drift := Identity(w, evidence, Some(hit.value.row), Address(email), true);
          if drift.changed {
            ForgetClaim(id, true);
            return false, None, IdentityChanged, false, None;
          }
          if evidence.None? && drift.current.Some? {
            adopted := drift.current;
            profiles := profiles[id := saved.value.(evidence := adopted)];
          }
          return true, Some(hit.value.dir), FromState, !drift.checked, adopted;
        }
        ForgetClaim(id, false);
        evidence := None;
      }
      var matched := Match(w, cs, email);
      if matched.Some? {
        var f := ClaimEvidence(w, matched.value.row);
        if !Contradicts(evidence, f) {
          if f.Some? { profiles := profiles[id := Remembered(Get(id)).(evidence := f)]; }
          return true, Some(matched.value.dir), FromAddress, false, None;
        }
      }
      claimed, dir, source := false, None, Unclaimed;
    }
  }

  /* ---- what it means ---- */

  lemma {:induction false} OneHit(cs: seq<Candidate>, keep: Candidate -> bool, i: nat, j: nat)
    requires i < j < |cs| && keep(cs[i]) && keep(cs[j])
    ensures |Filter(cs, keep)| > 1
    decreases |cs|
  {
    if j < |cs| - 1 {
      OneHit(Front(cs), keep, i, j);
    } else {
      assert Front(cs)[i] in Filter(Front(cs), keep);
    }
  }

  /** No two candidates carry an address that is matched: an ambiguous one never
      claims. */
  lemma MatchIsUnique(w: Words, cs: seq<Candidate>, email: Text, i: nat, j: nat)
    requires Match(w, cs, email).Some? && i < j < |cs|
    ensures !(Hit(w, cs[i], w.lower(w.trim(email.value))) && Hit(w, cs[j], w.lower(w.trim(email.value))))
  {
    var needle := w.lower(w.trim(email.value));
    if Hit(w, cs[i], needle) && Hit(w, cs[j], needle) { OneHit(cs, (c: Candidate) => Hit(w, c, needle), i, j); }
  }

  /** The claim in the store is honoured here: nothing could be read, or the
      directory is there and its person did not change. */
  ghost predicate Honours(w: Words, saved: Saved, cs: seq<Candidate>, email: Text)
    requires saved.dir.Some?
  {
    var hit := FindDir(cs, saved.dir.value);
    if hit.None? then cs == []
    else !Identity(w, if NonEmpty(saved.evidence) then saved.evidence else None, Some(hit.value.row), Address(email), true).changed
  }

  /** The record is a claim, made in this browser, on a directory. */
  ghost predicate Claims(saved: Option<Saved>, vendor: string) {
    && saved.Some? && saved.value.claimed && saved.value.vendor == vendor
    && saved.value.dir.Some? && saved.value.dir.value != ""
  }

  /** Two readings of one class, both there, that differ. */
  ghost predicate Against(a: Text, b: Text) {
    a.Some? && b.Some? && a.value != "" && b.value != "" && Kind(a) == Kind(b) && a.value != b.value
  }

  /** Nobody is taken for somebody else: a line is claimed exactly when its own
      claim is honoured, or, with no claim or one whose directory went away, when
      one candidate alone carries the reported address and does not contradict
      the evidence that is left. */
  lemma ResolveClaimsIff(w: Words, saved: Option<Saved>, vendor: string, cs: seq<Candidate>, email: Text)
    ensures Resolve(w, saved, vendor, cs, email).claimed <==>
              if Claims(saved, vendor) && (cs == [] || exists c :: c in cs && Some(c.dir) == saved.value.dir)
              then Honours(w, saved.value, cs, email)
              else Match(w, cs, email).Some? &&
                   (Claims(saved, vendor) || saved.None? || !Against(saved.value.evidence, ClaimEvidence(w, Match(w, cs, email).value.row)))
  {
  }

  /** A claim that is not honoured is forgotten with its evidence, and nothing
      but a fresh match of an address puts evidence back; an honoured claim keeps
      the evidence it was made on. */
  lemma EvidenceFollowsTheClaim(w: Words, saved: Option<Saved>, vendor: string, cs: seq<Candidate>, email: Text)
    requires HasClaim(saved, vendor)
    ensures var r := Resolve(w, saved, vendor, cs, email);
            && r.saved.Some?
            && (r.source == FromState ==> r.claimed && r.dir == saved.value.dir && r.saved.value.claimed
                                          && (NonEmpty(saved.value.evidence) ==> r.saved.value.evidence == saved.value.evidence))
            && (r.source != FromState ==> !r.saved.value.claimed && r.saved.value.dir == None)
            && (r.source == IdentityChanged ==> r.saved.value.changed)
            && (!r.claimed ==> r.saved.value.evidence == None)
  {
  }

  /* ---- whom an address names ---- */

  /** The candidate's address, or its name, is the one reported, but for case and
      spaces. */
  ghost predicate Carries(w: Words, c: Candidate, email: Text)
    requires email.Some?
  {
    var needle := w.lower(w.trim(email.value));
    || (c.row.email.Some? && c.row.email.value != "" && w.lower(w.trim(c.row.email.value)) == needle)
    || (c.row.name.Some? && c.row.name.value != "" && w.lower(w.trim(c.row.name.value)) == needle)
  }

  lemma {:induction false} OnlyHit(cs: seq<Candidate>, keep: Candidate -> bool, i: nat)
    requires i < |cs| && keep(cs[i]) && forall j :: 0 <= j < |cs| && keep(cs[j]) ==> j == i
    ensures Filter(cs, keep) == [cs[i]]
    decreases |cs|
  {
    var f := Front(cs);
    if i < |f| {
      OnlyHit(f, keep, i);
    } else {
      NoHit(f, keep);
    }
  }

  lemma {:induction false} NoHit(cs: seq<Candidate>, keep: Candidate -> bool)
    requires forall j :: 0 <= j < |cs| ==> !keep(cs[j])
    ensures Filter(cs, keep) == []
  {
    if cs != [] { NoHit(Front(cs), keep); }
  }

  /** An address names a candidate exactly when it is one, and that candidate alone
      carries it. */
  lemma MatchIff(w: Words, cs: seq<Candidate>, email: Text, i: nat)
    requires i < |cs|
    ensures (email.Some? && '@' in email.value && Carries(w, cs[i], email) && forall j :: 0 <= j < |cs| && Carries(w, cs[j], email) ==> j == i)
            ==> Match(w, cs, email) == Some(cs[i])
    ensures Match(w, cs, email).Some? ==>
              email.Some? && '@' in email.value && exists j :: 0 <= j < |cs| && Match(w, cs, email) == Some(cs[j]) && Carries(w, cs[j], email)
  {
    if email.Some? && '@' in email.value {
      var keep := (c: Candidate) => Hit(w, c, w.lower(w.trim(email.value)));
      if Carries(w, cs[i], email) && forall j :: 0 <= j < |cs| && Carries(w, cs[j], email) ==> j == i { OnlyHit(cs, keep, i); }
    }
  }

  /** The directory a line is claimed for is that of its record, or of the one
      candidate its address names, whose evidence is then recorded; a line that is
      not claimed has none. Its generation is nobody's business here. */
  lemma ResolvedDirectory(w: Words, saved: Option<Saved>, vendor: string, cs: seq<Candidate>, email: Text)
    ensures var r := Resolve(w, saved, vendor, cs, email);
            && (r.claimed <==> r.source == FromState || r.source == FromAddress)
            && (r.source == FromState ==> Claims(saved, vendor) && r.dir == saved.value.dir)
            && (r.source == FromAddress ==>
                  exists c :: c in cs && Match(w, cs, email) == Some(c) && Carries(w, c, email) && r.dir == Some(c.dir)
                              && (ClaimEvidence(w, c.row).Some? ==> r.saved.Some? && r.saved.value.evidence == ClaimEvidence(w, c.row)))
            && (!r.claimed ==> r.dir == None)
            && (saved.Some? ==> r.saved.Some? && r.saved.value.generation == saved.value.generation)
  {
    var r := Resolve(w, saved, vendor, cs, email);
    if r.source == FromAddress { assert Match(w, cs, email).value in cs; }
  }

  /** A claim taken on trust, because nothing could be read or compared, says so, and
      one without evidence takes up what it finds. */
  lemma TrustIsMarked(w: Words, saved: Option<Saved>, vendor: string, cs: seq<Candidate>, email: Text)
    requires Resolve(w, saved, vendor, cs, email).source == FromState
    ensures var r, hit := Resolve(w, saved, vendor, cs, email), FindDir(cs, saved.value.dir.value);
            && (cs == [] ==> r.unverified && r.adopted == None && r.saved == saved)
            && (hit.Some? && !NonEmpty(saved.value.evidence) ==> r.adopted == Fingerprint(w, hit.value.row, Address(email)) && (r.adopted.Some? ==> r.saved.value.evidence == r.adopted))
            && (hit.Some? && NonEmpty(saved.value.evidence) ==> r.adopted == None)
            && (hit.Some? ==> (r.unverified <==> !Identity(w, if NonEmpty(saved.value.evidence) then saved.value.evidence else None, Some(hit.value.row), Address(email), true).checked))
  {
  }
}
