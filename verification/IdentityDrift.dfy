/** profiles.mjs: is the person behind a claimed profile still the same one? */
module IdentityDrift {
  import opened Prelude

  type Text = Option<string>

  /** String.trim and String.toLowerCase. */
  datatype Words = Words(trim: string -> string, lower: string -> string)

  /** A Local State row. */
  datatype Row = Row(gaiaId: Text, email: Text, name: Text)

  datatype Why = NoReason | ByFingerprint | ByEmail

  datatype Drift = Drift(changed: bool, checked: bool, current: Text, from: Text, to: Text, why: Why)

  function Clean(w: Words, v: Text): Text {
    if v.Some? && w.trim(v.value) != "" then Some(w.trim(v.value)) else None
  }

  function Lowered(w: Words, v: Text): Text { if v.Some? then Some(w.lower(v.value)) else None }

  /** normalizeEmail, and the account id and name as a fingerprint spells them. */
  function Normal(w: Words, v: Text): Text { Lowered(w, Clean(w, v)) }

  function Or(a: Text, b: Text): Text { if a.Some? then a else b }

  function Prefixed(kind: string, v: Text): Text { if v.Some? then Some(kind + ":" + v.value) else None }

  /** The strongest evidence there is of who is signed in. */
  function Fingerprint(w: Words, row: Row, reported: Text): Text {
    if Clean(w, row.gaiaId).Some? then Prefixed("gaia", Normal(w, row.gaiaId))
    else if Or(Clean(w, row.email), Clean(w, reported)).Some?
    then Prefixed("email", Lowered(w, Or(Clean(w, row.email), Clean(w, reported))))
    else Prefixed("name", Normal(w, row.name))
  }

  function Colon(s: string): (k: nat)
    ensures k <= |s| && (k < |s| ==> s[k] == ':') && ':' !in s[..k]
  {
    if s == "" || s[0] == ':' then 0 else Colon(s[1..]) + 1
  }

  /** fingerprintKind: the class of evidence a fingerprint was built from. */
  function Kind(f: Text): Text {
    if f.None? then None
    else
      var k := Colon(f.value);
      if 0 < k < |f.value| then Some(f.value[..k]) else None
  }

  function Describe(f: Text): string {
    if Kind(f).None? then "an identity the bridge could not read"
    else
      var kind := Kind(f).value;
      var value := f.value[|kind| + 1..];
      if kind == "gaia" then "Google account id " + value
      else if kind == "email" then value
      else "the profile named \"" + value + "\""
  }

  function CannotCheck(current: Text): Drift { Drift(false, false, current, None, None, NoReason) }

  function Unchanged(current: Text): Drift { Drift(false, true, current, None, None, NoReason) }

  function Identity(w: Words, saved: Text, row: Option<Row>, reported: Text, liveIsFresh: bool): Drift {
    if row.None? then CannotCheck(None)
    else
      var r := row.value;
      var current := Fingerprint(w, r, reported);
      if Kind(saved) == Some("gaia") && Clean(w, r.gaiaId).Some? then
        var now := Prefixed("gaia", Normal(w, r.gaiaId));
        if now == saved then Unchanged(current)
        else
          var readable := Or(Normal(w, r.email), Or(Clean(w, r.name), Normal(w, reported)));
          var to := if readable.Some? then Describe(now) + ", which is signed in as " + readable.value else Describe(now);
          Drift(true, true, current, Some(Describe(saved)), Some(to), ByFingerprint)
      else
        var live, disk := Normal(w, reported), Normal(w, r.email);
        if live.Some? && disk.Some? && live != disk then
          if liveIsFresh then Drift(true, true, current, disk, live, ByEmail) else Drift(true, true, current, live, disk, ByEmail)
        else
          var honored := if live.Some? && disk.Some? then Unchanged(current) else CannotCheck(current);
          if saved.None? || saved.value == "" || current.None? || Kind(saved) != Kind(current) then honored
          else if saved == current then Unchanged(current)
          else Drift(true, true, current, Some(Describe(saved)), Some(Describe(current)), ByFingerprint)
  }

  /* ---- claims ---- */

  datatype Candidate = Candidate(dir: string, row: Row)

  function FindDir(cs: seq<Candidate>, dir: string): (r: Option<Candidate>)
    ensures r.Some? ==> r.value in cs && r.value.dir == dir
    ensures r.None? ==> forall c :: c in cs ==> c.dir != dir
  {
    if cs == [] then None else if cs[0].dir == dir then Some(cs[0]) else FindDir(cs[1..], dir)
  }

  /** The evidence applyClaim records: from the disk row alone. */
  function ClaimEvidence(w: Words, row: Row): Text { Fingerprint(w, row, None) }

  /** A connected route and its durable record, as a claim leaves them and a
      re-check reads them. */
  datatype Claimed = Claimed(claimed: bool, dir: string, reported: Text, evidence: Text, checkedAt: int)

  /** claimProfile, of a directory that is on offer. */
  function Claim(w: Words, c: Candidate, now: int): Claimed { Claimed(true, c.dir, None, ClaimEvidence(w, c.row), now) }

  const IDENTITY_RECHECK_MS := 60_000

  /** recheckIdentity: on the heartbeat, once a minute, against the rows on disk. */
  function Recheck(w: Words, k: Claimed, rows: seq<Candidate>, now: int): Claimed {
    if !k.claimed || now - k.checkedAt < IDENTITY_RECHECK_MS then k
    else
      var hit := FindDir(rows, k.dir);
      var row := if hit.Some? then Some(hit.value.row) else None;
      if Identity(w, k.evidence, row, k.reported, false).changed then k.(claimed := false, evidence := None, checkedAt := now)
      else k.(checkedAt := now)
  }

  function Rechecks(w: Words, k: Claimed, rows: seq<Candidate>, times: seq<int>): Claimed
    decreases times
  {
    if times == [] then k else Rechecks(w, Recheck(w, k, rows, times[0]), rows, times[1..])
  }

  /* ---- what it means ---- */

  /** Both account ids can be read. */
  ghost predicate AccountsRead(w: Words, saved: Text, row: Row) {
    Kind(saved) == Some("gaia") && Clean(w, row.gaiaId).Some?
  }

  ghost predicate SameAccount(w: Words, saved: Text, row: Row) { saved == Prefixed("gaia", Normal(w, row.gaiaId)) }

  /** Two readings of the address, both there, that disagree. */
  ghost predicate AddressesDisagree(w: Words, row: Row, reported: Text) {
    Normal(w, reported).Some? && Normal(w, row.email).Some? && Normal(w, reported) != Normal(w, row.email)
  }

  /** The recorded and the current evidence, of one class, that disagree. */
  ghost predicate EvidenceDisagrees(w: Words, saved: Text, row: Row, reported: Text) {
    && saved.Some? && saved.value != "" && Fingerprint(w, row, reported).Some?
    && Kind(saved) == Kind(Fingerprint(w, row, reported)) && saved != Fingerprint(w, row, reported)
  }

  lemma {:induction false} ColonAfter(kind: string, v: string)
    requires ':' !in kind
    ensures Colon(kind + ":" + v) == |kind|
  {
    if kind != "" {
      assert (kind + ":" + v)[1..] == kind[1..] + ":" + v;
      ColonAfter(kind[1..], v);
    }
  }

  lemma KindOfPrefixed(kind: string, v: Text)
    requires ':' !in kind && kind != "" && v.Some?
    ensures Kind(Prefixed(kind, v)) == Some(kind)
  {
    ColonAfter(kind, v.value);
    assert (kind + ":" + v.value)[..|kind|] == kind;
  }

  /** A change is reported exactly when two readable pieces of evidence of one
      class disagree: the account ids when both can be read, and only when not
      both can, the addresses or the recorded evidence. */
  lemma DriftIff(w: Words, saved: Text, row: Option<Row>, reported: Text, liveIsFresh: bool)
    ensures Identity(w, saved, row, reported, liveIsFresh).changed <==>
              row.Some? && if AccountsRead(w, saved, row.value) then !SameAccount(w, saved, row.value)
                           else AddressesDisagree(w, row.value, reported) || EvidenceDisagrees(w, saved, row.value, reported)
  {
  }

  /** While the recorded and the current account id agree, nothing else counts. */
  lemma SameAccountNeverDrifts(w: Words, saved: Text, row: Row, reported: Text, liveIsFresh: bool)
    requires Clean(w, row.gaiaId).Some? && SameAccount(w, saved, row)
    ensures var d := Identity(w, saved, Some(row), reported, liveIsFresh); !d.changed && d.checked
  {
    KindOfPrefixed("gaia", Normal(w, row.gaiaId));
  }

  /** Which reading is the newer decides only which of the two accounts is
      named as the new one, never whether there is a change. */
  lemma FreshnessOnlySwaps(w: Words, saved: Text, row: Option<Row>, reported: Text)
    ensures var a, b := Identity(w, saved, row, reported, true), Identity(w, saved, row, reported, false);
            && a.(from := b.from, to := b.to) == b
            && (if a.why == ByEmail then a.from == b.to && a.to == b.from && a.from != a.to else a == b)
  {
  }

  /** What cannot be compared is never a change: a change always names a reason,
      and evidence that is missing, or of another class, is not one. */
  lemma UnreadableNeverDrifts(w: Words, saved: Text, row: Option<Row>, reported: Text, liveIsFresh: bool)
    requires row.None? || ((Normal(w, reported).None? || Normal(w, row.value.email).None?)
                           && (saved.None? || Kind(saved) != Kind(Fingerprint(w, row.value, reported))))
    requires row.Some? ==> !AccountsRead(w, saved, row.value)
    ensures var d := Identity(w, saved, row, reported, liveIsFresh); !d.changed && !d.checked && d.why == NoReason
  {
  }

  /** On a row a human claimed, and that has not changed since, a registration
      drops the claim exactly when the row carries no account id and the address
      the browser reports is readable and not the one on the row. */
  lemma RegisterAfterClaimIff(w: Words, row: Row, reported: Text)
    ensures Identity(w, ClaimEvidence(w, row), Some(row), reported, true).changed <==>
              Clean(w, row.gaiaId).None? && AddressesDisagree(w, row, reported)
  {
    if Clean(w, row.gaiaId).Some? {
      SameAccountNeverDrifts(w, ClaimEvidence(w, row), row, reported, true);
    } else {
      ClassesOfClaim(w, row, reported);
    }
  }

  /** Without an account id, a row's own evidence and the same with a reported
      address are of one class only when they are the same. */
  lemma ClassesOfClaim(w: Words, row: Row, reported: Text)
    requires Clean(w, row.gaiaId).None?
    ensures Kind(ClaimEvidence(w, row)) != Some("gaia")
    ensures !EvidenceDisagrees(w, ClaimEvidence(w, row), row, reported)
  {
    if Or(Clean(w, row.email), Clean(w, reported)).Some? {
      KindOfPrefixed("email", Lowered(w, Or(Clean(w, row.email), Clean(w, reported))));
    }
    if Clean(w, row.email).Some? { KindOfPrefixed("email", Lowered(w, Clean(w, row.email))); }
    if Clean(w, row.name).Some? { KindOfPrefixed("name", Normal(w, row.name)); }
  }

  lemma RecheckKeeps(w: Words, k: Claimed, rows: seq<Candidate>, now: int)
    requires k.claimed && k.reported == None
    requires FindDir(rows, k.dir).Some? ==> k.evidence == ClaimEvidence(w, FindDir(rows, k.dir).value.row)
    ensures Recheck(w, k, rows, now) == k.(checkedAt := Recheck(w, k, rows, now).checkedAt)
  {
    if FindDir(rows, k.dir).Some? {
      var row := FindDir(rows, k.dir).value.row;
      if Clean(w, row.gaiaId).Some? { SameAccountNeverDrifts(w, k.evidence, row, None, false); } else { ClassesOfClaim(w, row, None); }
    }
  }

  /** After a human claim, any number of re-checks against rows that still hold
      it as it was keep the claim, and its evidence. */
  lemma {:induction false} ClaimIsStable(w: Words, k: Claimed, rows: seq<Candidate>, times: seq<int>)
    requires k.claimed && k.reported == None
    requires FindDir(rows, k.dir).Some? ==> k.evidence == ClaimEvidence(w, FindDir(rows, k.dir).value.row)
    ensures var t := Rechecks(w, k, rows, times); t.claimed && t.evidence == k.evidence && t.dir == k.dir
    decreases times
  {
    if times != [] {
      RecheckKeeps(w, k, rows, times[0]);
      ClaimIsStable(w, Recheck(w, k, rows, times[0]), rows, times[1..]);
    }
  }

  /* ---- what a fingerprint tells ---- */

  /** The text is there, and more than spaces. */
  ghost predicate Reads(w: Words, v: Text) { v.Some? && w.trim(v.value) != "" }

  /** Both or neither can be read, and they differ at most in case and in the spaces
      around them. */
  ghost predicate SameText(w: Words, a: Text, b: Text) {
    (Reads(w, a) <==> Reads(w, b)) && (Reads(w, a) && Reads(w, b) ==> w.lower(w.trim(a.value)) == w.lower(w.trim(b.value)))
  }

  /** A fingerprint is of the strongest evidence there is. */
  lemma FingerprintIsTheStrongest(w: Words, row: Row, reported: Text)
    ensures Kind(Fingerprint(w, row, reported)) ==
              if Reads(w, row.gaiaId) then Some("gaia")
              else if Reads(w, row.email) || Reads(w, reported) then Some("email")
              else if Reads(w, row.name) then Some("name") else None
  {
    if Reads(w, row.gaiaId) {
      KindOfPrefixed("gaia", Normal(w, row.gaiaId));
    } else if Or(Clean(w, row.email), Clean(w, reported)).Some? {
      KindOfPrefixed("email", Lowered(w, Or(Clean(w, row.email), Clean(w, reported))));
    } else if Reads(w, row.name) {
      KindOfPrefixed("name", Normal(w, row.name));
    }
  }

  lemma PrefixTells(kind: string, a: Text, b: Text)
    ensures Prefixed(kind, a) == Prefixed(kind, b) <==> a == b
  {
    if a.Some? && b.Some? {
      var x, y := kind + ":" + a.value, kind + ":" + b.value;
      assert x[|kind| + 1..] == a.value && y[|kind| + 1..] == b.value;
    }
  }

  /** Two rows have one fingerprint exactly when the strongest evidence they have in
      common is the same, but for case and spaces. */
  lemma FingerprintsTellApart(w: Words, a: Row, b: Row)
    requires Reads(w, a.gaiaId) <==> Reads(w, b.gaiaId)
    requires !Reads(w, a.gaiaId) ==> (Reads(w, a.email) <==> Reads(w, b.email))
    ensures ClaimEvidence(w, a) == ClaimEvidence(w, b) <==>
              if Reads(w, a.gaiaId) then SameText(w, a.gaiaId, b.gaiaId)
              else if Reads(w, a.email) then SameText(w, a.email, b.email)
              else SameText(w, a.name, b.name)
  {
    PrefixTells("gaia", Normal(w, a.gaiaId), Normal(w, b.gaiaId));
    PrefixTells("email", Lowered(w, Clean(w, a.email)), Lowered(w, Clean(w, b.email)));
    PrefixTells("name", Normal(w, a.name), Normal(w, b.name));
  }

  lemma SpelledAlike(w: Words, a: Row, b: Row, reported: Text, again: Text)
    requires SameText(w, a.gaiaId, b.gaiaId) && SameText(w, a.email, b.email) && SameText(w, a.name, b.name) && SameText(w, reported, again)
    ensures Fingerprint(w, a, reported) == Fingerprint(w, b, again)
    ensures Normal(w, a.gaiaId) == Normal(w, b.gaiaId) && Normal(w, a.email) == Normal(w, b.email) && Normal(w, reported) == Normal(w, again)
  {
  }

  /** How an address or an id is spelled, in case and spaces, decides nothing. */
  lemma SpellingDecidesNothing(w: Words, saved: Text, a: Row, b: Row, reported: Text, again: Text, liveIsFresh: bool)
    requires SameText(w, a.gaiaId, b.gaiaId) && SameText(w, a.email, b.email) && SameText(w, a.name, b.name) && SameText(w, reported, again)
    ensures Identity(w, saved, Some(a), reported, liveIsFresh).changed <==> Identity(w, saved, Some(b), again, liveIsFresh).changed
  {
    SpelledAlike(w, a, b, reported, again);
    DriftIff(w, saved, Some(a), reported, liveIsFresh);
    DriftIff(w, saved, Some(b), again, liveIsFresh);
  }

  /** A re-check that is due drops a claim exactly when its directory is there and its
      row and the record disagree; before a minute is over, or of nobody, it does
      nothing. */
  lemma RecheckDropsIff(w: Words, k: Claimed, rows: seq<Candidate>, now: int)
    ensures var t, hit := Recheck(w, k, rows, now), FindDir(rows, k.dir);
            if !k.claimed || now - k.checkedAt < 60_000 then t == k
            else if hit.Some? && (if AccountsRead(w, k.evidence, hit.value.row) then !SameAccount(w, k.evidence, hit.value.row)
                                  else AddressesDisagree(w, hit.value.row, k.reported) || EvidenceDisagrees(w, k.evidence, hit.value.row, k.reported))
            then t == k.(claimed := false, evidence := None, checkedAt := now)
            else t == k.(checkedAt := now)
  {
    var hit := FindDir(rows, k.dir);
    DriftIff(w, k.evidence, if hit.Some? then Some(hit.value.row) else None, k.reported, false);
  }

  /** A change is told from the old to the new: by address, from the row to the
      browser's report when that is the fresher reading and the other way round when
      it is not; by evidence, from what was recorded to what is there. */
  lemma ChangeIsTold(w: Words, saved: Text, row: Row, reported: Text, liveIsFresh: bool)
    requires Identity(w, saved, Some(row), reported, liveIsFresh).changed
    ensures var d := Identity(w, saved, Some(row), reported, liveIsFresh);
            && (d.why == ByEmail || d.why == ByFingerprint) && d.from.Some? && d.to.Some?
            && (d.why == ByEmail ==> d.from.value == w.lower(w.trim(if liveIsFresh then row.email.value else reported.value))
                                     && d.to.value == w.lower(w.trim(if liveIsFresh then reported.value else row.email.value)))
            && (d.why == ByFingerprint ==> d.from.value == Describe(saved) && Describe(d.current) <= d.to.value)
  {
    if AccountsRead(w, saved, row) { KindOfPrefixed("gaia", Normal(w, row.gaiaId)); }
  }

  /** A claim, a minute later: it is dropped exactly when the directory has another
      account by then, however its id is spelled. */
  lemma AnotherAccountIsNoticed(w: Words, c: Candidate, now: int, rows: seq<Candidate>, later: int)
    requires FindDir(rows, c.dir).Some? && Reads(w, c.row.gaiaId) && Reads(w, FindDir(rows, c.dir).value.row.gaiaId) && later - now >= 60_000
    ensures Recheck(w, Claim(w, c, now), rows, later).claimed <==>
              w.lower(w.trim(c.row.gaiaId.value)) == w.lower(w.trim(FindDir(rows, c.dir).value.row.gaiaId.value))
  {
    var row := FindDir(rows, c.dir).value.row;
    FingerprintIsTheStrongest(w, c.row, None);
    RecheckDropsIff(w, Claim(w, c, now), rows, later);
    PrefixTells("gaia", Normal(w, c.row.gaiaId), Normal(w, row.gaiaId));
  }
}
