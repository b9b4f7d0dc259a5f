/** The text of a tab handle: tab_<label>_<generation>_<n>. */
module Handles {
  import opened Prelude

  datatype Handle = Handle(name: string, generation: nat, tabId: nat)

  predicate IsDigit(c: char) { '0' <= c <= '9' }

  predicate AllDigits(s: string) { s != "" && forall c | c in s :: IsDigit(c) }

  /** What `.` in the handle's pattern does not match. */
  predicate LineEnd(c: char) { c == '\n' || c == '\r' || c == '\U{2028}' || c == '\U{2029}' }

  function Digits(n: nat): (s: string)
    ensures AllDigits(s)
  {
    var d := [(n % 10) as char + '0'];
    if n < 10 then d else Digits(n / 10) + d
  }

  /** Number() of a digit string. */
  function Value(s: string): nat
    requires forall c | c in s :: IsDigit(c)
  {
    if s == "" then 0
    else
      var c := s[|s| - 1];
      assert c in s && IsDigit(c);
      10 * Value(s[..|s| - 1]) + (c - '0') as nat
  }

  function Mint(h: Handle): string {
    "tab_" + h.name + "_" + Digits(h.generation) + "_" + Digits(h.tabId)
  }

  /** Where the last underscore of `s` is. */
  function LastBar(s: string): (r: Option<nat>)
    ensures r.Some? ==> r.value < |s| && s[r.value] == '_' && forall k :: r.value < k < |s| ==> s[k] != '_'
    ensures r.None? ==> '_' !in s
  {
    if s == "" then None
    else if s[|s| - 1] == '_' then Some(|s| - 1)
    else LastBar(s[..|s| - 1])
  }

  function Parse(s: string): Option<Handle> {
    if |s| < 4 || s[..4] != "tab_" then None
    else
      var body := s[4..];
      var b := LastBar(body);
      if b.None? then None
      else
        var a := LastBar(body[..b.value]);
        if a.None? then None
        else
          var name, g, n := body[..a.value], body[a.value + 1..b.value], body[b.value + 1..];
          if name == "" || (exists c | c in name :: LineEnd(c)) || !AllDigits(g) || !AllDigits(n) then None
          else Some(Handle(name, Value(g), Value(n)))
  }

  /** The three parts of a handle's text. */
  ghost predicate Reads(s: string, name: string, g: string, n: string) {
    && s == "tab_" + name + "_" + g + "_" + n
    && name != "" && (forall c :: c in name ==> !LineEnd(c)) && AllDigits(g) && AllDigits(n)
  }

  lemma {:induction false} ValueOfDigits(n: nat)
    ensures Value(Digits(n)) == n
  {
    if n >= 10 {
      ValueOfDigits(n / 10);
      var s := Digits(n);
      assert s[..|s| - 1] == Digits(n / 10);
    }
  }

  lemma {:induction false} LastBarBefore(s: string, t: string)
    requires '_' !in t
    ensures LastBar(s + "_" + t) == Some(|s|)
  {
    var u := s + "_" + t;
    if t != "" {
      assert u[..|u| - 1] == s + "_" + t[..|t| - 1];
      LastBarBefore(s, t[..|t| - 1]);
    }
  }

  /** Parsing accepts exactly the texts of that shape, and reads one way only. */
  lemma ParseReads(s: string, name: string, g: string, n: string)
    requires Reads(s, name, g, n)
    ensures Parse(s) == Some(Handle(name, Value(g), Value(n)))
  {
    var body := s[4..];
    assert body == (name + "_" + g) + "_" + n;
    LastBarBefore(name + "_" + g, n);
    var b := |name + "_" + g|;
    assert body[..b] == name + "_" + g;
    LastBarBefore(name, g);
    assert body[..|name|] == name && body[|name| + 1..b] == g && body[b + 1..] == n;
  }

  lemma ParseOnlyReads(s: string)
    requires Parse(s).Some?
    ensures exists name, g, n :: Reads(s, name, g, n) && Parse(s).value == Handle(name, Value(g), Value(n))
  {
    var body := s[4..];
    var b := LastBar(body).value;
    var a := LastBar(body[..b]).value;
    var name, g, n := body[..a], body[a + 1..b], body[b + 1..];
    assert body[..b] == name + "_" + g;
    assert body == (name + "_" + g) + "_" + n;
    assert Reads(s, name, g, n);
  }

  /** A minted handle reads back as what it was minted from. */
  lemma MintRoundTrip(h: Handle)
    requires h.name != "" && forall c :: c in h.name ==> !LineEnd(c)
    ensures Parse(Mint(h)) == Some(h)
  {
    ParseReads(Mint(h), h.name, Digits(h.generation), Digits(h.tabId));
    ValueOfDigits(h.generation);
    ValueOfDigits(h.tabId);
  }
}
