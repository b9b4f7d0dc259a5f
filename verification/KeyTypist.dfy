/** ops.js as it runs: the loops of fill and pressKeys over one sequence's state,
    changed in place across the answers of the page. */
module KeyTypist {
  import opened Prelude
  import G = KeyGuard

  class Typist {
    const world: G.World
    const deadline: Option<int>
    var sent: nat
    var enter: bool
    var site: string
    var tick: nat
    var trail: seq<G.Mark>

    ghost function View(): G.Keys
      reads this
    {
      G.Keys(sent, enter, site, tick, trail)
    }

    constructor (w: G.World, d: Option<int>)
      ensures world == w && deadline == d && View() == G.Start()
    {
      world, deadline, sent, enter, site, tick, trail := w, d, 0, false, "", 0, [];
    }

    /** The next question to the page or the browser. */
    method Ask() returns (n: nat)
      modifies this`tick
      ensures n == old(tick) && tick == n + 1
    {
      n := tick;
      tick := tick + 1;
    }

    method GuardSecretField() returns (v: G.Verdict)
      modifies this`site, this`tick, this`trail
      ensures (View(), v) == G.GuardField(world, old(View()))
    {
      var n := Ask();
      var probe := world.probe(n);
      if probe.Broken? { return G.Rethrow; }
      if probe.Silent? { return if probe.tabGone then G.Stop else G.Again; }
      if !probe.allowed { return G.Stop; }
      if site != "" && probe.host != site { return G.Stop; }
      if probe.secret && site == "" { site := probe.host; }
      trail := trail + [G.Checked(probe.host, probe.secret, world.now(n), n)];
      v := G.Pass;
    }

    method CheckFocus() returns (o: G.Outcome)
      modifies this`site, this`tick, this`trail
      ensures (View(), o) == G.CheckFocus(world, old(View()), G.FOCUS_CHECK_TRIES)
    {
      for attempt := 0 to G.FOCUS_CHECK_TRIES
        invariant G.CheckFocus(world, View(), G.FOCUS_CHECK_TRIES - attempt) == G.CheckFocus(world, old(View()), G.FOCUS_CHECK_TRIES)
        invariant sent == old(sent) && enter == old(enter)
      {
        var v := GuardSecretField();
        if v.Pass? { return G.Clear; }
        if v.Stop? { return G.Stamp(sent); }
        if v.Rethrow? { return G.Untold; }
      }
      o := G.Told(sent);
    }

    method SettleAfterEnter() returns (o: G.Outcome)
      modifies this`tick
      ensures (View(), o) == G.Settle(world, old(View()), G.FOCUS_CHECK_TRIES)
    {
      for attempt := 0 to G.FOCUS_CHECK_TRIES
        invariant G.Settle(world, View(), G.FOCUS_CHECK_TRIES - attempt) == G.Settle(world, old(View()), G.FOCUS_CHECK_TRIES)
      {
        var n := Ask();
        var loading := world.loading(n);
        if loading.None? { return G.Untold; }
        if !loading.value { return G.Clear; }
      }
      o := G.Told(sent);
    }

    method GuardFocus() returns (o: G.Outcome)
      modifies this
      ensures (View(), o) == G.GuardFocus(world, deadline, old(View()))
    {
      var n := Ask();
      if !G.InTime(deadline, world.now(n)) { return G.Told(sent); }
      trail := trail + [G.Tested(world.now(n), n)];
      if enter {
        enter := false;
        var settled := SettleAfterEnter();
        if !settled.Clear? { return settled; }
      }
      o := CheckFocus();
    }

    /** Focusing the field, or attaching the debugger. */
    method Command() returns (o: G.Outcome)
      modifies this`tick
      ensures (View(), o) == G.Command(world, old(View()))
    {
      var n := Ask();
      o := if world.works(n) then G.Clear else G.Untold;
    }

    /** The two commands of a key; the key is out once the first worked. */
    method Dispatch(what: string) returns (o: G.Outcome)
      modifies this`tick, this`trail
      ensures (View(), o) == G.Dispatch(world, old(View()), what)
    {
      var down := Ask();
      if !world.works(down) { return G.NoDown; }
      trail := trail + [G.Key(what, world.now(down), down)];
      var up := Ask();
      o := if world.works(up) then G.Clear else G.NoUp;
    }

    /** Before every key after the first. */
    method Between() returns (o: G.Outcome)
      modifies this
      ensures (View(), o) == G.Between(world, deadline, old(View()))
    {
      o := G.Clear;
      if sent > 0 { o := GuardFocus(); }
    }

    method SendChar(ch: char) returns (o: G.Outcome)
      modifies this
      ensures (View(), o) == G.SendChar(world, ch, old(View()))
    {
      sent := sent + 1;
      enter := ch == '\n';
      o := Dispatch([ch]);
    }

    method TypeOne(ch: char) returns (o: G.Outcome)
      modifies this
      ensures (View(), o) == G.TypeOne(world, deadline, ch, old(View()))
    {
      o := Between();
      if o.Clear? { o := SendChar(ch); }
    }

    /** The named field is focused, and its focus checked. */
    method Focus() returns (o: G.Outcome)
      modifies this
      ensures (View(), o) == G.Focused(world, deadline, old(View()))
    {
      o := Command();
      if o.Clear? { o := GuardFocus(); }
    }

    /** fill in mode "type". */
    method Fill(text: string) returns (o: G.Outcome)
      requires View() == G.Start()
      modifies this
      ensures (View(), o) == G.Fill(world, deadline, text)
    {
      var v := GuardSecretField();
      if v != G.Pass { return G.Untold; }
      o := Focus();
      if !o.Clear? { return o; }
      o := Command();
      if !o.Clear? { return o; }
      ghost var start := View();
      for i := 0 to |text|
        invariant G.TypeFrom(world, deadline, text, i, View()) == G.TypeFrom(world, deadline, text, 0, start)
      {
        o := TypeOne(text[i]);
        if !o.Clear? { return o; }
      }
      o := G.Clear;
    }

    method SendKey(key: string) returns (o: G.Outcome)
      modifies this
      ensures (View(), o) == G.SendKey(world, key, old(View()))
    {
      o := Dispatch(key);
      if !o.Clear? { return o; }
      sent := sent + 1;
      enter := key == "Enter";
    }

    method PressOne(key: string) returns (o: G.Outcome)
      modifies this
      ensures (View(), o) == G.PressOne(world, deadline, key, old(View()))
    {
      o := Between();
      if o.Clear? { o := SendKey(key); }
    }

    /** pressKeys, trusted. */
    method PressKeys(keys: seq<string>, selector: bool) returns (o: G.Outcome)
      requires View() == G.Start()
      modifies this
      ensures (View(), o) == G.Press(world, deadline, keys, selector)
    {
      var v := GuardSecretField();
      if v != G.Pass { return G.Untold; }
      if selector {
        o := Focus();
        if !o.Clear? { return o; }
      }
      o := Command();
      if !o.Clear? { return o; }
      ghost var start := View();
      for i := 0 to |keys|
        invariant G.PressFrom(world, deadline, keys, i, View()) == G.PressFrom(world, deadline, keys, 0, start)
      {
        o := PressOne(keys[i]);
        if !o.Clear? { return o; }
      }
      o := G.Clear;
    }
  }
}
