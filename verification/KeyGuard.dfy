/** ops.js: typing key by key into whatever has focus, a check before each key.
    What the page and the browser answer is a World; each question asked moves
    the tick on. */
module KeyGuard {
  import opened Prelude

  /** A field check: the host of the document and whether the field is secret,
      `allowed` the verdict of secretFieldVerdict; or no answer; or an exception
      that is no OpError. */
  datatype Probe = Seen(host: string, secret: bool, allowed: bool) | Silent(tabGone: bool) | Broken

  /** The answers, by tick, and the clock when each one came. */
  datatype World = World(probe: nat -> Probe, now: nat -> int, loading: nat -> Option<bool>, works: nat -> bool)

  /** What happened, in order: a deadline test passed, a check passed, a key went
      out, which its keyDown does; each with the question it was the answer to. */
  datatype Mark =
    | Tested(at: int, tick: nat)
    | Checked(host: string, secret: bool, at: int, tick: nat)
    | Key(what: string, at: int, tick: nat)

  /** The sequence's state: `site` is "" until a granted secret field sets it. */
  datatype Keys = Keys(sent: nat, enter: bool, site: string, tick: nat, trail: seq<Mark>)

  datatype Verdict = Pass | Again | Stop | Rethrow

  /** Clear to go on, or how the sequence stopped: with an error that carries a
      count, or one that carries none; or the browser refused a key's keyDown, or
      its keyUp. */
  datatype Outcome = Clear | Told(count: nat) | Untold | NoDown | NoUp

  const FOCUS_CHECK_TRIES := 8
  const DEADLINE_MARGIN_MS := 500

  function Start(): Keys { Keys(0, false, "", 0, []) }

  /** guardSecretField. Again is an error worth another try. */
  function GuardField(w: World, k: Keys): (Keys, Verdict) {
    var c := k.(tick := k.tick + 1);
    match w.probe(k.tick)
    case Silent(tabGone) => (c, if tabGone then Stop else Again)
    case Broken => (c, Rethrow)
    case Seen(host, secret, allowed) =>
      if !allowed || (k.site != "" && host != k.site) then (c, Stop)
      else
        var mark := Checked(host, secret, w.now(k.tick), k.tick);
        (c.(site := if secret && k.site == "" then host else k.site, trail := k.trail + [mark]), Pass)
  }

  /** stamp: the count goes on an OpError once a key was sent. */
  function Stamp(sent: nat): Outcome { if sent > 0 then Told(sent) else Untold }

  /** The retry loop of guardFocus, with `tries` left. */
  function CheckFocus(w: World, k: Keys, tries: nat): (Keys, Outcome)
    decreases tries
  {
    if tries == 0 then (k, Told(k.sent))
    else
      var (c, v) := GuardField(w, k);
      match v
      case Pass => (c, Clear)
      case Stop => (c, Stamp(k.sent))
      case Rethrow => (c, Untold)
      case Again => CheckFocus(w, c, tries - 1)
  }

  /** settleAfterEnter: wait for the tab to stop loading; None is a tab that is gone. */
  function Settle(w: World, k: Keys, tries: nat): (Keys, Outcome)
    decreases tries
  {
    if tries == 0 then (k, Told(k.sent))
    else
      var c := k.(tick := k.tick + 1);
      match w.loading(k.tick)
      case None => (c, Untold)
      case Some(still) => if still then Settle(w, c, tries - 1) else (c, Clear)
  }

  predicate InTime(deadline: Option<int>, at: int) { deadline.None? || at < deadline.value - DEADLINE_MARGIN_MS }

  /** guardFocus. */
  function GuardFocus(w: World, deadline: Option<int>, k: Keys): (Keys, Outcome) {
    var at := w.now(k.tick);
    var c := k.(tick := k.tick + 1);
    if !InTime(deadline, at) then (c, Told(k.sent))
    else
      var t := c.(trail := k.trail + [Tested(at, k.tick)], enter := false);
      if !k.enter then CheckFocus(w, t, FOCUS_CHECK_TRIES)
      else
        var (settled, o) := Settle(w, t, FOCUS_CHECK_TRIES);
        if o.Clear? then CheckFocus(w, settled, FOCUS_CHECK_TRIES) else (settled, o)
  }

  /** A command that either works or stops the sequence without a count. */
  function Command(w: World, k: Keys): (Keys, Outcome) {
    (k.(tick := k.tick + 1), if w.works(k.tick) then Clear else Untold)
  }

  /** keyDown, which carries the key. */
  function Down(w: World, k: Keys, what: string): (Keys, Outcome) {
    var c := k.(tick := k.tick + 1);
    if w.works(k.tick) then (c.(trail := k.trail + [Key(what, w.now(k.tick), k.tick)]), Clear) else (c, NoDown)
  }

  function Up(w: World, k: Keys): (Keys, Outcome) {
    (k.(tick := k.tick + 1), if w.works(k.tick) then Clear else NoUp)
  }

  /** One key, down and up. */
  function Dispatch(w: World, k: Keys, what: string): (Keys, Outcome) {
    var (d, o) := Down(w, k, what);
    if o.Clear? then Up(w, d) else (d, o)
  }

  /** Before every key after the first. */
  function Between(w: World, deadline: Option<int>, k: Keys): (Keys, Outcome) {
    if k.sent > 0 then GuardFocus(w, deadline, k) else (k, Clear)
  }

  /** A character of fill goes out: it is counted before it is sent. */
  function SendChar(w: World, ch: char, g: Keys): (Keys, Outcome) {
    Dispatch(w, g.(sent := g.sent + 1, enter := ch == '\n'), [ch])
  }

  function TypeOne(w: World, deadline: Option<int>, ch: char, k: Keys): (Keys, Outcome) {
    var (g, o) := Between(w, deadline, k);
    if o.Clear? then SendChar(w, ch, g) else (g, o)
  }

  /** fill's loop, from character `i` on. */
  function TypeFrom(w: World, deadline: Option<int>, text: string, i: nat, k: Keys): (Keys, Outcome)
    requires i <= |text|
    decreases |text| - i
  {
    if i == |text| then (k, Clear)
    else
      var (d, o) := TypeOne(w, deadline, text[i], k);
      if o.Clear? then TypeFrom(w, deadline, text, i + 1, d) else (d, o)
  }

  /** The named field is checked, focused, and its focus checked. */
  function Focused(w: World, deadline: Option<int>, a: Keys): (Keys, Outcome) {
    var (f, o) := Command(w, a);
    if o.Clear? then GuardFocus(w, deadline, f) else (f, o)
  }

  /** fill in mode "type"; the keys are typed once the debugger is attached. */
  function Fill(w: World, deadline: Option<int>, text: string): (Keys, Outcome) {
    var (a, v) := GuardField(w, Start());
    if v != Pass then (a, Untold)
    else
      var (g, o) := Focused(w, deadline, a);
      if !o.Clear? then (g, o)
      else
        var (t, attached) := Command(w, g);
        if attached.Clear? then TypeFrom(w, deadline, text, 0, t) else (t, attached)
  }

  /** A key of pressKeys goes out: it is counted once both its commands worked. */
  function SendKey(w: World, key: string, g: Keys): (Keys, Outcome) {
    var (d, o) := Dispatch(w, g, key);
    if o.Clear? then (d.(sent := d.sent + 1, enter := key == "Enter"), Clear) else (d, o)
  }

  function PressOne(w: World, deadline: Option<int>, key: string, k: Keys): (Keys, Outcome) {
    var (g, o) := Between(w, deadline, k);
    if o.Clear? then SendKey(w, key, g) else (g, o)
  }

  /** pressKeys' loop, from key `i` on. */
  function PressFrom(w: World, deadline: Option<int>, keys: seq<string>, i: nat, k: Keys): (Keys, Outcome)
    requires i <= |keys|
    decreases |keys| - i
  {
    if i == |keys| then (k, Clear)
    else
      var (d, o) := PressOne(w, deadline, keys[i], k);
      if o.Clear? then PressFrom(w, deadline, keys, i + 1, d) else (d, o)
  }

  /** pressKeys, trusted; `selector` is whether a field was named, which is then
      focused and its focus checked. */
  function Press(w: World, deadline: Option<int>, keys: seq<string>, selector: bool): (Keys, Outcome) {
    var (a, v) := GuardField(w, Start());
    if v != Pass then (a, Untold)
    else
      var (g, o) := if selector then Focused(w, deadline, a) else (a, Clear);
      if !o.Clear? then (g, o)
      else
        var (t, attached) := Command(w, g);
        if attached.Clear? then PressFrom(w, deadline, keys, 0, t) else (t, attached)
  }
}
