/** tab-groups.js: putting tabs in a group, and gathering every group of a title
    into one window, in a browser nobody disturbs and that refuses no edit. */
module TabGroups {
  import opened Prelude

  /** A tab in its strip; NONE is no group. */
  datatype Tab = Tab(id: int, group: int)

  type Strip = seq<Tab>

  const NONE := -1

  function Set(ids: seq<int>): set<int> { set id | id in ids }

  /** The strip without the tabs `gone`. */
  function Sub(s: Strip, gone: set<int>): Strip {
    if s == [] then [] else (if s[0].id in gone then [] else [s[0]]) + Sub(s[1..], gone)
  }

  /** membersOf: a group's tabs, in strip order. */
  function Members(s: Strip, g: int): seq<int> {
    if s == [] then [] else (if s[0].group == g then [s[0].id] else []) + Members(s[1..], g)
  }

  function Minus(ids: seq<int>, gone: set<int>): seq<int> {
    if ids == [] then [] else (if ids[0] in gone then [] else [ids[0]]) + Minus(ids[1..], gone)
  }

  /** One past the last tab of the group; 0 when it has none. */
  function PastLast(s: Strip, g: int): (k: nat)
    ensures k <= |s|
  {
    if s == [] then 0
    else if s[|s| - 1].group == g then |s|
    else PastLast(s[..|s| - 1], g)
  }

  /** The browser takes a tab out and puts it right after the last of the group. */
  function Put(s: Strip, id: int, g: int): Strip {
    var r := Sub(s, {id});
    var k := PastLast(r, g);
    r[..k] + [Tab(id, g)] + r[k..]
  }

  function PutAll(s: Strip, ids: seq<int>, g: int): Strip
    decreases |ids|
  {
    if ids == [] then s else PutAll(Put(s, ids[0], g), ids[1..], g)
  }

  /** A new group forms where its first tab is. */
  function Form(s: Strip, id: int, g: int): Strip {
    if s == [] then [] else [if s[0].id == id then Tab(id, g) else s[0]] + Form(s[1..], id, g)
  }

  /** The tabs of `ids`, in strip order. */
  function InOrder(s: Strip, ids: set<int>): seq<int> {
    if s == [] then [] else (if s[0].id in ids then [s[0].id] else []) + InOrder(s[1..], ids)
  }

  /** chrome.tabs.group: into a group that is there, the tabs not in it yet, in
      the order given; into a new one, all of them, in strip order. */
  function Group(s: Strip, ids: seq<int>, g: int, isNew: bool): Strip {
    if !isNew then PutAll(s, Minus(ids, Set(Members(s, g))), g)
    else
      var sorted := InOrder(s, Set(ids));
      if sorted == [] then s else PutAll(Form(s, sorted[0], g), sorted[1..], g)
  }

  /* ---- the order inside a group ---- */

  /** The ids of `wanted` that are there, once each, in the order named. */
  function Named(current: seq<int>, wanted: seq<int>): seq<int>
    decreases |wanted|
  {
    if wanted == [] then []
    else
      var front, id := Named(current, wanted[..|wanted| - 1]), wanted[|wanted| - 1];
      if id in current && id !in front then front + [id] else front
  }

  /** planGroupOrder: the members not named, then the named ones. */
  function Order(current: seq<int>, wanted: seq<int>): seq<int> {
    var named := Named(current, wanted);
    Minus(current, Set(named)) + named
  }

  function InPlace(order: seq<int>, current: seq<int>): (k: nat)
    ensures k <= |order| && k <= |current| && order[..k] == current[..k]
  {
    if order == [] || current == [] || order[0] != current[0] then 0
    else
      var k := InPlace(order[1..], current[1..]);
      assert order[..k + 1] == [order[0]] + order[1..][..k] && current[..k + 1] == [current[0]] + current[1..][..k];
      k + 1
  }

  /** Everything after the longest leading run in place goes to the end, in order. */
  function Moves(current: seq<int>, wanted: seq<int>): seq<int> {
    var order := Order(current, wanted);
    order[InPlace(order, current)..]
  }

  /** groupTabs, on the strip of the tabs' window. */
  function GroupTabs(s: Strip, ids: seq<int>, g: int, isNew: bool): Strip {
    var t := Group(s, ids, g, isNew);
    PutAll(t, Moves(Members(t, g), ids), g)
  }

  /* ---- gathering ---- */

  /** Every window's strip, the groups titled exactly as asked, and the group the
      gather keeps. */
  datatype Browser = Browser(strips: map<int, Strip>, titled: set<int>, keep: Option<int>)

  function At(b: Browser, w: int): Strip { if w in b.strips then b.strips[w] else [] }

  /** The leftmost group of `titled` in a strip. */
  function Leftmost(s: Strip, titled: set<int>): Option<int> {
    if s == [] then None else if s[0].group in titled then Some(s[0].group) else Leftmost(s[1..], titled)
  }

  /** titledInHost: the strip's groups of `titled`, left to right. */
  function TitledIn(s: Strip, titled: set<int>): seq<int> {
    if s == [] then []
    else
      var front, t := TitledIn(s[..|s| - 1], titled), s[|s| - 1];
      if t.group in titled && t.group !in front then front + [t.group] else front
  }

  function Loose(ids: seq<int>): Strip { seq(|ids|, i requires 0 <= i < |ids| => Tab(ids[i], NONE)) }

  /** A window with no tabs left is closed by the browser. */
  function Leave(b: Browser, w: int, s: Strip): Browser {
    if s == [] then b.(strips := b.strips - {w}) else b.(strips := b.strips[w := s])
  }

  /** The window `w` left with `r`, closed when that is nothing, and the host
      with `h`. */
  function Between(b: Browser, w: int, r: Strip, host: int, h: Strip): Browser {
    var left := Leave(b, w, r);
    left.(strips := left.strips[host := h])
  }

  /** All of `ids` moved, before they are grouped. */
  function Detach(b: Browser, host: int, w: int, ids: seq<int>): Browser {
    Between(b, w, Sub(At(b, w), Set(ids)), host, At(b, host) + Loose(ids))
  }

  /** moveGroupTabsIn: the group's tabs to the end of the host, then grouped
      there; `made` is the id the browser would give a new group. */
  function MoveIn(b: Browser, host: int, made: int, w: int, g: int): Browser {
    var ids := Members(At(b, w), g);
    if ids == [] then b
    else
      var d := Detach(b, host, w, ids);
      var s := At(d, host);
      match Leftmost(s, b.titled)
      case Some(k) => d.(strips := d.strips[host := GroupTabs(s, ids, k, false)], keep := Some(k))
      case None => d.(strips := d.strips[host := GroupTabs(s, ids, made, true)], titled := b.titled + {made}, keep := Some(made))
  }

  /** The outside groups, as the browser lists them: (window, group). */
  function MoveAllIn(b: Browser, host: int, made: int, outs: seq<(int, int)>): Browser
    decreases |outs|
  {
    if outs == [] then b
    else MoveAllIn(MoveIn(b, host, made, outs[0].0, outs[0].1), host, made, outs[1..])
  }

  /** How many tabs a gather takes from other windows. */
  function MovedTabs(b: Browser, host: int, made: int, outs: seq<(int, int)>): nat
    decreases |outs|
  {
    if outs == [] then 0
    else |Members(At(b, outs[0].0), outs[0].1)| + MovedTabs(MoveIn(b, host, made, outs[0].0, outs[0].1), host, made, outs[1..])
  }

  /** The host's other groups of the title go into the kept one. */
  function Fold(s: Strip, keep: int, others: seq<int>): Strip
    decreases |others|
  {
    if others == [] then s else Fold(PutAll(s, Members(s, others[0]), keep), keep, others[1..])
  }

  function First(ids: seq<int>): Option<int> { if ids == [] then None else Some(ids[0]) }

  /** A gather starts by keeping the host's leftmost group of the title. */
  function Start(b: Browser, host: int): Browser { b.(keep := First(TitledIn(At(b, host), b.titled))) }

  function Gather(b: Browser, host: int, made: int, outs: seq<(int, int)>): Browser {
    var m := MoveAllIn(Start(b, host), host, made, outs);
    var here := TitledIn(At(m, host), m.titled);
    if here == [] then m
    else
      var keep := if m.keep.Some? && m.keep.value in here then m.keep.value else here[0];
      m.(strips := m.strips[host := Fold(At(m, host), keep, Minus(here, {keep}))], keep := Some(keep))
  }
}
