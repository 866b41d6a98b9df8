/** Which resources the backstop reaches: installation, and inheritance of stack transformations. */
module Backstop {
  import opened Scope

  type Id = nat

  /** How many copies of the backstop each resource carries, each run once when the resource is registered. */
  datatype Sdk = Sdk(root: Option<Id>, installedOn: set<Id>, carries: map<Id, nat>)

  const FRESH_SDK := Sdk(None, {}, map[])

  datatype Event =
    | NewRoot(id: Id)                          // a program (or a test) starts with a root of its own
    | Install
    | Declare(id: Id, parent: Option<Id>)      // any resource constructor

  /** `install_parent_backstop`: an error without a root, nothing the second time on the same one. */
  function Installed(s: Sdk): Sdk {
    if s.root.None? || s.root.value in s.installedOn || s.root.value !in s.carries then s
    else s.(installedOn := s.installedOn + {s.root.value},
            carries := s.carries[s.root.value := s.carries[s.root.value] + 1])
  }

  /** The resource a declaration inherits from: the parent it names, or the root. */
  function Above(s: Sdk, parent: Option<Id>): Option<Id> {
    if parent.Some? then parent else s.root
  }

  function After(s: Sdk, e: Event): Sdk {
    match e
    case NewRoot(id) => s.(root := Some(id), carries := s.carries[id := 0])
    case Install => Installed(s)
    case Declare(id, parent) =>
      var up := Above(s, parent);
      s.(carries := s.carries[id := if up.Some? && up.value in s.carries then s.carries[up.value] else 0])
  }

  /** Identities are new; a parent named has been declared. */
  predicate Sensible(s: Sdk, e: Event) {
    match e
    case NewRoot(id) => id !in s.carries && id !in s.installedOn
    case Install => true
    case Declare(id, parent) => id !in s.carries && id !in s.installedOn && (parent.Some? ==> parent.value in s.carries)
  }

  function Reached(events: seq<Event>): Sdk
    decreases |events|
  {
    if events == [] then FRESH_SDK else After(Reached(events[..|events|-1]), events[|events|-1])
  }

  ghost predicate History(events: seq<Event>) {
    forall n {:trigger events[n]} | 0 <= n < |events| :: Sensible(Reached(events[..n]), events[n])
  }

  // ---- the chronicle: what happened when, kept without looking at transformations ----------------------------

  /** When each resource was built and each root first installed on; for a resource under a root, that root and
      the topmost of its ancestors below it (itself, if it is directly under the root). */
  datatype Chronicle = Chronicle(now: nat, root: Option<Id>, roots: set<Id>, born: map<Id, nat>, first: map<Id, nat>,
                                 rootOf: map<Id, Id>, top: map<Id, Id>)

  const EMPTY := Chronicle(0, None, {}, map[], map[], map[], map[])

  function Noted(c: Chronicle, e: Event): Chronicle {
    var later := c.(now := c.now + 1);
    match e
    case NewRoot(id) => later.(root := Some(id), roots := c.roots + {id}, born := c.born[id := c.now])
    case Install =>
      if c.root.None? || c.root.value in c.first then later else later.(first := c.first[c.root.value := c.now])
    case Declare(id, parent) =>
      var built := later.(born := c.born[id := c.now]);
      var up := if parent.Some? then parent else c.root;
      if up.None? then built
      else if up.value in c.roots then built.(rootOf := c.rootOf[id := up.value], top := c.top[id := id])
      else if up.value in c.rootOf && up.value in c.top then
        built.(rootOf := c.rootOf[id := c.rootOf[up.value]], top := c.top[id := c.top[up.value]])
      else built
  }

  function Told(events: seq<Event>): Chronicle
    decreases |events|
  {
    if events == [] then EMPTY else Noted(Told(events[..|events|-1]), events[|events|-1])
  }

  ghost predicate Covered(s: Sdk, c: Chronicle, id: Id)
    requires id in s.carries
  {
    if id in c.roots then id !in c.rootOf && s.carries[id] == (if id in c.first then 1 else 0)
    else if id in c.rootOf then
      && id in c.top && c.top[id] in c.born && c.born[c.top[id]] < c.now && c.rootOf[id] in c.roots
      && s.carries[id] == (if c.rootOf[id] in c.first && c.first[c.rootOf[id]] < c.born[c.top[id]] then 1 else 0)
    else s.carries[id] == 0
  }

  ghost predicate Matches(s: Sdk, c: Chronicle) {
    && s.root == c.root && s.installedOn == c.first.Keys && s.carries.Keys == c.born.Keys
    && c.roots <= s.carries.Keys && c.rootOf.Keys <= s.carries.Keys && c.first.Keys <= c.roots
    && (c.root.Some? ==> c.root.value in c.roots)
    && (forall r | r in c.first :: c.first[r] < c.now)
    && (forall id {:trigger Covered(s, c, id)} | id in s.carries :: Covered(s, c, id))
  }

  lemma RootMatches(s: Sdk, c: Chronicle, id: Id)
    requires Matches(s, c) && Sensible(s, NewRoot(id))
    ensures Matches(After(s, NewRoot(id)), Noted(c, NewRoot(id)))
  {
    var s', c' := After(s, NewRoot(id)), Noted(c, NewRoot(id));
    forall r | r in s'.carries ensures Covered(s', c', r) {
      if r != id { assert Covered(s, c, r); }
    }
  }

  lemma InstallCovers(s: Sdk, c: Chronicle, r: Id)
    requires Matches(s, c) && r in s.carries
    ensures r in After(s, Install).carries && Covered(After(s, Install), Noted(c, Install), r)
  {
    assert Covered(s, c, r);
  }

  lemma InstallMatches(s: Sdk, c: Chronicle)
    requires Matches(s, c)
    ensures Matches(After(s, Install), Noted(c, Install))
  {
    var s', c' := After(s, Install), Noted(c, Install);
    forall r | r in s'.carries ensures Covered(s', c', r) {
      InstallCovers(s, c, r);
    }
  }

  lemma DeclaredCovered(s: Sdk, c: Chronicle, id: Id, parent: Option<Id>)
    requires Matches(s, c) && Sensible(s, Declare(id, parent))
    ensures Covered(After(s, Declare(id, parent)), Noted(c, Declare(id, parent)), id)
  {
    var up := Above(s, parent);
    if up.Some? {
      assert Covered(s, c, up.value);
    }
  }

  lemma OthersCovered(s: Sdk, c: Chronicle, id: Id, parent: Option<Id>, r: Id)
    requires Matches(s, c) && Sensible(s, Declare(id, parent)) && r in s.carries
    ensures Covered(After(s, Declare(id, parent)), Noted(c, Declare(id, parent)), r)
  {
    assert Covered(s, c, r);
  }

  lemma DeclareMatches(s: Sdk, c: Chronicle, id: Id, parent: Option<Id>)
    requires Matches(s, c) && Sensible(s, Declare(id, parent))
    ensures Matches(After(s, Declare(id, parent)), Noted(c, Declare(id, parent)))
  {
    var s', c' := After(s, Declare(id, parent)), Noted(c, Declare(id, parent));
    forall r | r in s'.carries ensures Covered(s', c', r) {
      if r == id {
        DeclaredCovered(s, c, id, parent);
      } else {
        OthersCovered(s, c, id, parent, r);
      }
    }
  }

  lemma AfterMatches(s: Sdk, c: Chronicle, e: Event)
    requires Matches(s, c) && Sensible(s, e)
    ensures Matches(After(s, e), Noted(c, e))
  {
    match e
    case NewRoot(id) => RootMatches(s, c, id);
    case Install => InstallMatches(s, c);
    case Declare(id, parent) => DeclareMatches(s, c, id, parent);
  }

  lemma {:induction false} HistoryMatches(events: seq<Event>)
    requires History(events)
    ensures Matches(Reached(events), Told(events))
    decreases |events|
  {
    if events == [] {
    } else {
      var before := events[..|events|-1];
      forall n | 0 <= n < |before| ensures Sensible(Reached(before[..n]), before[n]) {
        assert before[..n] == events[..n] && before[n] == events[n];
      }
      HistoryMatches(before);
      assert Sensible(Reached(before), events[|events|-1]);
      AfterMatches(Reached(before), Told(before), events[|events|-1]);
    }
  }

  /** Over any sequence of installs, root changes and declarations: a root carries the backstop once if it was ever
      installed on and never more; a resource under a root carries it -- once -- exactly if its topmost ancestor
      below the root was built after the first install on that root; nothing else carries it. */
  lemma {:induction false} CoveredIffBuiltAfterInstall(events: seq<Event>, id: Id)
    requires History(events) && id in Reached(events).carries
    ensures var c := Told(events);
      Reached(events).carries[id] ==
        if id in c.roots then (if id in c.first then 1 else 0)
        else if id in c.rootOf && id in c.top && c.top[id] in c.born && c.rootOf[id] in c.first
                && c.first[c.rootOf[id]] < c.born[c.top[id]] then 1 else 0
  {
    HistoryMatches(events);
    assert Covered(Reached(events), Told(events), id);
  }

  /** So an unparented declaration made once the current root has been installed on is checked exactly once. */
  lemma {:induction false} UnparentedCheckedOnce(events: seq<Event>, id: Id)
    requires History(events + [Declare(id, None)])
    requires Reached(events).root.Some? && Reached(events).root.value in Reached(events).installedOn
    ensures id in Reached(events + [Declare(id, None)]).carries && Reached(events + [Declare(id, None)]).carries[id] == 1
  {
    var all := events + [Declare(id, None)];
    assert all[..|all|-1] == events;
    forall n | 0 <= n < |events| ensures Sensible(Reached(events[..n]), events[n]) {
      assert all[..n] == events[..n] && all[n] == events[n];
    }
    HistoryMatches(events);
    assert Covered(Reached(events), Told(events), Reached(events).root.value);
  }

  // ---- the mutable form ------------------------------------------------------------------------------------

  class Runtime {
    var root: Option<Id>
    var installedOn: set<Id>
    var carries: map<Id, nat>

    ghost function View(): Sdk
      reads this
    {
      Sdk(root, installedOn, carries)
    }

    constructor ()
      ensures View() == FRESH_SDK
    {
      root, installedOn, carries := None, {}, map[];
    }

    /** `install_parent_backstop`: fails outside a running program, where there is no root resource. */
    method InstallParentBackstop() returns (ok: bool)
      requires root.Some? ==> root.value in carries
      modifies this
      ensures ok == old(root).Some?
      ensures View() == After(old(View()), Install)
    {
      if root.None? {
        return false;
      }
      if root.value in installedOn {
        return true;
      }
      installedOn := installedOn + {root.value};
      carries := carries[root.value := carries[root.value] + 1];   // register_stack_transformation
      return true;
    }
  }
}
