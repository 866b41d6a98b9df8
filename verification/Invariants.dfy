/** What holds in every state of every schedule. */
module Invariants {
  import opened Scope
  import opened Protocol
  import opened Machine

  // ---- only growth --------------------------------------------------------------------------

  ghost predicate Grown(t: Task, t': Task) {
    && t'.coro == t.coro && t'.isRun == t.isRun && t'.base == t.base && t'.token == t.token && t'.captured == t.captured
    && t.hist <= t'.hist
    && t.foot <= t'.foot
    && (t.result.Some? ==> t' == t)
  }

  /** Nothing is taken back: replies, recorded resources and results stay, and an ended task is frozen. */
  ghost predicate Extends(w: World, w': World) {
    && w'.order == w.order && w.tasks.Keys <= w'.tasks.Keys && w.accs.Keys <= w'.accs.Keys
    && (forall p {:trigger Grown(w.tasks[p], w'.tasks[p])} | p in w.tasks :: Grown(w.tasks[p], w'.tasks[p]))
    && (forall a {:trigger w'.accs[a]} | a in w.accs :: w.accs[a].deps <= w'.accs[a].deps)
  }

  // ---- the accumulator a task belongs to ----------------------------------------------------

  function Home(p: Path, t: Task): Option<Path> {
    if t.isRun then Some(p) else t.token
  }

  // ---- the scope a task has by its own steps alone --------------------------------------------

  function ScopeStep(p: Path, k: nat, a: Action, stack: seq<ScopeFrame>): seq<ScopeFrame> {
    match a
    case Build(name, Some(token), _) => stack + [OwnFrame(p, k, name, token)]
    case Close(frame) => CutAt(stack, frame)
    case _ => stack
  }

  /** Replays the actions a coroutine performed (they follow from its replies) on the stack it started with. */
  function Replay(P: Program, p: Path, coro: Coro, base: seq<ScopeFrame>, hist: seq<Val>): seq<ScopeFrame>
    decreases |hist|
  {
    if hist == [] then base
    else
      var h := hist[..|hist|-1];
      ScopeStep(p, |h|, P(coro, h), Replay(P, p, coro, base, h))
  }

  function ScopeAt(P: Program, p: Path, t: Task, k: nat): seq<ScopeFrame>
    requires k <= |t.hist|
  {
    Replay(P, p, t.coro, t.base, t.hist[..k])
  }

  // ---- replies and results that are justified -------------------------------------------------

  /** A resolve of this output gets through: it has resources and a known value. */
  predicate Usable(env: Env, w: World, o: OutRef) {
    match o
    case Leaf(l) => env(l).resources.Done? && env(l).value.Done? && !ContainsUnknowns(env(l).value.v)
                    && env(l).known == Done(true)
    case OfRun(q) => var r := RunResult(w, q);
                     r.Some? && r.value.Returned? && !ContainsUnknowns(r.value.v)
  }

  function UsedValue(env: Env, w: World, o: OutRef): Val
    requires Usable(env, w, o)
  {
    match o
    case Leaf(l) => env(l).value.v
    case OfRun(q) => RunResult(w, q).value.v
  }

  /** The resources behind this output are in `deps`: an engine output's own, an async_output's as they stood
      when it returned. */
  predicate Recorded(env: Env, w: World, o: OutRef, deps: set<Resource>, foot: set<Resource>) {
    match o
    case Leaf(l) => env(l).resources.Done? && env(l).resources.v <= deps && env(l).resources.v <= foot
    case OfRun(q) => var r := RunResult(w, q);
                     r.Some? && !r.value.Failed? && w.tasks[q].snap.deps <= deps && w.tasks[q].foot <= foot
  }

  ghost predicate AllRecorded(env: Env, w: World, p: Path, outs: seq<OutRef>)
    requires p in w.tasks
  {
    var home := Home(p, w.tasks[p]);
    && outs != [] && home.Some? && home.value in w.accs
    && forall i | 0 <= i < |outs| :: Recorded(env, w, outs[i], w.accs[home.value].deps, w.tasks[p].foot)
  }

  ghost predicate ResolveReply(env: Env, w: World, p: Path, outs: seq<OutRef>, v: Val)
    requires p in w.tasks
  {
    && AllRecorded(env, w, p, outs)
    && (forall i | 0 <= i < |outs| :: Usable(env, w, outs[i]))
    && v == Pack(seq(|outs|, i requires 0 <= i < |outs| => UsedValue(env, w, outs[i])))
  }

  ghost predicate JoinReply(w: World, p: Path, children: seq<nat>, v: Val)
    requires p in w.tasks
  {
    && (forall i | 0 <= i < |children| :: ChildReturned(w, p, children[i])
                                          && w.tasks[p + [children[i]]].foot <= w.tasks[p].foot)
    && v == Tuple(ChildValues(w, p, children))
  }

  ghost predicate GoodReply(P: Program, env: Env, w: World, p: Path, k: nat)
    requires p in w.tasks && k < |w.tasks[p].hist|
  {
    var t := w.tasks[p];
    match P(t.coro, t.hist[..k])
    case Resolve(outs) => ResolveReply(env, w, p, outs, t.hist[k])
    case Spawn(_) => t.hist[k] == Ref(p + [k]) && p + [k] in w.tasks
    case Open(_) => t.hist[k] == Ref(p + [k]) && p + [k] in w.tasks
    case Join(children) => JoinReply(w, p, children, t.hist[k])
    case Declare(parented) => Refusal(ScopeAt(P, p, t, k), parented).None? && t.hist[k] == Nothing
    case Build(name, token, parented) =>
      Refusal(ScopeAt(P, p, t, k), parented).None? && token.Some? && t.hist[k] == Entry(OwnFrame(p, k, name, token.value))
    case Close(_) => t.hist[k] == Nothing
    case Return(_) => false
    case Raise => false
  }

  predicate MakesUnknown(env: Env, w: World, o: OutRef) {
    var v := ValueOf(env, w, o);
    (v.Done? && ContainsUnknowns(v.v)) || KnownOf(env, w, o) == Done(false)
  }

  predicate SomeBroken(env: Env, w: World, o: OutRef) {
    ResourcesOf(env, w, o).Broken? || SecretOf(env, w, o).Broken? || ValueOf(env, w, o).Broken? || KnownOf(env, w, o).Broken?
  }

  ghost predicate AbortCause(env: Env, w: World, p: Path, a: Action)
    requires p in w.tasks
  {
    match a
    case Resolve(outs) => AllRecorded(env, w, p, outs) && exists i | 0 <= i < |outs| :: MakesUnknown(env, w, outs[i])
    case Join(children) => exists i | 0 <= i < |children| :: ChildResult(w, p, children[i]) == Some(Aborted)
    case _ => false
  }

  ghost predicate FailCause(env: Env, w: World, p: Path, a: Action, stack: seq<ScopeFrame>)
    requires p in w.tasks
  {
    match a
    case Resolve(outs) => outs == [] || Home(p, w.tasks[p]).None? || exists i | 0 <= i < |outs| :: SomeBroken(env, w, outs[i])
    case Join(children) => exists i | 0 <= i < |children| :: ChildResult(w, p, children[i]) == Some(Failed)
    case Declare(parented) => Refusal(stack, parented).Some?
    case Build(_, token, parented) => token.None? || Refusal(stack, parented).Some?
    case Raise => true
    case _ => false
  }

  ghost predicate GoodResult(P: Program, env: Env, w: World, p: Path)
    requires p in w.tasks
  {
    var t := w.tasks[p];
    var a := P(t.coro, t.hist);
    t.result.Some? ==>
      match t.result.value
      case Returned(v) => a == Return(v)
      case Aborted => AbortCause(env, w, p, a)
      case Failed => FailCause(env, w, p, a, ScopeAt(P, p, t, |t.hist|))
  }

  ghost predicate GoodPhase(P: Program, env: Env, w: World, p: Path)
    requires p in w.tasks
  {
    var t := w.tasks[p];
    var a := P(t.coro, t.hist);
    && (!t.phase.Ready? ==> a.Resolve?)
    && (t.phase.AwaitSecrets? || t.phase.AwaitValues? || t.phase.AwaitKnown? ==> AllRecorded(env, w, p, a.outs))
    && (t.phase.AwaitKnown? ==>
          && |t.phase.values| == |a.outs|
          && forall i | 0 <= i < |a.outs| :: ValueOf(env, w, a.outs[i]) == Done(t.phase.values[i])
                                             && !ContainsUnknowns(t.phase.values[i]))
  }

  /** The outputs task p resolves at position k. */
  function Outs(P: Program, w: World, p: Path, k: nat): seq<OutRef>
    requires p in w.tasks && k <= |w.tasks[p].hist| && P(w.tasks[p].coro, w.tasks[p].hist[..k]).Resolve?
  {
    P(w.tasks[p].coro, w.tasks[p].hist[..k]).outs
  }

  predicate ReturnedIn(w: World, p: Path) {
    p in w.tasks && w.tasks[p].result.Some? && w.tasks[p].result.value.Returned?
  }

  // ---- links: where a task came from ------------------------------------------------------------

  function Parent(q: Path): Path requires q != [] { q[..|q|-1] }
  function Place(q: Path): nat requires q != [] { q[|q|-1] }

  function ForkAction(coro: Coro, isRun: bool): Action {
    if isRun then Open(coro) else Spawn(coro)
  }

  ghost predicate Linked(P: Program, w: World, q: Path)
    requires q in w.tasks
  {
    var t := w.tasks[q];
    if q == [] then !t.isRun && t.token == None && t.base == []
    else
      && Parent(q) in w.tasks
      && var u := w.tasks[Parent(q)];
         && Place(q) < |u.hist|
         && P(u.coro, u.hist[..Place(q)]) == ForkAction(t.coro, t.isRun)
         && t.token == Home(Parent(q), u)
         && t.base == ScopeAt(P, Parent(q), u, Place(q))
  }

  ghost predicate GoodContext(P: Program, w: World, p: Path)
    requires p in w.tasks
  {
    var t := w.tasks[p];
    && t.ctx.acc == (if t.isRun && t.result.None? then Some(p) else t.token)
    && t.ctx.stack == ScopeAt(P, p, t, |t.hist|)
    && (Home(p, t).Some? ==> Home(p, t).value in w.accs)
    && (p in w.accs <==> t.isRun)
    && (t.isRun && t.result.Some? ==> t.snap.deps <= w.accs[p].deps)
  }

  ghost predicate GoodTask(P: Program, env: Env, w: World, p: Path)
    requires p in w.tasks
  {
    && Linked(P, w, p) && GoodContext(P, w, p)
    && (forall k | 0 <= k < |w.tasks[p].hist| :: GoodReply(P, env, w, p, k))
    && GoodPhase(P, env, w, p) && GoodResult(P, env, w, p)
  }

  ghost predicate Inv(P: Program, env: Env, w: World) {
    && [] in w.tasks
    && w.accs.Keys <= w.tasks.Keys
    && (forall p {:trigger GoodTask(P, env, w, p)} | p in w.tasks :: GoodTask(P, env, w, p))
  }

  // ---- stability ------------------------------------------------------------------------------

  lemma UsableStable(env: Env, w: World, w': World, o: OutRef)
    requires Extends(w, w') && Usable(env, w, o)
    ensures Usable(env, w', o) && UsedValue(env, w', o) == UsedValue(env, w, o)
  {
    match o
    case Leaf(_) =>
    case OfRun(q) => assert Grown(w.tasks[q], w'.tasks[q]);
  }

  lemma RecordedStable(env: Env, w: World, w': World, p: Path, outs: seq<OutRef>)
    requires Extends(w, w') && p in w.tasks && AllRecorded(env, w, p, outs)
    ensures AllRecorded(env, w', p, outs)
  {
    assert Grown(w.tasks[p], w'.tasks[p]);
    var home := Home(p, w.tasks[p]).value;
    forall i | 0 <= i < |outs|
      ensures Recorded(env, w', outs[i], w'.accs[home].deps, w'.tasks[p].foot)
    {
      assert Recorded(env, w, outs[i], w.accs[home].deps, w.tasks[p].foot);
      if outs[i].OfRun? {
        assert Grown(w.tasks[outs[i].run], w'.tasks[outs[i].run]);
      }
    }
  }

  lemma ResolveReplyStable(env: Env, w: World, w': World, p: Path, outs: seq<OutRef>, v: Val)
    requires Extends(w, w') && p in w.tasks && ResolveReply(env, w, p, outs, v)
    ensures p in w'.tasks && ResolveReply(env, w', p, outs, v)
  {
    RecordedStable(env, w, w', p, outs);
    forall i | 0 <= i < |outs|
      ensures Usable(env, w', outs[i]) && UsedValue(env, w', outs[i]) == UsedValue(env, w, outs[i])
    {
      UsableStable(env, w, w', outs[i]);
    }
    assert seq(|outs|, i requires 0 <= i < |outs| => UsedValue(env, w, outs[i]))
        == seq(|outs|, i requires 0 <= i < |outs| => UsedValue(env, w', outs[i]));
  }

  lemma ChildStable(w: World, w': World, p: Path, c: nat)
    requires Extends(w, w') && ChildResult(w, p, c).Some?
    ensures p + [c] in w'.tasks && w'.tasks[p + [c]] == w.tasks[p + [c]]
    ensures ChildResult(w', p, c) == ChildResult(w, p, c)
  {
    assert Grown(w.tasks[p + [c]], w'.tasks[p + [c]]);
  }

  lemma JoinReplyStable(w: World, w': World, p: Path, children: seq<nat>, v: Val)
    requires Extends(w, w') && p in w.tasks && JoinReply(w, p, children, v)
    ensures p in w'.tasks && JoinReply(w', p, children, v)
  {
    assert Grown(w.tasks[p], w'.tasks[p]);
    forall i | 0 <= i < |children|
      ensures ChildReturned(w', p, children[i]) && w'.tasks[p + [children[i]]].foot <= w'.tasks[p].foot
      ensures ChildResult(w', p, children[i]) == ChildResult(w, p, children[i])
    {
      assert ChildReturned(w, p, children[i]);
      ChildStable(w, w', p, children[i]);
    }
    assert ChildValues(w', p, children) == ChildValues(w, p, children);
  }

  lemma ReplyStable(P: Program, env: Env, w: World, w': World, p: Path, k: nat)
    requires Extends(w, w') && p in w.tasks && k < |w.tasks[p].hist| && GoodReply(P, env, w, p, k)
    ensures p in w'.tasks && k < |w'.tasks[p].hist| && GoodReply(P, env, w', p, k)
  {
    var t, t' := w.tasks[p], w'.tasks[p];
    assert Grown(t, t');
    assert t'.hist[..k] == t.hist[..k];
    match P(t.coro, t.hist[..k])
    case Resolve(outs) => ResolveReplyStable(env, w, w', p, outs, t.hist[k]);
    case Join(children) => JoinReplyStable(w, w', p, children, t.hist[k]);
    case _ =>
  }

  /** A finished run's futures never change; its resources only grow. */
  lemma FuturesStable(env: Env, w: World, w': World, o: OutRef)
    requires Extends(w, w')
    ensures !SecretOf(env, w, o).Pending? ==> SecretOf(env, w', o) == SecretOf(env, w, o)
    ensures !ValueOf(env, w, o).Pending? ==> ValueOf(env, w', o) == ValueOf(env, w, o)
    ensures !KnownOf(env, w, o).Pending? ==> KnownOf(env, w', o) == KnownOf(env, w, o)
    ensures ResourcesOf(env, w, o).Broken? ==> ResourcesOf(env, w', o).Broken?
    ensures ResourcesOf(env, w, o).Done? ==>
              ResourcesOf(env, w', o).Done? && ResourcesOf(env, w, o).v <= ResourcesOf(env, w', o).v
  {
    if o.OfRun? && RunResult(w, o.run).Some? {
      assert Grown(w.tasks[o.run], w'.tasks[o.run]);
    }
  }

  lemma PhaseStable(P: Program, env: Env, w: World, w': World, p: Path)
    requires Extends(w, w') && p in w.tasks && GoodPhase(P, env, w, p)
    requires w'.tasks[p].phase == w.tasks[p].phase && w'.tasks[p].hist == w.tasks[p].hist
    ensures GoodPhase(P, env, w', p)
  {
    var t := w.tasks[p];
    assert Grown(t, w'.tasks[p]);
    var a := P(t.coro, t.hist);
    if t.phase.AwaitSecrets? || t.phase.AwaitValues? || t.phase.AwaitKnown? {
      RecordedStable(env, w, w', p, a.outs);
    }
    if t.phase.AwaitKnown? {
      forall i | 0 <= i < |a.outs|
        ensures ValueOf(env, w', a.outs[i]) == Done(t.phase.values[i])
      {
        FuturesStable(env, w, w', a.outs[i]);
      }
    }
  }

  lemma AbortStable(env: Env, w: World, w': World, p: Path, a: Action)
    requires Extends(w, w') && p in w.tasks && AbortCause(env, w, p, a)
    ensures p in w'.tasks && AbortCause(env, w', p, a)
  {
    match a
    case Resolve(outs) =>
      RecordedStable(env, w, w', p, outs);
      var i :| 0 <= i < |outs| && MakesUnknown(env, w, outs[i]);
      FuturesStable(env, w, w', outs[i]);
      assert MakesUnknown(env, w', outs[i]);
    case Join(children) =>
      var i :| 0 <= i < |children| && ChildResult(w, p, children[i]) == Some(Aborted);
      ChildStable(w, w', p, children[i]);
  }

  lemma FailStable(env: Env, w: World, w': World, p: Path, a: Action, stack: seq<ScopeFrame>)
    requires Extends(w, w') && p in w.tasks && FailCause(env, w, p, a, stack)
    ensures p in w'.tasks && FailCause(env, w', p, a, stack)
  {
    assert Grown(w.tasks[p], w'.tasks[p]);
    match a
    case Resolve(outs) =>
      if outs != [] && Home(p, w.tasks[p]).Some? {
        var i :| 0 <= i < |outs| && SomeBroken(env, w, outs[i]);
        FuturesStable(env, w, w', outs[i]);
        assert SomeBroken(env, w', outs[i]);
      }
    case Join(children) =>
      var i :| 0 <= i < |children| && ChildResult(w, p, children[i]) == Some(Failed);
      ChildStable(w, w', p, children[i]);
    case _ =>
  }

  lemma LinkStable(P: Program, w: World, w': World, q: Path)
    requires Extends(w, w') && q in w.tasks && Linked(P, w, q)
    ensures q in w'.tasks && Linked(P, w', q)
  {
    assert Grown(w.tasks[q], w'.tasks[q]);
    if q != [] {
      var u, u' := w.tasks[Parent(q)], w'.tasks[Parent(q)];
      assert Grown(u, u');
      assert u'.hist[..Place(q)] == u.hist[..Place(q)];
    }
  }

  /** A task the step did not touch stays good. */
  lemma TaskStable(P: Program, env: Env, w: World, w': World, p: Path)
    requires Extends(w, w') && p in w.tasks && GoodTask(P, env, w, p)
    requires p in w'.tasks && w'.tasks[p] == w.tasks[p]
    requires p in w'.accs ==> p in w.accs
    ensures GoodTask(P, env, w', p)
  {
    LinkStable(P, w, w', p);
    forall k | 0 <= k < |w.tasks[p].hist| ensures GoodReply(P, env, w', p, k) {
      ReplyStable(P, env, w, w', p, k);
    }
    PhaseStable(P, env, w, w', p);
    var t := w.tasks[p];
    if t.result == Some(Aborted) {
      AbortStable(env, w, w', p, P(t.coro, t.hist));
    } else if t.result == Some(Failed) {
      FailStable(env, w, w', p, P(t.coro, t.hist), ScopeAt(P, p, t, |t.hist|));
    }
  }
}
