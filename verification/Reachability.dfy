/** Every step keeps the invariant, so it holds in every state every schedule reaches. */
module Reachability {
  import opened Scope
  import opened Protocol
  import opened Machine
  import opened Invariants

  lemma LinkOf(P: Program, env: Env, w: World, q: Path)
    requires Inv(P, env, w) && q in w.tasks
    ensures Linked(P, w, q)
  {
    assert GoodTask(P, env, w, q);
  }

  lemma ForkIsFresh(P: Program, env: Env, w: World, p: Path)
    requires Inv(P, env, w) && p in w.tasks
    ensures p + [|w.tasks[p].hist|] !in w.tasks && p + [|w.tasks[p].hist|] !in w.accs
  {
    var c := p + [|w.tasks[p].hist|];
    if c in w.tasks {
      LinkOf(P, env, w, c);
      assert false;
    }
  }

  lemma HomeOfLive(P: Program, env: Env, w: World, p: Path)
    requires Inv(P, env, w) && Live(w, p)
    ensures w.tasks[p].ctx.acc == Home(p, w.tasks[p])
    ensures w.tasks[p].ctx.acc.Some? ==> w.tasks[p].ctx.acc.value in w.accs
    ensures w.tasks[p].ctx.stack == ScopeAt(P, p, w.tasks[p], |w.tasks[p].hist|)
  {
    assert GoodTask(P, env, w, p);
  }

  lemma NoReplyToReturn(P: Program, env: Env, w: World, p: Path, k: nat)
    requires Inv(P, env, w) && p in w.tasks && k < |w.tasks[p].hist|
    ensures !P(w.tasks[p].coro, w.tasks[p].hist[..k]).Return?
  {
    assert GoodTask(P, env, w, p) && GoodReply(P, env, w, p, k);
  }

  /** The awaits of a resolve in order. */
  function Rank(phase: Phase): nat {
    match phase
    case Ready => 0
    case AwaitResources => 1
    case AwaitSecrets => 2
    case AwaitValues => 3
    case AwaitKnown(_) => 4
  }

  lemma EffectGrows(P: Program, env: Env, w: World, p: Path, pick: nat)
    requires Inv(P, env, w) && Live(w, p)
    ensures var e, t := EffectOf(P, env, w, p, pick), w.tasks[p];
      && (e.Suspend? ==> P(t.coro, t.hist).Resolve? && t.ctx.acc.Some? && t.ctx.acc.value in w.accs
                         && w.accs[t.ctx.acc.value].deps <= e.acc.deps && t.foot <= e.foot)
      && (e.Suspend? ==> Rank(t.phase) < Rank(e.phase))
      && (e.Reply? ==> t.foot <= e.foot)
  {
  }

  lemma ApplyExtends(w: World, p: Path, e: Effect)
    requires Live(w, p) && p + [|w.tasks[p].hist|] !in w.tasks && p + [|w.tasks[p].hist|] !in w.accs
    requires e.Suspend? ==> w.tasks[p].ctx.acc.Some? && w.tasks[p].ctx.acc.value in w.accs
                            && w.accs[w.tasks[p].ctx.acc.value].deps <= e.acc.deps && w.tasks[p].foot <= e.foot
    requires e.Reply? ==> w.tasks[p].foot <= e.foot
    ensures Extends(w, Apply(w, p, e))
  {
  }

  lemma StepExtends(P: Program, env: Env, w: World, m: Move)
    requires Inv(P, env, w)
    ensures Extends(w, Step(P, env, w, m))
  {
    if Live(w, m.path) {
      EffectGrows(P, env, w, m.path, m.pick);
      ForkIsFresh(P, env, w, m.path);
      ApplyExtends(w, m.path, EffectOf(P, env, w, m.path, m.pick));
    } else {
      assert forall q | q in w.tasks :: Grown(w.tasks[q], w.tasks[q]);
    }
  }

  /** The one-step facts every case below starts from. */
  ghost predicate Stepped(P: Program, env: Env, w: World, p: Path, pick: nat, e: Effect, w': World) {
    && Inv(P, env, w) && Live(w, p)
    && e == EffectOf(P, env, w, p, pick)
    && w' == Apply(w, p, e)
    && Extends(w, w')
  }

  lemma OldRepliesKept(P: Program, env: Env, w: World, w': World, p: Path)
    requires Inv(P, env, w) && Extends(w, w') && p in w.tasks
    ensures p in w'.tasks && |w.tasks[p].hist| <= |w'.tasks[p].hist|
    ensures forall k | 0 <= k < |w.tasks[p].hist| :: GoodReply(P, env, w', p, k)
  {
    assert Grown(w.tasks[p], w'.tasks[p]);
    assert GoodTask(P, env, w, p);
    forall k | 0 <= k < |w.tasks[p].hist| ensures GoodReply(P, env, w', p, k) {
      ReplyStable(P, env, w, w', p, k);
    }
  }

  lemma RecordsResources(P: Program, env: Env, w: World, p: Path, outs: seq<OutRef>, rs: seq<set<Resource>>, o: OutRef, i: nat)
    requires Inv(P, env, w) && Live(w, p) && i < |outs| == |rs| && o == outs[i]
    requires ResourcesOf(env, w, o) == Done(rs[i])
    ensures Recorded(env, w, o, Union(rs), Union(Feet(env, w, outs)))
  {
    assert Feet(env, w, outs)[i] == FootOf(env, w, o);
    if o.OfRun? {
      assert GoodTask(P, env, w, o.run);
    }
  }

  lemma SuspendKeeps(P: Program, env: Env, w: World, p: Path, pick: nat, e: Effect, w': World)
    requires Stepped(P, env, w, p, pick, e, w') && e.Suspend?
    ensures GoodTask(P, env, w', p)
  {
    var t := w.tasks[p];
    HomeOfLive(P, env, w, p);
    assert GoodTask(P, env, w, p);
    LinkStable(P, w, w', p);
    OldRepliesKept(P, env, w, w', p);
    var outs := P(t.coro, t.hist).outs;
    var a := t.ctx.acc.value;
    assert GoodPhase(P, env, w', p) by {
      match t.phase
      case Ready =>
      case AwaitResources =>
        var rs := Gathered(Each(outs, o => ResourcesOf(env, w, o)));
        forall i | 0 <= i < |outs| ensures Recorded(env, w', outs[i], w'.accs[a].deps, w'.tasks[p].foot) {
          RecordsResources(P, env, w, p, outs, rs, outs[i], i);
          if outs[i].OfRun? { assert Grown(w.tasks[outs[i].run], w'.tasks[outs[i].run]); }
        }
      case AwaitSecrets => RecordedStable(env, w, w', p, outs);
      case AwaitValues =>
        RecordedStable(env, w, w', p, outs);
        var vs := Gathered(Each(outs, o => ValueOf(env, w, o)));
        assert e.phase == AwaitKnown(vs);
        forall i | 0 <= i < |outs|
          ensures ValueOf(env, w', outs[i]) == Done(vs[i]) && !ContainsUnknowns(vs[i])
        {
          FuturesStable(env, w, w', outs[i]);
          assert Tuple(vs).items[i] == vs[i];
        }
      case AwaitKnown(_) =>
    }
  }

  lemma ResolveAnswered(P: Program, env: Env, w: World, p: Path, pick: nat, outs: seq<OutRef>)
    requires Inv(P, env, w) && Live(w, p)
    requires P(w.tasks[p].coro, w.tasks[p].hist) == Resolve(outs) && EffectOf(P, env, w, p, pick).Reply?
    ensures ResolveReply(env, w, p, outs, EffectOf(P, env, w, p, pick).v)
  {
    var t := w.tasks[p];
    HomeOfLive(P, env, w, p);
    assert GoodTask(P, env, w, p);
    var vs := t.phase.values;
    var ks := Gathered(Each(outs, o => KnownOf(env, w, o)));
    assert All(ks);
    forall i | 0 <= i < |outs| ensures Usable(env, w, outs[i]) && UsedValue(env, w, outs[i]) == vs[i] {
      assert Recorded(env, w, outs[i], w.accs[t.ctx.acc.value].deps, t.foot);
      assert KnownOf(env, w, outs[i]) == Done(ks[i]) && ks[i];
      assert ValueOf(env, w, outs[i]) == Done(vs[i]);
    }
    assert vs == seq(|outs|, i requires 0 <= i < |outs| => UsedValue(env, w, outs[i]));
  }

  lemma JoinAnswered(P: Program, env: Env, w: World, p: Path, pick: nat, e: Effect, w': World, children: seq<nat>)
    requires Stepped(P, env, w, p, pick, e, w') && e.Reply?
    requires P(w.tasks[p].coro, w.tasks[p].hist) == Join(children)
    ensures JoinReply(w', p, children, e.v)
  {
  }

  lemma NewReply(P: Program, env: Env, w: World, p: Path, pick: nat, e: Effect, w': World)
    requires Stepped(P, env, w, p, pick, e, w') && (e.Reply? || e.Fork?)
    ensures |w'.tasks[p].hist| == |w.tasks[p].hist| + 1 && w'.tasks[p].hist[..|w.tasks[p].hist|] == w.tasks[p].hist
    ensures GoodReply(P, env, w', p, |w.tasks[p].hist|)
  {
    var t, t' := w.tasks[p], w'.tasks[p];
    var k := |t.hist|;
    HomeOfLive(P, env, w, p);
    assert p != p + [k];
    assert t'.hist[..k] == t.hist == t.hist[..k];
    match P(t.coro, t.hist)
    case Resolve(outs) =>
      ResolveAnswered(P, env, w, p, pick, outs);
      ResolveReplyStable(env, w, w', p, outs, e.v);
    case Join(children) => JoinAnswered(P, env, w, p, pick, e, w', children);
    case _ =>
  }

  lemma ReplyContext(P: Program, env: Env, w: World, p: Path, pick: nat, e: Effect, w': World)
    requires Stepped(P, env, w, p, pick, e, w') && (e.Reply? || e.Fork?)
    ensures GoodContext(P, w', p)
  {
    var t, t' := w.tasks[p], w'.tasks[p];
    HomeOfLive(P, env, w, p);
    assert GoodTask(P, env, w, p);
    var h := t'.hist[..|t'.hist|];
    assert h == t'.hist && h[..|h|-1] == t.hist && t.hist[..|t.hist|] == t.hist;
    assert p != p + [|t.hist|];
  }

  /** Between two actions, and not ended: a fork is no action of a task inside a resolve. */
  lemma ReplyReady(P: Program, env: Env, w: World, p: Path, pick: nat, e: Effect, w': World)
    requires Stepped(P, env, w, p, pick, e, w') && (e.Reply? || e.Fork?)
    ensures w'.tasks[p].phase.Ready? && w'.tasks[p].result.None?
  {
    assert p != p + [|w.tasks[p].hist|];
    if e.Fork? {
      assert GoodTask(P, env, w, p);
    }
  }

  lemma ReplyKeeps(P: Program, env: Env, w: World, p: Path, pick: nat, e: Effect, w': World)
    requires Stepped(P, env, w, p, pick, e, w') && (e.Reply? || e.Fork?)
    ensures GoodTask(P, env, w', p)
  {
    LinkOf(P, env, w, p);
    LinkStable(P, w, w', p);
    ReplyContext(P, env, w, p, pick, e, w');
    ReplyReady(P, env, w, p, pick, e, w');
    OldRepliesKept(P, env, w, w', p);
    NewReply(P, env, w, p, pick, e, w');
  }

  lemma ChildGood(P: Program, env: Env, w: World, p: Path, pick: nat, e: Effect, w': World)
    requires Stepped(P, env, w, p, pick, e, w') && e.Fork?
    ensures p + [|w.tasks[p].hist|] in w'.tasks && GoodTask(P, env, w', p + [|w.tasks[p].hist|])
  {
    var t := w.tasks[p];
    var c := p + [|t.hist|];
    HomeOfLive(P, env, w, p);
    ForkIsFresh(P, env, w, p);
    assert Parent(c) == p && Place(c) == |t.hist| && c != p && c != [];
    assert w'.tasks[p].hist[..|t.hist|] == t.hist == t.hist[..|t.hist|];
    var n := w'.tasks[c];
    assert n.hist[..0] == [];
    assert GoodContext(P, w', c);
  }

  lemma AbortJustified(P: Program, env: Env, w: World, p: Path, pick: nat, e: Effect, w': World)
    requires Stepped(P, env, w, p, pick, e, w') && e == End(Aborted)
    ensures AbortCause(env, w', p, P(w.tasks[p].coro, w.tasks[p].hist))
  {
    var t := w.tasks[p];
    HomeOfLive(P, env, w, p);
    assert GoodTask(P, env, w, p);
    var a := P(t.coro, t.hist);
    match a
    case Resolve(outs) =>
      assert AbortCause(env, w, p, a) by {
        if t.phase.AwaitValues? {
          var vs := Gathered(Each(outs, o => ValueOf(env, w, o)));
          var i :| 0 <= i < |vs| && ContainsUnknowns(Tuple(vs).items[i]);
          assert MakesUnknown(env, w, outs[i]);
        } else {
          var ks := Gathered(Each(outs, o => KnownOf(env, w, o)));
          var i :| 0 <= i < |ks| && !ks[i];
          assert MakesUnknown(env, w, outs[i]);
        }
      }
      AbortStable(env, w, w', p, a);
    case Join(children) =>
      ChildStable(w, w', p, children[pick]);
    case _ =>
  }

  lemma FailJustified(P: Program, env: Env, w: World, p: Path, pick: nat, e: Effect, w': World)
    requires Stepped(P, env, w, p, pick, e, w') && e == End(Failed)
    ensures FailCause(env, w', p, P(w.tasks[p].coro, w.tasks[p].hist), w.tasks[p].ctx.stack)
  {
    var t := w.tasks[p];
    HomeOfLive(P, env, w, p);
    assert Grown(t, w'.tasks[p]);
    match P(t.coro, t.hist)
    case Resolve(outs) =>
      if outs != [] && t.ctx.acc.Some? {
        assert SomeBroken(env, w, outs[pick]);
        FuturesStable(env, w, w', outs[pick]);
        assert SomeBroken(env, w', outs[pick]);
      }
    case Join(children) =>
      ChildStable(w, w', p, children[pick]);
    case _ =>
  }

  lemma EndKeeps(P: Program, env: Env, w: World, p: Path, pick: nat, e: Effect, w': World)
    requires Stepped(P, env, w, p, pick, e, w') && e.End?
    ensures GoodTask(P, env, w', p)
  {
    var t, t' := w.tasks[p], w'.tasks[p];
    HomeOfLive(P, env, w, p);
    assert GoodTask(P, env, w, p);
    LinkStable(P, w, w', p);
    OldRepliesKept(P, env, w, w', p);
    PhaseStable(P, env, w, w', p);
    match e.result
    case Aborted => AbortJustified(P, env, w, p, pick, e, w');
    case Failed => FailJustified(P, env, w, p, pick, e, w');
    case Returned(_) =>
  }

  lemma OwnTaskKept(P: Program, env: Env, w: World, p: Path, pick: nat, e: Effect, w': World)
    requires Stepped(P, env, w, p, pick, e, w')
    ensures GoodTask(P, env, w', p)
  {
    match e
    case Blocked => assert GoodTask(P, env, w, p);
    case Suspend(_, _, _) => SuspendKeeps(P, env, w, p, pick, e, w');
    case Reply(_, _, _) => ReplyKeeps(P, env, w, p, pick, e, w');
    case Fork(_, _) => ReplyKeeps(P, env, w, p, pick, e, w');
    case End(_) => EndKeeps(P, env, w, p, pick, e, w');
  }

  /** A task that has answered nothing new is no earlier in its resolve than before. */
  ghost predicate OnlyForward(w: World, w': World) {
    forall q {:trigger w'.tasks[q]} | q in w.tasks && q in w'.tasks && |w'.tasks[q].hist| == |w.tasks[q].hist|
      :: Rank(w.tasks[q].phase) <= Rank(w'.tasks[q].phase)
  }

  lemma ApplyForward(w: World, p: Path, e: Effect)
    requires p in w.tasks && p + [|w.tasks[p].hist|] !in w.tasks
    requires e.Suspend? ==> Rank(w.tasks[p].phase) < Rank(e.phase)
    ensures OnlyForward(w, Apply(w, p, e))
  {
  }

  lemma StepForward(P: Program, env: Env, w: World, m: Move)
    requires Inv(P, env, w)
    ensures OnlyForward(w, Step(P, env, w, m))
  {
    if Live(w, m.path) {
      EffectGrows(P, env, w, m.path, m.pick);
      ForkIsFresh(P, env, w, m.path);
      ApplyForward(w, m.path, EffectOf(P, env, w, m.path, m.pick));
    }
  }

  /** A step touches its own task, adds at most one child, and writes at most its own accumulator. */
  lemma StepIsLocal(P: Program, env: Env, w: World, p: Path, e: Effect)
    requires Inv(P, env, w) && Live(w, p) && (e.Suspend? ==> w.tasks[p].ctx.acc.Some?)
    ensures var w', c := Apply(w, p, e), p + [|w.tasks[p].hist|];
      && (e.Fork? ==> c !in w.tasks)
      && w'.tasks.Keys == w.tasks.Keys + (if e.Fork? then {c} else {})
      && (forall q | q in w.tasks && q != p :: w'.tasks[q] == w.tasks[q])
      && w'.accs.Keys == w.accs.Keys + (if e.Fork? && e.isRun then {c} else {})
      && (forall a | a in w.accs && Home(p, w.tasks[p]) != Some(a) :: w'.accs[a] == w.accs[a])
  {
    HomeOfLive(P, env, w, p);
    ForkIsFresh(P, env, w, p);
  }

  lemma StepKeepsInv(P: Program, env: Env, w: World, m: Move)
    requires Inv(P, env, w)
    ensures Inv(P, env, Step(P, env, w, m))
  {
    if Live(w, m.path) {
      var p := m.path;
      var e := EffectOf(P, env, w, p, m.pick);
      var w' := Step(P, env, w, m);
      StepExtends(P, env, w, m);
      EffectGrows(P, env, w, p, m.pick);
      StepPreserves(P, env, w, p, m.pick, e, w');
    }
  }

  lemma StepPreserves(P: Program, env: Env, w: World, p: Path, pick: nat, e: Effect, w': World)
    requires Stepped(P, env, w, p, pick, e, w') && (e.Suspend? ==> w.tasks[p].ctx.acc.Some?)
    ensures Inv(P, env, w')
  {
    StepIsLocal(P, env, w, p, e);
    forall q | q in w'.tasks ensures GoodTask(P, env, w', q) {
      if q == p {
        OwnTaskKept(P, env, w, p, pick, e, w');
      } else if q in w.tasks {
        assert GoodTask(P, env, w, q);
        TaskStable(P, env, w, w', q);
      } else {
        ChildGood(P, env, w, p, pick, e, w');
      }
    }
  }

  lemma StartGood(P: Program, env: Env, order: Order, main: Coro)
    ensures Inv(P, env, Start(order, main))
  {
  }

  lemma ExtendsTransitive(w: World, w': World, w'': World)
    requires Extends(w, w') && Extends(w', w'')
    ensures Extends(w, w'')
  {
    forall p | p in w.tasks ensures p in w''.tasks && Grown(w.tasks[p], w''.tasks[p]) {
      assert Grown(w.tasks[p], w'.tasks[p]) && Grown(w'.tasks[p], w''.tasks[p]);
    }
  }

  /** The invariant holds in every reachable state, and later states only extend earlier ones. */
  lemma {:induction false} RunKeepsInv(P: Program, env: Env, w: World, s: seq<Move>)
    requires Inv(P, env, w)
    ensures Inv(P, env, Run(P, env, w, s)) && Extends(w, Run(P, env, w, s))
    decreases |s|
  {
    if s == [] {
    } else {
      var s0, m := s[..|s|-1], s[|s|-1];
      RunKeepsInv(P, env, w, s0);
      StepKeepsInv(P, env, Run(P, env, w, s0), m);
      StepExtends(P, env, Run(P, env, w, s0), m);
      ExtendsTransitive(w, Run(P, env, w, s0), Run(P, env, w, s));
    }
  }

  lemma StartedGood(P: Program, env: Env, order: Order, main: Coro, s: seq<Move>)
    ensures Inv(P, env, Run(P, env, Start(order, main), s)) && Run(P, env, Start(order, main), s).order == order
  {
    StartGood(P, env, order, main);
    RunKeepsInv(P, env, Start(order, main), s);
  }

  lemma ReachableGood(P: Program, env: Env, main: Coro, s: seq<Move>)
    ensures Inv(P, env, Run(P, env, Init(main), s)) && Run(P, env, Init(main), s).order == ReadFirst
  {
    StartedGood(P, env, ReadFirst, main, s);
  }
}
