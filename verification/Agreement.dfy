/** Two runs of one program, each under a schedule and an assignment of engine outputs of its own:
    whatever a task has used decides its behaviour. */
module Agreement {
  import opened Scope
  import opened Protocol
  import opened Machine
  import opened Invariants
  import opened Reachability

  /** The assignments agree on every engine output whose resources (in the first) lie inside `scope`. */
  ghost predicate AgreeInside(env: Env, env': Env, D: set<Resource>) {
    forall l: nat {:trigger env(l)} {:trigger env'(l)} ::
      env(l).resources.Done? && env(l).resources.v <= D ==> env'(l) == env(l)
  }

  /** No resolve that was answered had an output whose `is_secret` future fails: none hides behind the
      short-circuit of the `or`. */
  ghost predicate NothingHidden(P: Program, env: Env, w: World) {
    forall p, k {:trigger AnsweredPlainly(P, env, w, p, k)} ::
      p in w.tasks && 0 <= k < |w.tasks[p].hist| ==> AnsweredPlainly(P, env, w, p, k)
  }

  ghost predicate AnsweredPlainly(P: Program, env: Env, w: World, p: Path, k: nat)
    requires p in w.tasks && k < |w.tasks[p].hist|
  {
    P(w.tasks[p].coro, w.tasks[p].hist[..k]).Resolve? ==>
      forall i | 0 <= i < |Outs(P, w, p, k)| :: Outs(P, w, p, k)[i].Leaf? ==> !env(Outs(P, w, p, k)[i].id).secret.Broken?
  }

  predicate Comparable(h: seq<Val>, h': seq<Val>) {
    h <= h' || h' <= h
  }

  /** One task in two worlds, as far as it has used nothing outside `scope` in the first:
      same closure, same inherited context, one history a prefix of the other, and a value returned in the
      first is the only way it can end in the second. */
  ghost predicate Agree(w: World, w': World, p: Path, D: set<Resource>) {
    p in w.tasks && p in w'.tasks && w.tasks[p].foot <= D ==>
      var t, t' := w.tasks[p], w'.tasks[p];
      && t'.coro == t.coro && t'.isRun == t.isRun && t'.base == t.base && t'.token == t.token
      && Comparable(t.hist, t'.hist)
      && (t.result.Some? && t.result.value.Returned? && t'.result.Some? ==> t'.result == t.result && t'.hist == t.hist)
  }

  ghost predicate AgreeAll(w: World, w': World, D: set<Resource>) {
    forall p {:trigger Agree(w, w', p, D)} :: Agree(w, w', p, D)
  }

  /** The two worlds a lemma compares, agreeing at least on the tasks that have returned in the first. */
  ghost predicate Pair(P: Program, env: Env, env': Env, D: set<Resource>, w: World, w': World) {
    && Inv(P, env, w) && Inv(P, env', w') && AgreeInside(env, env', D) && NothingHidden(P, env, w)
    && forall p {:trigger Agree(w, w', p, D)} :: ReturnedIn(w, p) ==> Agree(w, w', p, D)
  }

  lemma SameOutput(P: Program, env: Env, env': Env, D: set<Resource>, w: World, w': World, o: OutRef, deps: set<Resource>, foot: set<Resource>)
    requires Pair(P, env, env', D, w, w') && foot <= D
    requires Usable(env, w, o) && Recorded(env, w, o, deps, foot)
    ensures Usable(env', w', o) ==> UsedValue(env', w', o) == UsedValue(env, w, o)
    ensures !MakesUnknown(env', w', o) && ((o.Leaf? && env(o.id).secret.Broken?) || !SomeBroken(env', w', o))
  {
    match o
    case Leaf(l) => assert env'(l) == env(l);
    case OfRun(q) =>
      assert Agree(w, w', q, D);
  }

  lemma SameChild(P: Program, env: Env, env': Env, D: set<Resource>, w: World, w': World, p: Path, c: nat)
    requires Pair(P, env, env', D, w, w') && ChildReturned(w, p, c) && w.tasks[p + [c]].foot <= D
    ensures ChildResult(w', p, c).Some? ==> ChildResult(w', p, c) == ChildResult(w, p, c)
  {
    assert Agree(w, w', p + [c], D);
  }

  lemma ScopesAgree(P: Program, p: Path, t: Task, t': Task, k: nat)
    requires t'.coro == t.coro && t'.base == t.base
    requires k <= |t.hist| && k <= |t'.hist| && t.hist[..k] == t'.hist[..k]
    ensures ScopeAt(P, p, t, k) == ScopeAt(P, p, t', k)
  {
  }

  /** A reply both worlds have given is the same reply. */
  lemma SameReply(P: Program, env: Env, env': Env, D: set<Resource>, w: World, w': World, p: Path, k: nat)
    requires Pair(P, env, env', D, w, w') && p in w.tasks && p in w'.tasks && w.tasks[p].foot <= D
    requires k < |w.tasks[p].hist| && k < |w'.tasks[p].hist| && w.tasks[p].hist[..k] == w'.tasks[p].hist[..k]
    requires w'.tasks[p].coro == w.tasks[p].coro
    ensures w'.tasks[p].hist[k] == w.tasks[p].hist[k]
  {
    var t, t' := w.tasks[p], w'.tasks[p];
    assert GoodTask(P, env, w, p) && GoodTask(P, env', w', p);
    assert GoodReply(P, env, w, p, k) && GoodReply(P, env', w', p, k);
    match P(t.coro, t.hist[..k])
    case Resolve(outs) => SameResolve(P, env, env', D, w, w', p, outs, t.hist[k], t'.hist[k]);
    case Join(children) => SameJoin(P, env, env', D, w, w', p, children, t.hist[k], t'.hist[k]);
    case _ =>
  }

  lemma SameResolve(P: Program, env: Env, env': Env, D: set<Resource>, w: World, w': World, p: Path, outs: seq<OutRef>, v: Val, v': Val)
    requires Pair(P, env, env', D, w, w') && p in w.tasks && p in w'.tasks && w.tasks[p].foot <= D
    requires ResolveReply(env, w, p, outs, v) && ResolveReply(env', w', p, outs, v')
    ensures v' == v
  {
    forall i | 0 <= i < |outs| ensures UsedValue(env', w', outs[i]) == UsedValue(env, w, outs[i]) {
      SameOutput(P, env, env', D, w, w', outs[i], w.accs[Home(p, w.tasks[p]).value].deps, w.tasks[p].foot);
    }
    assert seq(|outs|, i requires 0 <= i < |outs| => UsedValue(env, w, outs[i]))
        == seq(|outs|, i requires 0 <= i < |outs| => UsedValue(env', w', outs[i]));
  }

  lemma SameJoin(P: Program, env: Env, env': Env, D: set<Resource>, w: World, w': World, p: Path, children: seq<nat>, v: Val, v': Val)
    requires Pair(P, env, env', D, w, w') && p in w.tasks && p in w'.tasks && w.tasks[p].foot <= D
    requires JoinReply(w, p, children, v) && JoinReply(w', p, children, v')
    ensures v' == v
  {
    forall i | 0 <= i < |children| ensures ChildValues(w', p, children)[i] == ChildValues(w, p, children)[i] {
      assert ChildReturned(w, p, children[i]) && ChildReturned(w', p, children[i]);
      SameChild(P, env, env', D, w, w', p, children[i]);
    }
  }

  /** What was answered in the first world cannot end the task in the second. */
  lemma CannotEndThere(P: Program, env: Env, env': Env, D: set<Resource>, w: World, w': World, p: Path)
    requires Pair(P, env, env', D, w, w') && p in w.tasks && p in w'.tasks && w.tasks[p].foot <= D
    requires w'.tasks[p].hist < w.tasks[p].hist && w'.tasks[p].coro == w.tasks[p].coro
    requires w'.tasks[p].base == w.tasks[p].base && w'.tasks[p].token == w.tasks[p].token && w'.tasks[p].isRun == w.tasks[p].isRun
    ensures w'.tasks[p].result.None?
  {
    var t, t' := w.tasks[p], w'.tasks[p];
    var k := |t'.hist|;
    assert GoodTask(P, env, w, p) && GoodTask(P, env', w', p);
    assert GoodReply(P, env, w, p, k);
    assert t.hist[..k] == t'.hist == t'.hist[..k];
    ScopesAgree(P, p, t, t', k);
    assert AnsweredPlainly(P, env, w, p, k);
    match P(t.coro, t.hist[..k])
    case Resolve(outs) =>
      forall i | 0 <= i < |outs| ensures !MakesUnknown(env', w', outs[i]) && !SomeBroken(env', w', outs[i]) {
        assert outs[i] == Outs(P, w, p, k)[i];
        SameOutput(P, env, env', D, w, w', outs[i], w.accs[Home(p, t).value].deps, t.foot);
      }
    case Join(children) =>
      forall i | 0 <= i < |children|
        ensures ChildResult(w', p, children[i]) != Some(Aborted) && ChildResult(w', p, children[i]) != Some(Failed)
      {
        assert ChildReturned(w, p, children[i]);
        SameChild(P, env, env', D, w, w', p, children[i]);
      }
    case _ =>
  }

  // ---- one step of the first world -----------------------------------------------------------------

  lemma HiddenBefore(P: Program, env: Env, w: World, w1: World)
    requires Extends(w, w1) && NothingHidden(P, env, w1)
    ensures NothingHidden(P, env, w)
  {
    forall p, k | p in w.tasks && 0 <= k < |w.tasks[p].hist| ensures AnsweredPlainly(P, env, w, p, k) {
      assert Grown(w.tasks[p], w1.tasks[p]);
      assert w1.tasks[p].hist[..k] == w.tasks[p].hist[..k];
      assert AnsweredPlainly(P, env, w1, p, k);
      if P(w.tasks[p].coro, w.tasks[p].hist[..k]).Resolve? {
        assert Outs(P, w1, p, k) == Outs(P, w, p, k);
      }
    }
  }

  /** Answering an action returns from no task, so the worlds stay a pair. */
  lemma {:induction false} PairAfterAnswer(P: Program, env: Env, env': Env, D: set<Resource>, w: World, p: Path, pick: nat, e: Effect, w1: World, w': World)
    requires Stepped(P, env, w, p, pick, e, w1) && Inv(P, env, w1) && NothingHidden(P, env, w1) && (e.Reply? || e.Fork?)
    requires Pair(P, env, env', D, w, w')
    ensures Pair(P, env, env', D, w1, w')
  {
    StepIsLocal(P, env, w, p, e);
    ReplyReady(P, env, w, p, pick, e, w1);
    forall q | ReturnedIn(w1, q) ensures Agree(w1, w', q, D) {
      assert q in w.tasks;
      assert Agree(w, w', q, D);
    }
  }

  /** The stepping task answers its action: the other world, if it got that far, answered the same. */
  lemma {:induction false} AnswerAgrees(P: Program, env: Env, env': Env, D: set<Resource>, w: World, p: Path, pick: nat, e: Effect, w1: World, w': World)
    requires Stepped(P, env, w, p, pick, e, w1) && Inv(P, env, w1) && NothingHidden(P, env, w1) && (e.Reply? || e.Fork?)
    requires Pair(P, env, env', D, w, w') && Agree(w, w', p, D)
    ensures Agree(w1, w', p, D)
  {
    if p in w'.tasks && w1.tasks[p].foot <= D {
      var t, t1, t' := w.tasks[p], w1.tasks[p], w'.tasks[p];
      assert Grown(t, t1);
      ReplyReady(P, env, w, p, pick, e, w1);
      NewReply(P, env, w, p, pick, e, w1);
      var k := |t.hist|;
      if |t'.hist| > k {
        assert t1.hist[..k] == t.hist == t'.hist[..k];
        PairAfterAnswer(P, env, env', D, w, p, pick, e, w1, w');
        SameReply(P, env, env', D, w1, w', p, k);
        assert t1.hist == t'.hist[..k+1];
      }
    }
  }

  /** The stepping task returns: the other world's, if it has ended, returned the same. */
  lemma ReturnAgrees(P: Program, env: Env, env': Env, D: set<Resource>, w: World, p: Path, pick: nat, e: Effect, w1: World, w': World)
    requires Stepped(P, env, w, p, pick, e, w1) && e.End?
    requires Pair(P, env, env', D, w, w') && Agree(w, w', p, D)
    ensures Agree(w1, w', p, D)
  {
    if p in w'.tasks && w.tasks[p].foot <= D && e.result.Returned? && w'.tasks[p].result.Some? {
      var t, t' := w.tasks[p], w'.tasks[p];
      assert GoodTask(P, env', w', p);
      if t'.hist < t.hist {
        CannotEndThere(P, env, env', D, w, w', p);
      } else if t.hist < t'.hist {
        assert t'.hist[..|t.hist|] == t.hist;
        NoReplyToReturn(P, env', w', p, |t.hist|);
      } else {
        assert t'.hist == t.hist;
      }
    }
  }

  /** A task just forked: if the other world forked it too, it was by the same action of the same parent. */
  lemma ForkAgrees(P: Program, env: Env, env': Env, D: set<Resource>, w: World, p: Path, pick: nat, e: Effect, w1: World, w': World)
    requires Stepped(P, env, w, p, pick, e, w1) && e.Fork?
    requires Pair(P, env, env', D, w, w') && Agree(w, w', p, D)
    ensures Agree(w1, w', p + [|w.tasks[p].hist|], D)
  {
    var t := w.tasks[p];
    var k := |t.hist|;
    var c := p + [k];
    HomeOfLive(P, env, w, p);
    if c in w'.tasks && w1.tasks[c].foot <= D {
      LinkOf(P, env', w', c);
      assert Parent(c) == p && Place(c) == k;
      var t' := w'.tasks[p];
      assert t'.hist[..k] == t.hist == t.hist[..k];
      ScopesAgree(P, p, t, t', k);
    }
  }

  lemma StepAgrees(P: Program, env: Env, env': Env, D: set<Resource>, w: World, m: Move, w': World)
    requires Pair(P, env, env', D, w, w') && AgreeAll(w, w', D) && NothingHidden(P, env, Step(P, env, w, m))
    ensures AgreeAll(Step(P, env, w, m), w', D)
  {
    var w1 := Step(P, env, w, m);
    if Live(w, m.path) {
      var p := m.path;
      var e := EffectOf(P, env, w, p, m.pick);
      StepExtends(P, env, w, m);
      StepKeepsInv(P, env, w, m);
      EffectGrows(P, env, w, p, m.pick);
      StepIsLocal(P, env, w, p, e);
      forall q ensures Agree(w1, w', q, D) {
        assert Agree(w, w', q, D);
        if q == p {
          OwnTaskAgrees(P, env, env', D, w, p, m.pick, e, w1, w');
        } else if q in w1.tasks && q !in w.tasks {
          ForkAgrees(P, env, env', D, w, p, m.pick, e, w1, w');
        }
      }
    }
  }

  lemma OwnTaskAgrees(P: Program, env: Env, env': Env, D: set<Resource>, w: World, p: Path, pick: nat, e: Effect, w1: World, w': World)
    requires Stepped(P, env, w, p, pick, e, w1) && Inv(P, env, w1) && NothingHidden(P, env, w1)
    requires Pair(P, env, env', D, w, w') && Agree(w, w', p, D)
    ensures Agree(w1, w', p, D)
  {
    match e
    case Blocked =>
    case Suspend(_, _, _) => EffectGrows(P, env, w, p, pick);
    case Reply(_, _, _) => AnswerAgrees(P, env, env', D, w, p, pick, e, w1, w');
    case Fork(_, _) => AnswerAgrees(P, env, env', D, w, p, pick, e, w1, w');
    case End(_) => ReturnAgrees(P, env, env', D, w, p, pick, e, w1, w');
  }

  /** Everything two runs share, whatever their schedules and whatever their engine outputs outside D. */
  lemma {:induction false} RunsAgree(P: Program, env: Env, env': Env, D: set<Resource>, main: Coro, s: seq<Move>, w': World)
    requires Inv(P, env', w') && AgreeInside(env, env', D) && NothingHidden(P, env, Run(P, env, Init(main), s))
    requires [] in w'.tasks && w'.tasks[[]].coro == main
    ensures AgreeAll(Run(P, env, Init(main), s), w', D)
    decreases |s|
  {
    if s == [] {
      LinkOf(P, env', w', []);
    } else {
      var s0, m := s[..|s|-1], s[|s|-1];
      ReachableGood(P, env, main, s0);
      StepExtends(P, env, Run(P, env, Init(main), s0), m);
      HiddenBefore(P, env, Run(P, env, Init(main), s0), Run(P, env, Init(main), s));
      RunsAgree(P, env, env', D, main, s0, w');
      StepAgrees(P, env, env', D, Run(P, env, Init(main), s0), m, w');
    }
  }
}
