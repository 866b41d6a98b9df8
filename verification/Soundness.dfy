/** Dependency tracking as non-interference, and independence of the schedule. */
module Soundness {
  import opened Scope
  import opened Protocol
  import opened Machine
  import opened Invariants
  import opened Reachability
  import opened Agreement
  import opened Propagation

  // ---- what a run has used is what it carries -------------------------------------------------------

  /** Whatever opened an async_output had used nothing by then, so its closure holds nothing resolved. */
  ghost predicate CleanOpens(w: World) {
    forall q {:trigger w.tasks[q]} | q in w.tasks && w.tasks[q].isRun :: w.tasks[q].captured == {}
  }

  ghost predicate FootTracked(w: World, p: Path)
    requires p in w.tasks
  {
    match Home(p, w.tasks[p])
    case None => w.tasks[p].foot == {}
    case Some(a) => a in w.accs && w.tasks[p].foot <= w.accs[a].deps
  }

  ghost predicate Tracked(w: World) {
    forall p {:trigger FootTracked(w, p)} | p in w.tasks :: FootTracked(w, p)
  }

  lemma StepTracked(P: Program, env: Env, w: World, m: Move)
    requires Inv(P, env, w) && Tracked(w) && CleanOpens(Step(P, env, w, m))
    ensures Tracked(Step(P, env, w, m))
  {
    var w' := Step(P, env, w, m);
    if Live(w, m.path) {
      var p := m.path;
      var e := EffectOf(P, env, w, p, m.pick);
      StepExtends(P, env, w, m);
      EffectGrows(P, env, w, p, m.pick);
      StepIsLocal(P, env, w, p, e);
      HomeOfLive(P, env, w, p);
      forall q | q in w'.tasks ensures FootTracked(w', q) {
        if q == p {
          assert Grown(w.tasks[p], w'.tasks[p]);
          OwnFootTracked(P, env, w, p, m.pick, e, w');
        } else if q in w.tasks {
          assert FootTracked(w, q);
        } else {
          assert FootTracked(w, p);
          assert w'.tasks[q].isRun ==> w'.tasks[q].captured == {};
        }
      }
    }
  }

  lemma OwnFootTracked(P: Program, env: Env, w: World, p: Path, pick: nat, e: Effect, w': World)
    requires Stepped(P, env, w, p, pick, e, w') && Tracked(w)
    ensures p in w'.tasks && FootTracked(w', p)
  {
    HomeOfLive(P, env, w, p);
    EffectGrows(P, env, w, p, pick);
    assert FootTracked(w, p);
    match e
    case Suspend(_, _, _) => ResolveFoot(P, env, w, p, pick, e);
    case Reply(_, _, _) => ReplyFoot(P, env, w, p, pick, e);
    case _ =>
  }

  lemma ResolveFoot(P: Program, env: Env, w: World, p: Path, pick: nat, e: Effect)
    requires Inv(P, env, w) && Live(w, p) && Tracked(w) && e == EffectOf(P, env, w, p, pick) && e.Suspend?
    ensures e.foot <= e.acc.deps
  {
    HomeOfLive(P, env, w, p);
    assert FootTracked(w, p);
    var t := w.tasks[p];
    var outs := P(t.coro, t.hist).outs;
    if t.phase.AwaitResources? {
      var rs := Gathered(Each(outs, o => ResourcesOf(env, w, o)));
      var feet := Feet(env, w, outs);
      forall i | 0 <= i < |outs| ensures feet[i] <= rs[i] {
        assert ResourcesOf(env, w, outs[i]) == Done(rs[i]);
        if outs[i].OfRun? { assert FootTracked(w, outs[i].run); }
      }
      assert Union(feet) <= Union(rs);
    }
  }

  lemma ReplyFoot(P: Program, env: Env, w: World, p: Path, pick: nat, e: Effect)
    requires Inv(P, env, w) && Live(w, p) && Tracked(w) && e == EffectOf(P, env, w, p, pick) && e.Reply?
    ensures match Home(p, w.tasks[p]) case None => e.foot == {} case Some(a) => a in w.accs && e.foot <= w.accs[a].deps
  {
    HomeOfLive(P, env, w, p);
    assert FootTracked(w, p);
    var t := w.tasks[p];
    if P(t.coro, t.hist).Join? {
      var children := P(t.coro, t.hist).children;
      var feet := ChildFeet(w, p, children);
      forall i | 0 <= i < |children|
        ensures match Home(p, t) case None => feet[i] == {} case Some(a) => feet[i] <= w.accs[a].deps
      {
        var c := p + [children[i]];
        assert ChildReturned(w, p, children[i]);
        LinkOf(P, env, w, c);
        assert Parent(c) == p;
        assert FootTracked(w, c);
      }
    }
  }

  lemma CleanBefore(w: World, w': World)
    requires Extends(w, w') && CleanOpens(w')
    ensures CleanOpens(w)
  {
    forall q | q in w.tasks && w.tasks[q].isRun ensures w.tasks[q].captured == {} {
      assert Grown(w.tasks[q], w'.tasks[q]);
    }
  }

  /** If every async_output was opened by a task that had used nothing by then -- outside any run, or inside one that
      has not got past a resolve -- a task has never used a resource its run does not carry. */
  lemma {:induction false} FootIsCarried(P: Program, env: Env, main: Coro, s: seq<Move>)
    requires CleanOpens(Run(P, env, Init(main), s))
    ensures Tracked(Run(P, env, Init(main), s))
    decreases |s|
  {
    if s == [] {
    } else {
      var s0, m := s[..|s|-1], s[|s|-1];
      ReachableGood(P, env, main, s0);
      StepExtends(P, env, Run(P, env, Init(main), s0), m);
      CleanBefore(Run(P, env, Init(main), s0), Run(P, env, Init(main), s));
      FootIsCarried(P, env, main, s0);
      StepTracked(P, env, Run(P, env, Init(main), s0), m);
    }
  }

  // ---- outside any run nothing is used --------------------------------------------------------------

  ghost predicate UsesNothingOutside(w: World, p: Path)
    requires p in w.tasks
  {
    && (Home(p, w.tasks[p]) == None ==> w.tasks[p].foot == {})
    && (w.tasks[p].isRun && w.tasks[p].token == None ==> w.tasks[p].captured == {})
  }

  ghost predicate NothingOutside(w: World) {
    forall p {:trigger UsesNothingOutside(w, p)} | p in w.tasks :: UsesNothingOutside(w, p)
  }

  lemma OwnOutside(P: Program, env: Env, w: World, p: Path, pick: nat, e: Effect, w': World)
    requires Stepped(P, env, w, p, pick, e, w') && NothingOutside(w)
    ensures p in w'.tasks && UsesNothingOutside(w', p)
  {
    HomeOfLive(P, env, w, p);
    EffectGrows(P, env, w, p, pick);
    assert UsesNothingOutside(w, p);
    assert Grown(w.tasks[p], w'.tasks[p]);
    var t := w.tasks[p];
    if e.Reply? && P(t.coro, t.hist).Join? && Home(p, t) == None {
      var children := P(t.coro, t.hist).children;
      forall i | 0 <= i < |children| ensures ChildFeet(w, p, children)[i] == {} {
        var c := p + [children[i]];
        assert ChildReturned(w, p, children[i]);
        LinkOf(P, env, w, c);
        assert Parent(c) == p;
        assert UsesNothingOutside(w, c);
      }
    }
  }

  lemma StepOutside(P: Program, env: Env, w: World, m: Move)
    requires Inv(P, env, w) && NothingOutside(w)
    ensures NothingOutside(Step(P, env, w, m))
  {
    if Live(w, m.path) {
      var p, w' := m.path, Step(P, env, w, m);
      var e := EffectOf(P, env, w, p, m.pick);
      StepExtends(P, env, w, m);
      EffectGrows(P, env, w, p, m.pick);
      StepIsLocal(P, env, w, p, e);
      HomeOfLive(P, env, w, p);
      OwnOutside(P, env, w, p, m.pick, e, w');
      forall q | q in w'.tasks ensures UsesNothingOutside(w', q) {
        if q in w.tasks { assert UsesNothingOutside(w, q); } else { assert UsesNothingOutside(w, p); }
      }
    }
  }

  lemma {:induction false} OutsideUsesNothing(P: Program, env: Env, main: Coro, s: seq<Move>)
    ensures NothingOutside(Run(P, env, Init(main), s))
    decreases |s|
  {
    if s == [] {
    } else {
      OutsideUsesNothing(P, env, main, s[..|s|-1]);
      ReachableGood(P, env, main, s[..|s|-1]);
      StepOutside(P, env, Run(P, env, Init(main), s[..|s|-1]), s[|s|-1]);
    }
  }

  /** An async_output opened outside any run, or by a task the discipline `allowed` lets open one after what it
      has used. */
  ghost predicate Disciplined(allowed: set<Resource> -> bool, w: World) {
    forall q {:trigger w.tasks[q]} | q in w.tasks && w.tasks[q].isRun :: w.tasks[q].token == None || allowed(w.tasks[q].captured)
  }

  lemma DisciplineIsClean(P: Program, env: Env, main: Coro, s: seq<Move>, allowed: set<Resource> -> bool)
    requires Disciplined(allowed, Run(P, env, Init(main), s)) && forall F :: allowed(F) ==> F == {}
    ensures CleanOpens(Run(P, env, Init(main), s))
  {
    var w := Run(P, env, Init(main), s);
    OutsideUsesNothing(P, env, main, s);
    forall q | q in w.tasks && w.tasks[q].isRun ensures w.tasks[q].captured == {} {
      assert UsesNothingOutside(w, q);
    }
  }

  // ---- the whole run agrees ------------------------------------------------------------------------

  /** Two finished worlds: the run r returned in both, having used only D in the first. */
  ghost predicate Both(P: Program, env: Env, env': Env, D: set<Resource>, w: World, w': World, r: Path) {
    && Structured(P) && Inv(P, env, w) && Inv(P, env', w') && Settled(w) && Settled(w')
    && AgreeInside(env, env', D) && AgreeAll(w, w', D)
    && ReturnedIn(w, r) && ReturnedIn(w', r) && w.tasks[r].isRun && w'.tasks[r].isRun
    && w.tasks[r].foot <= D
  }

  /** Every task of the run is in both worlds, with the same history. */
  lemma {:induction false} SameTask(P: Program, env: Env, env': Env, D: set<Resource>, w: World, w': World, r: Path, q: Path)
    requires Both(P, env, env', D, w, w', r)
    requires (q in w.tasks && Home(q, w.tasks[q]) == Some(r)) || (q in w'.tasks && Home(q, w'.tasks[q]) == Some(r))
    ensures q in w.tasks && q in w'.tasks && Home(q, w.tasks[q]) == Home(q, w'.tasks[q]) == Some(r)
    ensures ReturnedIn(w, q) && w.tasks[q].foot <= w.tasks[r].foot && ReturnedIn(w', q)
    ensures w'.tasks[q].hist == w.tasks[q].hist && w'.tasks[q].coro == w.tasks[q].coro && w'.tasks[q].result == w.tasks[q].result
    decreases |q|
  {
    assert Agree(w, w', q, D);
    if q != r {
      if q in w.tasks && Home(q, w.tasks[q]) == Some(r) { LinkOf(P, env, w, q); } else { LinkOf(P, env', w', q); }
      assert q != [];
      var u, k := Parent(q), Place(q);
      assert q == u + [k];
      SameTask(P, env, env', D, w, w', r, u);
      assert GoodTask(P, env, w, u) && GoodTask(P, env', w', u);
      assert GoodReply(P, env, w, u, k) && GoodReply(P, env', w', u, k);
      LinkOf(P, env, w, q);
      LinkOf(P, env', w', q);
      WholeRunReturned(P, env, w, r, q);
      WholeRunReturned(P, env', w', r, q);
    }
  }

  lemma {:induction false} ReachesForward(P: Program, env: Env, env': Env, D: set<Resource>, w: World, w': World, r: Path, l: nat, n: nat)
    requires Both(P, env, env', D, w, w', r) && Reaches(P, w, r, l, n)
    ensures Reaches(P, w', r, l, n) && env'(l) == env(l)
    decreases n
  {
    var p: Path, k: nat, i: nat :| ReachesBy(P, w, r, l, n, p, k, i);
    SameTask(P, env, env', D, w, w', r, p);
    ResolvedUsable(P, env, w, p, k, i);
    ResolvedUsable(P, env', w', p, k, i);
    match Outs(P, w, p, k)[i] {
      case Leaf(_) =>
      case OfRun(q) => ReachesForward(P, env, env', D, w, w', q, l, n - 1);
    }
    assert ReachesBy(P, w', r, l, n, p, k, i);
  }

  lemma {:induction false} ReachesBackward(P: Program, env: Env, env': Env, D: set<Resource>, w: World, w': World, r: Path, l: nat, n: nat)
    requires Both(P, env, env', D, w, w', r) && Reaches(P, w', r, l, n)
    ensures Reaches(P, w, r, l, n) && env'(l) == env(l)
    decreases n
  {
    var p: Path, k: nat, i: nat :| ReachesBy(P, w', r, l, n, p, k, i);
    SameTask(P, env, env', D, w, w', r, p);
    ResolvedUsable(P, env', w', p, k, i);
    ResolvedUsable(P, env, w, p, k, i);
    match Outs(P, w, p, k)[i] {
      case Leaf(_) =>
      case OfRun(q) => ReachesBackward(P, env, env', D, w, w', q, l, n - 1);
    }
    assert ReachesBy(P, w, r, l, n, p, k, i);
  }

  // ---- the main results ------------------------------------------------------------------------------

  /** A run's observable result but for its secret flag: the value or the handshake, and the dependencies. */
  ghost predicate SameDeps(w: World, w': World, r: Path) {
    r in w.accs && r in w'.accs && w'.accs[r].deps == w.accs[r].deps
  }

  /** Whatever a run has used decides its outcome: under any other schedule, and any other assignment of engine
      outputs that agrees wherever resources lie inside D, the run ends with the same value; and with the same
      dependencies if coroutines join what they spawn. */
  lemma UsedResourcesDecide(P: Program, env: Env, env': Env, main: Coro, s: seq<Move>, s': seq<Move>, r: Path, D: set<Resource>)
    requires AgreeInside(env, env', D) && NothingHidden(P, env, Run(P, env, Init(main), s))
    requires var w := Run(P, env, Init(main), s); ReturnedIn(w, r) && w.tasks[r].isRun && w.tasks[r].foot <= D
    requires var w' := Run(P, env', Init(main), s'); r in w'.tasks && w'.tasks[r].result.Some?
    ensures Run(P, env', Init(main), s').tasks[r].result == Run(P, env, Init(main), s).tasks[r].result
    ensures Structured(P) ==> SameDeps(Run(P, env, Init(main), s), Run(P, env', Init(main), s'), r)
  {
    var w, w' := Run(P, env, Init(main), s), Run(P, env', Init(main), s');
    ReachableGood(P, env, main, s);
    ReachableGood(P, env', main, s');
    RootStays(P, env', main, s');
    RunsAgree(P, env, env', D, main, s, w');
    assert Agree(w, w', r, D);
    if Structured(P) {
      PropagationInvariants(P, env, ReadFirst, main, s);
      PropagationInvariants(P, env', ReadFirst, main, s');
      assert GoodTask(P, env, w, r) && GoodTask(P, env', w', r);
      forall x ensures x in w.accs[r].deps <==> x in w'.accs[r].deps {
        DepsAreTransitiveLeaves(P, env, main, s, r, x);
        DepsAreTransitiveLeaves(P, env', main, s', r, x);
        if Carried(P, env, w, r, x) {
          var l: nat, n: nat :| Reaches(P, w, r, l, n) && BehindLeaf(env, l, x);
          ReachesForward(P, env, env', D, w, w', r, l, n);
        }
        if Carried(P, env', w', r, x) {
          var l: nat, n: nat :| Reaches(P, w', r, l, n) && BehindLeaf(env', l, x);
          ReachesBackward(P, env, env', D, w, w', r, l, n);
        }
      }
    }
  }

  lemma RootStays(P: Program, env: Env, main: Coro, s: seq<Move>)
    ensures [] in Run(P, env, Init(main), s).tasks && Run(P, env, Init(main), s).tasks[[]].coro == main
  {
  }

  /** Dependency tracking is sound: no output outside the dependencies an async_output reports
      can change its value, whether it is known, or those dependencies. */
  lemma {:induction false} TrackingIsSound(P: Program, env: Env, env': Env, main: Coro, s: seq<Move>, s': seq<Move>, r: Path)
    requires var w := Run(P, env, Init(main), s);
      && NothingHidden(P, env, w) && CleanOpens(w)
      && ReturnedIn(w, r) && w.tasks[r].isRun && r in w.accs && AgreeInside(env, env', w.accs[r].deps)
    requires var w' := Run(P, env', Init(main), s'); r in w'.tasks && w'.tasks[r].result.Some?
    ensures Run(P, env', Init(main), s').tasks[r].result == Run(P, env, Init(main), s).tasks[r].result
    ensures Structured(P) ==> SameDeps(Run(P, env, Init(main), s), Run(P, env', Init(main), s'), r)
  {
    var w := Run(P, env, Init(main), s);
    FootIsCarried(P, env, main, s);
    assert FootTracked(w, r);
    UsedResourcesDecide(P, env, env', main, s, s', r, w.accs[r].deps);
  }

  /** Any two interleavings of one program, nested async_outputs included: one that returns a value in the first
      returns the same value, with the same dependencies, in the second if it ends there at all. */
  lemma {:induction false} ScheduleIndependence(P: Program, env: Env, main: Coro, s: seq<Move>, s': seq<Move>, r: Path)
    requires NothingHidden(P, env, Run(P, env, Init(main), s))
    requires var w := Run(P, env, Init(main), s); ReturnedIn(w, r) && w.tasks[r].isRun
    requires var w' := Run(P, env, Init(main), s'); r in w'.tasks && w'.tasks[r].result.Some?
    ensures Run(P, env, Init(main), s').tasks[r].result == Run(P, env, Init(main), s).tasks[r].result
    ensures Structured(P) ==> SameDeps(Run(P, env, Init(main), s), Run(P, env, Init(main), s'), r)
  {
    UsedResourcesDecide(P, env, env, main, s, s', r, Run(P, env, Init(main), s).tasks[r].foot);
  }
}
