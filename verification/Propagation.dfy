/** Where the resources an output carries come from. */
module Propagation {
  import opened Scope
  import opened Protocol
  import opened Machine
  import opened Invariants
  import opened Reachability

  // ---- coroutines that join what they spawn -----------------------------------------------------

  ghost predicate JoinedBefore(P: Program, coro: Coro, hist: seq<Val>, k: nat) {
    exists j {:trigger hist[..j]} | 0 <= j < |hist| ::
      P(coro, hist[..j]).Join? && k in P(coro, hist[..j]).children
  }

  /** A coroutine returns only after joining every task it spawned. */
  ghost predicate Structured(P: Program) {
    forall coro: Coro, hist: seq<Val> {:trigger P(coro, hist)} :: P(coro, hist).Return? ==>
      forall k {:trigger hist[..k]} | 0 <= k < |hist| && P(coro, hist[..k]).Spawn? :: JoinedBefore(P, coro, hist, k)
  }

  /** A task that returned has every spawned child's return behind it. */
  lemma ChildrenReturned(P: Program, env: Env, w: World, p: Path, k: nat)
    requires Structured(P) && Inv(P, env, w) && ReturnedIn(w, p)
    requires k < |w.tasks[p].hist| && P(w.tasks[p].coro, w.tasks[p].hist[..k]).Spawn?
    ensures ReturnedIn(w, p + [k]) && w.tasks[p + [k]].foot <= w.tasks[p].foot
  {
    var t := w.tasks[p];
    assert GoodTask(P, env, w, p);
    assert P(t.coro, t.hist).Return?;
    var j :| 0 <= j < |t.hist| && P(t.coro, t.hist[..j]).Join? && k in P(t.coro, t.hist[..j]).children;
    assert GoodReply(P, env, w, p, j);
    var children := P(t.coro, t.hist[..j]).children;
    var i :| 0 <= i < |children| && children[i] == k;
    assert ChildReturned(w, p, children[i]);
  }

  /** So a run that returned has no task left running, and has used all its tasks have used. */
  lemma {:induction false} WholeRunReturned(P: Program, env: Env, w: World, r: Path, q: Path)
    requires Structured(P) && Inv(P, env, w) && ReturnedIn(w, r) && w.tasks[r].isRun
    requires q in w.tasks && Home(q, w.tasks[q]) == Some(r)
    ensures ReturnedIn(w, q) && w.tasks[q].foot <= w.tasks[r].foot
    decreases |q|
  {
    LinkOf(P, env, w, q);
    if !w.tasks[q].isRun {
      var u := Parent(q);
      assert q == u + [Place(q)];
      WholeRunReturned(P, env, w, r, u);
      ChildrenReturned(P, env, w, u, Place(q));
    }
  }

  /** Then nothing is written to its accumulator any more. */
  ghost predicate Settled(w: World) {
    forall r {:trigger w.accs[r]} | ReturnedIn(w, r) && w.tasks[r].isRun && r in w.accs :: w.accs[r] == w.tasks[r].snap
  }

  lemma StepSettled(P: Program, env: Env, w: World, m: Move)
    requires Structured(P) && Inv(P, env, w) && Settled(w)
    ensures Settled(Step(P, env, w, m))
  {
    var w' := Step(P, env, w, m);
    if Live(w, m.path) {
      var p := m.path;
      var e := EffectOf(P, env, w, p, m.pick);
      EffectGrows(P, env, w, p, m.pick);
      StepIsLocal(P, env, w, p, e);
      forall r | ReturnedIn(w', r) && w'.tasks[r].isRun && r in w'.accs
        ensures w'.accs[r] == w'.tasks[r].snap
      {
        if r != p && Home(p, w.tasks[p]) == Some(r) {
          WholeRunReturned(P, env, w, r, p);
          assert false;
        }
        HomeOfLive(P, env, w, p);
      }
    }
  }

  // ---- what an output carries --------------------------------------------------------------------

  /** Task p has recorded the resources of the outputs it resolves at position k. */
  ghost predicate Resolved(P: Program, w: World, p: Path, k: nat) {
    && p in w.tasks && k <= |w.tasks[p].hist|
    && P(w.tasks[p].coro, w.tasks[p].hist[..k]).Resolve?
    && (k < |w.tasks[p].hist| || !(w.tasks[p].phase.Ready? || w.tasks[p].phase.AwaitResources?))
  }

  /** Engine output l is behind an output that a task of run r resolved: that output itself, or n - 1 async_outputs
      further down. */
  ghost predicate Reaches(P: Program, w: World, r: Path, l: nat, n: nat)
    decreases n
  {
    n > 0 && exists p: Path, k: nat, i: nat :: ReachesBy(P, w, r, l, n, p, k, i)
  }

  ghost predicate ReachesBy(P: Program, w: World, r: Path, l: nat, n: nat, p: Path, k: nat, i: nat)
    requires n > 0
    decreases n, 0
  {
    && Resolved(P, w, p, k) && Home(p, w.tasks[p]) == Some(r) && i < |Outs(P, w, p, k)|
    && match Outs(P, w, p, k)[i]
       case Leaf(m) => m == l
       case OfRun(q) => RunResult(w, q).Some? && Reaches(P, w, q, l, n - 1)
  }

  lemma ReachedWhere(P: Program, w: World, r: Path, l: nat, n: nat) returns (p: Path, k: nat, i: nat)
    requires Reaches(P, w, r, l, n)
    ensures n > 0 && ReachesBy(P, w, r, l, n, p, k, i)
  {
    p, k, i :| ReachesBy(P, w, r, l, n, p, k, i);
  }

  lemma {:induction false} ReachesStable(P: Program, w: World, w': World, r: Path, l: nat, n: nat)
    requires Extends(w, w') && Reaches(P, w, r, l, n)
    requires OnlyForward(w, w')
    ensures Reaches(P, w', r, l, n)
    decreases n
  {
    var p: Path, k: nat, i: nat :| ReachesBy(P, w, r, l, n, p, k, i);
    assert Grown(w.tasks[p], w'.tasks[p]);
    assert w'.tasks[p].hist[..k] == w.tasks[p].hist[..k];
    assert w'.tasks[p].hist == w.tasks[p].hist || k < |w'.tasks[p].hist|;
    if Outs(P, w, p, k)[i].OfRun? {
      var q := Outs(P, w, p, k)[i].run;
      assert Grown(w.tasks[q], w'.tasks[q]);
      ReachesStable(P, w, w', q, l, n - 1);
    }
    assert ReachesBy(P, w', r, l, n, p, k, i);
  }

  predicate BehindLeaf(env: Env, l: nat, x: Resource) {
    env(l).resources.Done? && x in env(l).resources.v
  }

  /** x is behind some output a task of run r resolved, at any depth. */
  ghost predicate Carried(P: Program, env: Env, w: World, r: Path, x: Resource) {
    exists l: nat, n: nat {:trigger Reaches(P, w, r, l, n)} :: Reaches(P, w, r, l, n) && BehindLeaf(env, l, x)
  }

  ghost predicate NothingInvented(P: Program, env: Env, w: World) {
    forall r, x {:trigger Carried(P, env, w, r, x)} | r in w.accs && x in w.accs[r].deps :: Carried(P, env, w, r, x)
  }

  lemma CarriedLater(P: Program, env: Env, w: World, w': World, r: Path, x: Resource)
    requires Extends(w, w') && OnlyForward(w, w') && Carried(P, env, w, r, x)
    ensures Carried(P, env, w', r, x)
  {
    var l: nat, n: nat :| Reaches(P, w, r, l, n) && BehindLeaf(env, l, x);
    ReachesStable(P, w, w', r, l, n);
  }

  lemma {:induction false} CarriedNow(P: Program, env: Env, w: World, p: Path, pick: nat, e: Effect, w': World, r: Path, x: Resource)
    requires Stepped(P, env, w, p, pick, e, w') && NothingInvented(P, env, w) && OnlyForward(w, w')
    requires r in w'.accs && x in w'.accs[r].deps && !(r in w.accs && x in w.accs[r].deps)
    ensures Carried(P, env, w', r, x)
  {
    EffectGrows(P, env, w, p, pick);
    HomeOfLive(P, env, w, p);
    StepIsLocal(P, env, w, p, e);
    var i := ResourcesArrive(P, env, w, p, pick, x);
    assert w'.tasks[p].hist[..|w.tasks[p].hist|] == w.tasks[p].hist;
    NewResource(P, env, w, w', p, i, r, x);
  }

  lemma StepCarries(P: Program, env: Env, w: World, m: Move)
    requires Inv(P, env, w) && NothingInvented(P, env, w)
    ensures NothingInvented(P, env, Step(P, env, w, m))
  {
    var w' := Step(P, env, w, m);
    if Live(w, m.path) {
      StepExtends(P, env, w, m);
      StepForward(P, env, w, m);
      forall r, x | r in w'.accs && x in w'.accs[r].deps ensures Carried(P, env, w', r, x) {
        if r in w.accs && x in w.accs[r].deps {
          assert Carried(P, env, w, r, x);
          CarriedLater(P, env, w, w', r, x);
        } else {
          CarriedNow(P, env, w, m.path, m.pick, EffectOf(P, env, w, m.path, m.pick), w', r, x);
        }
      }
    }
  }

  /** Resources enter an accumulator only where a resolve's first await is over. */
  lemma {:induction false} ResourcesArrive(P: Program, env: Env, w: World, p: Path, pick: nat, x: Resource) returns (i: nat)
    requires Inv(P, env, w) && Live(w, p) && EffectOf(P, env, w, p, pick).Suspend?
    requires w.tasks[p].ctx.acc.Some? && w.tasks[p].ctx.acc.value in w.accs
    requires x in EffectOf(P, env, w, p, pick).acc.deps && x !in w.accs[w.tasks[p].ctx.acc.value].deps
    ensures P(w.tasks[p].coro, w.tasks[p].hist).Resolve? && i < |P(w.tasks[p].coro, w.tasks[p].hist).outs|
    ensures ResourcesOf(env, w, P(w.tasks[p].coro, w.tasks[p].hist).outs[i]).Done?
    ensures x in ResourcesOf(env, w, P(w.tasks[p].coro, w.tasks[p].hist).outs[i]).v
    ensures var phase := EffectOf(P, env, w, p, pick).phase; !phase.Ready? && !phase.AwaitResources?
  {
    EffectGrows(P, env, w, p, pick);
    var t := w.tasks[p];
    var outs := P(t.coro, t.hist).outs;
    assert t.phase.AwaitResources?;
    var rs := Gathered(Each(outs, o => ResourcesOf(env, w, o)));
    i :| 0 <= i < |rs| && x in rs[i];
    assert ResourcesOf(env, w, outs[i]) == Done(rs[i]);
  }

  lemma NewResource(P: Program, env: Env, w: World, w': World, p: Path, i: nat, a: Path, x: Resource)
    requires NothingInvented(P, env, w) && Extends(w, w') && OnlyForward(w, w')
    requires p in w.tasks && p in w'.tasks && w'.tasks[p].hist == w.tasks[p].hist && Home(p, w.tasks[p]) == Some(a)
    requires Resolved(P, w', p, |w.tasks[p].hist|) && i < |Outs(P, w', p, |w.tasks[p].hist|)|
    requires ResourcesOf(env, w, Outs(P, w', p, |w.tasks[p].hist|)[i]).Done?
    requires x in ResourcesOf(env, w, Outs(P, w', p, |w.tasks[p].hist|)[i]).v
    ensures Carried(P, env, w', a, x)
  {
    assert Grown(w.tasks[p], w'.tasks[p]);
    match Outs(P, w', p, |w.tasks[p].hist|)[i]
    case Leaf(l) =>
      assert ReachesBy(P, w', a, l, 1, p, |w.tasks[p].hist|, i);
      assert Reaches(P, w', a, l, 1);
    case OfRun(q) =>
      assert Carried(P, env, w, q, x);
      var l: nat, n: nat :| Reaches(P, w, q, l, n) && BehindLeaf(env, l, x);
      ReachesStable(P, w, w', q, l, n);
      assert Grown(w.tasks[q], w'.tasks[q]);
      assert ReachesBy(P, w', a, l, n + 1, p, |w.tasks[p].hist|, i);
      assert Reaches(P, w', a, l, n + 1);
  }

  /** What a task that has returned resolved was known, and is recorded. */
  lemma ResolvedUsable(P: Program, env: Env, w: World, p: Path, k: nat, i: nat)
    requires Inv(P, env, w) && ReturnedIn(w, p) && Resolved(P, w, p, k) && i < |Outs(P, w, p, k)|
    ensures k < |w.tasks[p].hist| && Usable(env, w, Outs(P, w, p, k)[i])
    ensures Home(p, w.tasks[p]).Some? && Home(p, w.tasks[p]).value in w.accs
    ensures Recorded(env, w, Outs(P, w, p, k)[i], w.accs[Home(p, w.tasks[p]).value].deps, w.tasks[p].foot)
  {
    var t := w.tasks[p];
    assert GoodTask(P, env, w, p);
    assert t.hist[..|t.hist|] == t.hist;
    assert GoodReply(P, env, w, p, k);
  }

  /** Nothing reached is lost or unknown, once the run and what it resolved have returned with their tasks joined. */
  lemma {:induction false} NothingLost(P: Program, env: Env, w: World, r: Path, l: nat, n: nat)
    requires Structured(P) && Inv(P, env, w) && Settled(w) && ReturnedIn(w, r) && w.tasks[r].isRun
    requires Reaches(P, w, r, l, n)
    ensures Usable(env, w, Leaf(l)) && r in w.accs && env(l).resources.v <= w.accs[r].deps
    decreases n
  {
    assert GoodTask(P, env, w, r);
    var p: Path, k: nat, i: nat :| ReachesBy(P, w, r, l, n, p, k, i);
    WholeRunReturned(P, env, w, r, p);
    ResolvedUsable(P, env, w, p, k, i);
    match Outs(P, w, p, k)[i]
    case Leaf(_) =>
    case OfRun(q) => NothingLost(P, env, w, q, l, n - 1);
  }

  lemma {:induction false} PropagationInvariants(P: Program, env: Env, order: Order, main: Coro, s: seq<Move>)
    ensures NothingInvented(P, env, Run(P, env, Start(order, main), s))
    ensures Structured(P) ==> Settled(Run(P, env, Start(order, main), s))
    decreases |s|
  {
    if s == [] {
    } else {
      var s0 := s[..|s|-1];
      PropagationInvariants(P, env, order, main, s0);
      StartedGood(P, env, order, main, s0);
      StepCarries(P, env, Run(P, env, Start(order, main), s0), s[|s|-1]);
      if Structured(P) {
        StepSettled(P, env, Run(P, env, Start(order, main), s0), s[|s|-1]);
      }
    }
  }

  /** Over any graph of async_outputs resolving one another, in any schedule: an output that returned depends
      on exactly the engine resources transitively behind what its run resolved ... */
  lemma DepsAreTransitiveLeaves(P: Program, env: Env, main: Coro, s: seq<Move>, r: Path, x: Resource)
    requires Structured(P)
    requires ReturnedIn(Run(P, env, Init(main), s), r) && Run(P, env, Init(main), s).tasks[r].isRun
    ensures var w := Run(P, env, Init(main), s);
      r in w.accs && (x in w.accs[r].deps <==> Carried(P, env, w, r, x))
  {
    var w := Run(P, env, Init(main), s);
    ReachableGood(P, env, main, s);
    PropagationInvariants(P, env, ReadFirst, main, s);
    assert GoodTask(P, env, w, r);
    if Carried(P, env, w, r, x) {
      var l: nat, n: nat :| Reaches(P, w, r, l, n) && BehindLeaf(env, l, x);
      NothingLost(P, env, w, r, l, n);
    } else {
      assert x in w.accs[r].deps ==> Carried(P, env, w, r, x);
    }
  }

  /** ... and it is known only if all of those engine outputs, however many async_outputs down, were known. */
  lemma KnownOnlyIfAllKnown(P: Program, env: Env, main: Coro, s: seq<Move>, r: Path, l: nat, n: nat)
    requires var w := Run(P, env, Init(main), s);
      Structured(P) && ReturnedIn(w, r) && w.tasks[r].isRun && Reaches(P, w, r, l, n)
    ensures env(l).known == Done(true) && env(l).value.Done? && !ContainsUnknowns(env(l).value.v)
    ensures r in Run(P, env, Init(main), s).accs
    ensures env(l).resources.Done? && env(l).resources.v <= Run(P, env, Init(main), s).accs[r].deps
  {
    ReachableGood(P, env, main, s);
    PropagationInvariants(P, env, ReadFirst, main, s);
    NothingLost(P, env, Run(P, env, Init(main), s), r, l, n);
  }
}
