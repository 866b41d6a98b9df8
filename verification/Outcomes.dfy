/** What the output of an async_output shows of its run. */
module Outcomes {
  import opened Scope
  import opened Protocol
  import opened Machine
  import opened Invariants
  import opened Reachability

  lemma {:induction false} RunAppend(P: Program, env: Env, w: World, s: seq<Move>, s': seq<Move>)
    ensures Run(P, env, w, s + s') == Run(P, env, Run(P, env, w, s), s')
    decreases |s'|
  {
    if s' == [] {
      assert s + s' == s;
    } else {
      assert (s + s')[..|s + s'|-1] == s + s'[..|s'|-1];
      RunAppend(P, env, w, s, s'[..|s'|-1]);
    }
  }

  lemma LaterExtends(P: Program, env: Env, main: Coro, s: seq<Move>, more: seq<Move>)
    ensures Inv(P, env, Run(P, env, Init(main), s)) && Inv(P, env, Run(P, env, Init(main), s + more))
    ensures Extends(Run(P, env, Init(main), s), Run(P, env, Init(main), s + more))
  {
    ReachableGood(P, env, main, s);
    RunAppend(P, env, Init(main), s, more);
    RunKeepsInv(P, env, Run(P, env, Init(main), s), more);
  }

  // ---- the unknown handshake --------------------------------------------------------------------

  /** The task awaits something unknown: an output that has turned out so, or a child that met one. */
  ghost predicate MeetsUnknown(P: Program, env: Env, w: World, p: Path)
    requires p in w.tasks
  {
    match P(w.tasks[p].coro, w.tasks[p].hist)
    case Resolve(outs) => exists i | 0 <= i < |outs| :: MakesUnknown(env, w, outs[i])
    case Join(children) => exists i | 0 <= i < |children| :: ChildResult(w, p, children[i]) == Some(Aborted)
    case _ => false
  }

  lemma NeverUsable(P: Program, env: Env, w: World, w': World, o: OutRef)
    requires Inv(P, env, w) && Extends(w, w') && MakesUnknown(env, w, o)
    ensures !Usable(env, w', o)
  {
    FuturesStable(env, w, w', o);
    if o.OfRun? && RunResult(w, o.run).Some? {
      assert Grown(w.tasks[o.run], w'.tasks[o.run]);
    }
  }

  /** A task that meets an unknown executes nothing further, in any continuation: it stays where it is, or ends
      without a value. */
  lemma {:induction false} UnknownStopsTheTask(P: Program, env: Env, main: Coro, s: seq<Move>, more: seq<Move>, p: Path)
    requires p in Run(P, env, Init(main), s).tasks && MeetsUnknown(P, env, Run(P, env, Init(main), s), p)
    ensures p in Run(P, env, Init(main), s + more).tasks
    ensures var t, t' := Run(P, env, Init(main), s).tasks[p], Run(P, env, Init(main), s + more).tasks[p];
      && t'.hist == t.hist && t'.ctx.stack == t.ctx.stack
      && (t'.result.Some? ==> !t'.result.value.Returned?)
  {
    var w, w' := Run(P, env, Init(main), s), Run(P, env, Init(main), s + more);
    LaterExtends(P, env, main, s, more);
    var t, t' := w.tasks[p], w'.tasks[p];
    assert Grown(t, t');
    assert GoodTask(P, env, w, p) && GoodTask(P, env, w', p);
    var k := |t.hist|;
    assert t'.hist[..k] == t.hist == t.hist[..k];
    if |t'.hist| > k {
      assert GoodReply(P, env, w', p, k);
      match P(t.coro, t.hist)
      case Resolve(outs) =>
        var i :| 0 <= i < |outs| && MakesUnknown(env, w, outs[i]);
        NeverUsable(P, env, w, w', outs[i]);
      case Join(children) =>
        var i :| 0 <= i < |children| && ChildResult(w, p, children[i]) == Some(Aborted);
        ChildStable(w, w', p, children[i]);
      case _ =>
    }
  }

  /** Task q, of the same run as p, ended in the handshake at a resolve of an unknown, with every output of that
      resolve recorded in the run's accumulator. */
  ghost predicate AbortingResolve(P: Program, env: Env, w: World, p: Path, q: Path)
    requires p in w.tasks
  {
    && q in w.tasks && p <= q && Home(q, w.tasks[q]) == Home(p, w.tasks[p]) && w.tasks[q].result == Some(Aborted)
    && P(w.tasks[q].coro, w.tasks[q].hist).Resolve? && MeetsUnknown(P, env, w, q)
    && AllRecorded(env, w, q, P(w.tasks[q].coro, w.tasks[q].hist).outs)
  }

  function Below(w: World, p: Path): set<Path> {
    set c | c in w.tasks && p <= c
  }

  /** Down the chain of joins a handshake came up through, to the resolve it started at. */
  lemma {:induction false} AbortSource(P: Program, env: Env, w: World, p: Path) returns (q: Path)
    requires Inv(P, env, w) && p in w.tasks && w.tasks[p].result == Some(Aborted)
    ensures AbortingResolve(P, env, w, p, q)
    decreases Below(w, p)
  {
    assert GoodTask(P, env, w, p);
    match P(w.tasks[p].coro, w.tasks[p].hist)
    case Resolve(_) => q := p;
    case Join(children) =>
      var i :| 0 <= i < |children| && ChildResult(w, p, children[i]) == Some(Aborted);
      var c := p + [children[i]];
      LinkOf(P, env, w, c);
      assert Parent(c) == p;
      assert Below(w, c) <= Below(w, p) && p in Below(w, p) && p !in Below(w, c);
      q := AbortSource(P, env, w, c);
  }

  /** An aborted run shows no value and is unknown.  The handshake started at a resolve of its own or of a task below
      it, of the same run, reached through joins; the resources behind every output of that resolve, and of every
      resolve the task itself got to, are among the run's dependencies, then and in every later state. */
  lemma AbortIsComplete(P: Program, env: Env, main: Coro, s: seq<Move>, more: seq<Move>, p: Path)
    requires p in Run(P, env, Init(main), s).tasks && Run(P, env, Init(main), s).tasks[p].result == Some(Aborted)
    ensures var t := Run(P, env, Init(main), s).tasks[p]; var w' := Run(P, env, Init(main), s + more);
      && p in w'.tasks && w'.tasks[p] == t
      && (t.isRun ==> Outcome(w', p) == Done(RunTuple(p, Nothing, false, t.snap.secret)))
      && (exists q :: AbortingResolve(P, env, w', p, q))
      && (forall k | 0 <= k <= |t.hist| && P(t.coro, t.hist[..k]).Resolve? ::
            AllRecorded(env, w', p, P(t.coro, t.hist[..k]).outs))
  {
    var w, w' := Run(P, env, Init(main), s), Run(P, env, Init(main), s + more);
    LaterExtends(P, env, main, s, more);
    var t := w.tasks[p];
    assert Grown(t, w'.tasks[p]);
    var q := AbortSource(P, env, w', p);
    assert GoodTask(P, env, w', p);
    forall k | 0 <= k <= |t.hist| && P(t.coro, t.hist[..k]).Resolve?
      ensures AllRecorded(env, w', p, P(t.coro, t.hist[..k]).outs)
    {
      assert t.hist[..|t.hist|] == t.hist;
      if k < |t.hist| {
        assert GoodReply(P, env, w', p, k);
      }
    }
  }

  /** No coroutine ever receives the sentinel from a resolve, however deep inside the value. */
  lemma RepliesArePlain(P: Program, env: Env, main: Coro, s: seq<Move>, p: Path, k: nat)
    requires p in Run(P, env, Init(main), s).tasks && k < |Run(P, env, Init(main), s).tasks[p].hist|
    requires var t := Run(P, env, Init(main), s).tasks[p]; P(t.coro, t.hist[..k]).Resolve?
    ensures !HoldsUnknown(Run(P, env, Init(main), s).tasks[p].hist[k])
  {
    var w := Run(P, env, Init(main), s);
    ReachableGood(P, env, main, s);
    assert GoodTask(P, env, w, p) && GoodReply(P, env, w, p, k);
    var outs := P(w.tasks[p].coro, w.tasks[p].hist[..k]).outs;
    var vs := seq(|outs|, i requires 0 <= i < |outs| => UsedValue(env, w, outs[i]));
    forall i | 0 <= i < |vs| ensures !HoldsUnknown(vs[i]) {
      ContainsIffHolds(vs[i]);
    }
    PackIsPlain(vs);
  }

  // ---- the four futures ------------------------------------------------------------------------

  /** The four futures of the output of q: to come, broken, or what the task ended in.  The resources are whatever the
      run's accumulator holds at this moment, the secret flag is the one it held at the end. */
  ghost predicate FuturesShow(env: Env, w: World, q: Path) {
    var resources, value, known, secret := ResourcesOf(env, w, OfRun(q)), ValueOf(env, w, OfRun(q)), KnownOf(env, w, OfRun(q)), SecretOf(env, w, OfRun(q));
    if q !in w.tasks || !w.tasks[q].isRun || w.tasks[q].result == None then
      resources == Pending && value == Pending && known == Pending && secret == Pending
    else if w.tasks[q].result == Some(Failed) then
      resources == Broken && value == Broken && known == Broken && secret == Broken
    else
      && q in w.accs && resources == Done(w.accs[q].deps) && secret == Done(w.tasks[q].snap.secret)
      && (forall v :: w.tasks[q].result == Some(Returned(v)) ==> value == Done(v) && known == Done(true))
      && (w.tasks[q].result == Some(Aborted) ==> value == Done(Nothing) && known == Done(false))
  }

  lemma RunFutures(P: Program, env: Env, w: World, q: Path)
    requires Inv(P, env, w)
    ensures FuturesShow(env, w, q)
  {
    if q in w.tasks {
      assert GoodTask(P, env, w, q);
    }
  }

  /** The four futures describe one run, in every state.  Once it has ended, value, known and secret are one snapshot
      for good; the resources are the live set, so whoever reads it later sees at least the dependencies at the end. */
  lemma FourFuturesOfOneRun(P: Program, env: Env, main: Coro, s: seq<Move>, more: seq<Move>, q: Path)
    ensures FuturesShow(env, Run(P, env, Init(main), s), q)
    ensures var w, w', o := Run(P, env, Init(main), s), Run(P, env, Init(main), s + more), OfRun(q);
      q in w.tasks && w.tasks[q].isRun && w.tasks[q].result != None ==>
        && q in w'.tasks && w'.tasks[q].result == w.tasks[q].result
        && ValueOf(env, w', o) == ValueOf(env, w, o)
        && KnownOf(env, w', o) == KnownOf(env, w, o)
        && SecretOf(env, w', o) == SecretOf(env, w, o)
        && q in w.accs && q in w'.accs && w.tasks[q].snap.deps <= w.accs[q].deps <= w'.accs[q].deps
  {
    var w, w' := Run(P, env, Init(main), s), Run(P, env, Init(main), s + more);
    LaterExtends(P, env, main, s, more);
    RunFutures(P, env, w, q);
    if q in w.tasks {
      assert Grown(w.tasks[q], w'.tasks[q]);
      assert GoodTask(P, env, w, q);
      FuturesStable(env, w, w', OfRun(q));
    }
  }

  /** The snapshot is taken by the step that ends the run: the flag as the accumulator has it then. */
  lemma {:induction false} SnapshotAtTheReturn(P: Program, env: Env, main: Coro, s: seq<Move>, m: Move, q: Path)
    requires Live(Run(P, env, Init(main), s), q) && Run(P, env, Init(main), s).tasks[q].isRun
    requires RunResult(Run(P, env, Init(main), s + [m]), q).Some?
    ensures var w, w' := Run(P, env, Init(main), s), Run(P, env, Init(main), s + [m]);
      && m.path == q && q in w.accs
      && w'.tasks[q].snap == w.accs[q] == w'.accs[q]
      && w'.tasks[q].ctx.acc == w.tasks[q].token
      && (w'.tasks[q].result != Some(Failed) ==> SecretOf(env, w', OfRun(q)) == Done(w.accs[q].secret))
  {
    var w := Run(P, env, Init(main), s);
    assert (s + [m])[..|s|] == s;
    ReachableGood(P, env, main, s);
    assert GoodTask(P, env, w, q);
    if m.path != q && Live(w, m.path) {
      EffectGrows(P, env, w, m.path, m.pick);
      HomeOfLive(P, env, w, m.path);
      StepIsLocal(P, env, w, m.path, EffectOf(P, env, w, m.path, m.pick));
    }
  }
}
