/** What a task's copy of the two ContextVars holds. */
module Isolation {
  import opened Scope
  import opened Protocol
  import opened Machine
  import opened Invariants
  import opened Reachability

  // ---- the accumulator ---------------------------------------------------------------------------

  /** The nearest enclosing async_output in the tree of forks, the task itself included. */
  function NearestRun(w: World, p: Path): Option<Path>
    decreases |p|
  {
    if p !in w.tasks then None
    else if w.tasks[p].isRun then Some(p)
    else if p == [] then None
    else NearestRun(w, Parent(p))
  }

  lemma {:induction false} HomeIsNearestRun(P: Program, env: Env, w: World, p: Path)
    requires Inv(P, env, w) && p in w.tasks
    ensures Home(p, w.tasks[p]) == NearestRun(w, p)
    decreases |p|
  {
    LinkOf(P, env, w, p);
    if !w.tasks[p].isRun && p != [] {
      HomeIsNearestRun(P, env, w, Parent(p));
    }
  }

  /** In every reachable state the accumulator in a task's context is that of its nearest enclosing run, and none
      outside any; a finished run has reset its context to the one it was started in. */
  lemma AccumulatorIsNearestRun(P: Program, env: Env, main: Coro, s: seq<Move>, p: Path)
    requires p in Run(P, env, Init(main), s).tasks
    ensures var w := Run(P, env, Init(main), s); var t := w.tasks[p];
      t.ctx.acc == if t.isRun && t.result.Some?
                   then (if p == [] then None else NearestRun(w, Parent(p)))
                   else NearestRun(w, p)
  {
    var w := Run(P, env, Init(main), s);
    ReachableGood(P, env, main, s);
    assert GoodTask(P, env, w, p);
    HomeIsNearestRun(P, env, w, p);
    if p != [] {
      HomeIsNearestRun(P, env, w, Parent(p));
    }
  }

  /** So a step writes into no sibling, outer or inner run's accumulator; it may only add an empty one.
      Other tasks' contexts, stacks and replies stay as they are. */
  lemma {:induction false} StepsStayInside(P: Program, env: Env, main: Coro, s: seq<Move>, m: Move)
    ensures var w := Run(P, env, Init(main), s); var w' := Run(P, env, Init(main), s + [m]);
      && (forall a | a in w.accs && NearestRun(w, m.path) != Some(a) :: a in w'.accs && w'.accs[a] == w.accs[a])
      && (forall a | a in w'.accs && a !in w.accs :: w'.accs[a] == FRESH)
      && (forall q | q in w.tasks && q != m.path :: q in w'.tasks && w'.tasks[q] == w.tasks[q])
  {
    var w := Run(P, env, Init(main), s);
    assert (s + [m])[..|s|] == s;
    ReachableGood(P, env, main, s);
    if Live(w, m.path) {
      HomeIsNearestRun(P, env, w, m.path);
      EffectGrows(P, env, w, m.path, m.pick);
      HomeOfLive(P, env, w, m.path);
      StepIsLocal(P, env, w, m.path, EffectOf(P, env, w, m.path, m.pick));
    }
  }

  // ---- the scope ---------------------------------------------------------------------------------

  /** The declaration a task is about to make, if that is its next action: whether it names a parent. */
  function Declares(a: Action): Option<bool> {
    match a
    case Declare(parented) => Some(parented)
    case Build(_, Some(_), parented) => Some(parented)
    case _ => None
  }

  function Next(P: Program, t: Task): Action {
    P(t.coro, t.hist)
  }

  /** In every interleaving a task's stack is its own actions replayed on the stack copied at its fork, that copy
      is its parent's own actions replayed up to the fork, every declaration it got through passes that replay ... */
  lemma ScopeIsOwnReplay(P: Program, env: Env, main: Coro, s: seq<Move>, p: Path)
    requires p in Run(P, env, Init(main), s).tasks
    ensures var w := Run(P, env, Init(main), s); var t := w.tasks[p];
      && t.ctx.stack == Replay(P, p, t.coro, t.base, t.hist)
      && (p == [] ==> t.base == [])
      && (p != [] ==> Parent(p) in w.tasks && Place(p) <= |w.tasks[Parent(p)].hist|
                      && t.base == ScopeAt(P, Parent(p), w.tasks[Parent(p)], Place(p)))
      && (forall k | 0 <= k < |t.hist| && Declares(P(t.coro, t.hist[..k])).Some? ::
            Refusal(ScopeAt(P, p, t, k), Declares(P(t.coro, t.hist[..k])).value).None?)
  {
    var w := Run(P, env, Init(main), s);
    var t := w.tasks[p];
    ReachableGood(P, env, main, s);
    assert GoodTask(P, env, w, p);
    assert t.hist[..|t.hist|] == t.hist;
    forall k | 0 <= k < |t.hist| && Declares(P(t.coro, t.hist[..k])).Some?
      ensures Refusal(ScopeAt(P, p, t, k), Declares(P(t.coro, t.hist[..k])).value).None?
    {
      assert GoodReply(P, env, w, p, k);
    }
  }

  lemma StepVerdict(P: Program, env: Env, w: World, p: Path, pick: nat)
    requires Live(w, p) && Declares(Next(P, w.tasks[p])).Some?
    ensures var t := w.tasks[p]; var t' := Step(P, env, w, Move(p, pick)).tasks[p];
      if Refusal(t.ctx.stack, Declares(Next(P, t)).value).Some?
      then t'.result == Some(Failed) && t'.hist == t.hist && t'.ctx.stack == t.ctx.stack
      else t'.result == None && |t'.hist| == |t.hist| + 1
  {
  }

  /** ... and the next one is refused exactly when that replay says so, whatever the other tasks have done. */
  lemma {:induction false} VerdictIsOwnReplay(P: Program, env: Env, main: Coro, s: seq<Move>, p: Path, pick: nat)
    requires Live(Run(P, env, Init(main), s), p)
    requires Declares(Next(P, Run(P, env, Init(main), s).tasks[p])).Some?
    ensures var t := Run(P, env, Init(main), s).tasks[p]; var t' := Run(P, env, Init(main), s + [Move(p, pick)]).tasks[p];
      var refused := Refusal(Replay(P, p, t.coro, t.base, t.hist), Declares(Next(P, t)).value).Some?;
      && (refused ==> t'.result == Some(Failed) && t'.hist == t.hist && t'.ctx.stack == t.ctx.stack)
      && (!refused ==> t'.result == None && |t'.hist| == |t.hist| + 1)
  {
    var m := Move(p, pick);
    assert (s + [m])[..|s|] == s;
    ScopeIsOwnReplay(P, env, main, s, p);
    StepVerdict(P, env, Run(P, env, Init(main), s), p, pick);
  }

  /** Birth order along the tree of forks: an ancestor's frame before a descendant's, one task's in order. */
  predicate BornBefore(f: ScopeFrame, g: ScopeFrame) {
    |f.id.0| < |g.id.0| || (f.id.0 == g.id.0 && f.id.1 < g.id.1)
  }

  /** The frame was begun by p before its n-th action, or by an ancestor before it forked towards p. */
  predicate InheritedOrOwn(f: ScopeFrame, p: Path, n: nat) {
    f.id.0 <= p && f.id.1 < (if f.id.0 == p then n else p[|f.id.0|])
  }

  ghost predicate WellStacked(stack: seq<ScopeFrame>, p: Path, n: nat) {
    && (forall i, j | 0 <= i < j < |stack| :: BornBefore(stack[i], stack[j]))
    && (forall i | 0 <= i < |stack| :: InheritedOrOwn(stack[i], p, n))
  }

  lemma {:induction false} ReplayWellStacked(P: Program, p: Path, coro: Coro, base: seq<ScopeFrame>, hist: seq<Val>)
    requires WellStacked(base, p, 0)
    ensures WellStacked(Replay(P, p, coro, base, hist), p, |hist|)
    decreases |hist|
  {
    if hist == [] {
    } else {
      var h := hist[..|hist|-1];
      ReplayWellStacked(P, p, coro, base, h);
      var before, after := Replay(P, p, coro, base, h), Replay(P, p, coro, base, hist);
      assert after <= before || (|after| == |before| + 1 && before <= after && after[|before|].id == (p, |h|));
      forall i | 0 <= i < |after| ensures InheritedOrOwn(after[i], p, |hist|) {
        if i < |before| {
          assert after[i] == before[i];
          assert InheritedOrOwn(before[i], p, |h|);
        }
      }
      forall i, j | 0 <= i < j < |after| ensures BornBefore(after[i], after[j]) {
        assert after[i] == before[i];
        if j < |before| {
          assert after[j] == before[j];
        } else {
          assert InheritedOrOwn(before[i], p, |h|);
        }
      }
    }
  }

  /** In every reachable state the frames of a stack are in strict birth order, hence pairwise different frames
      even where they agree on name and type, and each was begun by the task or by an ancestor before the fork. */
  lemma {:induction false} FramesAreOrdered(P: Program, env: Env, main: Coro, s: seq<Move>, p: Path)
    requires p in Run(P, env, Init(main), s).tasks
    ensures var t := Run(P, env, Init(main), s).tasks[p]; WellStacked(t.ctx.stack, p, |t.hist|) && WellStacked(t.base, p, 0)
    decreases |p|
  {
    var w := Run(P, env, Init(main), s);
    var t := w.tasks[p];
    ScopeIsOwnReplay(P, env, main, s, p);
    if p != [] {
      var u := Parent(p);
      FramesAreOrdered(P, env, main, s, u);
      ReplayWellStacked(P, u, w.tasks[u].coro, w.tasks[u].base, w.tasks[u].hist[..Place(p)]);
      forall i | 0 <= i < |t.base| ensures InheritedOrOwn(t.base[i], p, 0) {
        assert InheritedOrOwn(t.base[i], u, Place(p));
      }
    }
    ReplayWellStacked(P, p, t.coro, t.base, t.hist);
  }

  /** The frame carries the name and the type of the component whose `__init__` put it there. */
  ghost predicate TellsItsComponent(P: Program, w: World, f: ScopeFrame) {
    && f.id.0 in w.tasks && f.id.1 < |w.tasks[f.id.0].hist|
    && var a := P(w.tasks[f.id.0].coro, w.tasks[f.id.0].hist[..f.id.1]);
       a.Build? && a.name == f.name && a.token == Some(f.type_)
  }

  ghost predicate AllTell(P: Program, w: World, stack: seq<ScopeFrame>) {
    forall i {:trigger stack[i]} | 0 <= i < |stack| :: TellsItsComponent(P, w, stack[i])
  }

  lemma {:induction false} ReplayTells(P: Program, w: World, p: Path, k: nat)
    requires p in w.tasks && k <= |w.tasks[p].hist| && AllTell(P, w, w.tasks[p].base)
    ensures AllTell(P, w, ScopeAt(P, p, w.tasks[p], k))
    decreases k
  {
    var t := w.tasks[p];
    if k == 0 {
    } else {
      ReplayTells(P, w, p, k - 1);
      assert t.hist[..k][..k-1] == t.hist[..k-1];
      var before, after := ScopeAt(P, p, t, k - 1), ScopeAt(P, p, t, k);
      forall i | 0 <= i < |after| ensures TellsItsComponent(P, w, after[i]) {
        if i < |before| { assert after[i] == before[i]; }
      }
    }
  }

  /** In every reachable state what a refusal says of the component it names -- name and type -- is what that
      component was built with. */
  lemma {:induction false} FramesTellTheirComponents(P: Program, env: Env, main: Coro, s: seq<Move>, p: Path)
    requires p in Run(P, env, Init(main), s).tasks
    ensures var w := Run(P, env, Init(main), s); AllTell(P, w, w.tasks[p].ctx.stack) && AllTell(P, w, w.tasks[p].base)
    decreases |p|
  {
    var w := Run(P, env, Init(main), s);
    var t := w.tasks[p];
    ScopeIsOwnReplay(P, env, main, s, p);
    if p == [] {
    } else {
      FramesTellTheirComponents(P, env, main, s, Parent(p));
      ReplayTells(P, w, Parent(p), Place(p));
    }
    assert t.hist[..|t.hist|] == t.hist;
    ReplayTells(P, w, p, |t.hist|);
  }

  // ---- one component's lifetime -------------------------------------------------------------------

  /** Between positions k and j the task closes nothing that stood at k, nor the component begun at k. */
  ghost predicate LeavesBelow(P: Program, p: Path, t: Task, k: nat, j: nat, f: ScopeFrame)
    requires k <= j <= |t.hist|
  {
    forall i {:trigger t.hist[..i]} | k < i < j && P(t.coro, t.hist[..i]).Close? ::
      P(t.coro, t.hist[..i]).frame !in ScopeAt(P, p, t, k) + [f]
  }

  lemma {:induction false} FrameStays(P: Program, p: Path, t: Task, k: nat, j: nat, f: ScopeFrame)
    requires k < j <= |t.hist| && LeavesBelow(P, p, t, k, j, f)
    requires ScopeAt(P, p, t, k + 1) == ScopeAt(P, p, t, k) + [f]
    ensures ScopeAt(P, p, t, k) + [f] <= ScopeAt(P, p, t, j)
    decreases j
  {
    if j == k + 1 {
    } else {
      FrameStays(P, p, t, k, j - 1, f);
      assert t.hist[..j][..j-1] == t.hist[..j-1];
      match P(t.coro, t.hist[..j-1]) {
        case Close(frame) => CutKeepsPrefix(ScopeAt(P, p, t, j - 1), frame, ScopeAt(P, p, t, k) + [f]);
        case _ =>
      }
    }
  }

  /** On the machine, in every interleaving: from a component's `__init__` at k to its close at j, whatever is begun
      in between and not closed, nothing unparented got through, and the close restores the stack as it was at k. */
  lemma {:induction false} ComponentLifetime(P: Program, env: Env, main: Coro, s: seq<Move>, p: Path, k: nat, j: nat)
    requires p in Run(P, env, Init(main), s).tasks && k < j < |Run(P, env, Init(main), s).tasks[p].hist|
    requires var t := Run(P, env, Init(main), s).tasks[p]; var a := P(t.coro, t.hist[..k]);
      && a.Build? && a.token.Some?
      && P(t.coro, t.hist[..j]) == Close(OwnFrame(p, k, a.name, a.token.value))
      && LeavesBelow(P, p, t, k, j, OwnFrame(p, k, a.name, a.token.value))
    ensures var t := Run(P, env, Init(main), s).tasks[p];
      && ScopeAt(P, p, t, j + 1) == ScopeAt(P, p, t, k)
      && (forall i | k < i <= j :: Declares(P(t.coro, t.hist[..i])) != Some(false))
  {
    var t := Run(P, env, Init(main), s).tasks[p];
    var a := P(t.coro, t.hist[..k]);
    var f := OwnFrame(p, k, a.name, a.token.value);
    var before := ScopeAt(P, p, t, k);
    FramesAreOrdered(P, env, main, s, p);
    ReplayWellStacked(P, p, t.coro, t.base, t.hist[..k]);
    assert f !in before by {
      assert forall i | 0 <= i < |before| :: InheritedOrOwn(before[i], p, k);
    }
    assert t.hist[..k+1][..k] == t.hist[..k];
    FrameStays(P, p, t, k, j, f);
    assert t.hist[..j+1][..j] == t.hist[..j];
    CutUndoesPush(before, f, ScopeAt(P, p, t, j));
    ScopeIsOwnReplay(P, env, main, s, p);
    forall i | k < i <= j ensures Declares(P(t.coro, t.hist[..i])) != Some(false) {
      FrameStays(P, p, t, k, i, f);
    }
  }

  /** The same while the component is still open: since its `__init__` at k nothing unparented got through, and if the
      task comes to an unparented declaration next, that is refused, after it or a component begun after it. */
  lemma {:induction false} OpenComponentRefuses(P: Program, env: Env, main: Coro, s: seq<Move>, p: Path, k: nat, pick: nat)
    requires p in Run(P, env, Init(main), s).tasks && k < |Run(P, env, Init(main), s).tasks[p].hist|
    requires var t := Run(P, env, Init(main), s).tasks[p]; var a := P(t.coro, t.hist[..k]);
      a.Build? && a.token.Some? && LeavesBelow(P, p, t, k, |t.hist|, OwnFrame(p, k, a.name, a.token.value))
    ensures var t := Run(P, env, Init(main), s).tasks[p];
      forall i | k < i < |t.hist| :: Declares(P(t.coro, t.hist[..i])) != Some(false)
    ensures var t := Run(P, env, Init(main), s).tasks[p]; var a := P(t.coro, t.hist[..k]);
      t.result.None? && Declares(Next(P, t)) == Some(false) ==>
        && Run(P, env, Init(main), s + [Move(p, pick)]).tasks[p].result == Some(Failed)
        && Refusal(t.ctx.stack, false).Some?
        && var named := Refusal(t.ctx.stack, false).value;
           named == Frame((p, k), a.name, a.token.value) || BornBefore(Frame((p, k), a.name, a.token.value), named)
    ensures var t := Run(P, env, Init(main), s).tasks[p];
      forall i | 0 <= i < |t.ctx.stack| :: TellsItsComponent(P, Run(P, env, Init(main), s), t.ctx.stack[i])
  {
    var t := Run(P, env, Init(main), s).tasks[p];
    var a := P(t.coro, t.hist[..k]);
    var f := OwnFrame(p, k, a.name, a.token.value);
    var before := ScopeAt(P, p, t, k);
    assert t.hist[..k+1][..k] == t.hist[..k];
    ScopeIsOwnReplay(P, env, main, s, p);
    forall i | k < i < |t.hist| ensures Declares(P(t.coro, t.hist[..i])) != Some(false) {
      FrameStays(P, p, t, k, i, f);
    }
    assert t.hist[..|t.hist|] == t.hist;
    FrameStays(P, p, t, k, |t.hist|, f);
    FramesAreOrdered(P, env, main, s, p);
    FramesTellTheirComponents(P, env, main, s, p);
    assert t.ctx.stack[|before|] == f;
    if t.result.None? && Declares(Next(P, t)) == Some(false) {
      VerdictIsOwnReplay(P, env, main, s, p, pick);
    }
  }

  // ---- deferral ----------------------------------------------------------------------------------

  /** The task never closes a component it inherited from where it was forked. */
  ghost predicate KeepsInherited(P: Program, t: Task) {
    forall k {:trigger t.hist[..k]} | 0 <= k < |t.hist| && P(t.coro, t.hist[..k]).Close? ::
      P(t.coro, t.hist[..k]).frame !in t.base
  }

  lemma {:induction false} ReplayKeepsBase(P: Program, p: Path, t: Task, k: nat)
    requires KeepsInherited(P, t) && k <= |t.hist|
    ensures t.base <= ScopeAt(P, p, t, k)
    decreases k
  {
    if k == 0 {
    } else {
      ReplayKeepsBase(P, p, t, k - 1);
      assert t.hist[..k][..k-1] == t.hist[..k-1];
      var stack := ScopeAt(P, p, t, k - 1);
      match P(t.coro, t.hist[..k-1]) {
        case Close(frame) => CutKeepsPrefix(stack, frame, t.base);
        case _ =>
      }
    }
  }

  /** Work deferred from inside a component keeps the component's scope for good: whatever has become of the
      constructor's own stack, the inherited frames stay at the bottom of the task's, nothing unparented has got
      through, and an unparented declaration it comes to is refused. */
  lemma ScopeSurvivesDeferral(P: Program, env: Env, main: Coro, s: seq<Move>, p: Path, pick: nat)
    requires p in Run(P, env, Init(main), s).tasks
    requires Run(P, env, Init(main), s).tasks[p].base != [] && KeepsInherited(P, Run(P, env, Init(main), s).tasks[p])
    ensures var t := Run(P, env, Init(main), s).tasks[p];
      && t.base <= t.ctx.stack
      && (forall k | 0 <= k < |t.hist| :: Declares(P(t.coro, t.hist[..k])) != Some(false))
    ensures var t := Run(P, env, Init(main), s).tasks[p];
      t.result.None? && Declares(Next(P, t)) == Some(false)
      ==> Run(P, env, Init(main), s + [Move(p, pick)]).tasks[p].result == Some(Failed)
  {
    var w := Run(P, env, Init(main), s);
    var t := w.tasks[p];
    ScopeIsOwnReplay(P, env, main, s, p);
    assert t.hist[..|t.hist|] == t.hist;
    ReplayKeepsBase(P, p, t, |t.hist|);
    forall k | 0 <= k < |t.hist| ensures Declares(P(t.coro, t.hist[..k])) != Some(false) {
      ReplayKeepsBase(P, p, t, k);
    }
    if t.result.None? && Declares(Next(P, t)) == Some(false) {
      VerdictIsOwnReplay(P, env, main, s, p, pick);
    }
  }
}
