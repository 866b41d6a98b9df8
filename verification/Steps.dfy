/** What one step does, said of the outputs a task awaits and of nothing in between: the reference the machine's
    segments are held against. */
module Steps {
  import opened Scope
  import opened Protocol
  import opened Machine
  import opened Invariants
  import opened Reachability
  import opened Outcomes

  /** A task at a resolve inside a run, not ended. */
  ghost predicate InResolve(P: Program, w: World, p: Path, outs: seq<OutRef>) {
    && p in w.tasks && w.tasks[p].result == None
    && P(w.tasks[p].coro, w.tasks[p].hist) == Resolve(outs) && outs != []
    && w.tasks[p].ctx.acc.Some? && w.tasks[p].ctx.acc.value in w.accs
  }

  /** Nothing happened but to task p and to the accumulator it writes to. */
  ghost predicate OnlyTask(w: World, w': World, p: Path) {
    && p in w.tasks && w'.order == w.order && w'.tasks.Keys == w.tasks.Keys && w'.accs.Keys == w.accs.Keys
    && (forall q | q in w.tasks && q != p :: w'.tasks[q] == w.tasks[q])
    && (forall a | a in w.accs && w.tasks[p].ctx.acc != Some(a) :: w'.accs[a] == w.accs[a])
  }

  /** The task is at another await; it has used more, perhaps, and nothing else about it is new. */
  ghost predicate MovesTo(w: World, w': World, p: Path, phase: Phase) {
    OnlyTask(w, w', p) && w'.tasks[p] == w.tasks[p].(phase := phase, foot := w'.tasks[p].foot)
  }

  /** The task has performed its action and has the reply v. */
  ghost predicate Replies(w: World, w': World, p: Path, v: Val, stack: seq<ScopeFrame>) {
    && OnlyTask(w, w', p) && w'.accs == w.accs
    && w'.tasks[p] == w.tasks[p].(hist := w.tasks[p].hist + [v], phase := Ready, foot := w'.tasks[p].foot,
                                  ctx := w.tasks[p].ctx.(stack := stack))
  }

  /** The task has ended, with nothing done: a run has left its accumulator and kept what was in it. */
  ghost predicate Ends(w: World, w': World, p: Path, r: Result) {
    && OnlyTask(w, w', p) && w'.accs == w.accs
    && var t, t' := w.tasks[p], w'.tasks[p];
       && t'.result == Some(r) && t'.hist == t.hist && t'.ctx.stack == t.ctx.stack
       && (t.isRun && p in w.accs ==> t'.snap == w.accs[p] && t'.ctx.acc == t.token)
  }

  predicate Delivers<T>(f: OutRef -> Fut<T>, outs: seq<OutRef>) {
    forall i | 0 <= i < |outs| :: f(outs[i]).Done?
  }

  predicate Raises<T>(f: OutRef -> Fut<T>, outs: seq<OutRef>, pick: nat) {
    pick < |outs| && f(outs[pick]).Broken?
  }

  // ---- what the effects of a segment come to -------------------------------------------------------------

  lemma EndApplies(w: World, p: Path, r: Result)
    requires p in w.tasks
    ensures Ends(w, Apply(w, p, End(r)), p, r)
  {
  }

  lemma SuspendApplies(w: World, p: Path, phase: Phase, acc: Acc, foot: set<Resource>)
    requires p in w.tasks && w.tasks[p].ctx.acc.Some? && w.tasks[p].ctx.acc.value in w.accs
    ensures var w' := Apply(w, p, Suspend(phase, acc, foot));
      MovesTo(w, w', p, phase) && w'.accs == w.accs[w.tasks[p].ctx.acc.value := acc]
  {
  }

  lemma ReplyApplies(w: World, p: Path, v: Val, stack: seq<ScopeFrame>, foot: set<Resource>)
    requires p in w.tasks
    ensures Replies(w, Apply(w, p, Reply(v, stack, foot)), p, v, stack)
  {
  }

  /** gather: the exception it is given first, or everything, or nothing yet. */
  lemma GatherIs<T>(f: OutRef -> Fut<T>, outs: seq<OutRef>, pick: nat)
    ensures var got := Awaited(Each(outs, f), pick);
      if Raises(f, outs, pick) then got.Broken?
      else if Delivers(f, outs) then got.Done? && |got.v| == |outs| && forall i | 0 <= i < |outs| :: f(outs[i]) == Done(got.v[i])
      else got.Pending?
  {
    assert AllDone(Each(outs, f)) <==> Delivers(f, outs);
  }

  // ---- the awaits of a resolve -----------------------------------------------------------------------------

  lemma OnBegin(P: Program, env: Env, w: World, p: Path, pick: nat, outs: seq<OutRef>)
    requires InResolve(P, w, p, outs) && w.tasks[p].phase == Ready
    ensures var w' := Step(P, env, w, Move(p, pick)); MovesTo(w, w', p, AwaitResources) && w'.accs == w.accs
  {
  }

  /** The first await: an exception ends the task; otherwise it waits for all the resources, records them, and asks for
      the secret flags unless the run's is set. */
  lemma OnResources(P: Program, env: Env, w: World, p: Path, pick: nat, outs: seq<OutRef>)
    requires InResolve(P, w, p, outs) && w.tasks[p].phase == AwaitResources
    ensures var w' := Step(P, env, w, Move(p, pick)); var f := o => ResourcesOf(env, w, o);
      var a := w.tasks[p].ctx.acc.value;
      if Raises(f, outs, pick) then Ends(w, w', p, Failed)
      else if Delivers(f, outs) then
        && MovesTo(w, w', p, if w.order.ReadFirst? && w.accs[a].secret then AwaitValues else AwaitSecrets)
        && w'.accs[a].secret == w.accs[a].secret
        && forall x :: x in w'.accs[a].deps <==> x in w.accs[a].deps || exists i | 0 <= i < |outs| :: x in f(outs[i]).v
      else w' == w
  {
    GatherIs(o => ResourcesOf(env, w, o), outs, pick);
    EndApplies(w, p, Failed);
    var e := EffectOf(P, env, w, p, pick);
    if e.Suspend? { SuspendApplies(w, p, e.phase, e.acc, e.foot); }
  }

  /** The second await: the flag is set if one of the outputs is secret; in the code as written it is lost otherwise. */
  lemma OnSecrets(P: Program, env: Env, w: World, p: Path, pick: nat, outs: seq<OutRef>)
    requires InResolve(P, w, p, outs) && w.tasks[p].phase == AwaitSecrets
    ensures var w' := Step(P, env, w, Move(p, pick)); var f := o => SecretOf(env, w, o);
      var a := w.tasks[p].ctx.acc.value;
      if Raises(f, outs, pick) then Ends(w, w', p, Failed)
      else if Delivers(f, outs) then
        && MovesTo(w, w', p, AwaitValues) && w'.accs[a].deps == w.accs[a].deps
        && (w'.accs[a].secret <==>
              (exists i | 0 <= i < |outs| :: f(outs[i]) == Done(true)) || (w.order.AwaitFirst? && w.accs[a].secret))
      else w' == w
  {
    GatherIs(o => SecretOf(env, w, o), outs, pick);
    EndApplies(w, p, Failed);
    var e := EffectOf(P, env, w, p, pick);
    if e.Suspend? { SuspendApplies(w, p, e.phase, e.acc, e.foot); }
  }

  lemma ValuesEffect(env: Env, w: World, t: Task, pick: nat, outs: seq<OutRef>)
    requires t.phase == AwaitValues && outs != [] && t.ctx.acc.Some? && t.ctx.acc.value in w.accs
    ensures var e := ResolveStep(env, w, t, outs, pick); var f := o => ValueOf(env, w, o);
      if Raises(f, outs, pick) then e == End(Failed)
      else if Delivers(f, outs) then
        if exists i | 0 <= i < |outs| :: HoldsUnknown(f(outs[i]).v) then e == End(Aborted)
        else
          && e.Suspend? && e.phase.AwaitKnown? && e.acc == w.accs[t.ctx.acc.value] && |e.phase.values| == |outs|
          && forall i | 0 <= i < |outs| :: f(outs[i]) == Done(e.phase.values[i])
      else e == Blocked
  {
    GatherIs(o => ValueOf(env, w, o), outs, pick);
    var got := Awaited(Each(outs, o => ValueOf(env, w, o)), pick);
    if got.Done? { SearchIs(got.v); }
  }

  /** The third await: the sentinel anywhere in a value ends the task in the unknown handshake. */
  lemma OnValues(P: Program, env: Env, w: World, p: Path, pick: nat, outs: seq<OutRef>)
    requires InResolve(P, w, p, outs) && w.tasks[p].phase == AwaitValues
    ensures var w' := Step(P, env, w, Move(p, pick)); var f := o => ValueOf(env, w, o);
      if Raises(f, outs, pick) then Ends(w, w', p, Failed)
      else if Delivers(f, outs) then
        if exists i | 0 <= i < |outs| :: HoldsUnknown(f(outs[i]).v) then Ends(w, w', p, Aborted)
        else
          && w'.accs == w.accs && w'.tasks[p].phase.AwaitKnown? && MovesTo(w, w', p, w'.tasks[p].phase)
          && |w'.tasks[p].phase.values| == |outs|
          && forall i | 0 <= i < |outs| :: f(outs[i]) == Done(w'.tasks[p].phase.values[i])
      else w' == w
  {
    ValuesEffect(env, w, w.tasks[p], pick, outs);
    EndApplies(w, p, Failed);
    EndApplies(w, p, Aborted);
    var e := EffectOf(P, env, w, p, pick);
    if e.Suspend? { SuspendApplies(w, p, e.phase, e.acc, e.foot); }
  }

  /** The fourth await: an output that is not known ends the task in the handshake; otherwise the values are the reply,
      one plainly and several as a tuple. */
  lemma OnKnown(P: Program, env: Env, w: World, p: Path, pick: nat, outs: seq<OutRef>)
    requires InResolve(P, w, p, outs) && w.tasks[p].phase.AwaitKnown?
    ensures var w' := Step(P, env, w, Move(p, pick)); var f := o => KnownOf(env, w, o);
      var vs := w.tasks[p].phase.values;
      if Raises(f, outs, pick) then Ends(w, w', p, Failed)
      else if Delivers(f, outs) then
        if exists i | 0 <= i < |outs| :: f(outs[i]) == Done(false) then Ends(w, w', p, Aborted)
        else Replies(w, w', p, if |vs| == 1 then vs[0] else Tuple(vs), w.tasks[p].ctx.stack)
      else w' == w
  {
    GatherIs(o => KnownOf(env, w, o), outs, pick);
    EndApplies(w, p, Failed);
    EndApplies(w, p, Aborted);
    var e := EffectOf(P, env, w, p, pick);
    if e.Reply? { ReplyApplies(w, p, e.v, e.stack, e.foot); }
  }

  /** A resolve of nothing, or outside any async_output. */
  lemma OnMisuse(P: Program, env: Env, w: World, p: Path, pick: nat, outs: seq<OutRef>)
    requires p in w.tasks && w.tasks[p].result == None && P(w.tasks[p].coro, w.tasks[p].hist) == Resolve(outs)
    requires outs == [] || w.tasks[p].ctx.acc == None
    ensures Ends(w, Step(P, env, w, Move(p, pick)), p, Failed)
  {
  }

  /** The task spawned at position c of p has ended in r. */
  predicate ChildEnded(w: World, p: Path, c: nat, r: Result) {
    p + [c] in w.tasks && !w.tasks[p + [c]].isRun && w.tasks[p + [c]].result == Some(r)
  }

  /** A join passes on how the child it is told of ended, answers with all the values once all children have returned,
      and waits otherwise. */
  lemma OnJoin(P: Program, env: Env, w: World, p: Path, pick: nat, children: seq<nat>)
    requires p in w.tasks && w.tasks[p].result == None && P(w.tasks[p].coro, w.tasks[p].hist) == Join(children)
    ensures var w' := Step(P, env, w, Move(p, pick));
      if pick < |children| && ChildEnded(w, p, children[pick], Aborted) then Ends(w, w', p, Aborted)
      else if pick < |children| && ChildEnded(w, p, children[pick], Failed) then Ends(w, w', p, Failed)
      else if forall i | 0 <= i < |children| :: exists v :: ChildEnded(w, p, children[i], Returned(v)) then
        exists vs: seq<Val> {:trigger Tuple(vs)} ::
          && Replies(w, w', p, Tuple(vs), w.tasks[p].ctx.stack) && |vs| == |children|
          && forall i | 0 <= i < |vs| :: ChildEnded(w, p, children[i], Returned(vs[i]))
      else w' == w
  {
    if forall i | 0 <= i < |children| :: exists v :: ChildEnded(w, p, children[i], Returned(v)) {
      forall i | 0 <= i < |children| ensures ChildReturned(w, p, children[i]) {}
      var vs := ChildValues(w, p, children);
      assert Tuple(vs).items == vs;
    } else {
      var i :| 0 <= i < |children| && !(exists v :: ChildEnded(w, p, children[i], Returned(v)));
      assert ChildReturned(w, p, children[i]) ==> ChildEnded(w, p, children[i], Returned(ChildResult(w, p, children[i]).value.v));
    }
  }

  // ---- the other actions -----------------------------------------------------------------------------------

  /** A new task has its own copy of both variables; an async_output's task has an empty accumulator of its own. */
  lemma OnFork(P: Program, env: Env, w: World, p: Path, pick: nat)
    requires Inv(P, env, w) && p in w.tasks && w.tasks[p].result == None
    requires var a := P(w.tasks[p].coro, w.tasks[p].hist); a.Spawn? || a.Open?
    ensures var w' := Step(P, env, w, Move(p, pick)); var a, t := P(w.tasks[p].coro, w.tasks[p].hist), w.tasks[p];
      var c := p + [|t.hist|];
      && c !in w.tasks && w'.order == w.order && w'.tasks.Keys == w.tasks.Keys + {c}
      && (forall q | q in w.tasks && q != p :: w'.tasks[q] == w.tasks[q])
      && w'.tasks[p] == t.(hist := t.hist + [Ref(c)])
      && w'.accs == (if a.Open? then w.accs[c := Acc({}, false)] else w.accs)
      && var n := w'.tasks[c];
         && n.coro == a.coro && n.isRun == a.Open? && n.hist == [] && n.phase == Ready && n.result == None
         && n.base == n.ctx.stack == t.ctx.stack && n.token == t.ctx.acc
         && n.ctx.acc == (if a.Open? then Some(c) else t.ctx.acc)
  {
    ForkIsFresh(P, env, w, p);
  }

  lemma OnDeclare(P: Program, env: Env, w: World, p: Path, pick: nat, parented: bool)
    requires p in w.tasks && w.tasks[p].result == None && P(w.tasks[p].coro, w.tasks[p].hist) == Declare(parented)
    ensures var w', stack := Step(P, env, w, Move(p, pick)), w.tasks[p].ctx.stack;
      if stack != [] && !parented then Ends(w, w', p, Failed) else Replies(w, w', p, Nothing, stack)
  {
  }

  /** `Component.__init__`: the frame carries the component's own name and type, and goes on top. */
  lemma OnBuild(P: Program, env: Env, w: World, p: Path, pick: nat, name: string, token: Option<string>, parented: bool)
    requires p in w.tasks && w.tasks[p].result == None && P(w.tasks[p].coro, w.tasks[p].hist) == Build(name, token, parented)
    ensures var w', stack := Step(P, env, w, Move(p, pick)), w.tasks[p].ctx.stack;
      if token.None? || (stack != [] && !parented) then Ends(w, w', p, Failed)
      else var f := Frame((p, |w.tasks[p].hist|), name, token.value); Replies(w, w', p, Entry(f), stack + [f])
  {
  }

  /** `register_outputs`: everything from the component's own frame on is gone, and nothing if it has none there. */
  lemma OnClose(P: Program, env: Env, w: World, p: Path, pick: nat, frame: ScopeFrame)
    requires p in w.tasks && w.tasks[p].result == None && P(w.tasks[p].coro, w.tasks[p].hist) == Close(frame)
    ensures var w', stack := Step(P, env, w, Move(p, pick)), w.tasks[p].ctx.stack;
      && p in w'.tasks && var left := w'.tasks[p].ctx.stack;
      && Replies(w, w', p, Nothing, left)
      && (if frame in stack then frame !in left && left + [frame] <= stack else left == stack)
  {
  }

  lemma OnEnd(P: Program, env: Env, w: World, p: Path, pick: nat)
    requires p in w.tasks && w.tasks[p].result == None
    ensures var w', a := Step(P, env, w, Move(p, pick)), P(w.tasks[p].coro, w.tasks[p].hist);
      && (a.Return? ==> Ends(w, w', p, Returned(a.v)))
      && (a.Raise? ==> Ends(w, w', p, Failed))
  {
  }

  // ---- a whole resolve ---------------------------------------------------------------------------------------

  /** All four futures of every output have arrived. */
  ghost predicate Arrived(env: Env, w: World, outs: seq<OutRef>) {
    forall i | 0 <= i < |outs| :: ResourcesOf(env, w, outs[i]).Done? && SecretOf(env, w, outs[i]).Done?
                                  && ValueOf(env, w, outs[i]).Done? && KnownOf(env, w, outs[i]).Done?
  }

  function ValuesOf(env: Env, w: World, outs: seq<OutRef>): (r: seq<Val>)
    requires forall i | 0 <= i < |outs| :: ValueOf(env, w, outs[i]).Done?
    ensures |r| == |outs| && forall i | 0 <= i < |r| :: ValueOf(env, w, outs[i]) == Done(r[i])
  {
    seq(|outs|, i requires 0 <= i < |outs| => ValueOf(env, w, outs[i]).v)
  }

  /** Some output is unknown: the sentinel is somewhere in its value, or it says so. */
  ghost predicate SomeUnknown(env: Env, w: World, outs: seq<OutRef>)
    requires Arrived(env, w, outs)
  {
    exists i | 0 <= i < |outs| :: HoldsUnknown(ValueOf(env, w, outs[i]).v) || KnownOf(env, w, outs[i]) == Done(false)
  }

  /** How the resolve of `outs` that p was at in w is over in w'. */
  ghost predicate ResolveOver(env: Env, w: World, w': World, p: Path, outs: seq<OutRef>)
    requires p in w.tasks && Arrived(env, w, outs)
  {
    p in w'.tasks && var t, t' := w.tasks[p], w'.tasks[p];
    if SomeUnknown(env, w, outs) then
      && t'.result == Some(Aborted) && t'.hist == t.hist
      && (t.isRun ==> ValueOf(env, w', OfRun(p)) == Done(Nothing) && KnownOf(env, w', OfRun(p)) == Done(false))
    else
      var vs := ValuesOf(env, w, outs);
      t'.result == None && t'.hist == t.hist + [if |vs| == 1 then vs[0] else Tuple(vs)]
  }

  /** The outputs look the same to the next step, and the task is still at its resolve. */
  ghost predicate StillThere(P: Program, env: Env, w: World, w': World, p: Path, outs: seq<OutRef>) {
    && p in w.tasks && Inv(P, env, w') && InResolve(P, w', p, outs) && Arrived(env, w, outs) && Arrived(env, w', outs)
    && w'.tasks[p].isRun == w.tasks[p].isRun && w'.tasks[p].hist == w.tasks[p].hist
    && (forall i | 0 <= i < |outs| :: ValueOf(env, w', outs[i]) == ValueOf(env, w, outs[i]) && KnownOf(env, w', outs[i]) == KnownOf(env, w, outs[i]))
  }

  lemma ArrivedStays(P: Program, env: Env, w: World, m: Move, outs: seq<OutRef>)
    requires Inv(P, env, w) && Arrived(env, w, outs)
    ensures var w' := Step(P, env, w, m);
      && Inv(P, env, w') && Arrived(env, w', outs)
      && forall i | 0 <= i < |outs| :: ValueOf(env, w', outs[i]) == ValueOf(env, w, outs[i]) && KnownOf(env, w', outs[i]) == KnownOf(env, w, outs[i])
  {
    var w' := Step(P, env, w, m);
    StepExtends(P, env, w, m);
    StepKeepsInv(P, env, w, m);
    forall i | 0 <= i < |outs|
      ensures ResourcesOf(env, w', outs[i]).Done? && SecretOf(env, w', outs[i]).Done?
      ensures ValueOf(env, w', outs[i]) == ValueOf(env, w, outs[i]) && KnownOf(env, w', outs[i]) == KnownOf(env, w, outs[i])
    {
      FuturesStable(env, w, w', outs[i]);
    }
  }

  /** With its outputs there, the task passes the await it is at, or ends in the handshake. */
  lemma PassesAwait(P: Program, env: Env, w: World, p: Path, outs: seq<OutRef>)
    requires InResolve(P, w, p, outs) && Arrived(env, w, outs) && !w.tasks[p].phase.AwaitKnown?
    ensures var w' := Step(P, env, w, Move(p, 0));
      || (Ends(w, w', p, Aborted) && SomeUnknown(env, w, outs))
      || (p in w'.tasks && MovesTo(w, w', p, w'.tasks[p].phase) && Rank(w.tasks[p].phase) < Rank(w'.tasks[p].phase))
  {
    match w.tasks[p].phase
    case Ready => OnBegin(P, env, w, p, 0, outs);
    case AwaitResources => OnResources(P, env, w, p, 0, outs);
    case AwaitSecrets => OnSecrets(P, env, w, p, 0, outs);
    case AwaitValues => OnValues(P, env, w, p, 0, outs);
  }

  lemma OneAwait(P: Program, env: Env, w: World, p: Path, outs: seq<OutRef>)
    requires Inv(P, env, w) && InResolve(P, w, p, outs) && Arrived(env, w, outs) && !w.tasks[p].phase.AwaitKnown?
    ensures var w' := Step(P, env, w, Move(p, 0));
      || (Ends(w, w', p, Aborted) && SomeUnknown(env, w, outs))
      || (StillThere(P, env, w, w', p, outs) && Rank(w.tasks[p].phase) < Rank(w'.tasks[p].phase))
  {
    ArrivedStays(P, env, w, Move(p, 0), outs);
    PassesAwait(P, env, w, p, outs);
  }

  lemma KnownValues(P: Program, env: Env, w: World, p: Path, outs: seq<OutRef>)
    requires Inv(P, env, w) && InResolve(P, w, p, outs) && Arrived(env, w, outs) && w.tasks[p].phase.AwaitKnown?
    ensures w.tasks[p].phase.values == ValuesOf(env, w, outs)
    ensures forall i | 0 <= i < |outs| :: !HoldsUnknown(ValueOf(env, w, outs[i]).v)
  {
    assert GoodTask(P, env, w, p);
    forall i | 0 <= i < |outs| ensures !HoldsUnknown(ValueOf(env, w, outs[i]).v) {
      ContainsIffHolds(w.tasks[p].phase.values[i]);
    }
  }

  lemma AbortedOver(P: Program, env: Env, w: World, p: Path, outs: seq<OutRef>, w': World)
    requires p in w.tasks && Inv(P, env, w') && Arrived(env, w, outs) && SomeUnknown(env, w, outs)
    requires Ends(w, w', p, Aborted) && w'.tasks[p].isRun == w.tasks[p].isRun
    ensures ResolveOver(env, w, w', p, outs)
  {
    RunFutures(P, env, w', p);
  }

  lemma LastAwait(P: Program, env: Env, w: World, p: Path, outs: seq<OutRef>)
    requires Inv(P, env, w) && InResolve(P, w, p, outs) && Arrived(env, w, outs) && w.tasks[p].phase.AwaitKnown?
    ensures ResolveOver(env, w, Step(P, env, w, Move(p, 0)), p, outs)
  {
    var w' := Step(P, env, w, Move(p, 0));
    StepExtends(P, env, w, Move(p, 0));
    StepKeepsInv(P, env, w, Move(p, 0));
    assert Grown(w.tasks[p], w'.tasks[p]);
    OnKnown(P, env, w, p, 0, outs);
    KnownValues(P, env, w, p, outs);
    if SomeUnknown(env, w, outs) {
      AbortedOver(P, env, w, p, outs, w');
    }
  }

  lemma OverLater(P: Program, env: Env, w: World, w1: World, w': World, p: Path, outs: seq<OutRef>)
    requires StillThere(P, env, w, w1, p, outs) && ResolveOver(env, w1, w', p, outs)
    ensures ResolveOver(env, w, w', p, outs)
  {
    assert ValuesOf(env, w1, outs) == ValuesOf(env, w, outs);
    assert SomeUnknown(env, w1, outs) <==> SomeUnknown(env, w, outs);
  }

  function Times(n: nat, m: Move): seq<Move> {
    if n == 0 then [] else [m] + Times(n - 1, m)
  }

  lemma OneTime(P: Program, env: Env, w: World, m: Move)
    ensures Times(1, m) == [m] && Run(P, env, w, [m]) == Step(P, env, w, m)
  {
    assert [m][..0] == [] && Times(0, m) == [];
  }

  /** The unknown handshake is raised, and answers come: once the futures of its outputs have arrived, a resolve is over
      after at most five steps of its task, aborted if any output is unknown and answered with all the values if not. */
  lemma {:induction false} ResolveEnds(P: Program, env: Env, w: World, p: Path, outs: seq<OutRef>) returns (n: nat)
    requires Inv(P, env, w) && InResolve(P, w, p, outs) && Arrived(env, w, outs)
    ensures n + Rank(w.tasks[p].phase) <= 5 && ResolveOver(env, w, Run(P, env, w, Times(n, Move(p, 0))), p, outs)
    decreases 5 - Rank(w.tasks[p].phase)
  {
    var m := Move(p, 0);
    var w1 := Step(P, env, w, m);
    OneTime(P, env, w, m);
    n := 1;
    if w.tasks[p].phase.AwaitKnown? {
      LastAwait(P, env, w, p, outs);
    } else {
      OneAwait(P, env, w, p, outs);
      if StillThere(P, env, w, w1, p, outs) {
        var k := ResolveEnds(P, env, w1, p, outs);
        n := k + 1;
        RunAppend(P, env, w, [m], Times(k, m));
        OverLater(P, env, w, w1, Run(P, env, w, Times(n, m)), p, outs);
      } else {
        StepExtends(P, env, w, m);
        StepKeepsInv(P, env, w, m);
        assert Grown(w.tasks[p], w1.tasks[p]);
        AbortedOver(P, env, w, p, outs, w1);
      }
    }
  }
}
