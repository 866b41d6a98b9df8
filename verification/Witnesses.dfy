/** Concrete runs of the machine that show where the promises stop. */
module Witnesses {
  import opened Scope
  import opened Protocol
  import opened Machine
  import opened Agreement
  import opened Propagation
  import opened Outcomes
  import opened Invariants
  import opened Secrecy
  import opened Soundness
  import opened Gathers
  import W = SecretWindow

  // ---- driving one resolve of one engine output ------------------------------------------------------

  /** An engine output with one resource and a plain, known number. */
  function KnownLeaf(r: Resource, secret: bool, n: int): LeafOut {
    LeafOut(Done({r}), Done(secret), Done(Num(n)), Done(true))
  }

  /** Task p of run a is at a resolve of output l. */
  ghost predicate At(P: Program, env: Env, w: World, p: Path, a: Path, l: nat) {
    && Live(w, p) && w.tasks[p].ctx.acc == Some(a) && a in w.accs
    && P(w.tasks[p].coro, w.tasks[p].hist) == Resolve([Leaf(l)])
    && env(l).resources.Done? && w.order.ReadFirst?
  }

  lemma Starts(P: Program, env: Env, w: World, p: Path, a: Path, l: nat)
    requires At(P, env, w, p, a, l) && w.tasks[p].phase.Ready?
    ensures Step(P, env, w, Move(p, 0)) == w.(tasks := w.tasks[p := w.tasks[p].(phase := AwaitResources)])
  {
  }

  lemma Records(P: Program, env: Env, w: World, p: Path, a: Path, l: nat)
    requires At(P, env, w, p, a, l) && w.tasks[p].phase.AwaitResources?
    ensures var r := env(l).resources.v;
      Step(P, env, w, Move(p, 0)) ==
      w.(tasks := w.tasks[p := w.tasks[p].(phase := if w.accs[a].secret then AwaitValues else AwaitSecrets, foot := w.tasks[p].foot + r)],
         accs := w.accs[a := w.accs[a].(deps := w.accs[a].deps + r)])
  {
    var r := env(l).resources.v;
    var fs := Each([Leaf(l)], o => ResourcesOf(env, w, o));
    assert fs == [Done(r)];
    assert Gathered(fs) == [r];
    assert Feet(env, w, [Leaf(l)]) == [r];
    assert Union([r]) == r;
  }

  lemma Stores(P: Program, env: Env, w: World, p: Path, a: Path, l: nat)
    requires At(P, env, w, p, a, l) && w.tasks[p].phase.AwaitSecrets? && env(l).secret.Done?
    ensures Step(P, env, w, Move(p, 0)) ==
      w.(tasks := w.tasks[p := w.tasks[p].(phase := AwaitValues)], accs := w.accs[a := w.accs[a].(secret := env(l).secret.v)])
  {
  }

  lemma Values(P: Program, env: Env, w: World, p: Path, a: Path, l: nat)
    requires At(P, env, w, p, a, l) && w.tasks[p].phase.AwaitValues?
    requires env(l).value.Done? && !ContainsUnknowns(env(l).value.v)
    ensures Step(P, env, w, Move(p, 0)) == w.(tasks := w.tasks[p := w.tasks[p].(phase := AwaitKnown([env(l).value.v]))])
  {
    var v := env(l).value.v;
    var fs := Each([Leaf(l)], o => ValueOf(env, w, o));
    assert fs == [Done(v)];
    assert Gathered(fs) == [v];
    assert !ContainsUnknowns([v][0]);
    assert !ContainsUnknowns(Tuple([v]));
    assert w.accs[a := w.accs[a]] == w.accs;
  }

  lemma Answers(P: Program, env: Env, w: World, p: Path, a: Path, l: nat, v: Val)
    requires At(P, env, w, p, a, l) && w.tasks[p].phase == AwaitKnown([v]) && env(l).known == Done(true)
    ensures Step(P, env, w, Move(p, 0)) == w.(tasks := w.tasks[p := w.tasks[p].(hist := w.tasks[p].hist + [v], phase := Ready)])
  {
  }

  lemma One(P: Program, env: Env, w: World, m: Move)
    ensures Run(P, env, w, [m]) == Step(P, env, w, m)
  {
  }

  lemma Two(P: Program, env: Env, w: World, m: Move, n: Move)
    ensures Run(P, env, w, [m, n]) == Step(P, env, Step(P, env, w, m), n)
  {
    assert [m, n][..1] == [m];
    One(P, env, w, m);
  }

  lemma Three(P: Program, env: Env, w: World, m: Move, n: Move, o: Move)
    ensures Run(P, env, w, [m, n, o]) == Step(P, env, Step(P, env, Step(P, env, w, m), n), o)
  {
    assert [m, n, o][..2] == [m, n];
    Two(P, env, w, m, n);
  }

  /** From the start of the resolve to its window, or past it if the flag is set. */
  lemma ToWindow(P: Program, env: Env, w: World, p: Path, a: Path, l: nat)
    requires At(P, env, w, p, a, l) && w.tasks[p].phase.Ready?
    ensures var t, r := w.tasks[p], env(l).resources.v;
      Run(P, env, w, [Move(p, 0), Move(p, 0)]) ==
      w.(tasks := w.tasks[p := t.(phase := if w.accs[a].secret then AwaitValues else AwaitSecrets, foot := t.foot + r)],
         accs := w.accs[a := w.accs[a].(deps := w.accs[a].deps + r)])
  {
    Two(P, env, w, Move(p, 0), Move(p, 0));
    Starts(P, env, w, p, a, l);
    var w1 := Step(P, env, w, Move(p, 0));
    Records(P, env, w1, p, a, l);
    var t := w.tasks[p];
    var t' := t.(phase := if w.accs[a].secret then AwaitValues else AwaitSecrets, foot := t.foot + env(l).resources.v);
    assert w1.tasks[p := t'] == w.tasks[p := t'];
  }

  /** From past the window to the reply. */
  lemma ToReply(P: Program, env: Env, w: World, p: Path, a: Path, l: nat)
    requires At(P, env, w, p, a, l) && w.tasks[p].phase.AwaitValues?
    requires env(l).value.Done? && !ContainsUnknowns(env(l).value.v) && env(l).known == Done(true)
    ensures Run(P, env, w, [Move(p, 0), Move(p, 0)]) ==
      w.(tasks := w.tasks[p := w.tasks[p].(hist := w.tasks[p].hist + [env(l).value.v], phase := Ready)])
  {
    Two(P, env, w, Move(p, 0), Move(p, 0));
    Values(P, env, w, p, a, l);
    var w1 := Step(P, env, w, Move(p, 0));
    Answers(P, env, w1, p, a, l, env(l).value.v);
    var t' := w.tasks[p].(hist := w.tasks[p].hist + [env(l).value.v], phase := Ready);
    assert w1.tasks[p := t'] == w.tasks[p := t'];
  }

  lemma Returns(P: Program, env: Env, w: World, p: Path, v: Val)
    requires Live(w, p) && P(w.tasks[p].coro, w.tasks[p].hist) == Return(v)
    ensures Run(P, env, w, [Move(p, 0)]) == w.(tasks := w.tasks[p := Ended(w, p, Returned(v))])
  {
  }

  // ---- a secret lost -------------------------------------------------------------------------------

  function OneSecret(l: nat): LeafOut {
    KnownLeaf(l, l == 0, 7)
  }

  /** `gather(resolve(a), resolve(b))`, a being secret. */
  const GATHER_TWO: seq<Plan> := [[[0]], [[1]]]

  /** The code as written: a schedule under which an async_output that resolved a secret ends known and not secret. */
  lemma SecretLost() returns (s: seq<Move>)
    ensures var w := Run(Gathering(GATHER_TWO), OneSecret, Init(Coro(0, [])), s);
      && KnownOf(OneSecret, w, OfRun(RUN)) == Done(true) && SecretOf(OneSecret, w, OfRun(RUN)) == Done(false)
      && RUN in w.accs && 0 in w.accs[RUN].deps && OneSecret(0).secret == Done(true)
  {
    var P, flags := Gathering(GATHER_TWO), Flags(OneSecret, GATHER_TWO);
    assert OneSecret(GATHER_TWO[0][0][0]).secret == Done(true) && OneSecret(GATHER_TWO[1][0][0]).secret == Done(false);
    assert flags[0][0] && !flags[1][0];
    assert W.SeesSecret(flags[0]) && W.CanStoreLast(flags, 1);
    s := Losing(GATHER_TWO, OneSecret);
    var w := Run(P, OneSecret, Init(Coro(0, [])), s);
    StagedStays(GATHER_TWO, OneSecret, s);
    PropagationInvariants(P, OneSecret, ReadFirst, Coro(0, []), s);
    GatheringIsStructured(GATHER_TWO);
    RunIsRun(GATHER_TWO, OneSecret, w);
    FirstKidReached(w);
    NothingLost(P, OneSecret, w, RUN, 0, 1);
  }

  lemma FirstKidReached(w: World)
    requires Staged(GATHER_TWO, OneSecret, w) && ReturnedIn(w, RUN)
    ensures Reaches(Gathering(GATHER_TWO), w, RUN, 0, 1)
  {
    var P := Gathering(GATHER_TWO);
    RunIsRun(GATHER_TWO, OneSecret, w);
    GatheringIsStructured(GATHER_TWO);
    assert GoodTask(P, OneSecret, w, RUN);
    assert w.tasks[RUN].hist[..0] == [];
    ChildrenReturned(P, OneSecret, w, RUN, 0);
    Apart(0, 0);
    KidFits(GATHER_TWO, OneSecret, w, 0);
    Cast(GATHER_TWO, OneSecret, w, Kid(0));
    assert GoodTask(P, OneSecret, w, Kid(0));
    assert w.tasks[Kid(0)].hist[..0] == [];
    assert ReachesBy(P, w, RUN, 0, 1, Kid(0), 0, 0);
  }

  // ---- a dependency missed -----------------------------------------------------------------------------

  const MAIN: Path := []
  const INNER: Path := [0, 1]

  function RunTask(hist: seq<Val>): Task {
    NewTask(Coro(1, []), true, RUN, Context(None, []), {}).(hist := hist)
  }

  /** An async_output opened inside another's coroutine, over a closure that holds a resolved value. */
  function Capturing(coro: Coro, hist: seq<Val>): Action {
    match coro.code
    case 0 => if |hist| == 0 then Open(Coro(1, [])) else Return(Nothing)
    case 1 => if |hist| == 0 then Resolve([Leaf(0)])
              else if |hist| == 1 then Open(Coro(2, hist)) else Return(Nothing)
    case _ => Return(if |coro.args| == 1 then coro.args[0] else Nothing)
  }

  /** Every engine output is the number n and has the resources F behind it. */
  function Numbered(F: set<Resource>, n: int): Env {
    (l: nat) => LeafOut(Done(F), Done(false), Done(Num(n)), Done(true))
  }

  function CapturingSchedule(): seq<Move> {
    [Move(MAIN, 0), Move(RUN, 0), Move(RUN, 0)] + [Move(RUN, 0), Move(RUN, 0), Move(RUN, 0)] + [Move(RUN, 0), Move(INNER, 0)]
  }

  ghost predicate Solo(w: World, t: Task, acc: Acc) {
    && w.order.ReadFirst? && w.tasks.Keys == {MAIN, RUN} && !w.tasks[MAIN].isRun
    && RUN in w.accs && w.tasks[RUN] == t && w.accs[RUN] == acc
  }

  lemma OuterReads(F: set<Resource>, n: int)
    ensures Solo(Run(Capturing, Numbered(F, n), Init(Coro(0, [])), [Move(MAIN, 0), Move(RUN, 0), Move(RUN, 0)]),
                 RunTask([]).(phase := AwaitSecrets, foot := F), Acc(F, false))
  {
    var w0, env := Init(Coro(0, [])), Numbered(F, n);
    Three(Capturing, env, w0, Move(MAIN, 0), Move(RUN, 0), Move(RUN, 0));
    var w1 := Step(Capturing, env, w0, Move(MAIN, 0));
    assert MAIN + [0] == RUN;
    assert Solo(w1, RunTask([]), FRESH);
    Starts(Capturing, env, w1, RUN, RUN, 0);
    var w2 := Step(Capturing, env, w1, Move(RUN, 0));
    Records(Capturing, env, w2, RUN, RUN, 0);
    assert {} + F == F;
  }

  lemma OuterAnswers(F: set<Resource>, n: int, w: World)
    requires Solo(w, RunTask([]).(phase := AwaitSecrets, foot := F), Acc(F, false))
    ensures Solo(Run(Capturing, Numbered(F, n), w, [Move(RUN, 0), Move(RUN, 0), Move(RUN, 0)]),
                 RunTask([Num(n)]).(foot := F), Acc(F, false))
  {
    var env := Numbered(F, n);
    Three(Capturing, env, w, Move(RUN, 0), Move(RUN, 0), Move(RUN, 0));
    Stores(Capturing, env, w, RUN, RUN, 0);
    var w1 := Step(Capturing, env, w, Move(RUN, 0));
    Values(Capturing, env, w1, RUN, RUN, 0);
    var w2 := Step(Capturing, env, w1, Move(RUN, 0));
    Answers(Capturing, env, w2, RUN, RUN, 0, Num(n));
  }

  /** Only the inner run was opened inside another, and what its opener had used by then is F. */
  ghost predicate InnerCaptures(w: World, F: set<Resource>) {
    && w.tasks.Keys == {MAIN, RUN, INNER} && !w.tasks[MAIN].isRun && w.tasks[RUN].token == None
    && w.tasks[INNER].isRun && w.tasks[INNER].captured == F
  }

  lemma InnerReturns(F: set<Resource>, n: int, w: World)
    requires Solo(w, RunTask([Num(n)]).(foot := F), Acc(F, false))
    ensures var w' := Run(Capturing, Numbered(F, n), w, [Move(RUN, 0), Move(INNER, 0)]);
      && InnerCaptures(w', F) && w'.tasks[INNER].result == Some(Returned(Num(n)))
      && INNER in w'.accs && w'.accs[INNER] == FRESH
  {
    var env := Numbered(F, n);
    Two(Capturing, env, w, Move(RUN, 0), Move(INNER, 0));
    assert RUN + [1] == INNER;
    var w1 := Step(Capturing, env, w, Move(RUN, 0));
    assert w1.tasks[INNER].coro == Coro(2, [Num(n)]) && w1.tasks[INNER].result.None?;
    assert EffectOf(Capturing, env, w1, INNER, 0) == End(Returned(Num(n)));
    assert InnerCaptures(w1, F);
  }

  /** The inner output reports no dependency, and its value is the engine output's. */
  lemma CapturedValueIsUntracked(F: set<Resource>, n: int)
    ensures var w := Run(Capturing, Numbered(F, n), Init(Coro(0, [])), CapturingSchedule());
      && InnerCaptures(w, F) && w.tasks[INNER].result == Some(Returned(Num(n)))
      && INNER in w.accs && w.accs[INNER].deps == {}
  {
    var w0, env := Init(Coro(0, [])), Numbered(F, n);
    var a, b := [Move(MAIN, 0), Move(RUN, 0), Move(RUN, 0)], [Move(RUN, 0), Move(RUN, 0), Move(RUN, 0)];
    OuterReads(F, n);
    OuterAnswers(F, n, Run(Capturing, env, w0, a));
    RunAppend(Capturing, env, w0, a, b);
    InnerReturns(F, n, Run(Capturing, env, w0, a + b));
    RunAppend(Capturing, env, w0, a + b, [Move(RUN, 0), Move(INNER, 0)]);
  }

  /** The soundness of tracking for one pair of runs of a program that keeps to a discipline on its openings. */
  ghost predicate SoundFor(allowed: set<Resource> -> bool, P: Program, env: Env, env': Env, main: Coro, s: seq<Move>, s': seq<Move>, r: Path) {
    var w, w' := Run(P, env, Init(main), s), Run(P, env', Init(main), s');
    && Disciplined(allowed, w) && NothingHidden(P, env, w)
    && ReturnedIn(w, r) && w.tasks[r].isRun && r in w.accs && AgreeInside(env, env', w.accs[r].deps)
    && r in w'.tasks && w'.tasks[r].result.Some?
    ==> w'.tasks[r].result == w.tasks[r].result
  }

  ghost predicate TrackingSound(allowed: set<Resource> -> bool) {
    forall P: Program, env: Env, env': Env, main: Coro, s: seq<Move>, s': seq<Move>, r: Path ::
      SoundFor(allowed, P, env, env', main, s, s', r)
  }

  /** A discipline that lets a task open an async_output after using the resources F misses F. */
  lemma AllowedIsMissed(allowed: set<Resource> -> bool, F: set<Resource>)
    requires allowed(F) && F != {}
    ensures !TrackingSound(allowed)
  {
    CapturedValueIsUntracked(F, 1);
    CapturedValueIsUntracked(F, 2);
    var w := Run(Capturing, Numbered(F, 1), Init(Coro(0, [])), CapturingSchedule());
    assert Disciplined(allowed, w);
    assert NothingHidden(Capturing, Numbered(F, 1), w);
    assert !SoundFor(allowed, Capturing, Numbered(F, 1), Numbered(F, 2), Coro(0, []), CapturingSchedule(), CapturingSchedule(), INNER);
  }

  /** The exact condition: under a discipline that says after using what an async_output may be opened inside
      another's run, its dependencies are all its value depends on, in every program and schedule, if and only if
      the discipline allows it only to tasks that have used nothing yet. */
  lemma SoundIffOpenedClean(allowed: set<Resource> -> bool)
    ensures TrackingSound(allowed) <==> forall F :: allowed(F) ==> F == {}
  {
    if F :| allowed(F) && F != {} {
      AllowedIsMissed(allowed, F);
    } else {
      forall P: Program, env: Env, env': Env, main: Coro, s: seq<Move>, s': seq<Move>, r: Path
        ensures SoundFor(allowed, P, env, env', main, s, s', r)
      {
        var w, w' := Run(P, env, Init(main), s), Run(P, env', Init(main), s');
        if Disciplined(allowed, w) && NothingHidden(P, env, w)
           && ReturnedIn(w, r) && w.tasks[r].isRun && r in w.accs && AgreeInside(env, env', w.accs[r].deps)
           && r in w'.tasks && w'.tasks[r].result.Some? {
          DisciplineIsClean(P, env, main, s, allowed);
          TrackingIsSound(P, env, env', main, s, s', r);
        }
      }
    }
  }

  // ---- a failure hidden ----------------------------------------------------------------------------------

  /** A run that resolves l itself and m in a child it does not wait for. */
  function Hiding(l: nat, m: nat): Program {
    (coro: Coro, hist: seq<Val>) =>
      match coro.code
      case 0 => if |hist| == 0 then Open(Coro(1, [])) else Return(Nothing)
      case 1 => if |hist| == 0 then Spawn(Coro(2, [])) else if |hist| == 1 then Resolve([Leaf(l)]) else Return(Nothing)
      case _ => if |hist| == 0 then Resolve([Leaf(m)]) else Return(Nothing)
  }

  const LEFT: Path := [0, 0]

  function Child(code: nat): Task {
    NewTask(Coro(code, []), false, LEFT, Context(Some(RUN), []), {})
  }

  ghost predicate Duo(w: World, run: Task, left: Task, acc: Acc) {
    w.order.ReadFirst? && RUN in w.tasks && LEFT in w.tasks && RUN in w.accs && w.tasks[RUN] == run && w.tasks[LEFT] == left && w.accs[RUN] == acc
  }

  lemma HidingForks(env: Env, l: nat, m: nat)
    ensures Duo(Run(Hiding(l, m), env, Init(Coro(0, [])), [Move(MAIN, 0), Move(RUN, 0)]), RunTask([Ref(LEFT)]), Child(2), FRESH)
  {
    var w0 := Init(Coro(0, []));
    Two(Hiding(l, m), env, w0, Move(MAIN, 0), Move(RUN, 0));
    var w1 := Step(Hiding(l, m), env, w0, Move(MAIN, 0));
    assert MAIN + [0] == RUN && RUN + [0] == LEFT;
    assert w1.tasks[RUN] == RunTask([]);
  }

  /** The child stores first: the flag is set. */
  lemma ChildSetsFlag(env: Env, l: nat, m: nat, w: World)
    requires HidesFailure(env, l, m) && Duo(w, RunTask([Ref(LEFT)]), Child(2), FRESH)
    ensures var w' := Run(Hiding(l, m), env, w, [Move(LEFT, 0), Move(LEFT, 0), Move(LEFT, 0)]);
      w'.order.ReadFirst? && RUN in w'.tasks && RUN in w'.accs && w'.tasks[RUN] == RunTask([Ref(LEFT)]) && w'.accs[RUN].secret
  {
    var P := Hiding(l, m);
    ToWindow(P, env, w, LEFT, RUN, m);
    RunAppend(P, env, w, [Move(LEFT, 0), Move(LEFT, 0)], [Move(LEFT, 0)]);
    assert [Move(LEFT, 0), Move(LEFT, 0)] + [Move(LEFT, 0)] == [Move(LEFT, 0), Move(LEFT, 0), Move(LEFT, 0)];
    var w2 := Run(P, env, w, [Move(LEFT, 0), Move(LEFT, 0)]);
    One(P, env, w2, Move(LEFT, 0));
    Stores(P, env, w2, LEFT, RUN, m);
  }

  /** With the flag set the run never asks for the failing one, and returns. */
  lemma RunSkipsFlag(env: Env, l: nat, m: nat, w: World)
    requires w.order.ReadFirst? && HidesFailure(env, l, m) && RUN in w.tasks && RUN in w.accs && w.tasks[RUN] == RunTask([Ref(LEFT)]) && w.accs[RUN].secret
    ensures var w' := Run(Hiding(l, m), env, w, [Move(RUN, 0), Move(RUN, 0)] + [Move(RUN, 0), Move(RUN, 0)] + [Move(RUN, 0)]);
      RUN in w'.tasks && w'.tasks[RUN].isRun && w'.tasks[RUN].result == Some(Returned(Nothing))
  {
    var P, two := Hiding(l, m), [Move(RUN, 0), Move(RUN, 0)];
    ToWindow(P, env, w, RUN, RUN, l);
    RunAppend(P, env, w, two, two);
    ToReply(P, env, Run(P, env, w, two), RUN, RUN, l);
    RunAppend(P, env, w, two + two, [Move(RUN, 0)]);
    var w4 := Run(P, env, w, two + two);
    assert |w4.tasks[RUN].hist| == 2;
    Returns(P, env, w4, RUN, Nothing);
  }

  /** If the run resolves first, it awaits the failing flag. */
  lemma RunFails(env: Env, l: nat, m: nat, w: World)
    requires HidesFailure(env, l, m) && Duo(w, RunTask([Ref(LEFT)]), Child(2), FRESH)
    ensures var w' := Run(Hiding(l, m), env, w, [Move(RUN, 0), Move(RUN, 0)] + [Move(RUN, 0)]);
      RUN in w'.tasks && w'.tasks[RUN].result == Some(Failed)
  {
    var P, two := Hiding(l, m), [Move(RUN, 0), Move(RUN, 0)];
    ToWindow(P, env, w, RUN, RUN, l);
    RunAppend(P, env, w, two, [Move(RUN, 0)]);
    var w2 := Run(P, env, w, two);
    One(P, env, w2, Move(RUN, 0));
    assert Each([Leaf(l)], o => SecretOf(env, w2, o))[0].Broken?;
  }

  /** The two schedules. */
  lemma HiddenFailureShows(env: Env, l: nat, m: nat) returns (s: seq<Move>, s': seq<Move>)
    requires HidesFailure(env, l, m)
    ensures !SameResult(Hiding(l, m), env, Coro(0, []), s, s', RUN)
  {
    var P, w0 := Hiding(l, m), Init(Coro(0, []));
    var a, b := [Move(MAIN, 0), Move(RUN, 0)], [Move(LEFT, 0), Move(LEFT, 0), Move(LEFT, 0)];
    var c := [Move(RUN, 0), Move(RUN, 0)] + [Move(RUN, 0), Move(RUN, 0)] + [Move(RUN, 0)];
    var d := [Move(RUN, 0), Move(RUN, 0)] + [Move(RUN, 0)];
    HidingForks(env, l, m);
    ChildSetsFlag(env, l, m, Run(P, env, w0, a));
    RunAppend(P, env, w0, a, b);
    RunSkipsFlag(env, l, m, Run(P, env, w0, a + b));
    RunAppend(P, env, w0, a + b, c);
    RunFails(env, l, m, Run(P, env, w0, a));
    RunAppend(P, env, w0, a, d);
    s, s' := a + b + c, a + d;
  }

  ghost predicate SameResult(P: Program, env: Env, main: Coro, s: seq<Move>, s': seq<Move>, r: Path) {
    var w, w' := Run(P, env, Init(main), s), Run(P, env, Init(main), s');
    ReturnedIn(w, r) && w.tasks[r].isRun && r in w'.tasks && w'.tasks[r].result.Some? ==> w'.tasks[r].result == w.tasks[r].result
  }

  ghost predicate IndependentOfSchedule(env: Env) {
    forall P: Program, main: Coro, s: seq<Move>, s': seq<Move>, r: Path :: SameResult(P, env, main, s, s', r)
  }

  /** The exact condition: what an async_output returns does not depend on the schedule, in any program, if and
      only if no otherwise usable engine output has a failing `is_secret` beside a secret one that can hide it. */
  lemma IndependentIffNothingToHide(env: Env)
    ensures IndependentOfSchedule(env) <==> !CanHide(env)
  {
    if CanHide(env) {
      var l: nat, m: nat :| HidesFailure(env, l, m);
      var s, s' := HiddenFailureShows(env, l, m);
    } else {
      forall P: Program, main: Coro, s: seq<Move>, s': seq<Move>, r: Path ensures SameResult(P, env, main, s, s', r) {
        if ReturnedIn(Run(P, env, Init(main), s), r) && Run(P, env, Init(main), s).tasks[r].isRun
           && r in Run(P, env, Init(main), s').tasks && Run(P, env, Init(main), s').tasks[r].result.Some? {
          NothingIsHidden(P, env, main, s);
          ScheduleIndependence(P, env, main, s, s', r);
        }
      }
    }
  }
}
