/** `asyncio.gather` of children that each make several resolves, on the machine: what its schedules can do to the
    secret flag is exactly what SecretWindow says, so the exact condition there is the machine's. */
module Gathers {
  import opened Scope
  import opened Protocol
  import opened Machine
  import opened Invariants
  import opened Reachability
  import opened Propagation
  import opened Outcomes
  import W = SecretWindow

  /** The resolves of one child, one after the other, each of one or more engine outputs. */
  type Plan = seq<seq<nat>>

  const RUN: Path := [0]

  function Kid(i: nat): Path { [0, i] }

  lemma Apart(i: int, k: nat)
    ensures i >= 0 ==> RUN + [i] == Kid(i) && Kid(i) != RUN && Kid(i) != [] && (Kid(i) == Kid(k) ==> i == k)
  {
  }

  function Leaves(ids: seq<nat>): (r: seq<OutRef>)
    ensures |r| == |ids| && forall i | 0 <= i < |ids| :: r[i] == Leaf(ids[i])
  {
    seq(|ids|, i requires 0 <= i < |ids| => Leaf(ids[i]))
  }

  function Children(n: nat): (r: seq<nat>)
    ensures |r| == n && forall i | 0 <= i < n :: r[i] == i
  {
    seq(n, i requires 0 <= i < n => i)
  }

  /** The main task opens one async_output, which spawns a child for each plan, gathers them and returns. */
  function ActionOf(plans: seq<Plan>, code: nat, n: nat): Action {
    if code == 0 then
      if n == 0 then Open(Coro(1, [])) else Return(Nothing)
    else if code == 1 then
      if n < |plans| then Spawn(Coro(n + 2, []))
      else if n == |plans| then Join(Children(|plans|))
      else Return(Nothing)
    else if code - 2 < |plans| && n < |plans[code - 2]| then Resolve(Leaves(plans[code - 2][n]))
    else Return(Nothing)
  }

  function Gathering(plans: seq<Plan>): Program {
    (coro: Coro, hist: seq<Val>) => ActionOf(plans, coro.code, |hist|)
  }

  predicate Gettable(env: Env, l: nat) {
    env(l).resources.Done? && env(l).secret.Done? && env(l).value.Done? && !ContainsUnknowns(env(l).value.v) && env(l).known == Done(true)
  }

  /** Every resolve names an output, and every output arrives and is known. */
  ghost predicate AllGettable(env: Env, plans: seq<Plan>) {
    forall i, j | 0 <= i < |plans| && 0 <= j < |plans[i]| ::
      plans[i][j] != [] && forall n | 0 <= n < |plans[i][j]| :: Gettable(env, plans[i][j][n])
  }

  predicate SecretIn(env: Env, ids: seq<nat>) {
    exists n | 0 <= n < |ids| :: env(ids[n]).secret == Done(true)
  }

  function Flags(env: Env, plans: seq<Plan>): (r: seq<seq<bool>>)
    ensures |r| == |plans| && forall i | 0 <= i < |r| :: |r[i]| == |plans[i]|
    ensures forall i, j | 0 <= i < |r| && 0 <= j < |r[i]| :: r[i][j] == SecretIn(env, plans[i][j])
  {
    seq(|plans|, i requires 0 <= i < |plans| => seq(|plans[i]|, j requires 0 <= j < |plans[i]| => SecretIn(env, plans[i][j])))
  }

  // ---- who is who -------------------------------------------------------------------------------------------

  /** A reachable state of the program. */
  ghost predicate Staged(plans: seq<Plan>, env: Env, w: World) {
    Inv(Gathering(plans), env, w) && w.order.ReadFirst? && [] in w.tasks && w.tasks[[]].coro.code == 0
  }

  lemma ForkedBy(plans: seq<Plan>, env: Env, w: World, q: Path)
    requires Staged(plans, env, w) && q in w.tasks && q != []
    ensures Parent(q) in w.tasks && w.tasks[q].token == Home(Parent(q), w.tasks[Parent(q)])
    ensures ActionOf(plans, w.tasks[Parent(q)].coro.code, Place(q)) == ForkAction(w.tasks[q].coro, w.tasks[q].isRun)
  {
    LinkOf(Gathering(plans), env, w, q);
    assert |w.tasks[Parent(q)].hist[..Place(q)]| == Place(q);
  }

  /** The main task, the run, and its children. */
  ghost predicate Role(plans: seq<Plan>, q: Path, t: Task) {
    if t.coro.code == 0 then q == []
    else if t.coro.code == 1 then q == RUN && t.isRun
    else t.coro.code - 2 < |plans| && q == Kid(t.coro.code - 2) && !t.isRun && t.token == Some(RUN)
  }

  lemma ChildRole(plans: seq<Plan>, u: Path, parent: Task, q: Path, t: Task, k: nat)
    requires Role(plans, u, parent) && q == u + [k] && t.token == Home(u, parent)
    requires ActionOf(plans, parent.coro.code, k) == ForkAction(t.coro, t.isRun)
    ensures Role(plans, q, t)
  {
    Apart(k, 0);
  }

  lemma {:induction false} Cast(plans: seq<Plan>, env: Env, w: World, q: Path)
    requires Staged(plans, env, w) && q in w.tasks
    ensures Role(plans, q, w.tasks[q])
    decreases |q|
  {
    if q == [] {
    } else {
      var u, k := Parent(q), Place(q);
      ForkedBy(plans, env, w, q);
      Cast(plans, env, w, u);
      assert q == u + [k];
      ChildRole(plans, u, w.tasks[u], q, w.tasks[q], k);
    }
  }

  lemma {:induction false} GatheringIsStructured(plans: seq<Plan>)
    ensures Structured(Gathering(plans))
  {
    var P := Gathering(plans);
    forall coro: Coro, hist: seq<Val>, k: nat | P(coro, hist).Return? && k < |hist| && P(coro, hist[..k]).Spawn?
      ensures JoinedBefore(P, coro, hist, k)
    {
      var j := |plans|;
      assert P(coro, hist[..j]) == Join(Children(|plans|));
      assert Children(|plans|)[k] == k;
    }
  }

  // ---- every schedule is an order of the children's steps -----------------------------------------------------

  function DoneOf(w: World, i: nat): nat {
    if Kid(i) in w.tasks
    then |w.tasks[Kid(i)].hist| + (if w.tasks[Kid(i)].phase.AwaitValues? || w.tasks[Kid(i)].phase.AwaitKnown? then 1 else 0)
    else 0
  }

  predicate WaitingOf(w: World, i: nat) {
    Kid(i) in w.tasks && w.tasks[Kid(i)].phase.AwaitSecrets?
  }

  function View(plans: seq<Plan>, w: World): W.Gather {
    W.Gather(RUN in w.accs && w.accs[RUN].secret,
             seq(|plans|, i requires 0 <= i < |plans| => DoneOf(w, i)),
             seq(|plans|, i requires 0 <= i < |plans| => WaitingOf(w, i)))
  }

  lemma KidFits(plans: seq<Plan>, env: Env, w: World, i: nat)
    requires Staged(plans, env, w) && i < |plans| && Kid(i) in w.tasks
    ensures var t := w.tasks[Kid(i)];
      && t.coro.code == i + 2 && |t.hist| <= |plans[i]| && (!t.phase.Ready? ==> |t.hist| < |plans[i]|)
  {
    var P, t := Gathering(plans), w.tasks[Kid(i)];
    Cast(plans, env, w, Kid(i));
    assert GoodTask(P, env, w, Kid(i));
    if |t.hist| > |plans[i]| {
      NoReplyToReturn(P, env, w, Kid(i), |plans[i]|);
    }
  }

  lemma ViewFits(plans: seq<Plan>, env: Env, w: World)
    requires Staged(plans, env, w)
    ensures W.Fits(Flags(env, plans), View(plans, w))
  {
    forall i | 0 <= i < |plans|
      ensures DoneOf(w, i) <= |plans[i]| && (WaitingOf(w, i) ==> DoneOf(w, i) < |plans[i]|)
    {
      if Kid(i) in w.tasks { KidFits(plans, env, w, i); }
    }
  }

  /** What one step of a child inside a resolve shows. */
  lemma KidViewed(plans: seq<Plan>, env: Env, w: World, i: nat, pick: nat, e: Effect, w': World)
    requires Stepped(Gathering(plans), env, w, Kid(i), pick, e, w') && Staged(plans, env, w)
    requires i < |plans| && w.tasks[Kid(i)].coro.code == i + 2 && |w.tasks[Kid(i)].hist| < |plans[i]|
    requires !e.Blocked? && w.tasks[Kid(i)].ctx.acc == Some(RUN) && RUN in w.accs
    ensures RUN in w'.accs
    ensures var t := w.tasks[Kid(i)]; var secret, secret' := w.accs[RUN].secret, w'.accs[RUN].secret;
      if t.phase.AwaitResources? && !e.End? then
        && secret' == secret
        && DoneOf(w', i) == DoneOf(w, i) + (if secret then 1 else 0) && WaitingOf(w', i) == !secret && !WaitingOf(w, i)
      else if t.phase.AwaitSecrets? && !e.End? then
        && secret' == SecretIn(env, plans[i][|t.hist|])
        && DoneOf(w', i) == DoneOf(w, i) + 1 && DoneOf(w, i) == |t.hist| && WaitingOf(w, i) && !WaitingOf(w', i)
      else secret' == secret && DoneOf(w', i) == DoneOf(w, i) && WaitingOf(w', i) == WaitingOf(w, i)
  {
  }

  lemma SameView(plans: seq<Plan>, w: World, w': World)
    requires (RUN in w.accs && w.accs[RUN].secret) == (RUN in w'.accs && w'.accs[RUN].secret)
    requires forall i | 0 <= i < |plans| :: DoneOf(w', i) == DoneOf(w, i) && WaitingOf(w', i) == WaitingOf(w, i)
    ensures View(plans, w') == View(plans, w)
  {
  }

  /** What one step of a child inside a resolve leaves alone. */
  lemma OthersUnseen(plans: seq<Plan>, env: Env, w: World, i: nat, pick: nat, e: Effect, w': World, k: nat)
    requires Stepped(Gathering(plans), env, w, Kid(i), pick, e, w') && !e.Fork? && k != i
    ensures DoneOf(w', k) == DoneOf(w, k) && WaitingOf(w', k) == WaitingOf(w, k)
  {
  }

  /** Read off the views: child i made one of its steps. */
  lemma IsStep(plans: seq<Plan>, env: Env, w: World, w': World, i: nat)
    requires W.Fits(Flags(env, plans), View(plans, w)) && i < |plans| && DoneOf(w, i) < |plans[i]|
    requires RUN in w.accs && RUN in w'.accs
    requires forall k | 0 <= k < |plans| && k != i :: DoneOf(w', k) == DoneOf(w, k) && WaitingOf(w', k) == WaitingOf(w, k)
    requires if WaitingOf(w, i) then
               && w'.accs[RUN].secret == SecretIn(env, plans[i][DoneOf(w, i)])
               && DoneOf(w', i) == DoneOf(w, i) + 1 && !WaitingOf(w', i)
             else
               && w'.accs[RUN].secret == w.accs[RUN].secret
               && DoneOf(w', i) == DoneOf(w, i) + (if w.accs[RUN].secret then 1 else 0)
               && WaitingOf(w', i) == !w.accs[RUN].secret
    ensures View(plans, w') == W.Step(Flags(env, plans), View(plans, w), i)
  {
  }

  lemma OneStep(flags: seq<seq<bool>>, g: W.Gather, i: nat)
    requires W.Fits(flags, g)
    ensures W.Run(flags, g, []) == g && W.Run(flags, g, [i]) == W.Step(flags, g, i)
  {
  }

  /** A machine step is a step of one child in SecretWindow, or none at all. */
  lemma KidStep(plans: seq<Plan>, env: Env, w: World, i: nat, pick: nat, e: Effect, w': World) returns (order: seq<nat>)
    requires Stepped(Gathering(plans), env, w, Kid(i), pick, e, w') && Staged(plans, env, w)
    requires i < |plans| && Gathering(plans)(w.tasks[Kid(i)].coro, w.tasks[Kid(i)].hist).Resolve?
    ensures W.Fits(Flags(env, plans), View(plans, w))
    ensures View(plans, w') == W.Run(Flags(env, plans), View(plans, w), order)
  {
    var t := w.tasks[Kid(i)];
    ViewFits(plans, env, w);
    KidFits(plans, env, w, i);
    KidHome(plans, env, w, i);
    OneStep(Flags(env, plans), View(plans, w), i);
    order := [];
    if !e.Blocked? {
      KidViewed(plans, env, w, i, pick, e, w');
      forall k | 0 <= k < |plans| && k != i ensures DoneOf(w', k) == DoneOf(w, k) && WaitingOf(w', k) == WaitingOf(w, k) {
        OthersUnseen(plans, env, w, i, pick, e, w', k);
      }
      if !e.End? && (t.phase.AwaitResources? || t.phase.AwaitSecrets?) {
        order := [i];
        IsStep(plans, env, w, w', i);
      } else {
        SameView(plans, w, w');
      }
    }
  }

  lemma KidHome(plans: seq<Plan>, env: Env, w: World, i: nat)
    requires Staged(plans, env, w) && i < |plans| && Live(w, Kid(i))
    ensures w.tasks[Kid(i)].ctx.acc == Some(RUN) && RUN in w.accs
  {
    KidFits(plans, env, w, i);
    Cast(plans, env, w, Kid(i));
    HomeOfLive(Gathering(plans), env, w, Kid(i));
  }

  lemma OtherStep(plans: seq<Plan>, env: Env, w: World, p: Path, pick: nat, e: Effect, w': World)
    requires Stepped(Gathering(plans), env, w, p, pick, e, w') && Staged(plans, env, w)
    requires !Gathering(plans)(w.tasks[p].coro, w.tasks[p].hist).Resolve?
    ensures View(plans, w') == View(plans, w)
  {
    var P := Gathering(plans);
    Cast(plans, env, w, p);
    EffectGrows(P, env, w, p, pick);
    StepIsLocal(P, env, w, p, e);
    ForkIsFresh(P, env, w, p);
    forall i | 0 <= i < |plans| ensures DoneOf(w', i) == DoneOf(w, i) && WaitingOf(w', i) == WaitingOf(w, i) {
      if Kid(i) == p {
        KidFits(plans, env, w, i);
      }
    }
    SameView(plans, w, w');
  }

  lemma StagedStays(plans: seq<Plan>, env: Env, s: seq<Move>)
    ensures Staged(plans, env, Run(Gathering(plans), env, Init(Coro(0, [])), s))
  {
    var w0, w := Init(Coro(0, [])), Run(Gathering(plans), env, Init(Coro(0, [])), s);
    ReachableGood(Gathering(plans), env, Coro(0, []), s);
    StartGood(Gathering(plans), env, ReadFirst, Coro(0, []));
    RunKeepsInv(Gathering(plans), env, w0, s);
    assert Grown(w0.tasks[[]], w.tasks[[]]);
  }

  lemma MoveIsOrder(plans: seq<Plan>, env: Env, w: World, m: Move) returns (order: seq<nat>)
    requires Staged(plans, env, w)
    ensures W.Fits(Flags(env, plans), View(plans, w))
    ensures View(plans, Step(Gathering(plans), env, w, m)) == W.Run(Flags(env, plans), View(plans, w), order)
  {
    var P := Gathering(plans);
    ViewFits(plans, env, w);
    order := [];
    if Live(w, m.path) {
      StepExtends(P, env, w, m);
      var e := EffectOf(P, env, w, m.path, m.pick);
      if P(w.tasks[m.path].coro, w.tasks[m.path].hist).Resolve? {
        Cast(plans, env, w, m.path);
        order := KidStep(plans, env, w, w.tasks[m.path].coro.code - 2, m.pick, e, Step(P, env, w, m));
      } else {
        OtherStep(plans, env, w, m.path, m.pick, e, Step(P, env, w, m));
      }
    }
  }

  lemma {:induction false} ScheduleIsOrder(plans: seq<Plan>, env: Env, s: seq<Move>) returns (order: seq<nat>)
    ensures View(plans, Run(Gathering(plans), env, Init(Coro(0, [])), s)) == W.Run(Flags(env, plans), W.Begin(Flags(env, plans)), order)
    decreases |s|
  {
    var P, w0, flags := Gathering(plans), Init(Coro(0, [])), Flags(env, plans);
    if s == [] {
      order := [];
      assert View(plans, w0) == W.Begin(flags);
    } else {
      var before := ScheduleIsOrder(plans, env, s[..|s|-1]);
      StagedStays(plans, env, s[..|s|-1]);
      var more := MoveIsOrder(plans, env, Run(P, env, w0, s[..|s|-1]), s[|s|-1]);
      order := before + more;
      W.RunAppend(flags, W.Begin(flags), before, more);
    }
  }

  /** When the run has returned, all children are done and the output's flag is the one the order left. */
  lemma ReturnedView(plans: seq<Plan>, env: Env, s: seq<Move>)
    requires ReturnedIn(Run(Gathering(plans), env, Init(Coro(0, [])), s), RUN)
    ensures var w := Run(Gathering(plans), env, Init(Coro(0, [])), s); var g := View(plans, w);
      && W.Fits(Flags(env, plans), g) && W.Finished(Flags(env, plans), g)
      && SecretOf(env, w, OfRun(RUN)) == Done(g.secret)
  {
    var P, w := Gathering(plans), Run(Gathering(plans), env, Init(Coro(0, [])), s);
    StagedStays(plans, env, s);
    ViewFits(plans, env, w);
    GatheringIsStructured(plans);
    PropagationInvariants(P, env, ReadFirst, Coro(0, []), s);
    RunIsRun(plans, env, w);
    var t := w.tasks[RUN];
    assert GoodTask(P, env, w, RUN);
    forall i | 0 <= i < |plans| ensures DoneOf(w, i) == |plans[i]| {
      assert |t.hist[..i]| == i;
      ChildrenReturned(P, env, w, RUN, i);
      assert RUN + [i] == Kid(i);
      KidFits(plans, env, w, i);
      assert GoodTask(P, env, w, Kid(i));
    }
  }

  lemma RunIsRun(plans: seq<Plan>, env: Env, w: World)
    requires Staged(plans, env, w) && RUN in w.tasks
    ensures w.tasks[RUN].coro.code == 1 && w.tasks[RUN].isRun
  {
    Cast(plans, env, w, RUN);
    LinkOf(Gathering(plans), env, w, RUN);
    assert Parent(RUN) == [] && RUN != [];
    Apart(w.tasks[RUN].coro.code - 2, 0);
  }

  // ---- every order is followed by some schedule ----------------------------------------------------------------

  /** Child i has answered j resolves and is at the await numbered `rank`. */
  ghost predicate Stage(w: World, i: nat, j: nat, rank: nat, secret: bool) {
    && Live(w, Kid(i)) && RUN in w.accs && w.accs[RUN].secret == secret
    && var t := w.tasks[Kid(i)];
       !t.isRun && t.coro.code == i + 2 && t.ctx.acc == Some(RUN) && |t.hist| == j && Rank(t.phase) == rank
  }

  /** Everything but child i and the accumulator is as it was. */
  ghost predicate Still(w: World, w': World, i: nat) {
    w'.order == w.order && forall q | q in w.tasks && q != Kid(i) :: q in w'.tasks && w'.tasks[q] == w.tasks[q]
  }

  function Move0(i: nat): Move { Move(Kid(i), 0) }

  lemma AllThere(plans: seq<Plan>, env: Env, w: World, i: nat, j: nat)
    requires AllGettable(env, plans) && i < |plans| && j < |plans[i]|
    ensures var outs := Leaves(plans[i][j]);
      && outs != []
      && (forall n | 0 <= n < |outs| :: ResourcesOf(env, w, outs[n]).Done? && SecretOf(env, w, outs[n]).Done?)
      && (forall n | 0 <= n < |outs| :: ValueOf(env, w, outs[n]).Done? && !ContainsUnknowns(ValueOf(env, w, outs[n]).v))
      && (forall n | 0 <= n < |outs| :: KnownOf(env, w, outs[n]) == Done(true))
  {
  }

  lemma KidStores(plans: seq<Plan>, env: Env, w: World, i: nat, j: nat, rank: nat, secret: bool)
    requires AllGettable(env, plans) && i < |plans| && j < |plans[i]| && w.order.ReadFirst? && Stage(w, i, j, rank, secret)
    requires rank <= 2
    ensures var w' := Step(Gathering(plans), env, w, Move0(i));
      Still(w, w', i) &&
      if rank == 0 then Stage(w', i, j, 1, secret)
      else if rank == 1 then Stage(w', i, j, if secret then 3 else 2, secret)
      else Stage(w', i, j, 3, SecretIn(env, plans[i][j]))
  {
    var t, outs := w.tasks[Kid(i)], Leaves(plans[i][j]);
    assert Gathering(plans)(t.coro, t.hist) == Resolve(outs);
    AllThere(plans, env, w, i, j);
    match t.phase
    case AwaitResources => assert AllDone(Each(outs, o => ResourcesOf(env, w, o)));
    case AwaitSecrets =>
      assert AllDone(Each(outs, o => SecretOf(env, w, o)));
      var fs := Gathered(Each(outs, o => SecretOf(env, w, o)));
      assert forall n | 0 <= n < |outs| :: env(plans[i][j][n]).secret == Done(fs[n]);
      assert Any(fs) == SecretIn(env, plans[i][j]);
    case _ =>
  }

  lemma NoUnknown(vs: seq<Val>)
    requires forall n | 0 <= n < |vs| :: !ContainsUnknowns(vs[n])
    ensures AfterValues(vs) == Wait(AwaitKnown(vs))
  {
  }

  lemma KidAnswers(plans: seq<Plan>, env: Env, w: World, i: nat, j: nat, rank: nat, secret: bool)
    requires AllGettable(env, plans) && i < |plans| && j < |plans[i]| && Stage(w, i, j, rank, secret) && rank > 2
    ensures var w' := Step(Gathering(plans), env, w, Move0(i));
      Still(w, w', i) && if rank == 3 then Stage(w', i, j, 4, secret) else Stage(w', i, j + 1, 0, secret)
  {
    var t, outs := w.tasks[Kid(i)], Leaves(plans[i][j]);
    assert Gathering(plans)(t.coro, t.hist) == Resolve(outs);
    AllThere(plans, env, w, i, j);
    if t.phase.AwaitValues? {
      assert AllDone(Each(outs, o => ValueOf(env, w, o)));
      NoUnknown(Gathered(Each(outs, o => ValueOf(env, w, o))));
    } else {
      assert AllDone(Each(outs, o => KnownOf(env, w, o)));
      assert All(Gathered(Each(outs, o => KnownOf(env, w, o))));
    }
  }

  lemma Then(P: Program, env: Env, w: World, s: seq<Move>, m: Move)
    ensures Run(P, env, w, s + [m]) == Step(P, env, Run(P, env, w, s), m)
  {
  }

  /** Child i goes on to the next place where it rests: its window, or between two resolves. */
  lemma {:induction false} KidRests(plans: seq<Plan>, env: Env, w: World, i: nat, j: nat, rank: nat, secret: bool) returns (s: seq<Move>)
    requires AllGettable(env, plans) && i < |plans| && j < |plans[i]| && w.order.ReadFirst? && Stage(w, i, j, rank, secret)
    ensures var w' := Run(Gathering(plans), env, w, s);
      Still(w, w', i) &&
      if rank <= 1 && !secret then Stage(w', i, j, 2, false)
      else Stage(w', i, j + 1, 0, if rank == 2 then SecretIn(env, plans[i][j]) else secret)
    decreases 5 - rank
  {
    var P, m := Gathering(plans), [Move0(i)];
    if rank <= 2 {
      KidStores(plans, env, w, i, j, rank, secret);
    } else {
      KidAnswers(plans, env, w, i, j, rank, secret);
    }
    Then(P, env, w, [], Move0(i));
    assert [] + m == m;
    var w1 := Run(P, env, w, m);
    s := m;
    if rank < 4 && !(rank == 1 && !secret) {
      var rank' := Rank(w1.tasks[Kid(i)].phase);
      var rest := KidRests(plans, env, w1, i, j, rank', w1.accs[RUN].secret);
      RunAppend(P, env, w, m, rest);
      s := m + rest;
    }
  }

  /** The run has spawned n children. */
  ghost predicate Running(w: World, n: nat, secret: bool) {
    && Live(w, RUN) && RUN in w.accs && w.accs[RUN].secret == secret
    && var t := w.tasks[RUN];
       t.isRun && t.coro.code == 1 && t.ctx.acc == Some(RUN) && |t.hist| == n
  }

  /** The await a child rests at: its window, or none. */
  function RestAt(waiting: bool): nat {
    if waiting then 2 else 0
  }

  /** All children are at rest, as g says. */
  ghost predicate Parked(plans: seq<Plan>, env: Env, w: World, g: W.Gather) {
    && w.order.ReadFirst? && W.Fits(Flags(env, plans), g) && Running(w, |plans|, g.secret)
    && forall i | 0 <= i < |plans| :: Stage(w, i, g.done[i], RestAt(g.waiting[i]), g.secret)
  }

  lemma OneTurn(plans: seq<Plan>, env: Env, w: World, g: W.Gather, i: nat) returns (s: seq<Move>)
    requires AllGettable(env, plans) && Parked(plans, env, w, g)
    ensures Parked(plans, env, Run(Gathering(plans), env, w, s), W.Step(Flags(env, plans), g, i))
  {
    s := [];
    var g' := W.Step(Flags(env, plans), g, i);
    if i < |plans| && g.done[i] < |plans[i]| {
      s := KidRests(plans, env, w, i, g.done[i], RestAt(g.waiting[i]), g.secret);
      var w' := Run(Gathering(plans), env, w, s);
      Apart(i, i);
      forall k | 0 <= k < |plans| ensures Stage(w', k, g'.done[k], RestAt(g'.waiting[k]), g'.secret) {
        assert Stage(w, k, g.done[k], RestAt(g.waiting[k]), g.secret);
        Apart(k, i);
      }
    }
  }

  lemma {:induction false} OrderIsSchedule(plans: seq<Plan>, env: Env, w: World, g: W.Gather, order: seq<nat>) returns (s: seq<Move>)
    requires AllGettable(env, plans) && Parked(plans, env, w, g)
    ensures Parked(plans, env, Run(Gathering(plans), env, w, s), W.Run(Flags(env, plans), g, order))
    decreases |order|
  {
    if order == [] {
      s := [];
    } else {
      var P, o := Gathering(plans), order[..|order|-1];
      var a := OrderIsSchedule(plans, env, w, g, o);
      var b := OneTurn(plans, env, Run(P, env, w, a), W.Run(Flags(env, plans), g, o), order[|order|-1]);
      RunAppend(P, env, w, a, b);
      s := a + b;
    }
  }

  lemma {:induction false} SpawnAll(plans: seq<Plan>, env: Env, n: nat) returns (s: seq<Move>)
    requires n <= |plans|
    ensures var w := Run(Gathering(plans), env, Init(Coro(0, [])), s);
      w.order.ReadFirst? && Running(w, n, false) && forall i | 0 <= i < n :: Stage(w, i, 0, 0, false)
  {
    var P, w0 := Gathering(plans), Init(Coro(0, []));
    if n == 0 {
      s := [] + [Move([], 0)];
      Then(P, env, w0, [], Move([], 0));
      assert [] + [0] == RUN;
    } else {
      var a := SpawnAll(plans, env, n - 1);
      var w := Run(P, env, w0, a);
      s := a + [Move(RUN, 0)];
      Then(P, env, w0, a, Move(RUN, 0));
      assert RUN + [n - 1] == Kid(n - 1);
      var w' := Step(P, env, w, Move(RUN, 0));
      forall i | 0 <= i < n ensures Stage(w', i, 0, 0, false) {
        Apart(i, n - 1);
        if i < n - 1 { assert Stage(w, i, 0, 0, false); }
      }
    }
  }

  lemma KidReturns(plans: seq<Plan>, env: Env, w: World, i: nat, secret: bool)
    requires i < |plans| && Stage(w, i, |plans[i]|, 0, secret)
    ensures var w' := Step(Gathering(plans), env, w, Move0(i));
      Still(w, w', i) && w'.accs == w.accs && ChildResult(w', RUN, i) == Some(Returned(Nothing))
  {
    Apart(i, i);
    assert Gathering(plans)(w.tasks[Kid(i)].coro, w.tasks[Kid(i)].hist) == Return(Nothing);
  }

  lemma StillThere(w: World, w': World, i: nat, k: nat, j: nat, rank: nat, secret: bool)
    requires Still(w, w', i) && w'.accs == w.accs && k != i && Stage(w, k, j, rank, secret)
    ensures Stage(w', k, j, rank, secret)
  {
  }

  lemma StillReturned(w: World, w': World, i: nat, k: nat)
    requires Still(w, w', i) && k != i && ChildResult(w, RUN, k) == Some(Returned(Nothing))
    ensures ChildResult(w', RUN, k) == Some(Returned(Nothing))
  {
    Apart(k, i);
  }

  /** The first n children have returned, the others have only that left to do. */
  ghost predicate Closing(plans: seq<Plan>, w: World, secret: bool, n: nat) {
    && Running(w, |plans|, secret)
    && (forall i {:trigger ChildResult(w, RUN, i)} | 0 <= i < n :: ChildResult(w, RUN, i) == Some(Returned(Nothing)))
    && (forall i {:trigger plans[i]} | n <= i < |plans| :: Stage(w, i, |plans[i]|, 0, secret))
  }

  lemma OneCloses(plans: seq<Plan>, env: Env, w: World, secret: bool, n: nat)
    requires n < |plans| && Closing(plans, w, secret, n)
    ensures Closing(plans, Step(Gathering(plans), env, w, Move0(n)), secret, n + 1)
  {
    var w' := Step(Gathering(plans), env, w, Move0(n));
    assert Stage(w, n, |plans[n]|, 0, secret);
    KidReturns(plans, env, w, n, secret);
    assert Running(w', |plans|, secret) by { Apart(n, 0); }
    forall i | 0 <= i < n ensures ChildResult(w', RUN, i) == Some(Returned(Nothing)) {
      StillReturned(w, w', n, i);
    }
    forall i | n < i < |plans| ensures Stage(w', i, |plans[i]|, 0, secret) {
      StillThere(w, w', n, i, |plans[i]|, 0, secret);
    }
  }

  /** The last n children return. */
  lemma {:induction false} AllReturn(plans: seq<Plan>, env: Env, w: World, secret: bool, n: nat) returns (s: seq<Move>)
    requires n <= |plans| && Closing(plans, w, secret, |plans| - n)
    ensures Closing(plans, Run(Gathering(plans), env, w, s), secret, |plans|)
    decreases n
  {
    if n == 0 {
      s := [];
    } else {
      var m := [Move0(|plans| - n)];
      Then(Gathering(plans), env, w, [], m[0]);
      assert [] + m == m;
      OneCloses(plans, env, w, secret, |plans| - n);
      var rest := AllReturn(plans, env, Run(Gathering(plans), env, w, m), secret, n - 1);
      RunAppend(Gathering(plans), env, w, m, rest);
      s := m + rest;
    }
  }

  lemma RunJoins(plans: seq<Plan>, env: Env, w: World, secret: bool)
    requires Running(w, |plans|, secret)
    requires forall i | 0 <= i < |plans| :: ChildResult(w, RUN, i) == Some(Returned(Nothing))
    ensures Running(Step(Gathering(plans), env, w, Move(RUN, 0)), |plans| + 1, secret)
  {
  }

  lemma RunReturns(plans: seq<Plan>, env: Env, w: World, secret: bool)
    requires Running(w, |plans| + 1, secret)
    ensures var w' := Step(Gathering(plans), env, w, Move(RUN, 0)); ReturnedIn(w', RUN) && SecretOf(env, w', OfRun(RUN)) == Done(secret)
  {
  }

  lemma Twice(P: Program, env: Env, w: World, m: Move)
    ensures Run(P, env, w, [m] + [m]) == Step(P, env, Step(P, env, w, m), m)
  {
    Then(P, env, w, [], m);
    assert [] + [m] == [m];
    Then(P, env, w, [m], m);
  }

  lemma RunEnds(plans: seq<Plan>, env: Env, w: World, secret: bool)
    requires Running(w, |plans|, secret)
    requires forall i | 0 <= i < |plans| :: ChildResult(w, RUN, i) == Some(Returned(Nothing))
    ensures var w' := Run(Gathering(plans), env, w, [Move(RUN, 0)] + [Move(RUN, 0)]);
      ReturnedIn(w', RUN) && SecretOf(env, w', OfRun(RUN)) == Done(secret)
  {
    Twice(Gathering(plans), env, w, Move(RUN, 0));
    RunJoins(plans, env, w, secret);
    RunReturns(plans, env, Step(Gathering(plans), env, w, Move(RUN, 0)), secret);
  }

  lemma Losing(plans: seq<Plan>, env: Env) returns (s: seq<Move>)
    requires AllGettable(env, plans) && W.CanLose(Flags(env, plans))
    ensures var w := Run(Gathering(plans), env, Init(Coro(0, [])), s);
      ReturnedIn(w, RUN) && SecretOf(env, w, OfRun(RUN)) == Done(false)
  {
    var P, w0, flags := Gathering(plans), Init(Coro(0, [])), Flags(env, plans);
    var order := W.LosesASecret(flags);
    var a := SpawnAll(plans, env, |plans|);
    var w1 := Run(P, env, w0, a);
    assert Parked(plans, env, w1, W.Begin(flags));
    var b := OrderIsSchedule(plans, env, w1, W.Begin(flags), order);
    RunAppend(P, env, w0, a, b);
    var w2, g := Run(P, env, w1, b), W.Run(flags, W.Begin(flags), order);
    forall i | 0 <= i < |plans| ensures Stage(w2, i, |plans[i]|, 0, false) {
      assert Stage(w2, i, g.done[i], RestAt(g.waiting[i]), g.secret);
    }
    var c := AllReturn(plans, env, w2, false, |plans|);
    RunAppend(P, env, w0, a + b, c);
    var w3 := Run(P, env, w2, c);
    RunEnds(plans, env, w3, false);
    s := a + b + c + ([Move(RUN, 0)] + [Move(RUN, 0)]);
    RunAppend(P, env, w0, a + b + c, [Move(RUN, 0)] + [Move(RUN, 0)]);
  }

  /** What the documentation promises of one schedule: a gather that has returned is secret if and only if some output
      it resolved was. */
  ghost predicate KeptUnder(plans: seq<Plan>, env: Env, s: seq<Move>) {
    var w := Run(Gathering(plans), env, Init(Coro(0, [])), s);
    ReturnedIn(w, RUN) ==> SecretOf(env, w, OfRun(RUN)) == Done(W.Expected(Flags(env, plans)))
  }

  /** The exact condition, for any number of children with any number of resolves: every schedule of the machine keeps
      the secrets if and only if there are none, or no child can store false last. */
  lemma KeptUnderEveryScheduleIff(plans: seq<Plan>, env: Env)
    requires AllGettable(env, plans)
    ensures (forall s: seq<Move> :: KeptUnder(plans, env, s)) <==> !W.CanLose(Flags(env, plans))
  {
    var flags := Flags(env, plans);
    if W.CanLose(flags) {
      var s := Losing(plans, env);
      assert !KeptUnder(plans, env, s);
    } else {
      forall s: seq<Move> ensures KeptUnder(plans, env, s) {
        if ReturnedIn(Run(Gathering(plans), env, Init(Coro(0, [])), s), RUN) {
          var order := ScheduleIsOrder(plans, env, s);
          ReturnedView(plans, env, s);
          W.KeptUnlessLosable(flags, order);
        }
      }
    }
  }
}
