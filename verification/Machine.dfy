/** The event loop: tasks with their own copies of the two ContextVars, accumulators shared
    by reference, and one step per segment of code that asyncio runs without interruption. */
module Machine {
  import opened Scope
  import opened Protocol

  /** A coroutine is a code and the values its closure captured. */
  datatype Coro = Coro(code: nat, args: seq<Val>)

  /** An output a coroutine can resolve: one of the engine's, or that of an async_output. */
  datatype OutRef = Leaf(id: nat) | OfRun(run: Path)

  datatype Action =
    | Resolve(outs: seq<OutRef>)                                       // await resolve(...)
    | Spawn(coro: Coro)                                                // asyncio.create_task
    | Open(coro: Coro)                                                 // async_output(fn)
    | Join(children: seq<nat>)                                         // await asyncio.gather(...)
    | Declare(parented: bool)                                          // any resource constructor
    | Build(name: string, token: Option<string>, parented: bool)       // Component.__init__
    | Close(frame: ScopeFrame)                                         // Component.register_outputs
    | Return(v: Val)
    | Raise

  /** What a coroutine does next, given the replies it has had so far. */
  type Program = (Coro, seq<Val>) -> Action

  /** The four futures of an engine output. */
  datatype LeafOut = LeafOut(resources: Fut<set<Resource>>, secret: Fut<bool>, value: Fut<Val>, known: Fut<bool>)
  type Env = nat -> LeafOut

  /** A task's context: the accumulator `resolve` writes to and the under-construction stack. */
  datatype Context = Context(acc: Option<Path>, stack: seq<ScopeFrame>)

  datatype Task = Task(
    coro: Coro,
    isRun: bool,                // the task of an async_output
    base: seq<ScopeFrame>,      // the stack copied at the fork
    token: Option<Path>,        // the accumulator copied at the fork
    ctx: Context,
    hist: seq<Val>,             // replies so far, one per completed action
    phase: Phase,
    result: Option<Result>,
    snap: Acc,                  // the run's accumulator as it stood at the return
    captured: set<Resource>,    // history variable: what the task that forked this one had used by then
    foot: set<Resource>)        // history variable: every resource whose output this task's behaviour has used

  /** The accumulator of a run is named by the path of its task. `order` says which `_resolve` is running. */
  datatype World = World(order: Order, tasks: map<Path, Task>, accs: map<Path, Acc>)

  function NewTask(coro: Coro, isRun: bool, path: Path, ctx: Context, foot: set<Resource>): Task {
    Task(coro, isRun, ctx.stack, ctx.acc, if isRun then ctx.(acc := Some(path)) else ctx,
         [], Ready, None, FRESH, foot, foot)
  }

  function Start(order: Order, main: Coro): World {
    World(order, map[[] := NewTask(main, false, [], Context(None, []), {})], map[])
  }

  /** The code as written. */
  function Init(main: Coro): World {
    Start(ReadFirst, main)
  }

  // ---- the futures a resolve gathers -------------------------------------------------------

  function RunResult(w: World, q: Path): Option<Result> {
    if q in w.tasks && w.tasks[q].isRun then w.tasks[q].result else None
  }

  /** The tuple of a finished run, its failure, or nothing yet: what `result` is a future of. */
  function Outcome(w: World, q: Path): Fut<RunTuple<Path>> {
    match RunResult(w, q)
    case None => Pending
    case Some(r) => match Collapse(q, r, w.tasks[q].snap)
                    case None => Broken
                    case Some(t) => Done(t)
  }

  function ResourcesOf(env: Env, w: World, o: OutRef): Fut<set<Resource>> {
    match o
    case Leaf(l) => env(l).resources
    case OfRun(q) => match Outcome(w, q)
                     case Pending => Pending
                     case Broken => Broken
                     case Done(t) => if t.deps in w.accs then Done(w.accs[t.deps].deps) else Pending
  }

  function SecretOf(env: Env, w: World, o: OutRef): Fut<bool> {
    match o
    case Leaf(l) => env(l).secret
    case OfRun(q) => match Outcome(w, q)
                     case Pending => Pending
                     case Broken => Broken
                     case Done(t) => Done(t.secret)
  }

  function ValueOf(env: Env, w: World, o: OutRef): Fut<Val> {
    match o
    case Leaf(l) => env(l).value
    case OfRun(q) => match Outcome(w, q)
                     case Pending => Pending
                     case Broken => Broken
                     case Done(t) => Done(t.value)
  }

  function KnownOf(env: Env, w: World, o: OutRef): Fut<bool> {
    match o
    case Leaf(l) => env(l).known
    case OfRun(q) => match Outcome(w, q)
                     case Pending => Pending
                     case Broken => Broken
                     case Done(t) => Done(t.known)
  }

  function Each<T>(outs: seq<OutRef>, f: OutRef -> Fut<T>): (r: seq<Fut<T>>)
    ensures |r| == |outs|
    ensures forall i | 0 <= i < |r| :: r[i] == f(outs[i])
  {
    seq(|outs|, i requires 0 <= i < |outs| => f(outs[i]))
  }

  /** What using an output makes a task's behaviour depend on. */
  function FootOf(env: Env, w: World, o: OutRef): set<Resource> {
    match o
    case Leaf(l) => if env(l).resources.Done? then env(l).resources.v else {}
    case OfRun(q) => if q in w.tasks then w.tasks[q].foot else {}
  }

  function Feet(env: Env, w: World, outs: seq<OutRef>): (r: seq<set<Resource>>)
    ensures |r| == |outs|
    ensures forall i | 0 <= i < |r| :: r[i] == FootOf(env, w, outs[i])
  {
    seq(|outs|, i requires 0 <= i < |outs| => FootOf(env, w, outs[i]))
  }

  // ---- one step ---------------------------------------------------------------------------

  /** What one uninterrupted segment does to its own task, and at most to the task's accumulator. */
  datatype Effect =
    | Blocked
    | Suspend(phase: Phase, acc: Acc, foot: set<Resource>)
    | Reply(v: Val, stack: seq<ScopeFrame>, foot: set<Resource>)
    | Fork(coro: Coro, isRun: bool)
    | End(result: Result)

  /** gather raises the first exception among its futures, whichever the loop delivers first (`pick`),
      and otherwise waits for all of them. */
  function Awaited<T>(futures: seq<Fut<T>>, pick: nat): Fut<seq<T>> {
    if pick < |futures| && futures[pick].Broken? then Broken
    else if AllDone(futures) then Done(Gathered(futures))
    else Pending
  }

  function Proceed(acc: Acc, s: Segment, t: Task, foot: set<Resource>): Effect {
    match s
    case Wait(phase) => Suspend(phase, acc, foot)
    case Answer(v) => Reply(v, t.ctx.stack, foot)
    case Abort => End(Aborted)
  }

  function ResolveStep(env: Env, w: World, t: Task, outs: seq<OutRef>, pick: nat): Effect {
    if outs == [] || t.ctx.acc.None? || t.ctx.acc.value !in w.accs then End(Failed)   // TypeError, RuntimeError
    else
      var acc := w.accs[t.ctx.acc.value];
      match t.phase
      case Ready => Suspend(AwaitResources, acc, t.foot)
      case AwaitResources => (
        match Awaited(Each(outs, o => ResourcesOf(env, w, o)), pick)
        case Pending => Blocked
        case Broken => End(Failed)
        case Done(rs) => var (acc', s) := AfterResources(w.order, acc, rs);
                         Proceed(acc', s, t, t.foot + Union(Feet(env, w, outs))))
      case AwaitSecrets => (
        match Awaited(Each(outs, o => SecretOf(env, w, o)), pick)
        case Pending => Blocked
        case Broken => End(Failed)
        case Done(fs) => var (acc', s) := AfterSecrets(w.order, acc, fs); Proceed(acc', s, t, t.foot))
      case AwaitValues => (
        match Awaited(Each(outs, o => ValueOf(env, w, o)), pick)
        case Pending => Blocked
        case Broken => End(Failed)
        case Done(vs) => Proceed(acc, AfterValues(vs), t, t.foot))
      case AwaitKnown(vs) => (
        match Awaited(Each(outs, o => KnownOf(env, w, o)), pick)
        case Pending => Blocked
        case Broken => End(Failed)
        case Done(ks) => Proceed(acc, AfterKnown(vs, ks), t, t.foot))
  }

  function ChildResult(w: World, p: Path, c: nat): Option<Result> {
    if p + [c] in w.tasks && !w.tasks[p + [c]].isRun then w.tasks[p + [c]].result else None
  }

  function JoinStep(w: World, p: Path, t: Task, children: seq<nat>, pick: nat): Effect {
    if pick < |children| && ChildResult(w, p, children[pick]) in {Some(Aborted), Some(Failed)}
    then End(ChildResult(w, p, children[pick]).value)
    else if forall i | 0 <= i < |children| :: ChildReturned(w, p, children[i])
    then Reply(Tuple(ChildValues(w, p, children)), t.ctx.stack, t.foot + Union(ChildFeet(w, p, children)))
    else Blocked
  }

  predicate ChildReturned(w: World, p: Path, c: nat) {
    var r := ChildResult(w, p, c);
    r.Some? && r.value.Returned?
  }

  function ChildValues(w: World, p: Path, children: seq<nat>): (r: seq<Val>)
    requires forall i | 0 <= i < |children| :: ChildReturned(w, p, children[i])
    ensures |r| == |children|
    ensures forall i | 0 <= i < |r| :: ChildReturned(w, p, children[i]) && ChildResult(w, p, children[i]) == Some(Returned(r[i]))
  {
    seq(|children|, i requires 0 <= i < |children| =>
      assert ChildReturned(w, p, children[i]); ChildResult(w, p, children[i]).value.v)
  }

  function ChildFeet(w: World, p: Path, children: seq<nat>): (r: seq<set<Resource>>)
    requires forall i | 0 <= i < |children| :: ChildReturned(w, p, children[i])
    ensures |r| == |children|
    ensures forall i | 0 <= i < |r| :: ChildReturned(w, p, children[i]) && r[i] == w.tasks[p + [children[i]]].foot
  {
    seq(|children|, i requires 0 <= i < |children| =>
      assert ChildReturned(w, p, children[i]); w.tasks[p + [children[i]]].foot)
  }

  /** The frame `Component.__init__` creates at position k of task p. */
  function OwnFrame(p: Path, k: nat, name: string, token: string): ScopeFrame {
    Frame((p, k), name, token)
  }

  function EffectOf(P: Program, env: Env, w: World, p: Path, pick: nat): Effect
    requires p in w.tasks
  {
    var t := w.tasks[p];
    match P(t.coro, t.hist)
    case Resolve(outs) => ResolveStep(env, w, t, outs, pick)
    case Spawn(coro) => Fork(coro, false)
    case Open(coro) => Fork(coro, true)
    case Join(children) => JoinStep(w, p, t, children, pick)
    case Declare(parented) =>
      if Refusal(t.ctx.stack, parented).Some? then End(Failed) else Reply(Nothing, t.ctx.stack, t.foot)
    case Build(name, token, parented) =>
      if token.None? || Refusal(t.ctx.stack, parented).Some? then End(Failed)
      else var f := OwnFrame(p, |t.hist|, name, token.value);
           Reply(Entry(f), t.ctx.stack + [f], t.foot)
    case Close(frame) => Reply(Nothing, CutAt(t.ctx.stack, frame), t.foot)
    case Return(v) => End(Returned(v))
    case Raise => End(Failed)
  }

  function Ended(w: World, p: Path, r: Result): Task
    requires p in w.tasks
  {
    var t := w.tasks[p];
    if t.isRun && p in w.accs
    then t.(result := Some(r), snap := w.accs[p], ctx := t.ctx.(acc := t.token))   // the `finally`
    else t.(result := Some(r))
  }

  function Apply(w: World, p: Path, e: Effect): World
    requires p in w.tasks
  {
    var t := w.tasks[p];
    match e
    case Blocked => w
    case Suspend(phase, acc, foot) =>
      w.(tasks := w.tasks[p := t.(phase := phase, foot := foot)],
         accs := if t.ctx.acc.Some? then w.accs[t.ctx.acc.value := acc] else w.accs)
    case Reply(v, stack, foot) =>
      w.(tasks := w.tasks[p := t.(hist := t.hist + [v], phase := Ready, foot := foot,
                                  ctx := t.ctx.(stack := stack))])
    case Fork(coro, isRun) =>
      var c := p + [|t.hist|];
      w.(tasks := w.tasks[p := t.(hist := t.hist + [Ref(c)])][c := NewTask(coro, isRun, c, t.ctx, t.foot)],
         accs := if isRun then w.accs[c := FRESH] else w.accs)
    case End(r) => w.(tasks := w.tasks[p := Ended(w, p, r)])
  }

  /** The scheduler's choice: which task runs, and which exception a gather delivers if several are due. */
  datatype Move = Move(path: Path, pick: nat)

  predicate Live(w: World, p: Path) {
    p in w.tasks && w.tasks[p].result.None?
  }

  /** A task that does not exist, has ended or has to wait makes no step. */
  function Step(P: Program, env: Env, w: World, m: Move): World {
    if Live(w, m.path) then Apply(w, m.path, EffectOf(P, env, w, m.path, m.pick)) else w
  }

  /** Every state some schedule reaches. */
  function Run(P: Program, env: Env, w: World, schedule: seq<Move>): World
    decreases |schedule|
  {
    if schedule == [] then w
    else Step(P, env, Run(P, env, w, schedule[..|schedule|-1]), schedule[|schedule|-1])
  }
}
