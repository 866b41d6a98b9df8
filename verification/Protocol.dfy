/** The values, futures and straight-line segments of `resolve` and `async_output`.

    A segment is what runs between two awaits.  The state machine (Machine) and the
    mutable objects (PaioObjects) are both stated with the functions of this module. */
module Protocol {
  import opened Scope

  /** A task is named by where it was forked: its parent's path, then the position in the
      parent's replies at which the fork happened.  The main task is []. */
  type Path = seq<nat>
  type Resource = nat
  type ScopeFrame = Frame<(Path, nat)>

  /** A future: not done, done with a value, or done with an exception. */
  datatype Fut<+T> = Pending | Done(v: T) | Broken

  /** What a coroutine computes with. `Unknown` is the SDK's sentinel. */
  datatype Val =
    | Unknown
    | Nothing
    | Num(n: int)
    | Tuple(items: seq<Val>)
    | Ref(path: Path)            // a task, or the output of an async_output
    | Entry(frame: ScopeFrame)   // a component's own frame

  predicate ContainsUnknowns(v: Val) {
    match v
    case Unknown => true
    case Tuple(items) => exists i | 0 <= i < |items| :: ContainsUnknowns(items[i])
    case _ => false
  }

  /** The part of a value at a sequence of positions. */
  function At(v: Val, path: seq<nat>): Option<Val> {
    if path == [] then Some(v)
    else if v.Tuple? && path[0] < |v.items| then At(v.items[path[0]], path[1..])
    else None
  }

  /** The sentinel occurs somewhere in the value. */
  ghost predicate HoldsUnknown(v: Val) {
    exists path {:trigger At(v, path)} :: At(v, path) == Some(Unknown)
  }

  /** The SDK's search finds the sentinel wherever it is, and nothing else. */
  lemma {:induction false} ContainsIffHolds(v: Val)
    ensures ContainsUnknowns(v) <==> HoldsUnknown(v)
    decreases v
  {
    assert At(v, []) == Some(v);
    if v.Tuple? {
      forall i | 0 <= i < |v.items| ensures ContainsUnknowns(v.items[i]) <==> HoldsUnknown(v.items[i]) {
        ContainsIffHolds(v.items[i]);
      }
      if i :| 0 <= i < |v.items| && ContainsUnknowns(v.items[i]) {
        var path :| At(v.items[i], path) == Some(Unknown);
        assert ([i] + path)[1..] == path;
        assert At(v, [i] + path) == Some(Unknown);
      }
      if path :| At(v, path) == Some(Unknown) {
        assert At(v.items[path[0]], path[1..]) == Some(Unknown);
      }
    } else if path :| path != [] && At(v, path) == Some(Unknown) {
      assert false;
    }
  }

  lemma SearchIs(vs: seq<Val>)
    ensures ContainsUnknowns(Tuple(vs)) <==> exists i | 0 <= i < |vs| :: HoldsUnknown(vs[i])
  {
    forall i | 0 <= i < |vs| ensures ContainsUnknowns(Tuple(vs).items[i]) <==> HoldsUnknown(vs[i]) {
      ContainsIffHolds(vs[i]);
    }
  }

  /** `_AsyncOutputCtx`: what the resolves of one run have observed. */
  datatype Acc = Acc(deps: set<Resource>, secret: bool)

  const FRESH := Acc({}, false)

  function Union<T>(sets: seq<set<T>>): (r: set<T>)
    ensures forall i | 0 <= i < |sets| :: sets[i] <= r
    ensures forall x | x in r :: exists i | 0 <= i < |sets| :: x in sets[i]
  {
    if sets == [] then {} else
      var rest := Union(sets[1..]);
      assert forall i | 1 <= i < |sets| :: sets[i] == sets[1..][i-1];
      sets[0] + rest
  }

  predicate Any(flags: seq<bool>) {
    exists i | 0 <= i < |flags| :: flags[i]
  }

  predicate All(flags: seq<bool>) {
    forall i | 0 <= i < |flags| :: flags[i]
  }

  /** asyncio.gather is done once every future is ... */
  predicate AllDone<T>(futures: seq<Fut<T>>) {
    forall i | 0 <= i < |futures| :: futures[i].Done?
  }

  function Gathered<T>(futures: seq<Fut<T>>): (r: seq<T>)
    requires AllDone(futures)
    ensures |r| == |futures|
    ensures forall i | 0 <= i < |r| :: futures[i] == Done(r[i])
  {
    seq(|futures|, i requires 0 <= i < |futures| => futures[i].v)
  }

  /** The await a resolve is suspended on; Ready is between two actions. */
  datatype Phase =
    | Ready
    | AwaitResources
    | AwaitSecrets
    | AwaitValues
    | AwaitKnown(values: seq<Val>)

  /** How a segment of a resolve ends: at the next await, with the reply, or in the unknown handshake. */
  datatype Segment = Wait(phase: Phase) | Answer(v: Val) | Abort

  /** How the `or` that updates the secret flag is evaluated: the flag first and the await second, which is the
      code, or the other way round, which is a variant the code is compared with. */
  datatype Order = ReadFirst | AwaitFirst

  /** After the first await: record every output's resources, then read the secret flag.
      A flag that is already set short-circuits the `or`, so the second await is skipped. */
  function AfterResources(order: Order, acc: Acc, gathered: seq<set<Resource>>): (Acc, Segment) {
    (acc.(deps := acc.deps + Union(gathered)),
     Wait(if order.ReadFirst? && acc.secret then AwaitValues else AwaitSecrets))
  }

  /** After the second await: store. The flag read before the await was false and is not read again;
      in the variant it is read only now. */
  function AfterSecrets(order: Order, acc: Acc, gathered: seq<bool>): (Acc, Segment) {
    (acc.(secret := Any(gathered) || (order.AwaitFirst? && acc.secret)), Wait(AwaitValues))
  }

  /** After the third await: an unknown anywhere in the values aborts without asking `is_known`. */
  function AfterValues(gathered: seq<Val>): Segment {
    if ContainsUnknowns(Tuple(gathered)) then Abort else Wait(AwaitKnown(gathered))
  }

  /** After the fourth await: one output gives its value, several give a tuple. */
  function AfterKnown(values: seq<Val>, gathered: seq<bool>): Segment {
    if All(gathered) then Answer(Pack(values)) else Abort
  }

  function Pack(values: seq<Val>): Val {
    if |values| == 1 then values[0] else Tuple(values)
  }

  /** What is packed from values without the sentinel is without it. */
  lemma PackIsPlain(vs: seq<Val>)
    requires forall i | 0 <= i < |vs| :: !HoldsUnknown(vs[i])
    ensures !HoldsUnknown(Pack(vs))
  {
    SearchIs(vs);
    ContainsIffHolds(Tuple(vs));
  }

  /** How a coroutine ended: with a value, in the unknown handshake, or with any other exception. */
  datatype Result = Returned(v: Val) | Aborted | Failed

  /** What `run` hands to the four `pick` futures of its output; None is its exception.
      `deps` is a reference to the accumulator's own set, the rest are values. */
  datatype RunTuple<D> = RunTuple(deps: D, value: Val, known: bool, secret: bool)

  function Collapse<D>(deps: D, result: Result, acc: Acc): Option<RunTuple<D>> {
    match result
    case Returned(v) => Some(RunTuple(deps, v, true, acc.secret))
    case Aborted => Some(RunTuple(deps, Nothing, false, acc.secret))
    case Failed => None
  }
}
