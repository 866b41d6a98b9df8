/** `unwrap`: awaitables that box awaitables, awaited layer after layer inside one async_output, on the machine. */
module Unwrapping {
  import opened Scope
  import opened Protocol
  import opened Machine
  import opened Invariants
  import opened Reachability
  import opened Propagation

  /** An awaitable.  A layer may resolve outputs while it is awaited, in the task that awaits it or in a task of its
      own, and gives what it makes of their values: a plain value or another awaitable. */
  datatype Nested =
    | Plain(v: Val)
    | Boxed(next: Nested)
    | Resolving(outs: seq<OutRef>, gives: Val -> Nested)
    | Tasked(coro: Coro, outs: seq<OutRef>, gives: Val -> Nested)

  /** At most d awaitables deep, whatever the values turn out to be. */
  ghost predicate Within(n: Nested, d: nat)
    decreases d
  {
    match n
    case Plain(_) => true
    case Boxed(next) => d > 0 && Within(next, d - 1)
    case Resolving(_, gives) => d > 0 && forall v :: Within(gives(v), d - 1)
    case Tasked(_, _, gives) => d > 0 && forall v :: Within(gives(v), d - 1)
  }

  /** The value of the one task a layer awaits. */
  function Awaits(reply: Val): Val {
    if reply.Tuple? && |reply.items| == 1 then reply.items[0] else Nothing
  }

  /** What a coroutine that does `return await unwrap(n)` does next; `at` replies came before those in `hist`. */
  function Act(n: Nested, hist: seq<Val>, at: nat): Action
    decreases |hist|, n
  {
    match n
    case Plain(v) => Return(v)
    case Boxed(next) => Act(next, hist, at)
    case Resolving(outs, gives) =>
      if hist == [] then Resolve(outs) else Act(gives(hist[0]), hist[1..], at + 1)
    case Tasked(coro, _, gives) =>
      if hist == [] then Spawn(coro)
      else if |hist| == 1 then Join([at])
      else Act(gives(Awaits(hist[1])), hist[2..], at + 2)
  }

  /** What the task of a layer does: one resolve, whose value it returns. */
  function LayerTask(outs: seq<OutRef>, hist: seq<Val>): Action {
    if hist == [] then Resolve(outs) else Return(hist[0])
  }

  ghost predicate RunsAs(P: Program, coro: Coro, outs: seq<OutRef>) {
    forall hist :: P(coro, hist) == LayerTask(outs, hist)
  }

  ghost predicate LayersRun(P: Program, n: Nested, d: nat)
    decreases d
  {
    match n
    case Plain(_) => true
    case Boxed(next) => d > 0 && LayersRun(P, next, d - 1)
    case Resolving(_, gives) => d > 0 && forall v :: LayersRun(P, gives(v), d - 1)
    case Tasked(coro, outs, gives) =>
      d > 0 && RunsAs(P, coro, outs) && forall v :: LayersRun(P, gives(v), d - 1)
  }

  /** In the program P, whatever else it does, `coro` unwraps n. */
  ghost predicate Unwraps(P: Program, coro: Coro, n: Nested, d: nat) {
    Within(n, d) && LayersRun(P, n, d) && forall hist :: P(coro, hist) == Act(n, hist, 0)
  }

  // ---- what unwrap promises ---------------------------------------------------------------------------------

  ghost predicate AllUsable(env: Env, w: World, outs: seq<OutRef>) {
    forall i | 0 <= i < |outs| :: Usable(env, w, outs[i])
  }

  ghost function ValueGiven(env: Env, w: World, outs: seq<OutRef>): Val
    requires AllUsable(env, w, outs)
  {
    Pack(seq(|outs|, i requires 0 <= i < |outs| => UsedValue(env, w, outs[i])))
  }

  /** v is the innermost value: where one gets from n by giving each layer the values of its outputs. */
  ghost predicate Innermost(env: Env, w: World, n: Nested, d: nat, v: Val)
    decreases d
  {
    match n
    case Plain(u) => v == u
    case Boxed(next) => d > 0 && Innermost(env, w, next, d - 1, v)
    case Resolving(outs, gives) =>
      d > 0 && AllUsable(env, w, outs) && Innermost(env, w, gives(ValueGiven(env, w, outs)), d - 1, v)
    case Tasked(_, outs, gives) =>
      d > 0 && AllUsable(env, w, outs) && Innermost(env, w, gives(ValueGiven(env, w, outs)), d - 1, v)
  }

  /** Some layer on the way there resolves o. */
  ghost predicate InLayers(env: Env, w: World, n: Nested, d: nat, o: OutRef)
    decreases d
  {
    match n
    case Plain(_) => false
    case Boxed(next) => d > 0 && InLayers(env, w, next, d - 1, o)
    case Resolving(outs, gives) =>
      d > 0 && AllUsable(env, w, outs) && (o in outs || InLayers(env, w, gives(ValueGiven(env, w, outs)), d - 1, o))
    case Tasked(_, outs, gives) =>
      d > 0 && AllUsable(env, w, outs) && (o in outs || InLayers(env, w, gives(ValueGiven(env, w, outs)), d - 1, o))
  }

  // ---- the run follows the layers ------------------------------------------------------------------------------

  /** At position j the run resolves o, itself or in the task it spawns there. */
  ghost predicate InTurn(P: Program, w: World, r: Path, j: nat, o: OutRef)
    requires r in w.tasks && j < |w.tasks[r].hist|
  {
    match P(w.tasks[r].coro, w.tasks[r].hist[..j])
    case Resolve(outs) => o in outs
    case Spawn(coro) => P(coro, []).Resolve? && o in P(coro, []).outs
    case _ => false
  }

  ghost predicate ResolvedFrom(P: Program, w: World, r: Path, k: nat, o: OutRef)
    requires r in w.tasks
  {
    exists j {:trigger InTurn(P, w, r, j, o)} | k <= j < |w.tasks[r].hist| :: InTurn(P, w, r, j, o)
  }

  /** The task returned r, and from position k on it has been unwrapping n. */
  ghost predicate UnwrapsFrom(P: Program, env: Env, w: World, r: Path, n: Nested, d: nat, k: nat) {
    && Inv(P, env, w) && ReturnedIn(w, r) && k <= |w.tasks[r].hist|
    && Within(n, d) && LayersRun(P, n, d)
    && forall j {:trigger w.tasks[r].hist[..j]} | k <= j <= |w.tasks[r].hist| ::
         P(w.tasks[r].coro, w.tasks[r].hist[..j]) == Act(n, w.tasks[r].hist[k..j], k)
  }

  lemma ReturnsAtEnd(P: Program, env: Env, w: World, r: Path)
    requires Inv(P, env, w) && ReturnedIn(w, r)
    ensures P(w.tasks[r].coro, w.tasks[r].hist) == Return(w.tasks[r].result.value.v)
    ensures w.tasks[r].hist[..|w.tasks[r].hist|] == w.tasks[r].hist
  {
    assert GoodTask(P, env, w, r);
  }

  /** A layer's own task, once joined, returned the value of the layer's outputs. */
  lemma TaskGave(P: Program, env: Env, w: World, r: Path, k: nat, coro: Coro, outs: seq<OutRef>)
    requires Inv(P, env, w) && r in w.tasks && k < |w.tasks[r].hist| && ChildReturned(w, r, k)
    requires P(w.tasks[r].coro, w.tasks[r].hist[..k]) == Spawn(coro) && RunsAs(P, coro, outs)
    ensures AllUsable(env, w, outs) && ChildResult(w, r, k) == Some(Returned(ValueGiven(env, w, outs)))
    ensures w.tasks[r + [k]].coro == coro
  {
    var c := r + [k];
    LinkOf(P, env, w, c);
    assert Parent(c) == r && Place(c) == k;
    ReturnsAtEnd(P, env, w, c);
    var t := w.tasks[c];
    if |t.hist| > 1 {
      NoReplyToReturn(P, env, w, c, 1);
    }
    assert t.hist[..0] == [];
    assert GoodTask(P, env, w, c) && GoodReply(P, env, w, c, 0);
  }

  lemma {:induction false} FollowsLayers(P: Program, env: Env, w: World, r: Path, n: Nested, d: nat, k: nat)
    requires UnwrapsFrom(P, env, w, r, n, d, k)
    ensures Innermost(env, w, n, d, w.tasks[r].result.value.v)
    ensures forall o :: InLayers(env, w, n, d, o) <==> ResolvedFrom(P, w, r, k, o)
    decreases d
  {
    var h := w.tasks[r].hist;
    ReturnsAtEnd(P, env, w, r);
    assert h[k..k] == [] && P(w.tasks[r].coro, h[..k]) == Act(n, [], k);
    match n
    case Plain(_) =>
      if |h| > k { NoReplyToReturn(P, env, w, r, k); }
    case Boxed(next) => FollowsLayers(P, env, w, r, next, d - 1, k);
    case Resolving(outs, gives) => ResolvingLayer(P, env, w, r, n, d, k);
    case Tasked(coro, outs, gives) => TaskedLayer(P, env, w, r, n, d, k);
  }

  lemma NextTurn(P: Program, w: World, r: Path, k: nat, o: OutRef)
    requires r in w.tasks && k < |w.tasks[r].hist|
    ensures ResolvedFrom(P, w, r, k, o) <==> InTurn(P, w, r, k, o) || ResolvedFrom(P, w, r, k + 1, o)
  {
  }

  lemma {:induction false} ResolvingLayer(P: Program, env: Env, w: World, r: Path, n: Nested, d: nat, k: nat)
    requires UnwrapsFrom(P, env, w, r, n, d, k) && n.Resolving?
    ensures Innermost(env, w, n, d, w.tasks[r].result.value.v)
    ensures forall o :: InLayers(env, w, n, d, o) <==> ResolvedFrom(P, w, r, k, o)
    decreases d, 0
  {
    var h := w.tasks[r].hist;
    ReturnsAtEnd(P, env, w, r);
    assert h[k..k] == [] && P(w.tasks[r].coro, h[..k]) == Resolve(n.outs);
    assert GoodTask(P, env, w, r) && GoodReply(P, env, w, r, k);
    assert h[k] == ValueGiven(env, w, n.outs);
    forall j | k + 1 <= j <= |h| ensures P(w.tasks[r].coro, h[..j]) == Act(n.gives(h[k]), h[k+1..j], k + 1) {
      assert h[k..j][0] == h[k] && h[k..j][1..] == h[k+1..j];
    }
    FollowsLayers(P, env, w, r, n.gives(h[k]), d - 1, k + 1);
    forall o ensures ResolvedFrom(P, w, r, k, o) <==> o in n.outs || ResolvedFrom(P, w, r, k + 1, o) {
      NextTurn(P, w, r, k, o);
    }
  }

  /** The two replies of a layer with a task of its own: the task, and its value. */
  lemma TaskedReplies(P: Program, env: Env, w: World, r: Path, n: Nested, d: nat, k: nat)
    requires UnwrapsFrom(P, env, w, r, n, d, k) && n.Tasked?
    ensures var t := w.tasks[r];
      && k + 2 <= |t.hist| && P(t.coro, t.hist[..k]) == Spawn(n.coro) && P(t.coro, t.hist[..k+1]).Join?
      && AllUsable(env, w, n.outs) && Awaits(t.hist[k+1]) == ValueGiven(env, w, n.outs)
  {
    var t := w.tasks[r];
    var h := t.hist;
    ReturnsAtEnd(P, env, w, r);
    assert h[k..k] == [] && P(t.coro, h[..k]) == Spawn(n.coro);
    assert |h| > k;
    assert |h[k..k+1]| == 1 && P(t.coro, h[..k+1]) == Join([k]);
    assert |h| > k + 1;
    assert GoodTask(P, env, w, r) && GoodReply(P, env, w, r, k + 1);
    var children: seq<nat> := [k];
    assert ChildReturned(w, r, children[0]);
    TaskGave(P, env, w, r, k, n.coro, n.outs);
    assert ChildValues(w, r, children)[0] == ValueGiven(env, w, n.outs);
  }

  lemma {:induction false} TaskedLayer(P: Program, env: Env, w: World, r: Path, n: Nested, d: nat, k: nat)
    requires UnwrapsFrom(P, env, w, r, n, d, k) && n.Tasked?
    ensures Innermost(env, w, n, d, w.tasks[r].result.value.v)
    ensures forall o :: InLayers(env, w, n, d, o) <==> ResolvedFrom(P, w, r, k, o)
    decreases d, 0
  {
    var h := w.tasks[r].hist;
    TaskedReplies(P, env, w, r, n, d, k);
    var next := n.gives(Awaits(h[k+1]));
    assert UnwrapsFrom(P, env, w, r, next, d - 1, k + 2) by {
      forall j | k + 2 <= j <= |h| ensures P(w.tasks[r].coro, h[..j]) == Act(next, h[k+2..j], k + 2) {
        assert h[k..j][1] == h[k+1] && h[k..j][2..] == h[k+2..j];
      }
    }
    FollowsLayers(P, env, w, r, next, d - 1, k + 2);
    forall o ensures ResolvedFrom(P, w, r, k, o) <==> o in n.outs || ResolvedFrom(P, w, r, k + 2, o) {
      assert P(n.coro, []) == LayerTask(n.outs, []);
      NextTurn(P, w, r, k, o);
      NextTurn(P, w, r, k + 1, o);
    }
  }

  // ---- it ends ------------------------------------------------------------------------------------------------

  /** At the latest after two replies for every awaitable the coroutine returns. */
  lemma {:induction false} ActEnds(n: Nested, d: nat, hist: seq<Val>, at: nat) returns (m: nat)
    requires Within(n, d) && |hist| >= 2 * d
    ensures m <= 2 * d && Act(n, hist[..m], at).Return?
    decreases d
  {
    match n
    case Plain(_) => m := 0;
    case Boxed(next) => m := ActEnds(next, d - 1, hist, at);
    case Resolving(_, gives) =>
      m := ActEnds(gives(hist[0]), d - 1, hist[1..], at + 1);
      m := m + 1;
      assert hist[..m][1..] == hist[1..][..m-1];
    case Tasked(_, _, gives) =>
      m := ActEnds(gives(Awaits(hist[1])), d - 1, hist[2..], at + 2);
      m := m + 2;
      assert hist[..m][2..] == hist[2..][..m-2];
  }

  // ---- the run has no other tasks -------------------------------------------------------------------------------

  ghost predicate IsLayerTask(P: Program, coro: Coro) {
    exists outs :: RunsAs(P, coro, outs)
  }

  lemma {:induction false} SpawnsLayerTasks(P: Program, n: Nested, d: nat, hist: seq<Val>, at: nat)
    requires LayersRun(P, n, d)
    ensures !Act(n, hist, at).Open?
    ensures Act(n, hist, at).Spawn? ==> IsLayerTask(P, Act(n, hist, at).coro)
    decreases d
  {
    match n
    case Plain(_) =>
    case Boxed(next) => SpawnsLayerTasks(P, next, d - 1, hist, at);
    case Resolving(_, gives) =>
      if hist != [] { SpawnsLayerTasks(P, gives(hist[0]), d - 1, hist[1..], at + 1); }
    case Tasked(_, _, gives) =>
      if |hist| > 1 { SpawnsLayerTasks(P, gives(Awaits(hist[1])), d - 1, hist[2..], at + 2); }
  }

  lemma {:induction false} OnlyLayerTasks(P: Program, env: Env, w: World, r: Path, n: Nested, d: nat, q: Path)
    requires Inv(P, env, w) && r in w.tasks && w.tasks[r].isRun && Unwraps(P, w.tasks[r].coro, n, d)
    requires q in w.tasks && Home(q, w.tasks[q]) == Some(r) && q != r
    ensures q != [] && Parent(q) == r && IsLayerTask(P, w.tasks[q].coro)
    ensures Place(q) < |w.tasks[r].hist| && P(w.tasks[r].coro, w.tasks[r].hist[..Place(q)]) == Spawn(w.tasks[q].coro)
    decreases |q|
  {
    LinkOf(P, env, w, q);
    var u := Parent(q);
    var h := w.tasks[u].hist[..Place(q)];
    if u == r {
      SpawnsLayerTasks(P, n, d, h, 0);
    } else {
      OnlyLayerTasks(P, env, w, r, n, d, u);
      assert false;
    }
  }

  // ---- what the output carries -------------------------------------------------------------------------------

  ghost predicate Behind(env: Env, w: World, o: OutRef, x: Resource) {
    match o
    case Leaf(l) => BehindLeaf(env, l, x)
    case OfRun(q) => q in w.accs && x in w.accs[q].deps
  }

  /** A reachable state in which r, an async_output over `unwrap(n)`, has returned. */
  ghost predicate Unwrapped(P: Program, env: Env, w: World, r: Path, n: Nested, d: nat) {
    && Structured(P) && Inv(P, env, w) && Settled(w)
    && ReturnedIn(w, r) && w.tasks[r].isRun && r in w.accs && Unwraps(P, w.tasks[r].coro, n, d)
  }

  lemma FromTheStart(P: Program, env: Env, w: World, r: Path, n: Nested, d: nat)
    requires Unwrapped(P, env, w, r, n, d)
    ensures Innermost(env, w, n, d, w.tasks[r].result.value.v)
    ensures forall o :: InLayers(env, w, n, d, o) <==> ResolvedFrom(P, w, r, 0, o)
  {
    var h := w.tasks[r].hist;
    forall j | 0 <= j <= |h| ensures P(w.tasks[r].coro, h[..j]) == Act(n, h[0..j], 0) {
      assert h[0..j] == h[..j];
    }
    FollowsLayers(P, env, w, r, n, d, 0);
  }

  /** An answered resolve of any task of a settled run has everything behind its outputs in the run's dependencies. */
  lemma AnsweredIsCarried(P: Program, env: Env, w: World, r: Path, p: Path, k: nat, o: OutRef, x: Resource)
    requires Inv(P, env, w) && Settled(w) && p in w.tasks && Home(p, w.tasks[p]) == Some(r) && k < |w.tasks[p].hist|
    requires P(w.tasks[p].coro, w.tasks[p].hist[..k]).Resolve? && o in P(w.tasks[p].coro, w.tasks[p].hist[..k]).outs
    requires Behind(env, w, o, x)
    ensures r in w.accs && x in w.accs[r].deps
  {
    assert GoodTask(P, env, w, p) && GoodReply(P, env, w, p, k);
    var outs := P(w.tasks[p].coro, w.tasks[p].hist[..k]).outs;
    var i :| 0 <= i < |outs| && outs[i] == o;
    assert Usable(env, w, outs[i]) && Recorded(env, w, outs[i], w.accs[r].deps, w.tasks[p].foot);
  }

  /** Whatever a layer resolves is in the run's dependencies ... */
  lemma LayersAreCarried(P: Program, env: Env, w: World, r: Path, n: Nested, d: nat, o: OutRef, x: Resource)
    requires Unwrapped(P, env, w, r, n, d) && InLayers(env, w, n, d, o) && Behind(env, w, o, x)
    ensures x in w.accs[r].deps
  {
    FromTheStart(P, env, w, r, n, d);
    var t := w.tasks[r];
    var j: nat :| j < |t.hist| && InTurn(P, w, r, j, o);
    if P(t.coro, t.hist[..j]).Resolve? {
      AnsweredIsCarried(P, env, w, r, r, j, o, x);
    } else {
      var c := r + [j];
      ChildrenReturned(P, env, w, r, j);
      LinkOf(P, env, w, c);
      assert Parent(c) == r && Place(c) == j;
      ReturnsAtEnd(P, env, w, c);
      assert w.tasks[c].hist[..0] == [];
      AnsweredIsCarried(P, env, w, r, c, 0, o, x);
    }
  }

  /** ... and nothing else is. */
  lemma CarriedIsInLayers(P: Program, env: Env, w: World, r: Path, n: Nested, d: nat, x: Resource)
    requires Unwrapped(P, env, w, r, n, d) && Carried(P, env, w, r, x)
    ensures exists o :: InLayers(env, w, n, d, o) && Behind(env, w, o, x)
  {
    FromTheStart(P, env, w, r, n, d);
    var l: nat, m: nat :| Reaches(P, w, r, l, m) && BehindLeaf(env, l, x);
    var p, k, i := ReachedWhere(P, w, r, l, m);
    var o := Outs(P, w, p, k)[i];
    WholeRunReturned(P, env, w, r, p);
    ResolvedUsable(P, env, w, p, k, i);
    if p == r {
      assert InTurn(P, w, r, k, o);
    } else {
      OnlyLayerTasks(P, env, w, r, n, d, p);
      var outs :| RunsAs(P, w.tasks[p].coro, outs);
      assert P(w.tasks[p].coro, w.tasks[p].hist[..k]) == LayerTask(outs, w.tasks[p].hist[..k]);
      assert P(w.tasks[p].coro, []) == LayerTask(outs, []);
      assert InTurn(P, w, r, Place(p), o);
    }
    if o.OfRun? {
      NothingLost(P, env, w, o.run, l, m - 1);
    }
    assert InLayers(env, w, n, d, o) && Behind(env, w, o, x);
  }

  /** In every program and schedule, an async_output over `unwrap(n)` gets at most two replies for each of the d
      awaitables n is deep; if it returns, its value is the innermost one, and its dependencies are exactly the
      resources behind what the layers resolved, whether in the run's task or in tasks of their own. */
  lemma {:induction false} UnwrapReachesTheCore(P: Program, env: Env, main: Coro, s: seq<Move>, r: Path, n: Nested, d: nat)
    requires Structured(P) && r in Run(P, env, Init(main), s).tasks && Run(P, env, Init(main), s).tasks[r].isRun
    requires Unwraps(P, Run(P, env, Init(main), s).tasks[r].coro, n, d)
    ensures |Run(P, env, Init(main), s).tasks[r].hist| <= 2 * d
    ensures var w := Run(P, env, Init(main), s);
      ReturnedIn(w, r) ==>
        && Innermost(env, w, n, d, w.tasks[r].result.value.v) && r in w.accs
        && forall x :: x in w.accs[r].deps <==> exists o :: InLayers(env, w, n, d, o) && Behind(env, w, o, x)
  {
    var w := Run(P, env, Init(main), s);
    ReachableGood(P, env, main, s);
    PropagationInvariants(P, env, ReadFirst, main, s);
    var h := w.tasks[r].hist;
    if |h| > 2 * d {
      var m := ActEnds(n, d, h, 0);
      NoReplyToReturn(P, env, w, r, m);
    }
    if ReturnedIn(w, r) {
      assert GoodTask(P, env, w, r);
      FromTheStart(P, env, w, r, n, d);
      forall x ensures x in w.accs[r].deps <==> exists o :: InLayers(env, w, n, d, o) && Behind(env, w, o, x) {
        if x in w.accs[r].deps {
          assert Carried(P, env, w, r, x);
          CarriedIsInLayers(P, env, w, r, n, d, x);
        }
        if o :| InLayers(env, w, n, d, o) && Behind(env, w, o, x) {
          LayersAreCarried(P, env, w, r, n, d, o, x);
        }
      }
    }
  }
}
