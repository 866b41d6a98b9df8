/** The secret flag of a run: read before an await, stored after it. */
module Secrecy {
  import opened Scope
  import opened Protocol
  import opened Machine
  import opened Invariants
  import opened Reachability
  import opened Agreement
  import opened Outcomes
  import opened Propagation

  /** Task p's resolve at position k is past the point where its secretness counts. */
  ghost predicate Counted(P: Program, w: World, p: Path, k: nat) {
    && p in w.tasks && k <= |w.tasks[p].hist|
    && P(w.tasks[p].coro, w.tasks[p].hist[..k]).Resolve?
    && (k < |w.tasks[p].hist| || w.tasks[p].phase.AwaitValues? || w.tasks[p].phase.AwaitKnown?)
  }

  ghost predicate SeenBy(P: Program, env: Env, w: World, a: Path, p: Path, k: nat, i: nat) {
    && Counted(P, w, p, k) && Home(p, w.tasks[p]) == Some(a) && i < |Outs(P, w, p, k)|
    && SecretOf(env, w, Outs(P, w, p, k)[i]) == Done(true)
  }

  /** Some output resolved in run a is secret. */
  ghost predicate SecretSeen(P: Program, env: Env, w: World, a: Path) {
    exists p: Path, k: nat, i: nat :: SeenBy(P, env, w, a, p, k, i)
  }

  // ---- every schedule: no secret is invented ------------------------------------------------------

  ghost predicate SecretHasSource(P: Program, env: Env, w: World) {
    forall a {:trigger SecretSeen(P, env, w, a)} | a in w.accs && w.accs[a].secret :: SecretSeen(P, env, w, a)
  }

  lemma CountedStable(P: Program, w: World, w': World, p: Path, k: nat)
    requires Extends(w, w') && OnlyForward(w, w') && Counted(P, w, p, k)
    ensures Counted(P, w', p, k) && Outs(P, w', p, k) == Outs(P, w, p, k)
    ensures Home(p, w'.tasks[p]) == Home(p, w.tasks[p])
  {
    assert Grown(w.tasks[p], w'.tasks[p]);
    assert w'.tasks[p].hist[..k] == w.tasks[p].hist[..k];
    assert w'.tasks[p].hist == w.tasks[p].hist || k < |w'.tasks[p].hist|;
  }

  /** The only step that writes the flag is the store at the end of the window. */
  lemma StoreStep(P: Program, env: Env, w: World, p: Path, pick: nat, e: Effect)
    requires Inv(P, env, w) && Live(w, p) && e == EffectOf(P, env, w, p, pick) && e.Suspend?
    requires w.tasks[p].ctx.acc.Some? && w.tasks[p].ctx.acc.value in w.accs
    ensures P(w.tasks[p].coro, w.tasks[p].hist).Resolve?
    ensures var t, acc := w.tasks[p], w.accs[w.tasks[p].ctx.acc.value]; var outs := P(t.coro, t.hist).outs;
      if t.phase.AwaitSecrets? then
        && e.phase.AwaitValues?
        && (forall i | 0 <= i < |outs| :: SecretOf(env, w, outs[i]).Done?)
        && (e.acc.secret <==> (w.order.AwaitFirst? && acc.secret) || exists i | 0 <= i < |outs| :: SecretOf(env, w, outs[i]).v)
      else
        && e.acc.secret == acc.secret
        && (e.phase.AwaitSecrets? ==> w.order.ReadFirst? ==> !acc.secret)
        && (e.phase.AwaitValues? ==> w.order.ReadFirst? && acc.secret)
        && (e.phase.AwaitKnown? ==> t.phase.AwaitValues?)
  {
  }

  lemma StepSource(P: Program, env: Env, w: World, m: Move)
    requires Inv(P, env, w) && SecretHasSource(P, env, w)
    ensures SecretHasSource(P, env, Step(P, env, w, m))
  {
    var w' := Step(P, env, w, m);
    if Live(w, m.path) {
      var p := m.path;
      var e := EffectOf(P, env, w, p, m.pick);
      StepExtends(P, env, w, m);
      EffectGrows(P, env, w, p, m.pick);
      HomeOfLive(P, env, w, p);
      StepIsLocal(P, env, w, p, e);
      StepForward(P, env, w, m);
      forall a | a in w'.accs && w'.accs[a].secret ensures SecretSeen(P, env, w', a) {
        if a in w.accs && w.accs[a].secret {
          assert SecretSeen(P, env, w, a);
          var q: Path, k: nat, i: nat :| SeenBy(P, env, w, a, q, k, i);
          CountedStable(P, w, w', q, k);
          FuturesStable(env, w, w', Outs(P, w, q, k)[i]);
          assert SeenBy(P, env, w', a, q, k, i);
        } else {
          StoreStep(P, env, w, p, m.pick, e);
          var outs := P(w.tasks[p].coro, w.tasks[p].hist).outs;
          var i: nat :| i < |outs| && SecretOf(env, w, outs[i]).v;
          assert w'.tasks[p].hist[..|w.tasks[p].hist|] == w.tasks[p].hist;
          FuturesStable(env, w, w', outs[i]);
          assert SeenBy(P, env, w', a, p, |w.tasks[p].hist|, i);
        }
      }
    }
  }

  // ---- runs without overlap, and the await-first variant: no secret is lost --------------------------

  /** Task p is in a resolve of run a, between its first await and its store. */
  predicate InWindow(w: World, p: Path, a: Path) {
    Live(w, p) && w.tasks[p].phase.AwaitSecrets? && Home(p, w.tasks[p]) == Some(a)
  }

  /** No two resolves of run a are between their read and their store. */
  ghost predicate NoOverlapIn(w: World, a: Path) {
    forall p, q {:trigger InWindow(w, p, a), InWindow(w, q, a)} :: InWindow(w, p, a) && InWindow(w, q, a) ==> p == q
  }

  ghost predicate NeverOverlapsIn(P: Program, env: Env, main: Coro, s: seq<Move>, a: Path) {
    forall n {:trigger s[..n]} | 0 <= n <= |s| :: NoOverlapIn(Run(P, env, Init(main), s[..n]), a)
  }

  /** What makes the store of run a safe: it reads the flag itself, or nobody else of the run is about to store. */
  ghost predicate SafeStores(w: World, a: Path) {
    w.order.AwaitFirst? || NoOverlapIn(w, a)
  }

  /** The flag is set, or the resolve stored it after seeing only plain outputs. */
  ghost predicate Accounted(P: Program, env: Env, w: World, a: Path, p: Path, k: nat)
    requires Counted(P, w, p, k)
  {
    a in w.accs &&
    (w.accs[a].secret || forall i | 0 <= i < |Outs(P, w, p, k)| :: SecretOf(env, w, Outs(P, w, p, k)[i]) == Done(false))
  }

  ghost predicate SecretsKept(P: Program, env: Env, w: World, a: Path) {
    && (forall p, k {:trigger Counted(P, w, p, k)} | Counted(P, w, p, k) && Home(p, w.tasks[p]) == Some(a) ::
          Accounted(P, env, w, a, p, k))
    && (w.order.ReadFirst? ==>
          forall p {:trigger InWindow(w, p, a)} | InWindow(w, p, a) :: a in w.accs && !w.accs[a].secret)
  }

  /** A store takes the flag of run a only up: what it overwrites is false, or it reads it first. */
  lemma FlagAfter(P: Program, env: Env, w: World, p: Path, pick: nat, e: Effect, w': World, a: Path)
    requires Stepped(P, env, w, p, pick, e, w') && a in w.accs && SecretsKept(P, env, w, a)
    ensures a in w'.accs && (w.accs[a].secret ==> w'.accs[a].secret)
    ensures w'.accs[a].secret && !w.accs[a].secret ==> InWindow(w, p, a)
  {
    EffectGrows(P, env, w, p, pick);
    HomeOfLive(P, env, w, p);
    StepIsLocal(P, env, w, p, e);
    if e.Suspend? {
      StoreStep(P, env, w, p, pick, e);
      assert InWindow(w, p, a) && w.order.ReadFirst? ==> !w.accs[a].secret;
    }
  }

  lemma StepKeepsSecrets(P: Program, env: Env, w: World, p: Path, pick: nat, e: Effect, w': World, a: Path)
    requires Stepped(P, env, w, p, pick, e, w') && SecretsKept(P, env, w, a) && SafeStores(w, a)
    ensures SecretsKept(P, env, w', a)
  {
    forall q | w'.order.ReadFirst? && InWindow(w', q, a) ensures a in w'.accs && !w'.accs[a].secret {
      WindowKept(P, env, w, p, pick, e, w', q, a);
    }
    forall q, k | Counted(P, w', q, k) && Home(q, w'.tasks[q]) == Some(a) ensures Accounted(P, env, w', a, q, k) {
      CountKept(P, env, w, p, pick, e, w', q, k, a);
    }
  }

  lemma WindowKept(P: Program, env: Env, w: World, p: Path, pick: nat, e: Effect, w': World, q: Path, a: Path)
    requires Stepped(P, env, w, p, pick, e, w') && SecretsKept(P, env, w, a) && SafeStores(w, a)
    requires w'.order.ReadFirst? && InWindow(w', q, a)
    ensures a in w'.accs && !w'.accs[a].secret
  {
    EffectGrows(P, env, w, p, pick);
    HomeOfLive(P, env, w, p);
    StepIsLocal(P, env, w, p, e);
    if q == p {
      assert Grown(w.tasks[p], w'.tasks[p]);
      if e.Suspend? {
        StoreStep(P, env, w, p, pick, e);
      } else if e.Blocked? {
        assert InWindow(w, p, a);
      } else if e.Fork? {
        ReplyReady(P, env, w, p, pick, e, w');
      }
    } else {
      assert InWindow(w, q, a);
      FlagAfter(P, env, w, p, pick, e, w', a);
      assert InWindow(w, p, a) ==> p == q;
    }
  }

  lemma CountKept(P: Program, env: Env, w: World, p: Path, pick: nat, e: Effect, w': World, q: Path, k: nat, a: Path)
    requires Stepped(P, env, w, p, pick, e, w') && SecretsKept(P, env, w, a)
    requires Counted(P, w', q, k) && Home(q, w'.tasks[q]) == Some(a)
    ensures Accounted(P, env, w', a, q, k)
  {
    if Counted(P, w, q, k) {
      assert Grown(w.tasks[q], w'.tasks[q]);
      assert w'.tasks[q].hist[..k] == w.tasks[q].hist[..k];
      assert Accounted(P, env, w, a, q, k);
      FlagAfter(P, env, w, p, pick, e, w', a);
      forall i | 0 <= i < |Outs(P, w, q, k)| ensures SecretOf(env, w, Outs(P, w, q, k)[i]).Done? ==>
          SecretOf(env, w', Outs(P, w', q, k)[i]) == SecretOf(env, w, Outs(P, w, q, k)[i])
      {
        FuturesStable(env, w, w', Outs(P, w, q, k)[i]);
      }
    } else {
      JustCounted(P, env, w, p, pick, e, w', q, k, a);
    }
  }

  /** Only the task that steps can get a resolve past the window. */
  lemma OthersPassNothing(P: Program, env: Env, w: World, p: Path, pick: nat, e: Effect, w': World, q: Path, k: nat)
    requires Stepped(P, env, w, p, pick, e, w') && Counted(P, w', q, k) && !Counted(P, w, q, k)
    ensures q == p
  {
  }

  /** A resolve becomes counted only by its own suspension. */
  lemma JustPassed(P: Program, env: Env, w: World, p: Path, pick: nat, e: Effect, w': World, q: Path, k: nat)
    requires Stepped(P, env, w, p, pick, e, w') && Counted(P, w', q, k) && !Counted(P, w, q, k)
    ensures q == p && k == |w.tasks[p].hist| && w'.tasks[p].hist == w.tasks[p].hist
    ensures e.Suspend? && e.phase.AwaitValues?
  {
    OthersPassNothing(P, env, w, p, pick, e, w', q, k);
    HomeOfLive(P, env, w, p);
    var t := w.tasks[p];
    assert Grown(t, w'.tasks[p]);
    assert w'.tasks[p].hist[..|t.hist|] == t.hist == t.hist[..|t.hist|];
    assert k <= |t.hist| ==> w'.tasks[p].hist[..k] == t.hist[..k];
    if e.Suspend? {
      StoreStep(P, env, w, p, pick, e);
    } else if e.Reply? || e.Fork? {
      ReplyReady(P, env, w, p, pick, e, w');
      ReplyFromKnown(P, env, w, p, pick, e);
    }
  }

  /** A resolve is answered from its fourth await, which is past the window. */
  lemma ReplyFromKnown(P: Program, env: Env, w: World, p: Path, pick: nat, e: Effect)
    requires Inv(P, env, w) && Live(w, p) && e == EffectOf(P, env, w, p, pick) && (e.Reply? || e.Fork?)
    ensures P(w.tasks[p].coro, w.tasks[p].hist).Resolve? ==> w.tasks[p].phase.AwaitKnown?
  {
  }

  /** The resolve whose secretness this step settles. */
  lemma JustCounted(P: Program, env: Env, w: World, p: Path, pick: nat, e: Effect, w': World, q: Path, k: nat, a: Path)
    requires Stepped(P, env, w, p, pick, e, w') && Counted(P, w', q, k) && !Counted(P, w, q, k)
    requires Home(q, w'.tasks[q]) == Some(a)
    ensures Accounted(P, env, w', a, q, k)
  {
    JustPassed(P, env, w, p, pick, e, w', q, k);
    HomeOfLive(P, env, w, p);
    EffectGrows(P, env, w, p, pick);
    assert Grown(w.tasks[p], w'.tasks[p]);
    assert w'.tasks[p].hist[..k] == w.tasks[p].hist;
    StoreStep(P, env, w, p, pick, e);
    var outs := P(w.tasks[p].coro, w.tasks[p].hist).outs;
    forall i | 0 <= i < |outs| ensures SecretOf(env, w, outs[i]).Done? ==> SecretOf(env, w', outs[i]) == SecretOf(env, w, outs[i]) {
      FuturesStable(env, w, w', outs[i]);
    }
  }

  lemma {:induction false} NoneInvented(P: Program, env: Env, order: Order, main: Coro, s: seq<Move>)
    ensures SecretHasSource(P, env, Run(P, env, Start(order, main), s))
    decreases |s|
  {
    if s == [] {
    } else {
      NoneInvented(P, env, order, main, s[..|s|-1]);
      StartedGood(P, env, order, main, s[..|s|-1]);
      StepSource(P, env, Run(P, env, Start(order, main), s[..|s|-1]), s[|s|-1]);
    }
  }

  /** Every state on the way is one in which the stores of run a are safe. */
  ghost predicate SafeThroughout(P: Program, env: Env, order: Order, main: Coro, s: seq<Move>, a: Path) {
    forall n {:trigger s[..n]} | 0 <= n <= |s| :: SafeStores(Run(P, env, Start(order, main), s[..n]), a)
  }

  lemma {:induction false} NoneLost(P: Program, env: Env, order: Order, main: Coro, s: seq<Move>, a: Path)
    requires SafeThroughout(P, env, order, main, s, a)
    ensures SecretsKept(P, env, Run(P, env, Start(order, main), s), a)
    decreases |s|
  {
    if s == [] {
    } else {
      var s0, m := s[..|s|-1], s[|s|-1];
      forall n | 0 <= n <= |s0| ensures SafeStores(Run(P, env, Start(order, main), s0[..n]), a) {
        assert s0[..n] == s[..n];
      }
      assert s0[..|s0|] == s0;
      NoneLost(P, env, order, main, s0, a);
      StartedGood(P, env, order, main, s0);
      var w := Run(P, env, Start(order, main), s0);
      if Live(w, m.path) {
        StepExtends(P, env, w, m);
        StepKeepsSecrets(P, env, w, m.path, m.pick, EffectOf(P, env, w, m.path, m.pick), Step(P, env, w, m), a);
      }
    }
  }

  /** What line 180 promises of run a in state w: flagged if and only if some output it resolved was secret.  Once the
      run has returned with its tasks joined, that is the flag of its output. */
  ghost predicate FlagIsRight(P: Program, env: Env, w: World, a: Path) {
    && a in w.accs && (w.accs[a].secret <==> SecretSeen(P, env, w, a))
    && (Structured(P) && ReturnedIn(w, a) && w.tasks[a].isRun ==>
          SecretOf(env, w, OfRun(a)) == Done(SecretSeen(P, env, w, a)))
  }

  lemma {:induction false} RightIfSafe(P: Program, env: Env, order: Order, main: Coro, s: seq<Move>, a: Path)
    requires SafeThroughout(P, env, order, main, s, a) && a in Run(P, env, Start(order, main), s).accs
    ensures FlagIsRight(P, env, Run(P, env, Start(order, main), s), a)
  {
    var w := Run(P, env, Start(order, main), s);
    NoneInvented(P, env, order, main, s);
    NoneLost(P, env, order, main, s, a);
    PropagationInvariants(P, env, order, main, s);
    if w.accs[a].secret {
      assert SecretSeen(P, env, w, a);
    }
    if SecretSeen(P, env, w, a) {
      var p: Path, k: nat, i: nat :| SeenBy(P, env, w, a, p, k, i);
      assert Accounted(P, env, w, a, p, k);
    }
  }

  /** The code as written, in every schedule: a run is flagged only if it resolved a secret, and its output is
      flagged only if it did.  In every schedule in which no two resolves of this run overlap between read and store
      -- whatever other runs do -- it is flagged exactly then, and so is its output. */
  lemma {:induction false} SecretUnlessOverlapping(P: Program, env: Env, main: Coro, s: seq<Move>, a: Path)
    requires a in Run(P, env, Init(main), s).accs
    ensures var w := Run(P, env, Init(main), s);
      && (w.accs[a].secret ==> SecretSeen(P, env, w, a))
      && (Structured(P) && SecretOf(env, w, OfRun(a)) == Done(true) && ReturnedIn(w, a) ==> SecretSeen(P, env, w, a))
      && (NeverOverlapsIn(P, env, main, s, a) ==> FlagIsRight(P, env, w, a))
  {
    var w := Run(P, env, Init(main), s);
    NoneInvented(P, env, ReadFirst, main, s);
    PropagationInvariants(P, env, ReadFirst, main, s);
    if w.accs[a].secret {
      assert SecretSeen(P, env, w, a);
    }
    if NeverOverlapsIn(P, env, main, s, a) {
      forall n | 0 <= n <= |s| ensures SafeStores(Run(P, env, Start(ReadFirst, main), s[..n]), a) {
        assert NoOverlapIn(Run(P, env, Init(main), s[..n]), a);
      }
      RightIfSafe(P, env, ReadFirst, main, s, a);
    }
  }

  /** A coroutine that resolves in its own task only can never overlap itself: the code as written is right for it. */
  lemma {:induction false} OneTaskIsRight(P: Program, env: Env, main: Coro, s: seq<Move>, a: Path)
    requires a in Run(P, env, Init(main), s).accs
    requires var w := Run(P, env, Init(main), s); forall p | p in w.tasks && Home(p, w.tasks[p]) == Some(a) :: p == a
    ensures FlagIsRight(P, env, Run(P, env, Init(main), s), a)
  {
    var w := Run(P, env, Init(main), s);
    forall n | 0 <= n <= |s| ensures NoOverlapIn(Run(P, env, Init(main), s[..n]), a) {
      assert s == s[..n] + s[n..];
      LaterExtends(P, env, main, s[..n], s[n..]);
      var w0 := Run(P, env, Init(main), s[..n]);
      forall p | InWindow(w0, p, a) ensures p == a {
        assert Grown(w0.tasks[p], w.tasks[p]);
      }
    }
    SecretUnlessOverlapping(P, env, main, s, a);
  }

  /** With the await before the read there is no window: in every program, under every schedule, every run is
      flagged if and only if it resolved a secret, and so is its output. */
  lemma {:induction false} AwaitFirstKeepsSecrets(P: Program, env: Env, main: Coro, s: seq<Move>, a: Path)
    requires a in Run(P, env, Start(AwaitFirst, main), s).accs
    ensures FlagIsRight(P, env, Run(P, env, Start(AwaitFirst, main), s), a)
  {
    forall n | 0 <= n <= |s| ensures SafeStores(Run(P, env, Start(AwaitFirst, main), s[..n]), a) {
      StartedGood(P, env, AwaitFirst, main, s[..n]);
    }
    RightIfSafe(P, env, AwaitFirst, main, s, a);
  }

  // ---- whether a failing flag is noticed ---------------------------------------------------------------

  /** An engine output that would get through a resolve but for its `is_secret` future, which fails, and another
      that is secret: with the flag set by the second, the short-circuit skips awaiting the first's. */
  ghost predicate HidesFailure(env: Env, l: nat, m: nat) {
    && env(l).resources.Done? && env(l).value.Done? && !ContainsUnknowns(env(l).value.v) && env(l).known == Done(true)
    && env(l).secret.Broken?
    && env(m).resources.Done? && env(m).secret == Done(true)
  }

  ghost predicate CanHide(env: Env) {
    exists l: nat, m: nat :: HidesFailure(env, l, m)
  }

  /** With no secret to be had, no flag is ever set and every resolve awaits its own. */
  ghost predicate AllPlain(P: Program, env: Env, w: World) {
    && (forall a {:trigger w.accs[a]} | a in w.accs :: !w.accs[a].secret)
    && (forall p {:trigger w.tasks[p]} | p in w.tasks :: !w.tasks[p].snap.secret)
    && (forall p, k {:trigger Counted(P, w, p, k)} | Counted(P, w, p, k) :: FlagsAwaited(P, env, w, p, k))
  }

  ghost predicate FlagsAwaited(P: Program, env: Env, w: World, p: Path, k: nat)
    requires Counted(P, w, p, k)
  {
    forall i | 0 <= i < |Outs(P, w, p, k)| :: SecretOf(env, w, Outs(P, w, p, k)[i]).Done?
  }

  ghost predicate NoSecretLeaf(env: Env) {
    forall m: nat {:trigger env(m)} :: !(env(m).resources.Done? && env(m).secret == Done(true))
  }

  lemma RecordedByNow(P: Program, env: Env, w: World, p: Path, i: nat)
    requires Inv(P, env, w) && Live(w, p) && w.tasks[p].phase.AwaitSecrets? && P(w.tasks[p].coro, w.tasks[p].hist).Resolve?
    requires i < |P(w.tasks[p].coro, w.tasks[p].hist).outs|
    ensures w.tasks[p].ctx.acc.Some? && w.tasks[p].ctx.acc.value in w.accs
    ensures Recorded(env, w, P(w.tasks[p].coro, w.tasks[p].hist).outs[i], w.accs[w.tasks[p].ctx.acc.value].deps, w.tasks[p].foot)
  {
    assert GoodTask(P, env, w, p);
  }

  lemma PlainStore(P: Program, env: Env, w: World, p: Path, pick: nat, e: Effect)
    requires Inv(P, env, w) && AllPlain(P, env, w) && NoSecretLeaf(env) && Live(w, p)
    requires e == EffectOf(P, env, w, p, pick) && e.Suspend?
    ensures !e.acc.secret && (e.phase.AwaitValues? ==> w.tasks[p].phase.AwaitSecrets?)
    ensures e.phase.AwaitValues? ==>
      P(w.tasks[p].coro, w.tasks[p].hist).Resolve? &&
      forall i | 0 <= i < |P(w.tasks[p].coro, w.tasks[p].hist).outs| :: SecretOf(env, w, P(w.tasks[p].coro, w.tasks[p].hist).outs[i]).Done?
  {
    HomeOfLive(P, env, w, p);
    EffectGrows(P, env, w, p, pick);
    StoreStep(P, env, w, p, pick, e);
    var t := w.tasks[p];
    if t.phase.AwaitSecrets? && e.acc.secret {
      var outs := P(t.coro, t.hist).outs;
      var i :| 0 <= i < |outs| && SecretOf(env, w, outs[i]).v;
      RecordedByNow(P, env, w, p, i);
      assert false;
    }
  }

  lemma StepPlain(P: Program, env: Env, w: World, m: Move)
    requires Inv(P, env, w) && AllPlain(P, env, w) && NoSecretLeaf(env)
    ensures AllPlain(P, env, Step(P, env, w, m))
  {
    var w' := Step(P, env, w, m);
    if Live(w, m.path) {
      var p := m.path;
      var e := EffectOf(P, env, w, p, m.pick);
      StepExtends(P, env, w, m);
      EffectGrows(P, env, w, p, m.pick);
      HomeOfLive(P, env, w, p);
      StepIsLocal(P, env, w, p, e);
      if e.Suspend? {
        PlainStore(P, env, w, p, m.pick, e);
      }
      forall q, k | Counted(P, w', q, k) ensures FlagsAwaited(P, env, w', q, k) {
        FlagsKept(P, env, w, p, m.pick, e, w', q, k);
      }
    }
  }

  lemma FlagsKept(P: Program, env: Env, w: World, p: Path, pick: nat, e: Effect, w': World, q: Path, k: nat)
    requires Stepped(P, env, w, p, pick, e, w') && AllPlain(P, env, w) && NoSecretLeaf(env) && Counted(P, w', q, k)
    ensures FlagsAwaited(P, env, w', q, k)
  {
    if Counted(P, w, q, k) {
      assert Grown(w.tasks[q], w'.tasks[q]);
      assert w'.tasks[q].hist[..k] == w.tasks[q].hist[..k];
      assert FlagsAwaited(P, env, w, q, k);
      assert Outs(P, w', q, k) == Outs(P, w, q, k);
    } else {
      JustPassed(P, env, w, p, pick, e, w', q, k);
      PlainStore(P, env, w, p, pick, e);
      assert Grown(w.tasks[p], w'.tasks[p]);
      assert w'.tasks[p].hist[..k] == w.tasks[p].hist;
      assert Outs(P, w', q, k) == P(w.tasks[p].coro, w.tasks[p].hist).outs;
    }
    forall i | 0 <= i < |Outs(P, w', q, k)| ensures SecretOf(env, w', Outs(P, w', q, k)[i]).Done? {
      assert SecretOf(env, w, Outs(P, w', q, k)[i]).Done?;
      FuturesStable(env, w, w', Outs(P, w', q, k)[i]);
    }
  }

  lemma {:induction false} PlainThroughout(P: Program, env: Env, main: Coro, s: seq<Move>)
    requires NoSecretLeaf(env)
    ensures AllPlain(P, env, Run(P, env, Init(main), s))
    decreases |s|
  {
    if s == [] {
    } else {
      PlainThroughout(P, env, main, s[..|s|-1]);
      ReachableGood(P, env, main, s[..|s|-1]);
      StepPlain(P, env, Run(P, env, Init(main), s[..|s|-1]), s[|s|-1]);
    }
  }

  lemma FlagWasAwaited(P: Program, env: Env, main: Coro, s: seq<Move>, p: Path, k: nat, i: nat)
    requires NoSecretLeaf(env) && Counted(P, Run(P, env, Init(main), s), p, k) && i < |Outs(P, Run(P, env, Init(main), s), p, k)|
    ensures SecretOf(env, Run(P, env, Init(main), s), Outs(P, Run(P, env, Init(main), s), p, k)[i]).Done?
  {
    PlainThroughout(P, env, main, s);
    assert FlagsAwaited(P, env, Run(P, env, Init(main), s), p, k);
  }

  /** Unless the engine outputs can hide one, no answered resolve had a failing flag among its outputs. */
  lemma NothingIsHidden(P: Program, env: Env, main: Coro, s: seq<Move>)
    requires !CanHide(env)
    ensures NothingHidden(P, env, Run(P, env, Init(main), s))
  {
    var w := Run(P, env, Init(main), s);
    ReachableGood(P, env, main, s);
    forall p, k | p in w.tasks && 0 <= k < |w.tasks[p].hist| ensures AnsweredPlainly(P, env, w, p, k) {
      assert GoodTask(P, env, w, p) && GoodReply(P, env, w, p, k);
      if P(w.tasks[p].coro, w.tasks[p].hist[..k]).Resolve? {
        forall i | 0 <= i < |Outs(P, w, p, k)| && Outs(P, w, p, k)[i].Leaf?
          ensures !env(Outs(P, w, p, k)[i].id).secret.Broken?
        {
          var l := Outs(P, w, p, k)[i].id;
          assert Usable(env, w, Outs(P, w, p, k)[i]);
          if env(l).secret.Broken? {
            forall m: nat ensures !(env(m).resources.Done? && env(m).secret == Done(true)) {
              assert !HidesFailure(env, l, m);
            }
            FlagWasAwaited(P, env, main, s, p, k, i);
          }
        }
      }
    }
  }
}
