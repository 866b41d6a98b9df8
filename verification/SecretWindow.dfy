/** The secret flag under `asyncio.gather`, on its own: one flag, any number of children, each making any number of
    resolves one after the other, and each resolve reading the flag in one step and storing it in a later one.
    Gathers shows that this is what the machine does. */
module SecretWindow {

  /** `done[i]`: how many resolves of child i are past their store (or skipped it); `waiting[i]`: the next one has read
      a flag that was not set and is going to store. */
  datatype Gather = Gather(secret: bool, done: seq<nat>, waiting: seq<bool>)

  predicate Fits(flags: seq<seq<bool>>, g: Gather) {
    && |g.done| == |g.waiting| == |flags|
    && forall i | 0 <= i < |flags| :: g.done[i] <= |flags[i]| && (g.waiting[i] ==> g.done[i] < |flags[i]|)
  }

  function Begin(flags: seq<seq<bool>>): (g: Gather)
    ensures Fits(flags, g)
  {
    Gather(false, seq(|flags|, i => 0), seq(|flags|, i => false))
  }

  /** One step of child i. `flags[i][j]`: its j-th resolve has a secret output. */
  function Step(flags: seq<seq<bool>>, g: Gather, i: nat): (g': Gather)
    requires Fits(flags, g)
    ensures Fits(flags, g')
  {
    if i >= |flags| || g.done[i] == |flags[i]| then g
    else if g.waiting[i] then Gather(flags[i][g.done[i]], g.done[i := g.done[i] + 1], g.waiting[i := false])
    else if g.secret then g.(done := g.done[i := g.done[i] + 1])
    else g.(waiting := g.waiting[i := true])
  }

  function Run(flags: seq<seq<bool>>, g: Gather, order: seq<nat>): (g': Gather)
    requires Fits(flags, g)
    ensures Fits(flags, g')
    decreases |order|
  {
    if order == [] then g else Step(flags, Run(flags, g, order[..|order|-1]), order[|order|-1])
  }

  predicate Finished(flags: seq<seq<bool>>, g: Gather)
    requires Fits(flags, g)
  {
    forall i | 0 <= i < |flags| :: g.done[i] == |flags[i]|
  }

  // ---- the exact condition ------------------------------------------------------------------------------

  predicate SeesSecret(f: seq<bool>) { exists j | 0 <= j < |f| :: f[j] }
  predicate SeesPlain(f: seq<bool>) { exists j | 0 <= j < |f| :: !f[j] }
  predicate BeginsPlain(f: seq<bool>) { f != [] && !f[0] }
  predicate EndsPlain(f: seq<bool>) { f != [] && !f[|f|-1] }

  /** What the documentation promises: secret if any resolved output was. */
  predicate Expected(flags: seq<seq<bool>>) {
    exists i | 0 <= i < |flags| :: SeesSecret(flags[i])
  }

  /** Something can take the flag down again between two resolves of child l: another child that begins with a plain
      resolve, or any plain resolve of another child once l's own first, plain one has taken it down for that. */
  predicate Overwritable(flags: seq<seq<bool>>, l: nat)
    requires l < |flags|
  {
    || (exists x | 0 <= x < |flags| :: x != l && BeginsPlain(flags[x]))
    || (BeginsPlain(flags[l]) && exists x | 0 <= x < |flags| :: x != l && SeesPlain(flags[x]))
  }

  /** Child l can store last, and store false: it ends with a plain resolve, and it has not seen a secret before, or
      what it saw can be overwritten. */
  predicate CanStoreLast(flags: seq<seq<bool>>, l: nat)
    requires l < |flags|
  {
    EndsPlain(flags[l]) && (!SeesSecret(flags[l]) || Overwritable(flags, l))
  }

  predicate CanLose(flags: seq<seq<bool>>) {
    Expected(flags) && exists l | 0 <= l < |flags| :: CanStoreLast(flags, l)
  }

  ghost predicate KeptBy(flags: seq<seq<bool>>, order: seq<nat>) {
    var g := Run(flags, Begin(flags), order);
    Finished(flags, g) ==> g.secret == Expected(flags)
  }

  // ---- otherwise every order keeps the secrets -----------------------------------------------------------

  predicate DoneSecret(flags: seq<seq<bool>>, g: Gather, i: nat)
    requires Fits(flags, g) && i < |flags|
  {
    SeesSecret(flags[i][..g.done[i]])
  }

  /** Child l was the last to store, and stored false. */
  predicate StoredLast(flags: seq<seq<bool>>, g: Gather, l: nat)
    requires Fits(flags, g) && l < |flags|
  {
    g.done[l] > 0 && !flags[l][g.done[l]-1] && (DoneSecret(flags, g, l) ==> Overwritable(flags, l))
  }

  /** A flag that is set has a source; one that is not, although a secret was seen, was stored by a child whose earlier
      secrets could be overwritten; and a child about to store has seen no secret unless those could be. */
  ghost predicate Explained(flags: seq<seq<bool>>, g: Gather)
    requires Fits(flags, g)
  {
    && (g.secret ==> exists i | 0 <= i < |flags| :: DoneSecret(flags, g, i))
    && (!g.secret && (exists i | 0 <= i < |flags| :: DoneSecret(flags, g, i)) ==>
          exists l | 0 <= l < |flags| :: StoredLast(flags, g, l))
    && (forall i | 0 <= i < |flags| :: g.waiting[i] && DoneSecret(flags, g, i) ==> Overwritable(flags, i))
  }

  /** Reading a flag that is not set, after a secret of one's own. */
  lemma ReadAfterSecret(flags: seq<seq<bool>>, g: Gather, i: nat)
    requires Fits(flags, g) && Explained(flags, g) && !g.secret && i < |flags| && DoneSecret(flags, g, i)
    ensures Overwritable(flags, i)
  {
  }

  lemma DoneGrows(flags: seq<seq<bool>>, g: Gather, i: nat, k: nat)
    requires Fits(flags, g) && k < |flags|
    ensures DoneSecret(flags, g, k) ==> DoneSecret(flags, Step(flags, g, i), k)
    ensures DoneSecret(flags, Step(flags, g, i), k) ==>
      DoneSecret(flags, g, k) || (k == i && g.done[i] < |flags[i]| && flags[i][g.done[i]])
  {
  }

  lemma StepExplained(flags: seq<seq<bool>>, g: Gather, i: nat)
    requires Fits(flags, g) && Explained(flags, g)
    ensures Explained(flags, Step(flags, g, i))
  {
    var g' := Step(flags, g, i);
    forall k | 0 <= k < |flags|
      ensures DoneSecret(flags, g, k) ==> DoneSecret(flags, g', k)
      ensures DoneSecret(flags, g', k) ==> DoneSecret(flags, g, k) || (k == i && g.done[i] < |flags[i]| && flags[i][g.done[i]])
    {
      DoneGrows(flags, g, i, k);
    }
    if g' == g {
    } else if g.waiting[i] {
      if g'.secret {
        assert flags[i][..g'.done[i]][g.done[i]];
        assert DoneSecret(flags, g', i);
      } else {
        assert StoredLast(flags, g', i);
      }
    } else if !g.secret && DoneSecret(flags, g, i) {
      ReadAfterSecret(flags, g, i);
    }
    if !g'.secret && !g.secret && g'.done == g.done && exists k | 0 <= k < |flags| :: DoneSecret(flags, g, k) {
      var l: nat :| l < |flags| && StoredLast(flags, g, l);
      assert StoredLast(flags, g', l);
    }
  }

  lemma {:induction false} RunExplained(flags: seq<seq<bool>>, order: seq<nat>)
    ensures Explained(flags, Run(flags, Begin(flags), order))
    decreases |order|
  {
    if order == [] {
      assert forall i | 0 <= i < |flags| :: flags[i][..0] == [];
    } else {
      RunExplained(flags, order[..|order|-1]);
      StepExplained(flags, Run(flags, Begin(flags), order[..|order|-1]), order[|order|-1]);
    }
  }

  lemma {:induction false} KeptUnlessLosable(flags: seq<seq<bool>>, order: seq<nat>)
    requires !CanLose(flags)
    ensures KeptBy(flags, order)
  {
    var g := Run(flags, Begin(flags), order);
    RunExplained(flags, order);
    if Finished(flags, g) {
      forall i | 0 <= i < |flags| ensures DoneSecret(flags, g, i) == SeesSecret(flags[i]) {
        assert flags[i][..g.done[i]] == flags[i];
      }
      if !g.secret && Expected(flags) {
        var l: nat :| l < |flags| && StoredLast(flags, g, l);
        assert CanStoreLast(flags, l);
      }
    }
  }

  // ---- the orders that lose one --------------------------------------------------------------------------

  lemma {:induction false} RunAppend(flags: seq<seq<bool>>, g: Gather, a: seq<nat>, b: seq<nat>)
    requires Fits(flags, g)
    ensures Run(flags, g, a + b) == Run(flags, Run(flags, g, a), b)
    decreases |b|
  {
    if b == [] {
      assert a + b == a;
    } else {
      assert (a + b)[..|a + b|-1] == a + b[..|b|-1];
      RunAppend(flags, g, a, b[..|b|-1]);
    }
  }

  /** Two steps of a child that is not waiting take it past one resolve if the flag is down, one if it is set. */
  function Past(g: Gather, i: nat): seq<nat> {
    if g.secret then [i] else [i, i]
  }

  lemma OnePast(flags: seq<seq<bool>>, g: Gather, i: nat)
    requires Fits(flags, g) && i < |flags| && !g.waiting[i] && g.done[i] < |flags[i]|
    ensures Run(flags, g, Past(g, i)) == Gather(g.secret || flags[i][g.done[i]], g.done[i := g.done[i] + 1], g.waiting)
  {
    assert [i][..0] == [] && [i, i][..1] == [i];
    assert Run(flags, g, [i]) == Step(flags, g, i);
    if !g.secret {
      assert g.waiting[i := true][i := false] == g.waiting;
    }
  }

  lemma SecretFromFront(f: seq<bool>)
    requires f != []
    ensures SeesSecret(f) == (f[0] || SeesSecret(f[1..]))
  {
  }

  /** Child i goes on by itself until m of its resolves are done; the flag goes up with the first secret among them. */
  lemma {:induction false} Alone(flags: seq<seq<bool>>, g: Gather, i: nat, m: nat) returns (order: seq<nat>)
    requires Fits(flags, g) && i < |flags| && !g.waiting[i] && g.done[i] <= m <= |flags[i]|
    ensures Run(flags, g, order) == Gather(g.secret || SeesSecret(flags[i][g.done[i]..m]), g.done[i := m], g.waiting)
    decreases m - g.done[i]
  {
    var j := g.done[i];
    if j == m {
      order := [];
      assert flags[i][j..m] == [] && g.done[i := m] == g.done;
    } else {
      OnePast(flags, g, i);
      var g1 := Run(flags, g, Past(g, i));
      var rest := Alone(flags, g1, i, m);
      order := Past(g, i) + rest;
      RunAppend(flags, g, Past(g, i), rest);
      assert g.done[i := j + 1][i := m] == g.done[i := m];
      SecretFromFront(flags[i][j..m]);
      assert flags[i][j..m][1..] == flags[i][j+1..m];
    }
  }

  /** All children below n but l run to their ends. */
  lemma {:induction false} OthersFinish(flags: seq<seq<bool>>, g: Gather, l: nat, n: nat) returns (order: seq<nat>)
    requires Fits(flags, g) && l < |flags| && n <= |flags| && forall i | 0 <= i < |flags| && i != l :: !g.waiting[i]
    ensures var g' := Run(flags, g, order);
      && g'.waiting == g.waiting && g'.done[l] == g.done[l]
      && forall i | 0 <= i < n && i != l :: g'.done[i] == |flags[i]|
  {
    if n == 0 {
      order := [];
    } else {
      var o := OthersFinish(flags, g, l, n - 1);
      var g1 := Run(flags, g, o);
      if n - 1 == l {
        order := o;
      } else {
        var rest := Alone(flags, g1, n - 1, |flags[n-1]|);
        order := o + rest;
        RunAppend(flags, g, o, rest);
      }
    }
  }

  /** Child l reads before its last, plain resolve while the flag is down; everybody else finishes; l stores. */
  lemma {:induction false} LastStore(flags: seq<seq<bool>>, g: Gather, l: nat) returns (order: seq<nat>)
    requires Fits(flags, g) && l < |flags| && EndsPlain(flags[l])
    requires !g.secret && g.done[l] == |flags[l]| - 1 && forall i | 0 <= i < |flags| :: !g.waiting[i]
    ensures var g' := Run(flags, g, order); Finished(flags, g') && !g'.secret
  {
    var g1 := Step(flags, g, l);
    assert [l][..0] == [] && Run(flags, g, [l]) == g1;
    var others := OthersFinish(flags, g1, l, |flags|);
    RunAppend(flags, g, [l], others);
    var o := [l] + others;
    order := o + [l];
    assert order[..|order|-1] == o;
  }

  lemma Then(flags: seq<seq<bool>>, g: Gather, o: seq<nat>, i: nat)
    requires Fits(flags, g)
    ensures Run(flags, g, o + [i]) == Step(flags, Run(flags, g, o), i)
  {
  }

  /** Child x, about to store false over whatever is there, lets l get up to its last resolve first. */
  lemma {:induction false} OverwriteAndStore(flags: seq<seq<bool>>, g: Gather, x: nat, l: nat) returns (order: seq<nat>)
    requires Fits(flags, g) && x < |flags| && l < |flags| && x != l && EndsPlain(flags[l]) && g.done[l] < |flags[l]|
    requires g.waiting[x] && !flags[x][g.done[x]] && forall i | 0 <= i < |flags| && i != x :: !g.waiting[i]
    ensures var g' := Run(flags, g, order); Finished(flags, g') && !g'.secret
  {
    var a := Alone(flags, g, l, |flags[l]| - 1);
    Then(flags, g, a, x);
    var g1 := Run(flags, g, a + [x]);
    var b := LastStore(flags, g1, l);
    order := a + [x] + b;
    RunAppend(flags, g, a + [x], b);
  }

  /** A child that begins plain is in its window from the start. */
  lemma {:induction false} LoseByOther(flags: seq<seq<bool>>, x: nat, l: nat) returns (order: seq<nat>)
    requires x < |flags| && l < |flags| && x != l && BeginsPlain(flags[x]) && EndsPlain(flags[l])
    ensures var g := Run(flags, Begin(flags), order); Finished(flags, g) && !g.secret
  {
    Then(flags, Begin(flags), [], x);
    assert [] + [x] == [x];
    var g1 := Run(flags, Begin(flags), [x]);
    var rest := OverwriteAndStore(flags, g1, x, l);
    order := [x] + rest;
    RunAppend(flags, Begin(flags), [x], rest);
  }

  /** Child l opens the window for x's plain resolve m with its own first one. */
  lemma {:induction false} LoseByBoth(flags: seq<seq<bool>>, x: nat, m: nat, l: nat) returns (order: seq<nat>)
    requires x < |flags| && l < |flags| && x != l && m < |flags[x]| && !flags[x][m]
    requires BeginsPlain(flags[l]) && EndsPlain(flags[l]) && |flags[l]| > 1
    ensures var g := Run(flags, Begin(flags), order); Finished(flags, g) && !g.secret
  {
    var g0 := Begin(flags);
    Then(flags, g0, [], l);
    assert [] + [l] == [l];
    var g1 := Run(flags, g0, [l]);
    var a := Alone(flags, g1, x, m);
    RunAppend(flags, g0, [l], a);
    Then(flags, g0, [l] + a, l);
    Then(flags, g0, [l] + a + [l], x);
    var o := [l] + a + [l] + [x];
    var rest := OverwriteAndStore(flags, Run(flags, g0, o), x, l);
    order := o + rest;
    RunAppend(flags, g0, o, rest);
  }

  lemma {:induction false} LosesASecret(flags: seq<seq<bool>>) returns (order: seq<nat>)
    requires CanLose(flags)
    ensures var g := Run(flags, Begin(flags), order); Finished(flags, g) && !g.secret
  {
    var l: nat :| l < |flags| && CanStoreLast(flags, l);
    if !SeesSecret(flags[l]) {
      var a := Alone(flags, Begin(flags), l, |flags[l]| - 1);
      assert !SeesSecret(flags[l][0..|flags[l]|-1]);
      var b := LastStore(flags, Run(flags, Begin(flags), a), l);
      order := a + b;
      RunAppend(flags, Begin(flags), a, b);
    } else if x: nat :| x < |flags| && x != l && BeginsPlain(flags[x]) {
      order := LoseByOther(flags, x, l);
    } else {
      var x: nat :| x < |flags| && x != l && SeesPlain(flags[x]);
      var m: nat :| m < |flags[x]| && !flags[x][m];
      order := LoseByBoth(flags, x, m, l);
    }
  }

  /** The exact condition: every order of the children's steps ends with the flag the documentation promises if and
      only if no child can store false last. */
  lemma {:induction false} KeptInEveryOrderIff(flags: seq<seq<bool>>)
    ensures (forall order: seq<nat> :: KeptBy(flags, order)) <==> !CanLose(flags)
  {
    if CanLose(flags) {
      var order := LosesASecret(flags);
      assert !KeptBy(flags, order);
    } else {
      forall order: seq<nat> ensures KeptBy(flags, order) {
        KeptUnlessLosable(flags, order);
      }
    }
  }
}
