/** Programs as trees of component bodies, any of which may forget to close, and the scope they run under. */
module ComponentTrees {
  import opened Scope

  type F = Frame<nat>   // identified by order of birth

  datatype Stmt =
    | Declare(parented: bool)
    | Build(comp: Comp)
    | Close                        // self.register_outputs(...)
    | Attempt(body: seq<Stmt>)     // try: ... except Exception: pass
    | Defer(body: seq<Stmt>)       // a task started here, in a copy of the context

  /** A component: what its constructor is given, and the statements after `super().__init__`. */
  datatype Comp = Comp(name: string, token: Option<string>, parented: bool, body: seq<Stmt>)

  /** One consultation of the backstop: the stack it saw, and the frame it named if it refused. */
  datatype Decision = Decision(parented: bool, stack: seq<F>, refusal: Option<F>)

  /** The constructor's stack, the next frame's identity, the decisions so far, and whether an exception is under way. */
  datatype State = State(stack: seq<F>, next: nat, log: seq<Decision>, ok: bool)

  function Consult(st: State, parented: bool): State {
    var refusal := Refusal(st.stack, parented);
    st.(log := st.log + [Decision(parented, st.stack, refusal)], ok := refusal.None?)
  }

  function ExecAll(stmts: seq<Stmt>, self: Option<F>, st: State): State
    decreases stmts, 0
  {
    if stmts == [] || !st.ok then st
    else ExecAll(stmts[1..], self, Exec(stmts[0], self, st))
  }

  function Exec(s: Stmt, self: Option<F>, st: State): State
    decreases s, 1
  {
    match s
    case Declare(parented) => Consult(st, parented)
    case Build(c) =>
      if c.token.None? then st.(ok := false)
      else
        var st' := Consult(st, c.parented);
        if !st'.ok then st'
        else var own := Frame(st.next, c.name, c.token.value);
             ExecAll(c.body, Some(own), st'.(stack := st.stack + [own], next := st.next + 1))
    case Close => if self.Some? then st.(stack := CutAt(st.stack, self.value)) else st
    case Attempt(body) => ExecAll(body, self, st).(ok := true)
    case Defer(body) => ExecAll(body, self, st).(ok := true, stack := st.stack)
  }

  /** No `register_outputs` of the component these statements belong to. */
  predicate NoOwnClose(stmts: seq<Stmt>)
    decreases stmts
  {
    forall i | 0 <= i < |stmts| ::
      match stmts[i]
      case Close => false
      case Attempt(body) => NoOwnClose(body)
      case Defer(body) => NoOwnClose(body)
      case _ => true
  }

  // ---- what every execution keeps -----------------------------------------------------------------------

  /** Frames on the stack are in order of birth, so pairwise different, and older than any to come. */
  ghost predicate Ordered(stack: seq<F>, next: nat) {
    && (forall i, j | 0 <= i < j < |stack| :: stack[i].id < stack[j].id)
    && (forall i | 0 <= i < |stack| :: stack[i].id < next)
  }

  /** From st to r: the frames of q stayed at the bottom of the stack, and were there at every decision. */
  ghost predicate Kept(q: seq<F>, st: State, r: State) {
    && st.next <= r.next && Ordered(r.stack, r.next)
    && q <= r.stack
    && st.log <= r.log
    && forall i | |st.log| <= i < |r.log| ::
         && q <= r.log[i].stack && Ordered(r.log[i].stack, r.next)
         && r.log[i].refusal == Refusal(r.log[i].stack, r.log[i].parented)
  }

  /** The component running the statements is not on q, or does not close itself in them. */
  ghost predicate Spares(stmts: seq<Stmt>, self: Option<F>, q: seq<F>) {
    self.None? || self.value !in q || NoOwnClose(stmts)
  }

  lemma KeptTransitive(q: seq<F>, st: State, mid: State, r: State)
    requires Kept(q, st, mid) && Kept(q, mid, r)
    ensures Kept(q, st, r)
  {
  }

  /** However many components below leak, fail or close more than once, nothing removes the frames of q. */
  lemma {:induction false} ExecAllKeeps(stmts: seq<Stmt>, self: Option<F>, st: State, q: seq<F>)
    requires Ordered(st.stack, st.next) && q <= st.stack && Spares(stmts, self, q)
    ensures Kept(q, st, ExecAll(stmts, self, st))
    decreases stmts, 0
  {
    if stmts == [] || !st.ok {
    } else {
      assert Spares([stmts[0]], self, q);
      ExecKeeps(stmts[0], self, st, q);
      var mid := Exec(stmts[0], self, st);
      assert Spares(stmts[1..], self, q) by {
        forall i | 0 <= i < |stmts[1..]| ensures stmts[1..][i] == stmts[i + 1] {}
      }
      ExecAllKeeps(stmts[1..], self, mid, q);
      KeptTransitive(q, st, mid, ExecAll(stmts, self, st));
    }
  }

  function Begun(c: Comp, st: State): State
    requires c.token.Some?
  {
    Consult(st, c.parented).(stack := st.stack + [Frame(st.next, c.name, c.token.value)], next := st.next + 1)
  }

  lemma BeginKeeps(c: Comp, st: State, q: seq<F>)
    requires Ordered(st.stack, st.next) && q <= st.stack && c.token.Some?
    ensures Kept(q, st, Begun(c, st)) && Frame(st.next, c.name, c.token.value) !in st.stack
    ensures Frame(st.next, c.name, c.token.value) !in q
  {
  }

  lemma {:induction false} BuildKeeps(s: Stmt, self: Option<F>, st: State, q: seq<F>)
    requires s.Build? && Ordered(st.stack, st.next) && q <= st.stack
    ensures Kept(q, st, Exec(s, self, st))
    decreases s, 0
  {
    var c := s.comp;
    if c.token.Some? && Consult(st, c.parented).ok {
      BeginKeeps(c, st, q);
      ExecAllKeeps(c.body, Some(Frame(st.next, c.name, c.token.value)), Begun(c, st), q);
      KeptTransitive(q, st, Begun(c, st), Exec(s, self, st));
    }
  }

  lemma {:induction false} ExecKeeps(s: Stmt, self: Option<F>, st: State, q: seq<F>)
    requires Ordered(st.stack, st.next) && q <= st.stack && Spares([s], self, q)
    ensures Kept(q, st, Exec(s, self, st))
    decreases s, 1
  {
    assert [s][0] == s;
    match s
    case Declare(_) =>
    case Build(_) => BuildKeeps(s, self, st, q);
    case Close =>
      if self.Some? {
        CutKeepsPrefix(st.stack, self.value, q);
      }
    case Attempt(body) => ExecAllKeeps(body, self, st, q);
    case Defer(body) => ExecAllKeeps(body, self, st, q);
  }

  // ---- refusals are never absent --------------------------------------------------------------------------

  /** While a component is open -- whatever its descendants forget, and in tasks deferred from it too -- every
      unparented declaration is refused, in its own name or in that of a component begun after it. */
  lemma {:induction false} RefusalNeverAbsent(stmts: seq<Stmt>, own: F, st: State, i: nat)
    requires Ordered(st.stack, st.next) && own in st.stack && NoOwnClose(stmts)
    requires |st.log| <= i < |ExecAll(stmts, Some(own), st).log|
    ensures var d := ExecAll(stmts, Some(own), st).log[i];
      && (d.refusal.Some? <==> !d.parented)
      && (!d.parented ==> d.refusal.value == own || d.refusal.value.id > own.id)
  {
    var at :| 0 <= at < |st.stack| && st.stack[at] == own;
    var q := st.stack[..at+1];
    ExecAllKeeps(stmts, Some(own), st, q);
    var d := ExecAll(stmts, Some(own), st).log[i];
    assert q <= d.stack && q[at] == own;
    assert d.stack[at] == own;
  }

  // ---- leaks are bounded -----------------------------------------------------------------------------------

  lemma {:induction false} ExecAppend(a: seq<Stmt>, b: seq<Stmt>, self: Option<F>, st: State)
    ensures ExecAll(a + b, self, st) == ExecAll(b, self, ExecAll(a, self, st))
    decreases |a|
  {
    if a == [] {
      assert a + b == b;
    } else if st.ok {
      assert (a + b)[1..] == a[1..] + b;
      ExecAppend(a[1..], b, self, Exec(a[0], self, st));
    } else if b != [] {
      assert ExecAll(a, self, st) == st;
    }
  }

  /** Closing when the body left just the component's own frame. */
  lemma CloseAfter(pre: seq<Stmt>, own: F, before: seq<F>, st: State)
    requires own !in before
    ensures var inner, r := ExecAll(pre, Some(own), st), ExecAll(pre + [Close], Some(own), st);
      && r.ok == inner.ok && r.log == inner.log && r.next == inner.next
      && (inner.ok && before + [own] <= inner.stack ==> r.stack == before)
  {
    var inner := ExecAll(pre, Some(own), st);
    ExecAppend(pre, [Close], Some(own), st);
    assert [Close][1..] == [];
    if inner.ok && before + [own] <= inner.stack {
      CutUndoesPush(before, own, inner.stack);
    }
  }

  /** A component whose body closes it once, with any leaks before: if its constructor completes, the stack is
      exactly the one from before it began.  If it fails half-way, what stood before is still underneath. */
  lemma LeaksAreBounded(c: Comp, pre: seq<Stmt>, self: Option<F>, st: State)
    requires Ordered(st.stack, st.next) && NoOwnClose(pre) && c.body == pre + [Close] && st.ok
    ensures Exec(Build(c), self, st).ok ==> Exec(Build(c), self, st).stack == st.stack
    ensures st.stack <= Exec(Build(c), self, st).stack
  {
    if c.token.Some? && Consult(st, c.parented).ok {
      var own := Frame(st.next, c.name, c.token.value);
      BeginKeeps(c, st, st.stack);
      ExecAllKeeps(pre, Some(own), Begun(c, st), Begun(c, st).stack);
      CloseAfter(pre, own, st.stack, Begun(c, st));
      ExecKeeps(Build(c), self, st, st.stack);
    }
  }

  /** The same at the moment of the first close in any body: what follows it starts from the stack from before. */
  lemma FirstCloseRestores(pre: seq<Stmt>, post: seq<Stmt>, own: F, before: seq<F>, st: State)
    requires Ordered(st.stack, st.next) && st.stack == before + [own] && NoOwnClose(pre)
    requires ExecAll(pre, Some(own), st).ok
    ensures ExecAll(pre + [Close], Some(own), st).stack == before
    ensures before <= ExecAll(pre + [Close] + post, Some(own), st).stack
  {
    assert st.stack[|before|] == own;
    forall i | 0 <= i < |before| ensures before[i] != own {
      assert before[i] == st.stack[i];
    }
    ExecAllKeeps(pre, Some(own), st, st.stack);
    CloseAfter(pre, own, before, st);
    var closed := ExecAll(pre + [Close], Some(own), st);
    ExecAllKeeps(pre + [Close], Some(own), st, before);
    ExecAppend(pre + [Close], post, Some(own), st);
    ExecAllKeeps(post, Some(own), closed, before);
  }

  // ---- leaks last --------------------------------------------------------------------------------------------

  /** A component that begins and does not close itself: its frame stays on the stack when its construction is over,
      completed or not, whatever has been left above it. */
  lemma {:induction false} LeakStays(c: Comp, self: Option<F>, st: State)
    requires Ordered(st.stack, st.next) && c.token.Some? && (st.stack == [] || c.parented) && NoOwnClose(c.body)
    ensures var own := Frame(st.next, c.name, c.token.value); var r := Exec(Build(c), self, st);
      && st.stack + [own] <= r.stack && own !in st.stack && Ordered(r.stack, r.next) && st.log <= r.log
  {
    var own := Frame(st.next, c.name, c.token.value);
    BeginKeeps(c, st, st.stack);
    ExecAllKeeps(c.body, Some(own), Begun(c, st), st.stack + [own]);
  }

  /** The frame the backstop names is that of the leaked component or of one begun after it. */
  predicate BlamesLeak(refusal: Option<F>, own: F) {
    refusal.Some? && (refusal.value == own || refusal.value.id > own.id)
  }

  /** So after a component that forgot to close -- whether its constructor completed, or failed and the exception was
      swallowed -- and until an enclosing component closes, every unparented declaration is refused in its name or
      that of a component begun after it: in whatever statements follow ... */
  lemma {:induction false} LeakLasts(c: Comp, swallowed: bool, rest: seq<Stmt>, self: Option<F>, st: State, i: nat)
    requires st.ok && Ordered(st.stack, st.next) && c.token.Some? && (st.stack == [] || c.parented) && NoOwnClose(c.body)
    requires self.None? || self.value !in st.stack + [Frame(st.next, c.name, c.token.value)] || NoOwnClose(rest)
    requires var mid := Exec(if swallowed then Attempt([Build(c)]) else Build(c), self, st);
      |mid.log| <= i < |ExecAll(rest, self, mid).log|
    ensures var mid := Exec(if swallowed then Attempt([Build(c)]) else Build(c), self, st);
      var d := ExecAll(rest, self, mid).log[i];
      if d.parented then d.refusal == None else BlamesLeak(d.refusal, Frame(st.next, c.name, c.token.value))
  {
    var own := Frame(st.next, c.name, c.token.value);
    var q := st.stack + [own];
    var mid := AfterLeak(c, swallowed, self, st);
    ExecAllKeeps(rest, self, mid, q);
    var d := ExecAll(rest, self, mid).log[i];
    assert q <= d.stack && q[|st.stack|] == own && d.stack[|st.stack|] == own;
  }

  lemma AfterLeak(c: Comp, swallowed: bool, self: Option<F>, st: State) returns (mid: State)
    requires st.ok && Ordered(st.stack, st.next) && c.token.Some? && (st.stack == [] || c.parented) && NoOwnClose(c.body)
    ensures mid == Exec(if swallowed then Attempt([Build(c)]) else Build(c), self, st)
    ensures st.stack + [Frame(st.next, c.name, c.token.value)] <= mid.stack && Ordered(mid.stack, mid.next)
    ensures swallowed ==> mid.ok
  {
    mid := Exec(if swallowed then Attempt([Build(c)]) else Build(c), self, st);
    LeakStays(c, self, st);
    if swallowed {
      assert [Build(c)][1..] == [];
      assert ExecAll([Build(c)], self, st) == Exec(Build(c), self, st);
    }
  }

  /** ... and the next one, be it a resource or a component. */
  lemma {:induction false} NextIsRefused(c: Comp, swallowed: bool, next: Stmt, self: Option<F>, st: State)
    requires st.ok && Ordered(st.stack, st.next) && c.token.Some? && (st.stack == [] || c.parented) && NoOwnClose(c.body)
    requires next == Declare(false) || (next.Build? && next.comp.token.Some? && !next.comp.parented)
    ensures var mid := Exec(if swallowed then Attempt([Build(c)]) else Build(c), self, st);
      var r := Exec(next, self, mid);
      && !r.ok && r.stack == mid.stack && |r.log| == |mid.log| + 1
      && BlamesLeak(r.log[|mid.log|].refusal, Frame(st.next, c.name, c.token.value))
  {
    var own := Frame(st.next, c.name, c.token.value);
    var mid := AfterLeak(c, swallowed, self, st);
    assert mid.stack[|st.stack|] == own;
  }

  /** A deferred task works on a copy: whatever it begins, leaves open or closes never reaches the constructor's stack,
      nor does an exception of its own; what it declares is judged under the scope it was deferred in. */
  lemma {:induction false} DeferredStaysApart(body: seq<Stmt>, self: Option<F>, st: State, i: nat)
    requires Ordered(st.stack, st.next) && st.ok
    ensures Exec(Defer(body), self, st).stack == st.stack && Exec(Defer(body), self, st).ok
    ensures Spares(body, self, st.stack) && |st.log| <= i < |Exec(Defer(body), self, st).log| ==>
      st.stack <= Exec(Defer(body), self, st).log[i].stack
  {
    if Spares(body, self, st.stack) {
      ExecAllKeeps(body, self, st, st.stack);
    }
  }

  // ---- without leaks the stack is lexical scope -------------------------------------------------------------

  /** The reference keeps no stack: `inside` is the innermost component the statements are written in, passed down and
      never changed.  Gives the verdicts, the next identity and success. */
  datatype Lexical = Lexical(verdicts: seq<Option<F>>, next: nat, ok: bool)

  function LexAll(stmts: seq<Stmt>, inside: Option<F>, next: nat): Lexical
    decreases stmts, 0
  {
    if stmts == [] then Lexical([], next, true)
    else
      var a := Lex(stmts[0], inside, next);
      if !a.ok then a
      else var b := LexAll(stmts[1..], inside, a.next); Lexical(a.verdicts + b.verdicts, b.next, b.ok)
  }

  function Lex(s: Stmt, inside: Option<F>, next: nat): Lexical
    decreases s, 1
  {
    match s
    case Declare(parented) => if parented then Lexical([None], next, true) else Lexical([inside], next, inside.None?)
    case Build(c) =>
      if c.token.None? then Lexical([], next, false)
      else if !c.parented && inside.Some? then Lexical([inside], next, false)
      else var a := LexAll(c.body, Some(Frame(next, c.name, c.token.value)), next + 1);
           Lexical([None] + a.verdicts, a.next, a.ok)
    case Close => Lexical([], next, true)
    case Attempt(body) => LexAll(body, inside, next).(ok := true)
    case Defer(body) => LexAll(body, inside, next).(ok := true)
  }

  /** The execution of these statements leaks nothing: a component that gets to run its body closes itself as the
      last statement and nowhere else, and an exception that is swallowed left no component open. */
  ghost predicate TidyAll(stmts: seq<Stmt>, self: Option<F>, st: State)
    decreases stmts, 0
  {
    stmts == [] || !st.ok || (Tidy(stmts[0], self, st) && TidyAll(stmts[1..], self, Exec(stmts[0], self, st)))
  }

  ghost predicate Tidy(s: Stmt, self: Option<F>, st: State)
    decreases s, 1
  {
    match s
    case Declare(_) => true
    case Build(c) =>
      c.token.Some? && Consult(st, c.parented).ok ==>
        && c.body != [] && c.body[|c.body|-1] == Close
        && TidyAll(c.body[..|c.body|-1], Some(Frame(st.next, c.name, c.token.value)), Begun(c, st))
    case Close => false
    case Attempt(body) => TidyAll(body, self, st) && (!ExecAll(body, self, st).ok ==> ExecAll(body, self, st).stack == st.stack)
    case Defer(body) => TidyAll(body, self, st)
  }

  function Top(stack: seq<F>): Option<F> {
    if stack == [] then None else Some(stack[|stack|-1])
  }

  function Refusals(log: seq<Decision>): seq<Option<F>> {
    seq(|log|, i requires 0 <= i < |log| => log[i].refusal)
  }

  /** r is what the reference says, run from st: same verdicts, and the stack unless an exception is under way. */
  ghost predicate AsLexical(st: State, r: State, l: Lexical) {
    && r.ok == l.ok && r.next == l.next
    && Refusals(r.log) == Refusals(st.log) + l.verdicts
    && (r.ok ==> r.stack == st.stack)
  }

  lemma {:induction false} ExecAllIsLexical(stmts: seq<Stmt>, self: Option<F>, st: State)
    requires TidyAll(stmts, self, st) && st.ok && Ordered(st.stack, st.next)
    ensures AsLexical(st, ExecAll(stmts, self, st), LexAll(stmts, Top(st.stack), st.next))
    decreases stmts, 0
  {
    if stmts == [] {
      assert Refusals(st.log) + [] == Refusals(st.log);
    } else {
      ExecIsLexical(stmts[0], self, st);
      var mid := Exec(stmts[0], self, st);
      if mid.ok {
        NextGrows(stmts[0], self, st);
        ExecAllIsLexical(stmts[1..], self, mid);
      }
    }
  }

  lemma NextGrows(s: Stmt, self: Option<F>, st: State)
    requires Ordered(st.stack, st.next)
    ensures st.next <= Exec(s, self, st).next && Ordered(Exec(s, self, st).stack, Exec(s, self, st).next)
  {
    ExecKeeps(s, self, st, []);
  }

  lemma {:induction false} BuildIsLexical(s: Stmt, self: Option<F>, st: State)
    requires s.Build? && Tidy(s, self, st) && st.ok && Ordered(st.stack, st.next)
    ensures AsLexical(st, Exec(s, self, st), Lex(s, Top(st.stack), st.next))
    decreases s, 0
  {
    var c := s.comp;
    if c.token.Some? && Consult(st, c.parented).ok {
      var pre := c.body[..|c.body|-1];
      assert c.body == pre + [Close];
      var own := Frame(st.next, c.name, c.token.value);
      var begun := Begun(c, st);
      BeginKeeps(c, st, st.stack);
      ExecAllIsLexical(pre, Some(own), begun);
      LexAppendClose(pre, Some(own), begun.next);
      CloseAfter(pre, own, st.stack, begun);
      assert Refusals(begun.log) == Refusals(st.log) + [None];
    }
  }

  lemma {:induction false} ExecIsLexical(s: Stmt, self: Option<F>, st: State)
    requires Tidy(s, self, st) && st.ok && Ordered(st.stack, st.next)
    ensures AsLexical(st, Exec(s, self, st), Lex(s, Top(st.stack), st.next))
    decreases s, 1
  {
    match s
    case Declare(_) =>
    case Build(_) => BuildIsLexical(s, self, st);
    case Attempt(body) => ExecAllIsLexical(body, self, st);
    case Defer(body) => ExecAllIsLexical(body, self, st);
    case _ =>
  }

  lemma {:induction false} LexAppendClose(pre: seq<Stmt>, inside: Option<F>, next: nat)
    ensures LexAll(pre + [Close], inside, next) == LexAll(pre, inside, next)
    decreases |pre|
  {
    if pre == [] {
      assert LexAll([Close], inside, next) == Lexical([] + [], next, true);
    } else {
      assert (pre + [Close])[1..] == pre[1..] + [Close];
      if Lex(pre[0], inside, next).ok {
        LexAppendClose(pre[1..], inside, Lex(pre[0], inside, next).next);
      }
    }
  }

  /** Refusal is precise: a whole program whose execution leaks nothing gets exactly the verdicts of lexical scope --
      refused if and only if unparented inside an open component, and named after the innermost. */
  lemma LeakFreeIsLexical(stmts: seq<Stmt>)
    requires TidyAll(stmts, None, State([], 0, [], true))
    ensures var r := ExecAll(stmts, None, State([], 0, [], true)); var l := LexAll(stmts, None, 0);
      Refusals(r.log) == l.verdicts && r.ok == l.ok && (r.ok ==> r.stack == [])
  {
    ExecAllIsLexical(stmts, None, State([], 0, [], true));
    assert Refusals([]) + LexAll(stmts, None, 0).verdicts == LexAll(stmts, None, 0).verdicts;
  }
}
