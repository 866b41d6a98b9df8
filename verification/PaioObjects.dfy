/** `_resolve` and `async_output`'s `run` as the objects they are, segment by segment. */
module PaioObjects {
  import opened Scope
  import opened Protocol
  import opened Contexts

  method AnyOf(flags: seq<bool>) returns (r: bool)
    ensures r == Any(flags)
  {
    r := false;
    for n := 0 to |flags|
      invariant r == Any(flags[..n])
    {
      assert flags[..n+1] == flags[..n] + [flags[n]];
      assert r ==> exists i | 0 <= i < n :: flags[..n][i] && flags[..n+1][i];
      if flags[n] {
        assert flags[..n+1][n];
        r := true;
      }
    }
    assert flags[..|flags|] == flags;
  }

  method AllOf(flags: seq<bool>) returns (r: bool)
    ensures r == All(flags)
  {
    for n := 0 to |flags|
      invariant forall i | 0 <= i < n :: flags[i]
    {
      if !flags[n] {
        return false;
      }
    }
    return true;
  }

  /** One awaited call of `_resolve`, suspended at `phase`; `ctx` is the accumulator it fetched when it began. */
  class ResolveCall {
    const ctx: AsyncOutputCtx
    var phase: Phase

    /** The call begins: without an accumulator in the context it is a RuntimeError. */
    static method Begin(context: Context) returns (call: ResolveCall?)
      ensures (call == null) == (context.accumulator == null)
      ensures call != null ==> fresh(call) && call.ctx == context.accumulator && call.phase == AwaitResources
    {
      if context.accumulator == null {
        call := null;
      } else {
        call := new ResolveCall(context.accumulator);
      }
    }

    constructor (ctx: AsyncOutputCtx)
      ensures this.ctx == ctx && phase == AwaitResources
    {
      this.ctx := ctx;
      phase := AwaitResources;
    }

    method OnResources(gathered: seq<set<Resource>>)
      requires phase == AwaitResources
      modifies this, ctx`deps
      ensures (ctx.View(), Wait(phase)) == AfterResources(ReadFirst, old(ctx.View()), gathered)
    {
      ctx.Record(gathered);
      if ctx.secret {
        phase := AwaitValues;   // the `or` is already true
      } else {
        phase := AwaitSecrets;
      }
    }

    method OnSecrets(gathered: seq<bool>)
      requires phase == AwaitSecrets
      modifies this, ctx`secret
      ensures (ctx.View(), Wait(phase)) == AfterSecrets(ReadFirst, old(ctx.View()), gathered)
    {
      var any := AnyOf(gathered);
      ctx.secret := any;        // false or any
      phase := AwaitValues;
    }

    /** Returns whether the call goes on; otherwise it has raised the unknown handshake. */
    method OnValues(gathered: seq<Val>) returns (goesOn: bool)
      requires phase == AwaitValues
      modifies this
      ensures goesOn <==> forall i | 0 <= i < |gathered| :: !HoldsUnknown(gathered[i])
      ensures phase == if goesOn then AwaitKnown(gathered) else old(phase)
    {
      goesOn := true;
      for n := 0 to |gathered|
        invariant forall i | 0 <= i < n :: !HoldsUnknown(gathered[i])
        invariant phase == old(phase)
      {
        ContainsIffHolds(gathered[n]);
        if ContainsUnknowns(gathered[n]) {
          return false;
        }
      }
      phase := AwaitKnown(gathered);
    }

    method OnKnown(gathered: seq<bool>) returns (end: Segment)
      requires phase.AwaitKnown?
      ensures end == AfterKnown(phase.values, gathered)
    {
      var all := AllOf(gathered);
      if !all {
        return Abort;
      }
      if |phase.values| == 1 {
        end := Answer(phase.values[0]);
      } else {
        end := Answer(Tuple(phase.values));
      }
    }
  }

  /** A whole call during whose awaits no other task of the run resolves: dependencies and secretness are those
      of its outputs added to what was there, also when it aborts, and it answers exactly if all is known. */
  method ResolveUndisturbed(call: ResolveCall, resources: seq<set<Resource>>, secrets: seq<bool>, values: seq<Val>, known: seq<bool>)
    returns (end: Segment)
    requires call.phase == AwaitResources
    modifies call, call.ctx
    ensures call.ctx.deps == old(call.ctx.deps) + Union(resources)
    ensures call.ctx.secret == (old(call.ctx.secret) || Any(secrets))
    ensures end.Answer? ==> !HoldsUnknown(end.v)
    ensures end == (if (exists i | 0 <= i < |values| :: HoldsUnknown(values[i])) || (exists i | 0 <= i < |known| :: !known[i])
                    then Abort else Answer(if |values| == 1 then values[0] else Tuple(values)))
  {
    call.OnResources(resources);
    if call.phase == AwaitSecrets {
      call.OnSecrets(secrets);
    }
    var goesOn := call.OnValues(values);
    if !goesOn {
      return Abort;
    }
    PackIsPlain(values);
    end := call.OnKnown(known);
  }

  /** The task of one async_output. */
  class RunCall {
    const ctx: AsyncOutputCtx
    const token: AsyncOutputCtx?

    /** Installs a fresh accumulator in the task's own context. */
    constructor (context: Context)
      modifies context`accumulator
      ensures fresh(ctx) && ctx.View() == FRESH
      ensures token == old(context.accumulator) && context.accumulator == ctx
    {
      var acc := new AsyncOutputCtx();
      ctx := acc;
      token := context.accumulator;
      new;
      context.accumulator := ctx;
    }

    /** The coroutine is over: one tuple for the four futures, and in every case the context is reset. */
    method Leave(context: Context, result: Result) returns (tuple: Option<RunTuple<AsyncOutputCtx>>)
      modifies context`accumulator
      ensures tuple == Collapse(ctx, result, ctx.View())
      ensures context.accumulator == token
    {
      match result {
        case Returned(value) => tuple := Some(RunTuple(ctx, value, true, ctx.secret));
        case Aborted => tuple := Some(RunTuple(ctx, Nothing, false, ctx.secret));
        case Failed => tuple := None;
      }
      context.accumulator := token;
    }
  }
}
