/** `Component` and the backstop's verdict over the mutable context. */
module ComponentObjects {
  import opened Scope
  import opened Contexts
  import opened Backstop

  /** The part of ResourceOptions the backstop and `own_provider_opts` look at. */
  datatype Opts = Opts(parent: Option<nat>, protect: bool)

  predicate Parented(opts: Option<Opts>): (r: bool)
    ensures r <==> exists p, protect :: opts == Some(Opts(Some(p), protect))
  {
    assert opts.Some? && opts.value.parent.Some? ==> opts == Some(Opts(Some(opts.value.parent.value), opts.value.protect));
    opts.Some? && opts.value.parent.Some?
  }

  /** `_refuse_unparented`: the component a refusal names, or None. It reads the context and changes nothing. */
  method RefuseUnparented(context: Context, opts: Option<Opts>) returns (refusal: Option<FrameObject>)
    ensures refusal.None? <==> context.underConstruction == [] || Parented(opts)
    ensures refusal.Some? ==> context.underConstruction[|context.underConstruction| - 1] == refusal.value
  {
    var enclosing := context.underConstruction;
    if |enclosing| == 0 || Parented(opts) {
      return None;
    }
    return Some(enclosing[|enclosing| - 1]);
  }

  /** `own_provider_opts`: the provider is given the very parent its component is given, and nothing else. */
  function OwnProviderOpts(opts: Option<Opts>): (r: Opts)
    ensures forall p :: r == Opts(Some(p), false) <==> exists protect :: opts == Some(Opts(Some(p), protect))
    ensures !Parented(opts) ==> r == Opts(None, false)
  {
    assert opts.Some? ==> opts == Some(Opts(opts.value.parent, opts.value.protect));
    Opts((if opts.Some? then opts.value.parent else None), false)
  }

  /** So it is the component's sibling: both inherit from the same resource, and carry the same transformations. */
  lemma ProviderIsSibling(s: Sdk, opts: Option<Opts>, provider: Id, component: Id)
    requires provider !in s.carries && component !in s.carries && component != provider
    requires var parent := if opts.Some? then opts.value.parent else None; var up := if parent.Some? then parent else s.root;
      up.Some? ==> up.value in s.carries
    ensures var parent := if opts.Some? then opts.value.parent else None; var up := if parent.Some? then parent else s.root;
      var built := After(After(s, Declare(provider, OwnProviderOpts(opts).parent)), Declare(component, parent));
      && provider in built.carries && component in built.carries
      && built.carries[provider] == built.carries[component] == if up.Some? then s.carries[up.value] else 0
  {
    if Parented(opts) {
      assert OwnProviderOpts(opts) == Opts(Some(opts.value.parent.value), false);
    }
  }

  datatype Outcome = Built | Unstated | Refused(enclosing: FrameObject)

  lemma CutAtFirst<T>(stack: seq<T>, own: T, index: nat)
    requires index < |stack| && stack[index] == own && own !in stack[..index]
    ensures CutAt(stack, own) == stack[..index]
  {
  }

  class Component {
    var frame: FrameObject?

    /** `frame` stays unset until `Init` gets that far. */
    constructor ()
      ensures frame == null
    {
      frame := null;
    }

    /** `Component.__init__`: the class's own token, the registration, and only then the scope. */
    method Init(context: Context, name: string, token: Option<string>, opts: Option<Opts>) returns (outcome: Outcome)
      modifies this, context`underConstruction
      ensures outcome.Unstated? <==> token.None?
      ensures outcome.Refused? <==> token.Some? && Refusal(old(context.underConstruction), Parented(opts)).Some?
      ensures outcome.Refused? ==> Refusal(old(context.underConstruction), Parented(opts)) == Some(outcome.enclosing)
      ensures !outcome.Built? ==> context.underConstruction == old(context.underConstruction) && frame == old(frame)
      ensures outcome.Built? ==> frame != null && fresh(frame) && frame.name == name && frame.type_ == token.value
      ensures outcome.Built? ==> context.underConstruction == old(context.underConstruction) + [frame]
    {
      if token.None? {
        return Unstated;
      }
      var refusal := RefuseUnparented(context, opts);
      if refusal.Some? {
        return Refused(refusal.value);
      }
      var own := new FrameObject(name, token.value);
      frame := own;
      context.underConstruction := context.underConstruction + [own];
      return Built;
    }

    /** `Component.register_outputs`: searches by identity for the component's own frame and truncates there.
        A component whose frame was never set fails with AttributeError as soon as there is a frame to compare. */
    method RegisterOutputs(context: Context) returns (ok: bool)
      modifies context`underConstruction
      ensures ok == (frame != null || old(context.underConstruction) == [])
      ensures context.underConstruction ==
              if frame != null then CutAt(old(context.underConstruction), frame) else old(context.underConstruction)
    {
      var frames := context.underConstruction;
      for index := 0 to |frames|
        invariant context.underConstruction == frames
        invariant frame !in frames[..index]
        invariant frame == null ==> index == 0
      {
        if frame == null {
          return false;
        }
        if frames[index] == frame {
          CutAtFirst(frames, frame, index);
          context.underConstruction := frames[..index];
          break;
        }
      }
      ok := true;
    }
  }

  /** A component that owns a provider builds it first, with the parent it was given itself.  The provider is
      refused exactly if the component's own registration would be; once the provider has passed the component is
      never refused; and a component that did not get built leaves the scope as it was. */
  method BuildWithOwnProvider(context: Context, c: Component, name: string, token: Option<string>, opts: Option<Opts>)
    returns (provider: Option<FrameObject>, outcome: Outcome)
    modifies c, context`underConstruction
    ensures provider == Refusal(old(context.underConstruction), Parented(opts))
    ensures provider.Some? ==> outcome == Refused(provider.value)
    ensures provider.None? ==> outcome == if token.Some? then Built else Unstated
    ensures !outcome.Built? ==> context.underConstruction == old(context.underConstruction)
  {
    provider := RefuseUnparented(context, Some(OwnProviderOpts(opts)));
    if provider.Some? {
      outcome := Refused(provider.value);
    } else {
      outcome := c.Init(context, name, token, opts);
    }
  }

  /** Two components of one name and type, the inner one forgetting to close, and a task deferred while both are open.
      The outer one's close in the task empties the task's copy of the scope down to where the outer one began and
      leaves the constructor's alone (`during`: the outer one's frame with the inner one's above it); its close in the
      constructor then takes the leaked frame with it. */
  method OuterClosesLeak(context: Context, outer: Component, inner: Component, name: string, token: string, opts: Option<Opts>)
    returns (deferred: Context, during: seq<FrameObject>, built: bool)
    requires outer != inner
    modifies outer, inner, context`underConstruction
    ensures built == Refusal(old(context.underConstruction), Parented(opts)).None?
    ensures fresh(deferred)
    ensures built ==> outer.frame != null && inner.frame != null && inner.frame != outer.frame
    ensures built ==> inner.frame.name == outer.frame.name && inner.frame.type_ == outer.frame.type_
    ensures built ==> deferred.underConstruction == old(context.underConstruction)
    ensures built ==> during == old(context.underConstruction) + [outer.frame, inner.frame]
    ensures context.underConstruction == old(context.underConstruction)
  {
    var before := context.underConstruction;
    var o := outer.Init(context, name, Some(token), opts);
    built := o == Built;
    if built {
      var i := inner.Init(context, name, Some(token), Some(Opts(Some(0), false)));
    }
    deferred := context.Copy();
    during := context.underConstruction;
    if built {
      CutUndoesPush(before, outer.frame, during);
      var closed := outer.RegisterOutputs(deferred);
      assert context.underConstruction == during == before + [outer.frame, inner.frame];
      closed := outer.RegisterOutputs(context);
    }
  }
}
