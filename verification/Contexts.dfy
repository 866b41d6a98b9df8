/** The mutable objects of the framework: accumulators, frames, and the context a task runs in. */
module Contexts {
  import opened Protocol

  /** `_Frame`: frames are compared by identity, so this is a class even though its fields never change. */
  class FrameObject {
    const name: string
    const type_: string

    constructor (name: string, type_: string)
      ensures this.name == name && this.type_ == type_
    {
      this.name := name;
      this.type_ := type_;
    }
  }

  /** `_AsyncOutputCtx`. */
  class AsyncOutputCtx {
    var deps: set<Resource>
    var secret: bool

    ghost function View(): Acc
      reads this
    {
      Acc(deps, secret)
    }

    constructor ()
      ensures View() == FRESH
    {
      deps, secret := {}, false;
    }

    /** The loop over the gathered resources: updates the set in place, one output after the other. */
    method Record(gathered: seq<set<Resource>>)
      modifies this`deps
      ensures deps == old(deps) + Union(gathered)
    {
      for n := 0 to |gathered|
        invariant deps == old(deps) + Union(gathered[..n])
      {
        deps := deps + gathered[n];
        UnionOfMore(gathered, n);
      }
      assert gathered[..|gathered|] == gathered;
    }
  }

  lemma UnionOfMore<T>(sets: seq<set<T>>, n: nat)
    requires n < |sets|
    ensures Union(sets[..n+1]) == Union(sets[..n]) + sets[n]
  {
  }

  /** The two ContextVars as one task sees them. */
  class Context {
    var accumulator: AsyncOutputCtx?
    var underConstruction: seq<FrameObject>

    constructor ()
      ensures accumulator == null && underConstruction == []
    {
      accumulator, underConstruction := null, [];
    }

    /** What asyncio does when a task is created: the task gets variables of its own, holding the same
        accumulator object and the same stack. */
    method Copy() returns (copy: Context)
      ensures fresh(copy)
      ensures copy.accumulator == accumulator && copy.underConstruction == underConstruction
    {
      copy := new Context();
      copy.accumulator, copy.underConstruction := accumulator, underConstruction;
    }
  }
}
