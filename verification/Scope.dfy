/** The under-construction scope: stacks of frames and what a declaration is judged by. */
module Scope {
  datatype Option<+T> = None | Some(value: T)

  /** One component whose `__init__` is running.  `id` stands for object identity:
      two frames may agree on name and type and still be different frames. */
  datatype Frame<Id> = Frame(id: Id, name: string, type_: string)

  /** What `register_outputs` leaves of a stack: everything before the component's own
      frame, or the stack itself when the frame is not on it. */
  function CutAt<T(==)>(stack: seq<T>, own: T): (r: seq<T>)
    ensures r <= stack
    ensures own !in r
    ensures own in stack ==> |r| < |stack| && stack[|r|] == own
    ensures own !in stack ==> r == stack
  {
    if stack == [] || stack[0] == own then [] else [stack[0]] + CutAt(stack[1..], own)
  }

  /** The backstop's verdict: the frame a refusal names, or None when it lets the resource pass. */
  function Refusal<T>(stack: seq<T>, parented: bool): Option<T> {
    if stack == [] || parented then None else Some(stack[|stack| - 1])
  }

  /** A cut above a prefix keeps the prefix: closing one component never removes a frame below its own. */
  lemma CutKeepsPrefix<T>(stack: seq<T>, own: T, q: seq<T>)
    requires q <= stack && own !in q
    ensures q <= CutAt(stack, own)
  {
  }

  /** Closing right after beginning, whatever was left above in between, gives back the stack from before. */
  lemma CutUndoesPush<T>(before: seq<T>, own: T, stack: seq<T>)
    requires own !in before && before + [own] <= stack
    ensures CutAt(stack, own) == before
  {
    CutKeepsPrefix(stack, own, before);
    assert stack[|before|] == own;
    if |CutAt(stack, own)| > |before| {
      assert false;
    }
  }
}
