/** The fixed-capacity stack of stack.h: STACK_MAX slots and a `top` index.
    Pushing onto a full stack terminates the process, which a caller sees
    here as `Push` returning false with nothing changed. */
module Stack {

  const STACK_MAX: nat := 256

  class FixedStack<T(0)> {
    var vals: array<T>
    var top: nat

    ghost predicate Valid()
      reads this
    {
      vals.Length == STACK_MAX && top <= STACK_MAX
    }

    /** The pushed values, oldest first. */
    ghost function Contents(): seq<T>
      requires Valid()
      reads this, vals
    {
      vals[..top]
    }

    /** `STACK_INIT` */
    constructor ()
      ensures Valid() && fresh(vals)
      ensures Contents() == [] && Len() == 0 && Empty()
    {
      vals := new T[STACK_MAX];
      top := 0;
    }

    /** `stack_push_`: store at `top`, then increment `top`; at capacity the
        source exits, and nothing is stored. */
    method Push(x: T) returns (ok: bool)
      requires Valid()
      modifies this`top, vals
      ensures Valid() && vals == old(vals)
      ensures ok <==> old(top) < STACK_MAX
      ensures Contents() == if ok then old(Contents()) + [x] else old(Contents())
    {
      if top >= STACK_MAX {
        return false;
      }
      vals[top] := x;
      top := top + 1;
      ok := true;
    }

    /** `stack_top`: the most recently pushed value. */
    function Top(): (x: T)
      requires Valid() && top > 0
      reads this, vals
      ensures x == Contents()[|Contents()| - 1]
    {
      vals[top - 1]
    }

    /** `stack_pop`: decrement `top` and return the value there. */
    method Pop() returns (x: T)
      requires Valid() && top > 0
      modifies this`top
      ensures Valid()
      ensures x == old(Contents())[|old(Contents())| - 1]
      ensures Contents() == old(Contents())[..|old(Contents())| - 1]
    {
      top := top - 1;
      x := vals[top];
    }

    /** `stack_empty` */
    predicate Empty()
      requires Valid()
      reads this, vals
      ensures Empty() <==> Contents() == []
    {
      top == 0
    }

    /** `stack_len` */
    function Len(): (n: nat)
      requires Valid()
      reads this, vals
      ensures n == |Contents()|
    {
      top
    }
  }

  /** A push onto a stack with room is undone by the next pop: the pop
      returns the pushed value and gives back the earlier contents. */
  method PushThenPop<T(0)>(s: FixedStack<T>, x: T) returns (y: T)
    requires s.Valid() && s.top < STACK_MAX
    modifies s, s.vals
    ensures s.Valid()
    ensures y == x
    ensures s.Contents() == old(s.Contents())
  {
    var ok := s.Push(x);
    y := s.Pop();
  }
}
