/** How a piece of JavaScript ends: it returns, or it throws through its callers. */
module Outcomes {

  /** A failure-compatible result, so that `:-` unwinds the way a JavaScript exception does. */
  datatype Completion = Normal | Throw {
    predicate IsFailure() {
      Throw?
    }

    function PropagateFailure(): Completion {
      this
    }
  }

  datatype Option<+T> = None | Some(value: T)

  newtype byte = x: int | 0 <= x < 0x100

  type Bytes = seq<byte>
}

/**
 User code.  Wherever the original runs a listener or a callback, a model takes moves off a script:
 calls back into the model, nested to any depth, exceptions thrown and exceptions caught.  A theorem
 for every script is a theorem for all user code.
 */
module Users {

  datatype Move<+A> =
    | Return
    | Raise          // leaves with an exception
    | Call(act: A)
    | Catch          // follows a call: catches the exception that it throws

  class User<A(==)> {
    var script: seq<Move<A>>

    constructor (script: seq<Move<A>>)
      ensures this.script == script
    {
      this.script := script;
    }

    /** The next move; a script that has run out returns. */
    method Next() returns (move: Move<A>)
      modifies this
      ensures if old(script) == [] then move == Return && script == []
              else move == old(script)[0] && script == old(script)[1..]
    {
      if script == [] {
        return Return;
      }
      move, script := script[0], script[1..];
    }

    /** Does the code whose call has thrown catch the exception?  (To catch it farther out is to catch
        it here and raise it again.) */
    method Catches() returns (caught: bool)
      modifies this
      ensures caught == (old(script) != [] && old(script)[0] == Catch)
      ensures script == if old(script) != [] && old(script)[0] == Catch then old(script)[1..] else old(script)
    {
      caught := script != [] && script[0] == Catch;
      if caught {
        script := script[1..];
      }
    }
  }
}
