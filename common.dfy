/** Types shared by every part of the dependency-tracking model. */
module Common {

  /** An observable's identity (its `_cid`). Observables are opaque here. */
  type Id = nat

  /** A property or event name. */
  type Key = string

  /** The identity of a JavaScript value, compared with `===`. */
  type Value = int

  /** The identity this model gives `undefined`. */
  const Undefined: Value := 0

  datatype Option<+T> = None | Some(value: T)

  /** What a JavaScript call ends with: a value, or a `TypeError` thrown by reading a property of `null`/`undefined`. */
  datatype Outcome<+T> = Returned(value: T) | TypeError

  /** A numeric cursor that may hold JavaScript's `Infinity`. */
  datatype Depth = Finite(n: nat) | Infinity
  {
    /** `Math.min(d, this)` */
    function MinWith(d: nat): (r: Depth)
      ensures r.Finite? && r.n <= d
      ensures Finite? ==> r.n <= n && (r.n == n || r.n == d)
      ensures Infinity? ==> r.n == d
    {
      match this
      case Infinity => Finite(d)
      case Finite(m) => Finite(if d < m then d else m)
    }

    /** `this <= d`, with `Infinity <= d` false. */
    predicate NotAfter(d: nat)
    {
      Finite? && n <= d
    }
  }

  function Max(a: nat, b: nat): nat
  {
    if a < b then b else a
  }

  /** A walk over `all` that keeps a done part and a to-do part moves one element across. */
  lemma MoveOne<T>(done: set<T>, todo: set<T>, all: set<T>, e: T)
    requires done !! todo && done + todo == all && e in todo
    ensures (done + {e}) !! (todo - {e}) && (done + {e}) + (todo - {e}) == all
  {
  }
}
