/**
 * The state a memoized object carries, and the original (unwrapped) method
 * bodies it delegates to.
 */
module Instances {

  /** Ruby values as far as the cache is concerned; `Nil` and `Bool(false)` are ordinary values here. */
  datatype Value = Nil | Bool(b: bool) | Int(n: int) | Str(s: string)

  /** The exceptions that can surface from a declaration, a construction or a call. */
  datatype Error =
    | ArgumentError(message: string)
    | NoMethodError(name: string)
    | StandardError(message: string)

  /** What one invocation of an original method body does. */
  datatype Outcome = Returned(value: Value) | Threw(error: Error)

  /**
   * The original method bodies: `body(m, n)` is the outcome of the n-th
   * invocation (counting from 0) of method `m` on this object. Passing the
   * invocation index lets a body see outside state that changes between
   * calls, like the counters the library's tests use. A body is modelled as
   * writing no instance variable and calling no other method: the only
   * effects on the object are the wrappers' own.
   */
  type Body = (string, nat) -> Outcome

  /**
   * An object: its instance variables (memo slots and any others) and how
   * many times each original body has been invoked on it.
   */
  datatype Obj = Obj(ivars: map<string, Value>, runs: map<string, nat>)

  /** How many times the original body of `m` has run on `o`. */
  function Runs(o: Obj, m: string): nat {
    if m in o.runs then o.runs[m] else 0
  }

  /** The object after a call, and what the call returned or raised. */
  datatype Step = Step(obj: Obj, out: Outcome)

  /** Invoke the original body of `m` once; only the invocation counter changes. */
  function RunBody(o: Obj, m: string, body: Body): (r: Step)
    ensures r.out == body(m, Runs(o, m))
    ensures r.obj.ivars == o.ivars
    ensures Runs(r.obj, m) == Runs(o, m) + 1
    ensures forall x :: x != m ==> Runs(r.obj, x) == Runs(o, x)
  {
    var n := Runs(o, m);
    Step(o.(runs := o.runs[m := n + 1]), body(m, n))
  }
}
