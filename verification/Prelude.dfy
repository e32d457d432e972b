/** Vocabulary shared by every module: optional values, identifiers, instants
    and the few numeric operations of the Rust core library that the
    dispatcher relies on, taken over the reals. */
module Prelude {
  datatype Option<+T> = None | Some(value: T) {
    function GetOr(default: T): T {
      if Some? then value else default
    }
  }

  /** Battery and circuit identifiers. */
  type Id = string

  /** Seconds on the monotonic clock. */
  type Time = real

  function Abs(x: real): real {
    if x < 0.0 then -x else x
  }

  function Max(x: real, y: real): real {
    if x < y then y else x
  }

  function Min(x: real, y: real): real {
    if x < y then x else y
  }

  function Clamp(x: real, lo: real, hi: real): real {
    if x < lo then lo else if x > hi then hi else x
  }

  /** `f64::signum`, which never answers 0; a real has no negative zero. */
  function Signum(x: real): real {
    if x < 0.0 then -1.0 else 1.0
  }

  /** A product of two variables, under a name so that a proof can treat it as
      one term and bring in only the laws it needs. */
  function Mul(k: real, x: real): real {
    k * x
  }

  lemma MulAdd(k: real, x: real, y: real)
    ensures Mul(k, x + y) == Mul(k, x) + Mul(k, y)
  {
  }

  lemma MulLaws(k: real, x: real)
    ensures k >= 0.0 && x >= 0.0 ==> Mul(k, x) >= 0.0
    ensures Mul(k, -x) == -Mul(k, x)
    ensures Mul(1.0 - k, x) == x - Mul(k, x)
    ensures Mul(k, 0.0) == 0.0 && Mul(0.0, x) == 0.0 && Mul(1.0, x) == x
  {
  }

  /** An `Option<Instant>` deadline that still lies ahead. */
  predicate Pending(deadline: Option<Time>, now: Time) {
    deadline.Some? && deadline.value > now
  }
}
