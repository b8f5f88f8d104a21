/** Small value types shared by the model. */
module Wrappers {

  datatype Option<T> = None | Some(value: T) {
    /** The wrapped value, or `default` when there is none (Python's `dict.get(key, default)`). */
    function GetOr(default: T): T {
      if Some? then value else default
    }
  }

  /** An integer extended with the two float infinities the layout uses as
      sentinels: `float("-inf")` at the bottom of `prev_x` and
      `float("inf")` as the starting value of `min_y`. */
  datatype Ext = NegInf | Fin(v: int) | PosInf

  /** `a < b` on extended integers. */
  predicate Less(a: Ext, b: Ext) {
    match (a, b)
    case (NegInf, NegInf) => false
    case (NegInf, _) => true
    case (Fin(x), Fin(y)) => x < y
    case (Fin(_), PosInf) => true
    case (Fin(_), NegInf) => false
    case (PosInf, _) => false
  }

  /** Python's `min(a, b)` on extended integers. */
  function Min(a: Ext, b: Ext): Ext {
    if Less(b, a) then b else a
  }

  /** Appending re-associates; stated once so callers need not re-prove it
      element by element. */
  lemma AppendAssoc<T>(a: seq<T>, b: seq<T>, c: seq<T>)
    ensures (a + b) + c == a + (b + c)
  {
  }

  /** A prefix one longer is the prefix and the next element. */
  lemma TakeNext<T>(s: seq<T>, n: nat)
    requires n < |s|
    ensures s[..n + 1] == s[..n] + [s[n]]
  {
  }
}
