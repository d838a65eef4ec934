/** Failure-carrying results shared by the modules of this project. */
module Wrappers {

  /** A value that may be missing: Python's None, Rust's Option. */
  datatype Option<+T> = None | Some(value: T) {

    function GetOr(default: T): T {
      match this
      case Some(v) => v
      case None => default
    }
  }

  /** A value or the reason there is none: Python's exceptions, Rust's Result. */
  datatype Result<+T, +E> = Ok(value: T) | Err(error: E)
}

/** Facts about sequences that the solver does not always see. */
module Sequences {

  lemma Associates<T>(a: seq<T>, b: seq<T>, c: seq<T>)
    ensures a + b + c == a + (b + c)
  {
  }
}

/** Prices as exact integers, so that every tick and every snapped price is exact. */
module Prices {

  /** One billionth of a currency unit (or of an index point) is the unit of every price here. */
  const ONE := 1_000_000_000

  /** A gateway float: a number, or the NaN that compares false with everything. */
  datatype Float = NaN | Finite(value: int) {

    predicate Below(bound: int) {
      Finite? && value < bound
    }
  }
}
