/** What can happen around one step against the world outside the process. */
module Faults {

  /**
   * A step works, or returns an error, or the process dies around it; in the last two cases the
   * step may have had none, part, or all of its effect.
   */
  datatype Fault = Fine | ErrBefore | ErrMidway | ErrAfter | CrashBefore | CrashMidway | CrashAfter {
    predicate Err() {
      ErrBefore? || ErrMidway? || ErrAfter?
    }

    predicate Before() {
      ErrBefore? || CrashBefore?
    }

    predicate Midway() {
      ErrMidway? || CrashMidway?
    }
  }

  /** Nondeterministic, except that nothing goes wrong in a calm world. */
  method Strike(calm: bool) returns (f: Fault)
    ensures calm ==> f == Fine
  {
    f := *;
    if calm {
      f := Fine;
    }
  }
}
