/** Small value types standing for Java's null references, exceptions and
    calls into libraries this model does not contain. */
module Wrappers {

  /** A nullable Java reference: `None` is `null`. */
  datatype Option<+T> = None | Some(value: T)

  /** How one call into a foreign library ended: it returned, or it threw. */
  datatype Effect = Returns | Throws

  /** How a Java method completes: normally with a value, or abruptly with
      an exception that propagates to its caller. */
  datatype Completion<+T> = Normal(value: T) | Abrupt
}
