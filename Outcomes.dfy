/** Failure-carrying values used in place of Java's null references and exceptions. */
module Outcomes {

  /** A value that may be absent; `None` stands for Java's `null`. */
  datatype Option<+T> = None | Some(value: T)

  /**
   * The ways an operation of the tool can fail. Messages are not modelled,
   * only the kind of exception (or process exit) that ends the run.
   */
  datatype Error =
    | ParameterException      // org.opennms.jsendevent.exceptions.ParameterException
    | NumberFormatException   // thrown by Integer.parseInt and not caught
    | ArgumentsNotCorrect     // the argument lexer prints a message and exits
    | NullPointerException    // a null value dereferenced

  /** The result of an operation that either succeeds with a value or throws. */
  datatype Result<+T> = Ok(value: T) | Fail(error: Error) {
    predicate IsFailure() { Fail? }

    function PropagateFailure<U>(): Result<U>
      requires Fail?
    {
      Fail(error)
    }

    function Extract(): T
      requires Ok?
    {
      value
    }
  }

  /** The result of an operation that returns nothing or throws. */
  datatype Outcome = Pass | Failed(error: Error)
}
