/** Failure-carrying values shared by the model.

    The scripts report failures as Python exceptions; the model names the
    three the modelled code can raise and returns them as values. */
module Outcomes {

  /** The exceptions the modelled code can raise. */
  datatype Error =
    | DivisionByZero       // ZeroDivisionError: a ratio over zero points
    | EmptySequence        // IndexError: random.choice over an empty string
    | NegativeSleepLength  // ValueError: time.sleep with a negative delay

  datatype Result<+T> = Ok(value: T) | Err(error: Error)

  datatype Option<+T> = None | Some(value: T)
}
