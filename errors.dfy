/**
 * The errors the incrementer family returns. Each case of the repository's own
 * `fmt.Errorf` calls is one constructor; every failure of `fmt.Sscanf` (whatever
 * its library message) is the single case ScanFailed.
 */
module Errors {
  import opened Wrappers

  datatype Error =
    // Incrementer / ClampedIncrementer: the byte slice handed to UnmarshalJSON is nil
    | DataWasNil
    // fmt.Sscanf could not match the pattern (missing field, non-integer, ...)
    | ScanFailed
    // ClampedIncrementer.UnmarshalJSON slices data[1:len(data)-1] on text shorter than
    // two bytes, which is a Go runtime panic rather than a returned error
    | SlicePanic
    // ClampedIncrementer validation, in the order UnmarshalJSON applies it
    | MinNotBelowMax
    | ValBelowMin
    | OrigBelowMin
    | ValAboveMax
    | OrigAboveMax
    // UIncrementer (package incrementers) validation
    | UValNegative
    | UOrigNegative
    // NewClockFromJSON
    | ClockMinNotZero
    | ClockMaxBelowOne
    | ClockIncNotOne
    // NewCounterFromJSON
    | CounterMinNotZero
    | CounterMaxNotZero
    // the stand-alone Clock
    | StepsBelowOne
    | TicksNegative
    | TicksAboveSteps
    // the stand-alone UIncrementer
    | MaxBelowOne
    | ValNegative
    | ValAboveLimit
    | IncNegative

  /** What an in-place UnmarshalJSON leaves behind: the receiver's new fields and the returned error. */
  datatype Outcome<S> = Outcome(state: S, error: Option<Error>)
}
