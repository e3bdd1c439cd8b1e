/**
 * Error kinds raised by the microgrid code base, and the Option / Result /
 * Outcome wrappers used to model raising code as total functions.
 */
module Wrappers {

  /**
   * One constructor per exception class that the modelled code raises or
   * lets escape, except `UnknownTimestamp`: it stands for both
   * `UnknownTimestampError` classes (the time series' and the optimisation
   * engine's), which no modelled caller tells apart.
   */
  datatype Error =
    | AssertionError
    | ValueError
    | IndexError
    | TypeError
    | AttributeError
    | ZeroDivisionError
    | NotCreated              // "... is not created" (NotImplementedError of an unbound value)
    | UnknownTimestamp
    | UndefinedValue
    | StepPreviousTimestamp
    | UnknownComponent
    | SimulationGrid
    | MicrogridModelling
    | DuplicateUnitName
    | DuplicateGridModel
    | UnitDataLoader
    | SimulationTimeseries
    | DuplicateEngineValue

  datatype Option<+T> = None | Some(value: T)

  datatype Result<+T> = Ok(value: T) | Err(error: Error)
  {
    function MapOk<U>(f: T -> U): (r: Result<U>)
      ensures r.Ok? <==> this.Ok?
      ensures r.Ok? ==> r.value == f(this.value)
    {
      match this
      case Ok(v) => Ok(f(v))
      case Err(e) => Err(e)
    }
  }

  datatype Outcome = Pass | Fail(error: Error)
}
