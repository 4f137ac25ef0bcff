/** Option, Result and Outcome, and the exceptions the SDK raises. */
module Wrappers {

  /** A nullable value: `None` stands for C#'s null. */
  datatype Option<+T> = None | Some(value: T)

  /** The value an operation returns, or the exception it throws. */
  datatype Result<+T, +E> = Success(value: T) | Failure(error: E)

  /** The outcome of an operation that returns nothing (or `this`) or throws. */
  datatype Outcome<+E> = Pass | Fail(error: E)
}

/** One constructor per distinct exception the modelled code throws. */
module Errors {

  datatype Error =
    | StateNotReceived             // InvalidOperationException from GetStateOrThrow
    | InfoNotReceived              // InvalidOperationException from GetInfoOrThrow
    | InvalidClampRange            // ArgumentException from Math.Clamp when min > max
    | InvalidRandomRange           // ArgumentOutOfRangeException from Random.Next when min > max
    | SegmentLimitReached(limit: int)  // InvalidOperationException from SegmentBuilder.AddSegment
    | NoSegmentsAdded              // InvalidOperationException from SegmentBuilder's setters
    | ColorTemperatureOutOfRange   // ArgumentOutOfRangeException from SegmentBuilder.ColorTemperature
    | DuplicateProperty(name: string)  // ArgumentException from JObject.Add
    | NotAnObject                  // ArgumentException from JObject.FromObject on a non-object
    | NullMessage                  // ArgumentNullException from SendJsonAsync
    | AlreadyConnected             // InvalidOperationException from ConnectAsync
    | NotConnected                 // InvalidOperationException from SendJsonAsync
    | NotRunning                   // InvalidOperationException from StopAsync
    | NotStarted                   // InvalidOperationException from StopAsync
    | StartFailed                  // the exception of the transport's StartOrFail, rethrown
    | ReadyTimeout                 // TimeoutException from ConnectAsync
}
