/** Optional values, the exceptions the controller and the profiler can raise, and a
    result type that carries either a value or one of those exceptions. */
module Outcomes {

  datatype Option<T> = None | Some(value: T)

  /** The Python exceptions that the modelled code can raise. */
  datatype Error =
    | RuntimeError(message: string)   // stream_data on a disconnected controller
    | ZeroDivisionError                // 150 / mean when the mean latency is 0
    | StatisticsError                  // statistics.mean / stdev on too few values

  datatype Result<T> = Ok(value: T) | Err(error: Error)
}
