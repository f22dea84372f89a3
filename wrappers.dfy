/** Option and Result, the two failure-carrying types the rest of the model uses. */
module Wrappers {

  /** `undefined`/`null` versus a present value. */
  datatype Option<+T> = None | Some(value: T) {

    /** JavaScript's `x ?? d`: the value when present, otherwise the default. */
    function GetOr(default: T): T {
      match this
      case Some(v) => v
      case None => default
    }
  }

  /** A computation that either produced a value or threw. */
  datatype Result<+T, +E> = Ok(value: T) | Err(error: E)

  /** The configuration: a fixed map from environment keys to their string values. */
  type Config = map<string, string>

  /** `configService.get(key)`: `undefined` for a key that is not set. */
  function ConfigGet(config: Config, key: string): Option<string> {
    if key in config then Some(config[key]) else None
  }
}
