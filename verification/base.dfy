/**
 Shared value types for the strategy runner model: an optional value, a
 value-or-error result, and the errors the script can end with.
 */
module Base {

  /** A value that may be missing (Python's `None`). */
  datatype Option<+T> = None | Some(value: T) {
    /** The carried value, or `default` when there is none. */
    function GetOr(default: T): T {
      match this
      case Some(v) => v
      case None => default
    }
  }

  /** Either a value or the error that was raised instead of producing it. */
  datatype Result<+T> = Ok(value: T) | Err(error: Error)

  /** The failures the script can end with. */
  datatype Error =
    /** `ImportError` from `importlib.import_module`: no module of that name. */
    | ModuleNotFound(moduleName: string)
    /** The `ImportError` the script raises itself when the module defines no class. */
    | NoStrategyClass(moduleName: string)
    /** The `ValueError` of the broker selector for an unknown broker name. */
    | InvalidBrokerChoice(choice: string)
    /** The `TypeError` of calling the broker selector without its argument. */
    | MissingBrokerArgument

  /** True of the two errors the script turns into `exit(1)` while resolving the strategy. */
  predicate IsResolutionError(e: Error) {
    e.ModuleNotFound? || e.NoStrategyClass?
  }
}
