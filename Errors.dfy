/** Null-able values, results, and the failures the production-order engine raises. */
module Errors {

  /** A Java reference that may be null. */
  datatype Option<+T> = None | Some(value: T)

  /** The outcome of an operation that either returns a value or throws. */
  datatype Result<+T> = Success(value: T) | Failure(error: Error)

  /**
   * One constructor per exception the core throws, named after its message, plus
   * `SizeSumOverflow`, which only the corrected create check raises (the size total beyond
   * the `int` range that `validateOnCreate` lets wrap around).
   */
  datatype Error =
    // Product.validateOnCreate
    | QuantityOrSizesRequired
    | SizesRequiredWithQuantity
    | SizeSumMismatch(sum: int, quantity: int)
    | SizeSumOverflow(sum: int)
    | MadeOutOfRange
    // Product.validateOnUpdate
    | QuantityNotSet
    // Product.addMade
    | ProgressWithoutQuantity
    | MadeNegative
    | MadeExceedsQuantity
    // ProductService
    | QuantityRequired
    | ProductNotFound(productId: int)
    | DuplicateOp(op: string)
    | NullMade
    // ModuleService
    | ModuleNotFound(moduleId: int)
    | InvalidNumPersons
    // StoppageReason.fromJson
    | InvalidStoppageReason(input: string)
}
