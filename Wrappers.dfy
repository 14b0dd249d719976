/** Optional values and results: `None` stands in for a pandas missing value (NaN or pd.NA),
    `Failure` for an exception raised by the script. */
module Wrappers {

  datatype Option<+T> = None | Some(value: T)

  datatype Result<+R, +E> = Success(value: R) | Failure(error: E)
}
