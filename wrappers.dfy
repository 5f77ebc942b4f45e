/** Optional values and error results, standing in for the C++ `std::optional`
  * returns and for the exceptions that the chart engines throw and catch. */
module Wrappers {

  datatype Option<T> = None | Some(value: T)

  datatype Result<T, E> = Ok(value: T) | Err(error: E)
}
