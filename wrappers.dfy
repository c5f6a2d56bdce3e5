/** Missing values and the pipeline's single failure path. */
module Wrappers {

  /** A cell that may be missing: None stands for pandas' NaN / NaT. */
  datatype Option<+T> = None | Some(value: T)

  /** The outcome of a run: a result, or the one error the page reports. */
  datatype Result<+T, +E> = Ok(value: T) | Err(error: E)
}
