/** Option and Result, the two wrappers the report library uses: Rust's `Option<T>`
    for the optional fields and `Result<T, ReportError>` for the writer's outcome. */
module Wrappers {

  datatype Option<+T> = None | Some(value: T)

  datatype Result<+T, +E> = Ok(value: T) | Err(error: E)
}
