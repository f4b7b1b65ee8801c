/** Option and Result values shared by every module of the model. A Rust
    `Option<T>` becomes `Option<T>`, a `Result<T, E>` becomes `Result<T, E>`,
    and `Result<()>` is `Result<(), E>`. */
module Results {

  datatype Option<+T> = None | Some(value: T)

  datatype Result<+T, +E> = Ok(value: T) | Err(error: E)
}
