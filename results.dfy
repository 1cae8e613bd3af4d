/** The two outcome shapes the app uses: a value that may be absent (`null` or
    `undefined` in the original), and a value or the error an operation raised. */
module Results {

  datatype Option<+T> = None | Some(value: T)

  datatype Result<+T, +E> = Ok(value: T) | Err(error: E)
}
