/** Value-based failure signals: Java's nullable references and thrown
    exceptions become explicit `Option` and `Result` values. */
module Optional {

  /** A possibly absent value; `None` stands for Java's `null`. */
  datatype Option<+T> = None | Some(value: T)

  /** Either a computed value or the error the Java code would have thrown. */
  datatype Result<+T, +E> = Ok(value: T) | Err(error: E)
}
