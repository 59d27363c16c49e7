/** Java's nullable references and exceptions, as values. */
module Wrappers {

  /** A Java reference that may be null: `None` stands for `null`. */
  datatype Option<+T> = None | Some(value: T)

  /** The value of an expression that either completes or throws. */
  datatype Result<+T, +E> = Ok(value: T) | Err(error: E)
}

/** The exceptions the database manager can raise while it derives names or bootstraps its queue schema. */
module Faults {

  datatype Fault =
    | NullPointer                        // a method was called on a null string
    | VendorUndetermined                 // reading the product name of the connection failed
    | StatementRejected(sql: string)     // the database refused a schema or table statement
}
