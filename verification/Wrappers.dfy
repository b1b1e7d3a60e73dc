// Option and Result, and the errors a store call can return.
module Wrappers {

  datatype Option<+T> = None | Some(value: T)

  // NotFound is the only error the services test for; the others only have to be told apart from it.
  datatype Error =
    | NotFound      // the query matched no row
    | NotSingular   // the query matched several rows
    | Invalid       // a field validator refused the value
    | Duplicate     // a unique index refused the row
    | Dangling      // a foreign key or an update named a missing row
    | Fault         // the call failed for a reason outside the model

  datatype Result<+T> = Ok(value: T) | Err(error: Error)
}
