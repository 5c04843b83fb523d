// Result and option types shared by every component of the model.
module Wrappers {
  datatype Option<+T> = None | Some(value: T)

  // The exceptions of the modelled code, by the class that is raised.
  datatype Error = Conflict | Denied | Invalid

  datatype Result<+T> = Ok(value: T) | Err(error: Error)
}
