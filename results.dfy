/**
 * Option and Result wrappers, and the Python exceptions the theme library
 * raises, as values.
 */
module Results {

  datatype Option<+T> = None | Some(value: T)

  /** The exception a Python call ends with, by class and (where fixed) message. */
  datatype Error =
    | ValueError(message: string)
    /** a ValueError raised inside datetime.strptime or the datetime constructor */
    | DateValueError
    | RuntimeError(message: string)
    | FileNotFoundError(path: string)
    /** jinja2.TemplateNotFound */
    | TemplateNotFound(name: string)
    | AttributeError(name: string)

  datatype Result<+T> = Ok(value: T) | Err(error: Error)
}
