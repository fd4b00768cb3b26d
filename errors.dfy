/** The configuration errors the tagged compiler pass raises
    (Symfony's InvalidConfigurationException), as values. */
module Errors {

  datatype Error =
    | NoSuchService(id: string)
    | MissingRequiredAttributes(serviceId: string, tagName: string)

  datatype Result<T> = Success(value: T) | Failure(error: Error)

  datatype Outcome = Pass | Fail(error: Error)

  /** The exception message the source builds for each error. */
  function Message(e: Error): string
  {
    match e
    case NoSuchService(id) => "No such service: " + id
    case MissingRequiredAttributes(serviceId, tagName) =>
      "Some required attributes are missing in service " + serviceId + " tag " + tagName + " definition"
  }
}
