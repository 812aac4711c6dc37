/** The exceptions the client raises, one constructor per kind of failure. */
module Errors {
  import opened Json

  datatype Error =
    /** ValueError from the constructor: no API key was given. */
    | MissingApiKey
    /** ValueError carrying the service's "Error Message" member verbatim. */
    | ApiErrorMessage(message: Json)
    /** ValueError for an empty answer ("no return message from the api url"). */
    | NoReturnMessage
    /** KeyError from an unguarded lookup of a key the answer lacks. */
    | KeyNotFound(key: string)
    /** ValueError from list.index: the value is not a moving-average name. */
    | NotInMathMap(value: string)
}
