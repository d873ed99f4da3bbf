/** Values standing in for what the XML library and the web framework hand to the editor views. */
module Outcomes {

  datatype Option<+T> = None | Some(value: T)

  /** What a view or helper of this layer gives back: a value, or the error it
      raises or reports. */
  datatype Result<+T, +E> = Success(value: T) | Failure(error: E)

  /** How a call into the XML library ended: with a value, with a failure to fetch a
      DTD over the network (urllib2's HTTPError or URLError), or with any other
      exception, whose message `str(e)` is kept. */
  datatype Outcome<+T> = Ok(value: T) | DtdFetchError(msg: string) | OtherError(msg: string)
  {
    /** The message `str(e)` of the exception, for an outcome that is one. */
    function Message(): string
      requires !Ok?
    {
      match this
      case DtdFetchError(m) => m
      case OtherError(m) => m
    }
  }

  /** A parsed DTD: element tag name to whether that element's class is a text element. */
  type Dtd = map<string, bool>

  /** Python truthiness of an optional string parameter: present and not empty. */
  predicate Truthy(p: Option<string>)
  {
    p.Some? && p.value != ""
  }
}
