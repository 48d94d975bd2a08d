/** The outcomes a client hands back to the framework: the actions it asks
    the browser to follow, and the failures Java raises as exceptions. */
module Exceptions {

  /** `UnsupportedOperationException` (with its message) and
      `TechnicalException` for a misconfigured component or setting (with
      the name of that component or setting). */
  datatype ClientError = Unsupported(message: string) | ConfigError(name: string)

  /** `RedirectionAction`: an auto-submitting HTML form posting `data` to
      `url`, or an HTTP 302 to `location`. */
  datatype RedirectionAction =
    | AutomaticFormPost(url: string, data: map<string, string>)
    | Found(location: string)

  /** `HttpAction`: a redirection, or a response with a status code. */
  datatype HttpAction = Redirection(action: RedirectionAction) | Status(code: int)
}
