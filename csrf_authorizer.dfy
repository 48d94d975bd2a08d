/** `CsrfAuthorizer`: a request is let through when it carries, as a request
    parameter or header, the CSRF token stored in the session (or the token
    it replaced), and the stored expiration date has not passed. Methods that
    change state are always checked; others only when `checkAllRequests`. */
module CsrfAuthorization {
  import opened Wrappers
  import opened Context

  /** The session keys and the default parameter and header name. */
  const CSRF_TOKEN: string := "pac4jCsrfToken"
  const PREVIOUS_CSRF_TOKEN: string := "pac4jPreviousCsrfToken"
  const CSRF_TOKEN_EXPIRATION_DATE: string := "pac4jCsrfTokenExpirationDate"

  datatype HttpMethod = GET | POST | PUT | PATCH | DELETE | HEAD | OPTIONS | TRACE

  /** What the authorizer reads of a request. */
  datatype Request = Request(verb: HttpMethod, parameters: map<string, string>, headers: map<string, string>)

  /** A request with the HTTP method `verb` and no parameters or headers. */
  function EmptyRequest(verb: HttpMethod): (r: Request)
    ensures r.verb == verb && |r.parameters| == 0 && |r.headers| == 0
  {
    Request(verb, map[], map[])
  }

  /** The session attribute at `key` when it is a string. */
  function StringAttribute(attributes: map<string, SessionValue>, key: string): Option<string> {
    if key in attributes && attributes[key].StringValue? then Some(attributes[key].s) else None
  }

  /** The session attribute at `key` when it is a date (milliseconds). */
  function DateAttribute(attributes: map<string, SessionValue>, key: string): Option<int> {
    if key in attributes && attributes[key].LongValue? then Some(attributes[key].n) else None
  }

  class CsrfAuthorizer {
    var parameterName: string
    var headerName: string
    var checkAllRequests: bool

    constructor ()
      ensures parameterName == CSRF_TOKEN && headerName == CSRF_TOKEN && !checkAllRequests
    {
      parameterName := CSRF_TOKEN;
      headerName := CSRF_TOKEN;
      checkAllRequests := false;
    }

    /** Requests the authorizer inspects. */
    predicate MustCheck(verb: HttpMethod)
      reads this
    {
      checkAllRequests || verb in {POST, PUT, PATCH, DELETE}
    }

    /** The request presents `token`, as the configured parameter or header. */
    predicate Presents(request: Request, token: string)
      reads this
    {
      (parameterName in request.parameters && request.parameters[parameterName] == token)
      || (headerName in request.headers && request.headers[headerName] == token)
    }

    /** The decision: an unchecked request passes; a checked one needs the
        session to hold a token and an expiration date not before `now`, and
        the request to present that token or the previous one. */
    predicate Authorized(request: Request, attributes: map<string, SessionValue>, now: int)
      reads this
    {
      var token := StringAttribute(attributes, CSRF_TOKEN);
      var previous := StringAttribute(attributes, PREVIOUS_CSRF_TOKEN);
      var expiration := DateAttribute(attributes, CSRF_TOKEN_EXPIRATION_DATE);
      !MustCheck(request.verb)
      || (&& token.Some? && expiration.Some?
          && now <= expiration.value
          && (Presents(request, token.value) || (previous.Some? && Presents(request, previous.value))))
    }

    /** The session after a check: a checked request uses up the previous
        token; nothing else changes. */
    function SessionAfter(request: Request, attributes: map<string, SessionValue>): map<string, SessionValue>
      reads this
    {
      if MustCheck(request.verb) then attributes - {PREVIOUS_CSRF_TOKEN} else attributes
    }

    /** `isAuthorized`, with the clock reading `now` passed in. */
    method IsAuthorized(request: Request, session: SessionStore, now: int) returns (authorized: bool)
      modifies session
      ensures authorized == Authorized(request, old(session.attributes), now)
      ensures session.attributes == SessionAfter(request, old(session.attributes))
    {
      var checkRequest := checkAllRequests || request.verb == POST || request.verb == PUT
        || request.verb == PATCH || request.verb == DELETE;
      if !checkRequest {
        return true;
      }
      var parameterToken := if parameterName in request.parameters then Some(request.parameters[parameterName]) else None;
      var headerToken := if headerName in request.headers then Some(request.headers[headerName]) else None;
      var sessionPreviousToken := StringAttribute(session.attributes, PREVIOUS_CSRF_TOKEN);
      var sessionToken := StringAttribute(session.attributes, CSRF_TOKEN);
      var sessionDate := DateAttribute(session.attributes, CSRF_TOKEN_EXPIRATION_DATE);
      session.Remove(PREVIOUS_CSRF_TOKEN);
      var hasSessionData := sessionToken.Some? && sessionDate.Some?;
      var isGoodCurrentToken := sessionToken.Some? && (parameterToken == sessionToken || headerToken == sessionToken);
      var isGoodPreviousToken := sessionPreviousToken.Some?
        && (parameterToken == sessionPreviousToken || headerToken == sessionPreviousToken);
      var isDateExpired := sessionDate.Some? && sessionDate.value < now;
      authorized := hasSessionData && (isGoodCurrentToken || isGoodPreviousToken) && !isDateExpired;
    }
  }

  /** A session holding `token` and the expiration date `expiration`. */
  function TokenSession(token: string, expiration: int): map<string, SessionValue> {
    map[CSRF_TOKEN := StringValue(token), CSRF_TOKEN_EXPIRATION_DATE := LongValue(expiration)]
  }

  /** On a checked request, the session token presented as the parameter
      (under whatever name is configured), before the expiration date, is
      accepted. */
  lemma ParameterTokenAccepted(a: CsrfAuthorizer, verb: HttpMethod, token: string, expiration: int, now: int)
    requires a.MustCheck(verb) && now <= expiration
    ensures a.Authorized(Request(verb, map[a.parameterName := token], map[]), TokenSession(token, expiration), now)
  {
  }

  /** The same through the header, under whatever name is configured. */
  lemma HeaderTokenAccepted(a: CsrfAuthorizer, verb: HttpMethod, token: string, expiration: int, now: int)
    requires a.MustCheck(verb) && now <= expiration
    ensures a.Authorized(Request(verb, map[], map[a.headerName := token]), TokenSession(token, expiration), now)
  {
  }

  /** The previous token is accepted once, and no longer sits in the session
      afterwards. */
  lemma PreviousTokenAcceptedOnce(a: CsrfAuthorizer, previous: string, token: string, expiration: int, now: int)
    requires a.checkAllRequests && now <= expiration
    ensures
      var attributes := TokenSession(token, expiration)[PREVIOUS_CSRF_TOKEN := StringValue(previous)];
      var request := Request(GET, map[a.parameterName := previous], map[]);
      && a.Authorized(request, attributes, now)
      && PREVIOUS_CSRF_TOKEN !in a.SessionAfter(request, attributes)
  {
  }

  /** A checked request is refused when the session holds no expiration date. */
  lemma NoExpirationDateRefused(a: CsrfAuthorizer, request: Request, token: string, now: int)
    requires a.MustCheck(request.verb)
    ensures !a.Authorized(request, map[CSRF_TOKEN := StringValue(token)], now)
  {
  }

  /** A checked request is refused once the expiration date has passed,
      whatever token it presents. */
  lemma ExpiredTokenRefused(a: CsrfAuthorizer, request: Request, attributes: map<string, SessionValue>, now: int)
    requires a.MustCheck(request.verb)
    requires DateAttribute(attributes, CSRF_TOKEN_EXPIRATION_DATE).Some?
    requires DateAttribute(attributes, CSRF_TOKEN_EXPIRATION_DATE).value < now
    ensures !a.Authorized(request, attributes, now)
  {
  }

  /** With `checkAllRequests`, a request presenting no token is refused, for
      every method. */
  lemma NoTokenRefused(a: CsrfAuthorizer, verb: HttpMethod, attributes: map<string, SessionValue>, now: int)
    requires a.checkAllRequests
    ensures !a.Authorized(EmptyRequest(verb), attributes, now)
  {
  }

  /** POST, PUT, PATCH and DELETE are checked even without `checkAllRequests`. */
  lemma StateChangingMethodsChecked(a: CsrfAuthorizer, verb: HttpMethod, attributes: map<string, SessionValue>, now: int)
    requires verb in {POST, PUT, PATCH, DELETE}
    ensures !a.Authorized(EmptyRequest(verb), attributes, now)
  {
  }

  /** Without `checkAllRequests`, a plain GET passes untouched. */
  lemma UncheckedGetPasses(a: CsrfAuthorizer, request: Request, attributes: map<string, SessionValue>, now: int)
    requires !a.checkAllRequests && request.verb == GET
    ensures a.Authorized(request, attributes, now)
    ensures a.SessionAfter(request, attributes) == attributes
  {
  }

  /** A checked request is refused when the session holds no token. */
  lemma NoSessionTokenRefused(a: CsrfAuthorizer, request: Request, attributes: map<string, SessionValue>, now: int)
    requires a.MustCheck(request.verb) && CSRF_TOKEN !in attributes
    ensures !a.Authorized(request, attributes, now)
  {
  }

  /** The previous-token scenario run through the method: the request is let
      through and the session loses the previous token. */
  method PreviousTokenScenario(value: string, key: string, expiration: int, now: int)
    returns (authorized: bool, previousKept: bool)
    requires now <= expiration
    ensures authorized && !previousKept
  {
    var authorizer := new CsrfAuthorizer();
    authorizer.checkAllRequests := true;
    var session := new SessionStore(TokenSession(key, expiration));
    session.Set(PREVIOUS_CSRF_TOKEN, StringValue(value));
    authorized := authorizer.IsAuthorized(Request(GET, map[CSRF_TOKEN := value], map[]), session, now);
    previousKept := session.Get(PREVIOUS_CSRF_TOKEN).Some?;
  }
}
