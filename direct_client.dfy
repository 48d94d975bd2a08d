/** `DirectClient`: a client whose credentials come with every request, so it
    never redirects the browser. It owns the optional components a client is
    wired from; they stay undefined (Java `null`) until set. */
module DirectClients {
  import opened Wrappers
  import opened Exceptions
  import opened Context

  /** The components a client is built from, known here only by identity. */
  datatype CredentialsExtractor = BasicAuthExtractor | OtherExtractor(name: string)
  datatype Authenticator = Authenticator(name: string)
  datatype ProfileCreator = ProfileCreator(name: string)
  datatype Credentials = Credentials(name: string)
  datatype UserProfile = UserProfile(id: string)

  const CANNOT_REDIRECT_FOR_LOGIN: string := "Direct clients cannot redirect for login"
  const CANNOT_PROCESS_LOGOUT: string := "Direct clients cannot process logout"
  const CANNOT_REDIRECT_FOR_LOGOUT: string := "Direct clients cannot redirect for logout"

  /** Response headers after a direct client's `checkCredentials`: credentials
      that were found clear the authenticate header; none leave it alone. */
  function CheckedHeaders(headers: map<string, string>, credentials: Option<Credentials>): (r: map<string, string>)
    ensures credentials.Some? ==> OnlyHeaderSet(headers, r, AUTHENTICATE_HEADER) && r[AUTHENTICATE_HEADER] == ""
    ensures credentials.None? ==> r == headers
  {
    if credentials.Some? then headers[AUTHENTICATE_HEADER := ""] else headers
  }

  class DirectClient {
    var saveProfileInSession: Option<bool>
    var credentialsExtractor: Option<CredentialsExtractor>
    var authenticator: Option<Authenticator>
    var profileCreator: Option<ProfileCreator>

    /** A client with no component defined yet. */
    constructor ()
      ensures saveProfileInSession.None? && credentialsExtractor.None?
      ensures authenticator.None? && profileCreator.None?
    {
      saveProfileInSession := None;
      credentialsExtractor := None;
      authenticator := None;
      profileCreator := None;
    }

    /** All three components `afterInternalInit` insists on are defined. */
    predicate Wired()
      reads this
    {
      credentialsExtractor.Some? && authenticator.Some? && profileCreator.Some?
    }

    method SetCredentialsExtractorIfUndefined(e: CredentialsExtractor)
      modifies this`credentialsExtractor
      ensures credentialsExtractor == if old(credentialsExtractor).None? then Some(e) else old(credentialsExtractor)
    {
      if credentialsExtractor.None? {
        credentialsExtractor := Some(e);
      }
    }

    method SetAuthenticatorIfUndefined(a: Authenticator)
      modifies this`authenticator
      ensures authenticator == if old(authenticator).None? then Some(a) else old(authenticator)
    {
      if authenticator.None? {
        authenticator := Some(a);
      }
    }

    method SetProfileCreatorIfUndefined(p: ProfileCreator)
      modifies this`profileCreator
      ensures profileCreator == if old(profileCreator).None? then Some(p) else old(profileCreator)
    {
      if profileCreator.None? {
        profileCreator := Some(p);
      }
    }

    /** Direct clients do not keep the profile in the session unless told
        to: an unset flag becomes false, a set one is kept. */
    method BeforeInternalInit()
      modifies this`saveProfileInSession
      ensures old(saveProfileInSession).None? ==> saveProfileInSession == Some(false)
      ensures old(saveProfileInSession).Some? ==> saveProfileInSession == old(saveProfileInSession)
    {
      if saveProfileInSession.None? {
        saveProfileInSession := Some(false);
      }
    }

    /** Initialisation succeeds only when the credentials extractor, the
        authenticator and the profile creator are all defined; otherwise it
        fails naming the first missing one, in that order. */
    function AfterInternalInit(): (r: Outcome<ClientError>)
      reads this
      ensures r.Pass? <==> Wired()
      ensures credentialsExtractor.None? ==> r == Fail(ConfigError("credentialsExtractor"))
      ensures credentialsExtractor.Some? && authenticator.None? ==> r == Fail(ConfigError("authenticator"))
      ensures credentialsExtractor.Some? && authenticator.Some? && profileCreator.None? ==> r == Fail(ConfigError("profileCreator"))
    {
      if credentialsExtractor.None? then Fail(ConfigError("credentialsExtractor"))
      else if authenticator.None? then Fail(ConfigError("authenticator"))
      else if profileCreator.None? then Fail(ConfigError("profileCreator"))
      else Pass
    }

    /** A direct client never redirects for login. */
    function GetRedirectionAction(): (r: Result<Option<RedirectionAction>, ClientError>)
      ensures r.Failure? && r.error.Unsupported?
      ensures r.error.message == CANNOT_REDIRECT_FOR_LOGIN
    {
      Failure(Unsupported(CANNOT_REDIRECT_FOR_LOGIN))
    }

    /** A direct client never processes a logout, whatever the credentials. */
    function ProcessLogout(credentials: Option<Credentials>): (r: Result<HttpAction, ClientError>)
      ensures r.Failure? && r.error.Unsupported?
      ensures r.error.message == CANNOT_PROCESS_LOGOUT
    {
      Failure(Unsupported(CANNOT_PROCESS_LOGOUT))
    }

    /** A direct client never redirects for logout, for any profile and target. */
    function GetLogoutAction(currentProfile: UserProfile, targetUrl: string): (r: Result<Option<RedirectionAction>, ClientError>)
      ensures r.Failure? && r.error.Unsupported?
      ensures r.error.message == CANNOT_REDIRECT_FOR_LOGOUT
    {
      Failure(Unsupported(CANNOT_REDIRECT_FOR_LOGOUT))
    }

    /** Clears the authenticate header when credentials were extracted; with
        none, the response is left as it was. */
    method CheckCredentials(ctx: WebContext, credentials: Option<Credentials>)
      modifies ctx
      ensures ctx.responseHeaders == CheckedHeaders(old(ctx.responseHeaders), credentials)
    {
      if credentials.Some? {
        ctx.SetResponseHeader(AUTHENTICATE_HEADER, "");
      }
    }
  }

  /** `beforeInternalInit` run twice leaves what one run left. */
  method BeforeInternalInitIdempotent(c: DirectClient) returns (once: Option<bool>, twice: Option<bool>)
    modifies c
    ensures once.Some? && twice == once
  {
    c.BeforeInternalInit();
    once := c.saveProfileInSession;
    c.BeforeInternalInit();
    twice := c.saveProfileInSession;
  }
}
