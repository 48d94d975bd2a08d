/** `DirectBasicAuthClient`: a direct client reading HTTP basic-auth
    credentials and answering a missing login with a `Basic` challenge
    (RFC 7617, section 2). It extends `DirectClient`; here it holds the
    `DirectClient` state it inherits as `client`. */
module DirectBasicAuth {
  import opened Wrappers
  import opened Exceptions
  import opened Context
  import opened Text
  import opened DirectClients

  /** `Pac4jConstants.DEFAULT_REALM_NAME`. */
  const DEFAULT_REALM_NAME: string := "authentication required"

  /** The challenge `Basic realm="<realm>"`. */
  function Challenge(realmName: string): string {
    "Basic realm=\"" + realmName + "\""
  }

  /** Response headers after `checkCredentials`: the authenticate header is
      always written, with the challenge when no credentials were found and
      empty otherwise, and no other header changes. */
  function ChallengeHeaders(headers: map<string, string>, realmName: string, credentials: Option<Credentials>): (r: map<string, string>)
    ensures OnlyHeaderSet(headers, r, AUTHENTICATE_HEADER)
    ensures credentials.None? ==> r[AUTHENTICATE_HEADER] == "Basic realm=\"" + realmName + "\""
    ensures credentials.Some? ==> r[AUTHENTICATE_HEADER] == ""
  {
    headers[AUTHENTICATE_HEADER := if credentials.None? then Challenge(realmName) else ""]
  }

  class DirectBasicAuthClient {
    const client: DirectClient
    var realmName: string

    /** No component defined, the default realm. */
    constructor ()
      ensures fresh(client) && realmName == DEFAULT_REALM_NAME
      ensures client.saveProfileInSession.None? && client.credentialsExtractor.None?
      ensures client.authenticator.None? && client.profileCreator.None?
    {
      client := new DirectClient();
      realmName := DEFAULT_REALM_NAME;
    }

    /** Only the authenticator defined. */
    constructor WithAuthenticator(usernamePasswordAuthenticator: Authenticator)
      ensures fresh(client) && realmName == DEFAULT_REALM_NAME
      ensures client.authenticator == Some(usernamePasswordAuthenticator)
      ensures client.saveProfileInSession.None? && client.credentialsExtractor.None? && client.profileCreator.None?
    {
      var c := new DirectClient();
      c.SetAuthenticatorIfUndefined(usernamePasswordAuthenticator);
      client := c;
      realmName := DEFAULT_REALM_NAME;
    }

    /** The authenticator and the profile creator defined. */
    constructor WithAuthenticatorAndProfileCreator(usernamePasswordAuthenticator: Authenticator, profileCreator: ProfileCreator)
      ensures fresh(client) && realmName == DEFAULT_REALM_NAME
      ensures client.authenticator == Some(usernamePasswordAuthenticator)
      ensures client.profileCreator == Some(profileCreator)
      ensures client.saveProfileInSession.None? && client.credentialsExtractor.None?
    {
      var c := new DirectClient();
      c.SetAuthenticatorIfUndefined(usernamePasswordAuthenticator);
      c.SetProfileCreatorIfUndefined(profileCreator);
      client := c;
      realmName := DEFAULT_REALM_NAME;
    }

    /** Rejects a blank realm; otherwise installs the basic-auth extractor
        unless an extractor is already defined. */
    method InternalInit() returns (r: Outcome<ClientError>)
      modifies client`credentialsExtractor
      ensures r.Pass? <==> !IsBlank(realmName)
      ensures r.Fail? ==> r.error == ConfigError("realmName") && client.credentialsExtractor == old(client.credentialsExtractor)
      ensures r.Pass? && old(client.credentialsExtractor).None? ==> client.credentialsExtractor == Some(BasicAuthExtractor)
      ensures r.Pass? && old(client.credentialsExtractor).Some? ==> client.credentialsExtractor == old(client.credentialsExtractor)
    {
      if IsBlank(realmName) {
        return Fail(ConfigError("realmName"));
      }
      client.SetCredentialsExtractorIfUndefined(BasicAuthExtractor);
      r := Pass;
    }

    /** The initialisation stages in order: `beforeInternalInit`,
        `internalInit`, `afterInternalInit`. */
    method Init() returns (r: Outcome<ClientError>)
      modifies client`saveProfileInSession, client`credentialsExtractor
      ensures old(client.saveProfileInSession).None? ==> client.saveProfileInSession == Some(false)
      ensures old(client.saveProfileInSession).Some? ==> client.saveProfileInSession == old(client.saveProfileInSession)
      ensures r.Pass? <==> !IsBlank(realmName) && client.authenticator.Some? && client.profileCreator.Some?
      ensures IsBlank(realmName) ==> r == Fail(ConfigError("realmName")) && client.credentialsExtractor == old(client.credentialsExtractor)
      ensures !IsBlank(realmName) ==>
        client.credentialsExtractor == if old(client.credentialsExtractor).None? then Some(BasicAuthExtractor) else old(client.credentialsExtractor)
      ensures !IsBlank(realmName) && client.authenticator.None? ==> r == Fail(ConfigError("authenticator"))
      ensures !IsBlank(realmName) && client.authenticator.Some? && client.profileCreator.None? ==> r == Fail(ConfigError("profileCreator"))
      ensures r.Pass? ==> client.Wired()
    {
      client.BeforeInternalInit();
      r := InternalInit();
      if r.Fail? {
        return;
      }
      r := client.AfterInternalInit();
    }

    /** Writes the authenticate header: the `Basic` challenge when no
        credentials were found, the empty value when some were. */
    method CheckCredentials(ctx: WebContext, credentials: Option<Credentials>)
      modifies ctx
      ensures ctx.responseHeaders == ChallengeHeaders(old(ctx.responseHeaders), realmName, credentials)
    {
      if credentials.None? {
        ctx.SetResponseHeader(AUTHENTICATE_HEADER, Challenge(realmName));
      } else {
        ctx.SetResponseHeader(AUTHENTICATE_HEADER, "");
      }
    }
  }

  /** The default realm is not blank, so a fresh client passes `internalInit`. */
  lemma DefaultRealmNotBlank()
    ensures !IsBlank(DEFAULT_REALM_NAME)
  {
    assert !IsTrimmable(DEFAULT_REALM_NAME[0]);
  }

  /** A client built with an authenticator and a profile creator initialises,
      and ends up with the basic-auth extractor. */
  method InitWithBothComponents(a: Authenticator, p: ProfileCreator)
    returns (r: Outcome<ClientError>, extractor: Option<CredentialsExtractor>)
    ensures r.Pass? && extractor == Some(BasicAuthExtractor)
  {
    var c := new DirectBasicAuthClient.WithAuthenticatorAndProfileCreator(a, p);
    DefaultRealmNotBlank();
    r := c.Init();
    extractor := c.client.credentialsExtractor;
  }

  /** A client built with an authenticator only fails afterwards, for want of
      a profile creator: a consequence of taking the profile creator a new
      client starts with to be undefined. */
  method InitWithAuthenticatorOnly(a: Authenticator) returns (r: Outcome<ClientError>)
    ensures r == Fail(ConfigError("profileCreator"))
  {
    var c := new DirectBasicAuthClient.WithAuthenticator(a);
    DefaultRealmNotBlank();
    r := c.Init();
  }
}
