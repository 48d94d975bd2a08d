# pac4j core: direct clients, basic auth, CSRF, profile definitions, SAML 2.0 POST

This project models part of pac4j, a Java security engine for web
applications, and proves properties of the model.

- **Direct clients.** `DirectClient` never redirects the browser. It refuses
  login redirection, logout processing and logout redirection. Its
  `afterInternalInit` insists that the credentials extractor, the
  authenticator and the profile creator are all defined. Its
  `checkCredentials` clears the `WWW-Authenticate` header once credentials
  were found.
- **HTTP basic auth.** `DirectBasicAuthClient` extends `DirectClient`. It
  rejects a blank realm, installs a `BasicAuthExtractor` unless an extractor
  is already defined, and answers a missing login with the
  `Basic realm="…"` challenge (section 2 of RFC 7617). The model holds the
  inherited `DirectClient` state as a field `client`.
- **CSRF authorizer.** `CsrfAuthorizer.isAuthorized` inspects POST, PUT,
  PATCH and DELETE requests, or every request when `checkAllRequests` is set.
  A checked request needs three things:
  - the session holds a token and an expiration date;
  - the date has not passed;
  - the request presents the session token, or the previous token, as the
    configured parameter or header.

  Every checked request uses up the previous token. The method is a `method`
  over a mutable `SessionStore`, proved against the predicate `Authorized`
  and the function `SessionAfter`.
- **Profile definitions.** `ProfileDefinition.newProfile` builds a profile of
  the default kind. The exception is when restoring from typed ids is on and
  the text before the `#` names a profile class; then it builds that class.
- **SAML 2.0 POST binding.** `SAML2Client.getRedirectionAction` works in four
  steps:
  - it validates the configuration;
  - it builds an `AuthnRequest` (issuer with the entity format and the
    optional `NameQualifier`, optional `ForceAuthn`, optional requested
    authentication context with a comparison type);
  - it serialises the request as XML and encodes it for the POST binding
    (section 3.5.4 of the OASIS SAML V2.0 Bindings specification: base64 of
    the UTF-8 octets);
  - it returns an auto-submitting form to the identity provider, with the
    session's relay state when there is one.

  Base64 (section 4 of RFC 4648) and UTF-8 (RFC 3629) are modelled with
  their decoders, and round trips are proved. So the claim "the decoded
  `SAMLRequest` field is the serialised request" is a theorem.

Java `null` is modelled as `Option`. Exceptions become `Result`/`Outcome`
values carrying a `ClientError`: `UnsupportedOperationException` is
`Unsupported(message)`, and a `TechnicalException` about a component or
setting is `ConfigError(name)`. Clocks and random identifiers are parameters
(`now`, `requestId`, `issueInstant`).

Modules and files:

| file | module | models |
|---|---|---|
| wrappers.dfy | `Wrappers` | `Option`, `Result`, `Outcome` |
| bytes.dfy | `Bytes` | octets |
| text.dfy | `Text` | `isBlank`, `indexOf`, `contains`, XML escaping |
| base64.dfy | `Base64` | RFC 4648 base64 with padding |
| utf8.dfy | `Utf8` | UTF-8 encoder and strict decoder |
| exceptions.dfy | `Exceptions` | client errors, redirection actions |
| context.dfy | `Context` | response headers (`WebContext`), session store |
| direct_client.dfy | `DirectClients` | `DirectClient` |
| direct_basic_auth_client.dfy | `DirectBasicAuth` | `DirectBasicAuthClient` |
| csrf_authorizer.dfy | `CsrfAuthorization` | `CsrfAuthorizer` |
| profile_definition.dfy | `ProfileDefinitions` | `ProfileDefinition`, `CommonProfileDefinition` |
| saml2_client.dfy | `Saml2Post` | `SAML2Configuration`, `SAML2Client` over the POST binding |

## Model

| member | source | states |
|---|---|---|
| DirectClients.DirectClient.BeforeInternalInit | pac4j-core/src/main/java/org/pac4j/core/client/DirectClient.java:27-31 | An unset `saveProfileInSession` becomes false; a set one is kept. |
| DirectClients.BeforeInternalInitIdempotent | pac4j-core/src/main/java/org/pac4j/core/client/DirectClient.java:27-31 | Running `beforeInternalInit` twice leaves what one run left, and the flag is then defined. |
| DirectClients.DirectClient.AfterInternalInit | pac4j-core/src/main/java/org/pac4j/core/client/DirectClient.java:35-40 | Passes if and only if all three components are defined. Otherwise it fails naming the first missing one, checked in the order credentials extractor, authenticator, profile creator. |
| DirectClients.DirectClient.GetRedirectionAction | pac4j-core/src/main/java/org/pac4j/core/client/DirectClient.java:44-46 | Always an unsupported-operation error with the message "Direct clients cannot redirect for login". |
| DirectClients.DirectClient.ProcessLogout | pac4j-core/src/main/java/org/pac4j/core/client/DirectClient.java:50-52 | Always an unsupported-operation error, for any credentials, with the message "Direct clients cannot process logout". |
| DirectClients.DirectClient.GetLogoutAction | pac4j-core/src/main/java/org/pac4j/core/client/DirectClient.java:56-59 | Always an unsupported-operation error, for any profile and target, with the message "Direct clients cannot redirect for logout". |
| DirectClients.CheckedHeaders | pac4j-core/src/main/java/org/pac4j/core/client/DirectClient.java:63-67 | With credentials, only the authenticate header is written, and it is empty. Without credentials, the headers are unchanged. |
| DirectClients.DirectClient.CheckCredentials | pac4j-core/src/main/java/org/pac4j/core/client/DirectClient.java:63-67 | The response headers become `CheckedHeaders` of the old headers. |
| DirectClients.DirectClient.SetCredentialsExtractorIfUndefined | pac4j-http/src/main/java/org/pac4j/http/client/direct/DirectBasicAuthClient.java:65 | Sets the extractor only when it is undefined; a defined one is kept. |
| DirectClients.DirectClient.SetAuthenticatorIfUndefined | pac4j-http/src/main/java/org/pac4j/http/client/direct/DirectBasicAuthClient.java:45 | Sets the authenticator only when it is undefined. |
| DirectClients.DirectClient.SetProfileCreatorIfUndefined | pac4j-http/src/main/java/org/pac4j/http/client/direct/DirectBasicAuthClient.java:57 | Sets the profile creator only when it is undefined. |
| Context.WebContext.SetResponseHeader | pac4j-core/src/main/java/org/pac4j/core/client/DirectClient.java:66 | Writes exactly one header; every other header is unchanged. |
| DirectBasicAuth.DirectBasicAuthClient.constructor | pac4j-http/src/main/java/org/pac4j/http/client/direct/DirectBasicAuthClient.java:31-37 | Default realm "authentication required", and no component defined. |
| DirectBasicAuth.DirectBasicAuthClient.WithAuthenticator | pac4j-http/src/main/java/org/pac4j/http/client/direct/DirectBasicAuthClient.java:44-46 | Only the given authenticator is defined. |
| DirectBasicAuth.DirectBasicAuthClient.WithAuthenticatorAndProfileCreator | pac4j-http/src/main/java/org/pac4j/http/client/direct/DirectBasicAuthClient.java:54-58 | Only the given authenticator and profile creator are defined. |
| DirectBasicAuth.DefaultRealmNotBlank | pac4j-http/src/main/java/org/pac4j/http/client/direct/DirectBasicAuthClient.java:31 | The default realm passes the realm check. |
| DirectBasicAuth.DirectBasicAuthClient.InternalInit | pac4j-http/src/main/java/org/pac4j/http/client/direct/DirectBasicAuthClient.java:62-66 | Passes if and only if the realm is not blank. On failure the error is `ConfigError("realmName")` and the extractor is untouched. On success the basic-auth extractor is installed only if none was defined. |
| DirectBasicAuth.DirectBasicAuthClient.Init | pac4j-http/src/main/java/org/pac4j/http/client/direct/DirectBasicAuthClient.java:62-66 | Runs before-, internal- and after-initialisation in order. An unset `saveProfileInSession` becomes false and a set one is kept. A blank realm fails with `ConfigError("realmName")` and leaves the extractor untouched. It passes if and only if the realm is not blank and the authenticator and profile creator are defined, and a pass implies all three components are wired. Each failure names its cause. |
| DirectBasicAuth.InitWithBothComponents | pac4j-http/src/main/java/org/pac4j/http/client/direct/DirectBasicAuthClient.java:54-66 | A client built with an authenticator and a profile creator initialises and ends with the basic-auth extractor. |
| DirectBasicAuth.InitWithAuthenticatorOnly | pac4j-http/src/main/java/org/pac4j/http/client/direct/DirectBasicAuthClient.java:44-46 | Given that a new client starts with no profile creator (an assumption, see "## Left out"), a client built with an authenticator only fails initialisation for want of one. |
| DirectBasicAuth.ChallengeHeaders | pac4j-http/src/main/java/org/pac4j/http/client/direct/DirectBasicAuthClient.java:70-80 | Only the authenticate header is written: `Basic realm="<realm>"` without credentials, empty with them. |
| DirectBasicAuth.DirectBasicAuthClient.CheckCredentials | pac4j-http/src/main/java/org/pac4j/http/client/direct/DirectBasicAuthClient.java:70-80 | The response headers become `ChallengeHeaders` of the old headers. |
| CsrfAuthorization.CsrfAuthorizer.constructor | pac4j-core/src/test/java/org/pac4j/core/authorization/authorizer/CsrfAuthorizerTests.java:30-35 | The parameter and header names are both `pac4jCsrfToken`, and `checkAllRequests` is off. |
| CsrfAuthorization.CsrfAuthorizer.IsAuthorized | pac4j-core/src/test/java/org/pac4j/core/authorization/authorizer/CsrfAuthorizerTests.java:37-146 | The answer is `Authorized` of the request and the old session. The new session is `SessionAfter`: the previous token is removed on a checked request, and nothing else changes. |
| CsrfAuthorization.ParameterTokenAccepted | pac4j-core/src/test/java/org/pac4j/core/authorization/authorizer/CsrfAuthorizerTests.java:37-44 | On a checked request (any method, when checking applies), the session token presented as the configured parameter, before expiry, is accepted. |
| CsrfAuthorization.PreviousTokenAcceptedOnce | pac4j-core/src/test/java/org/pac4j/core/authorization/authorizer/CsrfAuthorizerTests.java:46-55 | The previous token is accepted, and it is gone from the session afterwards. |
| CsrfAuthorization.PreviousTokenScenario | pac4j-core/src/test/java/org/pac4j/core/authorization/authorizer/CsrfAuthorizerTests.java:46-55 | Run through the method on a real session store: authorised, and the previous token is no longer in the session. |
| CsrfAuthorization.NoExpirationDateRefused | pac4j-core/src/test/java/org/pac4j/core/authorization/authorizer/CsrfAuthorizerTests.java:57-63 | A checked request is refused when the session has no expiration date. |
| CsrfAuthorization.ExpiredTokenRefused | pac4j-core/src/test/java/org/pac4j/core/authorization/authorizer/CsrfAuthorizerTests.java:65-73 | A checked request is refused once the date has passed, whatever it presents. |
| CsrfAuthorization.HeaderTokenAccepted | pac4j-core/src/test/java/org/pac4j/core/authorization/authorizer/CsrfAuthorizerTests.java:75-102 | On a checked request, the session token presented as the configured header, under any configured name, is accepted. |
| CsrfAuthorization.NoTokenRefused | pac4j-core/src/test/java/org/pac4j/core/authorization/authorizer/CsrfAuthorizerTests.java:104-111 | With `checkAllRequests`, a request presenting no token is refused, for every method. |
| CsrfAuthorization.UncheckedGetPasses | pac4j-core/src/test/java/org/pac4j/core/authorization/authorizer/CsrfAuthorizerTests.java:113-121 | Without `checkAllRequests`, a GET is authorised and the session is unchanged. |
| CsrfAuthorization.StateChangingMethodsChecked | pac4j-core/src/test/java/org/pac4j/core/authorization/authorizer/CsrfAuthorizerTests.java:123-138 | POST, PUT, PATCH and DELETE without a token are refused, even without `checkAllRequests`. |
| CsrfAuthorization.NoSessionTokenRefused | pac4j-core/src/test/java/org/pac4j/core/authorization/authorizer/CsrfAuthorizerTests.java:140-146 | A checked request is refused when the session holds no token. |
| ProfileDefinitions.CommonProfileDefinition | pac4j-core/src/test/java/org/pac4j/core/profile/definition/CommonProfileDefinitionTest.java:20 | Restoring is off and the default kind is `CommonProfile`. |
| ProfileDefinitions.ProfileClassNamed | pac4j-core/src/test/java/org/pac4j/core/profile/definition/CommonProfileDefinitionTest.java:29 | A name denotes a profile class exactly when the registry holds it as one, and then denotes that class. |
| ProfileDefinitions.DesignatedKind | pac4j-core/src/test/java/org/pac4j/core/profile/definition/CommonProfileDefinitionTest.java:26-48 | No separator means no class is designated. For every split of the id as `<name>#<rest>` with no `#` in `<name>`, the designated class is the profile class `<name>` names, if any. |
| ProfileDefinitions.NewProfile | pac4j-core/src/test/java/org/pac4j/core/profile/definition/CommonProfileDefinitionTest.java:19-48 | With restoring off, without an id, or with an id lacking `#`: the default kind. With restoring on and an id `<name>#<rest>` (no `#` in `<name>`): the profile class `<name>` names, or the default kind when it names none. Never an error. |
| ProfileDefinitions.NewProfileIsCommon | pac4j-core/src/test/java/org/pac4j/core/profile/definition/CommonProfileDefinitionTest.java:19-23 | `newProfile()` of a fresh `CommonProfileDefinition` is a `CommonProfile`. |
| ProfileDefinitions.RestoreNamedProfile | pac4j-core/src/test/java/org/pac4j/core/profile/definition/CommonProfileDefinitionTest.java:26-32 | For every registered profile class name and any suffix, `name#suffix` restores that class. |
| ProfileDefinitions.RestoreBasicUserProfile | pac4j-core/src/test/java/org/pac4j/core/profile/definition/CommonProfileDefinitionTest.java:26-32 | `org.pac4j.core.profile.BasicUserProfile#` gives a `BasicUserProfile` that is not a `CommonProfile`. |
| ProfileDefinitions.RestoreWithoutSeparator | pac4j-core/src/test/java/org/pac4j/core/profile/definition/CommonProfileDefinitionTest.java:35-40 | An id without `#` gives the default kind. |
| ProfileDefinitions.RestoreNonProfileClass | pac4j-core/src/test/java/org/pac4j/core/profile/definition/CommonProfileDefinitionTest.java:43-48 | A name that is not a profile class (or no known class) before `#` gives the default kind. |
| ProfileDefinitions.RestoreStringClass | pac4j-core/src/test/java/org/pac4j/core/profile/definition/CommonProfileDefinitionTest.java:43-48 | `java.lang.String#` gives a `CommonProfile`. |
| Base64.DecodeEncode | pac4j-saml/src/test/java/org/pac4j/saml/client/PostSAML2ClientTests.java:136-139 | Decoding an encoding gives back the octets. |
| Base64.EncodeInjective | pac4j-saml/src/test/java/org/pac4j/saml/client/PostSAML2ClientTests.java:136-139 | Distinct octet strings have distinct encodings. |
| Base64.EncodeAlphabet | pac4j-saml/src/test/java/org/pac4j/saml/client/PostSAML2ClientTests.java:136-139 | An encoding uses only alphabet characters and the pad. |
| Base64.Decode | pac4j-saml/src/test/java/org/pac4j/saml/client/PostSAML2ClientTests.java:138 | Text decodes only if its length is a multiple of four. |
| Utf8.DecodeEncode | pac4j-saml/src/test/java/org/pac4j/saml/client/PostSAML2ClientTests.java:138 | Strict UTF-8 decoding of an encoding gives back the string. |
| Utf8.EncodeChar | pac4j-saml/src/test/java/org/pac4j/saml/client/PostSAML2ClientTests.java:138 | One to four octets. The lead octet is ASCII exactly when it stands alone, and the rest are continuation octets. |
| Utf8.EncodeAscii | pac4j-saml/src/test/java/org/pac4j/saml/client/PostSAML2ClientTests.java:138 | ASCII text encodes to one octet per character. |
| Saml2Post.ParseComparison | pac4j-saml/src/test/java/org/pac4j/saml/client/PostSAML2ClientTests.java:93 | A name parses only to the type whose attribute value it is; a name of no type is rejected. |
| Saml2Post.ParseComparisonName | pac4j-saml/src/test/java/org/pac4j/saml/client/PostSAML2ClientTests.java:93 | Each type's name parses back to that type. |
| Saml2Post.SAML2Configuration.constructor | pac4j-saml/src/test/java/org/pac4j/saml/client/PostSAML2ClientTests.java:131-134 | Sets the entity id; POST binding; name qualifier, force-auth, signing and comparison type off. |
| Saml2Post.SAML2Client.Comparison | pac4j-saml/src/test/java/org/pac4j/saml/client/PostSAML2ClientTests.java:91-97 | No comparison type configured: none requested. A known name: its type. Any other name: `ConfigError("comparisonType")`. |
| Saml2Post.SAML2Client.Validate | pac4j-saml/src/test/java/org/pac4j/saml/client/PostSAML2ClientTests.java:115-124 | Succeeds if and only if the configuration is `Accepted`; a blank entity id is `ConfigError("serviceProviderEntityId")`; the Redirect binding, and only it, gives an unsupported error. |
| Saml2Post.SAML2Client.GetRedirectionAction | pac4j-saml/src/test/java/org/pac4j/saml/client/PostSAML2ClientTests.java:105-112 | Succeeds if and only if the configuration is accepted, otherwise returns `Validate`'s error. On success: a form post to the identity provider's SSO URL with exactly the `FormData` fields, whose `SAMLRequest` is exactly `PostPayload` (base64 of the UTF-8 octets) of the serialised request the configuration describes, and decodes back to it. |
| Saml2Post.PostEncode | pac4j-saml/src/test/java/org/pac4j/saml/client/PostSAML2ClientTests.java:136-139 | A form to the given URL whose fields are exactly `FormData` of `PostPayload(xml)` and the relay state, out of which base64 then UTF-8 decoding gives back the document. |
| Saml2Post.PostPayload | pac4j-saml/src/test/java/org/pac4j/saml/client/PostSAML2ClientTests.java:136-139 | The `SAMLRequest` value is base64 text, a multiple of four characters long (see `PostPayloadDecodes` for its inverse). |
| Saml2Post.DecodedAuthnRequest | pac4j-saml/src/test/java/org/pac4j/saml/client/PostSAML2ClientTests.java:136-139 | Reading the request back succeeds only on a form post with a `SAMLRequest` field that is valid padded base64. |
| Saml2Post.PostPayloadDecodes | pac4j-saml/src/test/java/org/pac4j/saml/client/PostSAML2ClientTests.java:136-139 | The `SAMLRequest` value decodes, base64 then UTF-8, to the document. |
| Saml2Post.FormData | pac4j-saml/src/test/java/org/pac4j/saml/client/PostSAML2ClientTests.java:110-112 | The fields: `SAMLRequest` always; `RelayState` exactly when there is a relay state; two fields then. |
| Saml2Post.RelayStateIn | pac4j-saml/src/test/java/org/pac4j/saml/client/PostSAML2ClientTests.java:104 | The relay state is present exactly when the session holds a string under `samlRelayState`, and is that string. |
| Saml2Post.SAML2Client.BuildAuthnRequest | pac4j-saml/src/test/java/org/pac4j/saml/client/PostSAML2ClientTests.java:33-97 | The request carries the given id and instant, the SSO URL as destination, the callback URL as consumer URL, the entity id as issuer with the entity format, a `NameQualifier` (equal to the entity id) exactly when the name qualifier is on, `ForceAuthn` true exactly when force-auth is on and the given comparison. |
| Saml2Post.SerializeFraming | pac4j-saml/src/test/java/org/pac4j/saml/client/PostSAML2ClientTests.java:63 | The document starts with the `AuthnRequest` start tag and ends with its end tag. |
| Saml2Post.SerializeHasAttributes | pac4j-saml/src/test/java/org/pac4j/saml/client/PostSAML2ClientTests.java:87 | The document contains the start tag's attribute list. |
| Saml2Post.AttributeValueDelimited | pac4j-saml/src/test/java/org/pac4j/saml/client/PostSAML2ClientTests.java:59-62 | An escaped attribute value contains no `"`, so the first quote after the opening one closes it. |
| Saml2Post.ForceAuthnOmittedAttributes | pac4j-saml/src/test/java/org/pac4j/saml/client/PostSAML2ClientTests.java:82-88 | Without forced authentication the attribute list is exactly the six other attributes. |
| Saml2Post.NoForceAuthnUnlessRequested | pac4j-saml/src/test/java/org/pac4j/saml/client/PostSAML2ClientTests.java:82-88 | With force-auth off, the request the client builds has no `ForceAuthn` attribute: its attribute list is exactly the six others. |
| Saml2Post.ForceAuthnTextInValue | pac4j-saml/src/test/java/org/pac4j/saml/client/PostSAML2ClientTests.java:87 | The text `ForceAuthn="` can occur inside another attribute's value, so absence of the attribute is stated on the attribute list, not as a substring. |
| Saml2Post.SerializeHasIssuer | pac4j-saml/src/test/java/org/pac4j/saml/client/PostSAML2ClientTests.java:59-64 | The serialised request contains its issuer element. |
| Saml2Post.EntityIssuerXml | pac4j-saml/src/test/java/org/pac4j/saml/client/PostSAML2ClientTests.java:59-62 | For an entity id without markup characters (such as `http://localhost:8080/cb`), the issuer element reads exactly as the test's expected text, with or without `NameQualifier`. |
| Saml2Post.QualifiedIssuer | pac4j-saml/src/test/java/org/pac4j/saml/client/PostSAML2ClientTests.java:33-64 | With the name qualifier on, the request contains the issuer with the entity format and `NameQualifier` equal to the entity id. |
| Saml2Post.UnqualifiedIssuer | pac4j-saml/src/test/java/org/pac4j/saml/client/PostSAML2ClientTests.java:68-78 | With it off, the request contains the issuer with the entity format and no `NameQualifier`. |
| Saml2Post.CustomEntityIdScenario | pac4j-saml/src/test/java/org/pac4j/saml/client/PostSAML2ClientTests.java:33-64 | Through `GetRedirectionAction` and decoding: the decoded request contains the qualified issuer. |
| Saml2Post.StandardEntityIdScenario | pac4j-saml/src/test/java/org/pac4j/saml/client/PostSAML2ClientTests.java:68-78 | Through `GetRedirectionAction` and decoding: the decoded request contains the unqualified issuer. |
| Saml2Post.SerializeHasForceAuthn | pac4j-saml/src/test/java/org/pac4j/saml/client/PostSAML2ClientTests.java:87 | A forced authentication is written as `ForceAuthn="true"`. |
| Saml2Post.ForcedAuthentication | pac4j-saml/src/test/java/org/pac4j/saml/client/PostSAML2ClientTests.java:82-88 | With `forceAuth`, the request contains `ForceAuthn="true"`. |
| Saml2Post.ForceAuthScenario | pac4j-saml/src/test/java/org/pac4j/saml/client/PostSAML2ClientTests.java:82-88 | Through `GetRedirectionAction` and decoding: the decoded request contains `ForceAuthn="true"`. |
| Saml2Post.SerializeHasComparison | pac4j-saml/src/test/java/org/pac4j/saml/client/PostSAML2ClientTests.java:96 | A requested comparison type is written as `Comparison="<name>"`. |
| Saml2Post.ExactComparisonAccepted | pac4j-saml/src/test/java/org/pac4j/saml/client/PostSAML2ClientTests.java:93 | The configured name `exact` yields the `Exact` comparison. |
| Saml2Post.ExactComparison | pac4j-saml/src/test/java/org/pac4j/saml/client/PostSAML2ClientTests.java:91-97 | A request for `Exact` contains `Comparison="exact"`. |
| Saml2Post.ComparisonTypeScenario | pac4j-saml/src/test/java/org/pac4j/saml/client/PostSAML2ClientTests.java:91-97 | Through `GetRedirectionAction` and decoding: with comparison type `exact`, the decoded request contains `Comparison="exact"`. |
| Saml2Post.UnknownComparisonRejected | pac4j-saml/src/test/java/org/pac4j/saml/client/PostSAML2ClientTests.java:93 | A comparison type naming none of the four is a configuration error. |
| Saml2Post.RelayStateScenario | pac4j-saml/src/test/java/org/pac4j/saml/client/PostSAML2ClientTests.java:100-113 | With `relayState` in the session: a form post to the SSO URL with exactly two fields, `SAMLRequest` and `RelayState` = `relayState`. |
| Saml2Post.SerializeNotBlank | pac4j-saml/src/test/java/org/pac4j/saml/client/PostSAML2ClientTests.java:123 | A serialised request is never blank. |
| Saml2Post.RequestNotBlank | pac4j-saml/src/test/java/org/pac4j/saml/client/PostSAML2ClientTests.java:116-124 | The request a client builds is never blank, whatever the configuration. |
| Saml2Post.SignedPostScenario | pac4j-saml/src/test/java/org/pac4j/saml/client/PostSAML2ClientTests.java:116-124 | Through `GetRedirectionAction` and decoding, with signing on: the decoded request is not blank. |

## Left out

- Logging (`LOGGER.debug`) and the Lombok-generated getters, setters and `toString`: they have no observable effect on the modelled state.
- `forceReinit`: the model initialises once. `BaseClient`'s own `init` bookkeeping is not part of this model: it covers the initialised flag, callback URL, ajax resolver and authorization generators. `Init` only chains the three stages the two files define.
- `DirectBasicAuth.InitWithAuthenticatorOnly`: the field initialisers of `BaseClient` are not part of this model, so a new client is taken to start with every component undefined, the profile creator included. The lemma holds under that assumption only; if pac4j gives new clients a default profile creator, a client built with an authenticator only initialises.
- `DirectBasicAuth.DirectBasicAuthClient.WithAuthenticator`: the constructor arguments are values, not `Option`s, so Java's `new DirectBasicAuthClient(null)` (which leaves the component undefined) is not modelled; it behaves as the no-argument constructor. The same holds for the `Set…IfUndefined` methods of `DirectClients.DirectClient`.
- `DirectBasicAuth.DirectBasicAuthClient.InternalInit`: a Java `null` realm is not modelled; the realm is a string, so only blank text is rejected. `isBlank` is modelled as "empty once trimmed of characters up to U+0020".
- The `CsrfAuthorizer` source is not part of this model, so `IsAuthorized` follows what its tests demand. Three readings are fixed by the model. The previous token is removed on every checked request, not only when it was used. A date equal to `now` is still valid. A session value of the wrong type is treated as absent.
- `CsrfAuthorization.StateChangingMethodsChecked`: the tests check these methods with `checkAllRequests` on. The model proves the stronger statement that they are checked without it as well.
- These constants come from pac4j files that are not part of this model: `WWW-Authenticate`, `authentication required`, `pac4jCsrfToken`, `pac4jPreviousCsrfToken`, `pac4jCsrfTokenExpirationDate`, `samlRelayState`. The `ConfigError` names `credentialsExtractor`, `authenticator` and `profileCreator` are the assertion names of DirectClient.java:37-39, and `realmName` that of DirectBasicAuthClient.java:63. The names `serviceProviderEntityId`, `comparisonType` and `authnRequestBindingType` are the model's choice. The three messages of the direct client's unsupported operations are the ones in DirectClient.java:45, 51 and 58. The message `HTTP-Redirect binding` of the Redirect-binding error is the model's own.
- `ProfileDefinitions.NewProfile`: Java's reflective `Class.forName` and constructor call are modelled as a fixed registry of four class names. Profile attributes and ids are not modelled.
- `Saml2Post.SAML2Client.GetRedirectionAction`: the HTTP-Redirect binding (DEFLATE plus a URL query) is not modelled. It returns an unsupported error, and any other binding string is `ConfigError("authnRequestBindingType")`.
- `Saml2Post.SAML2Client.GetRedirectionAction`: a few behaviours are left unmodelled:
  - signing the request (`authnRequestSigned`) and the XML signature it adds;
  - keeping the request id in the session for the response check;
  - the state generator that stores a fresh relay state;
  - the identity-provider metadata lookup (the SSO URL is a client field).
- `Saml2Post.Serialize`: only the modelled attributes and elements are written, in a fixed order. Namespace declarations are written as plain attributes. OpenSAML's marshaller and the other attributes and elements (`ProtocolBinding`, `IsPassive`, `NameIDPolicy`, the `AuthnContextClassRef` list) are not modelled.
- `Saml2Post.PostEncode`: the HTML page of the auto-submitting form is not modelled, nor the insertion order of the form's fields; the fields are a map.
- `Saml2Post.SAML2Client.Comparison`: the `SAML2Client` source is not part of this model. A configured comparison type that names none of the four types is taken to be a configuration error, not silently ignored.
- `Base64.Decode` accepts only padded input. Java's `Base64.getDecoder()` also accepts unpadded input, which never arises from the encoder.
- `Utf8.Decode` is strict and rejects ill-formed input. Java's `new String(…, UTF_8)` instead substitutes U+FFFD. Dafny's `char` is a code point, so UTF-16 surrogate pairs are not modelled.
