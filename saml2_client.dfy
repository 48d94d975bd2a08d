/** The service-provider side of SAML 2.0 single sign-on over the HTTP-POST
    binding: `SAML2Client.getRedirectionAction` builds an AuthnRequest from
    the client's configuration, serialises it, encodes it for the POST
    binding (section 3.5.4 of the OASIS SAML 2.0 Bindings specification:
    base64 of the UTF-8 document) and hands back an auto-submitting form
    carrying it, with the relay state found in the session. */
module Saml2Post {
  import opened Wrappers
  import opened Text
  import opened Exceptions
  import opened Context
  import Base64
  import Utf8

  /** The prefix every SAML 2.0 URN of the OASIS specification shares. */
  const SAML2_URN: string := "urn:oasis:names:tc:SAML:2.0:"
  const SAML2_POST_BINDING_URI: string := SAML2_URN + "bindings:HTTP-POST"
  const SAML2_REDIRECT_BINDING_URI: string := SAML2_URN + "bindings:HTTP-Redirect"
  /** `NameIDType.ENTITY`, the format of an issuer naming an entity. */
  const ENTITY_FORMAT: string := SAML2_URN + "nameid-format:entity"
  const SAML2_ASSERTION_NS: string := SAML2_URN + "assertion"
  const SAML2_PROTOCOL_NS: string := SAML2_URN + "protocol"

  /** The session key the relay state is read from (`SAML2StateGenerator`). */
  const SAML_RELAY_STATE_ATTRIBUTE: string := "samlRelayState"

  /** The two form fields of the POST binding. */
  const SAML_REQUEST: string := "SAMLRequest"
  const RELAY_STATE: string := "RelayState"

  // ---- the request ----

  /** `AuthnContextComparisonTypeEnumeration`. */
  datatype ComparisonType = Exact | Minimum | Maximum | Better

  /** The attribute value of a comparison type. */
  function ComparisonName(c: ComparisonType): string {
    match c
    case Exact => "exact"
    case Minimum => "minimum"
    case Maximum => "maximum"
    case Better => "better"
  }

  /** The comparison type a configured name denotes, if any. */
  function ParseComparison(s: string): (r: Option<ComparisonType>)
    ensures r.Some? ==> ComparisonName(r.value) == s
    ensures r.None? ==> forall c: ComparisonType :: ComparisonName(c) != s
  {
    if s == "exact" then Some(Exact)
    else if s == "minimum" then Some(Minimum)
    else if s == "maximum" then Some(Maximum)
    else if s == "better" then Some(Better)
    else None
  }

  lemma ComparisonNamePlain(c: ComparisonType)
    ensures IsPlain(ComparisonName(c))
  {
    match c
    case Exact => assert IsPlain("exact");
    case Minimum => assert IsPlain("minimum");
    case Maximum => assert IsPlain("maximum");
    case Better => assert IsPlain("better");
  }

  lemma ParseComparisonName(c: ComparisonType)
    ensures ParseComparison(ComparisonName(c)) == Some(c)
  {
  }

  /** The `<saml2:Issuer>` element: the entity id as text, with a `Format`
      and, optionally, a `NameQualifier` attribute. */
  datatype Issuer = Issuer(value: string, format: string, nameQualifier: Option<string>)

  /** The AuthnRequest, as far as its attributes are modelled. `None` for
      `forceAuthn` and `comparison` means the attribute is not written. */
  datatype AuthnRequest = AuthnRequest(
    id: string,
    issueInstant: string,
    destination: string,
    assertionConsumerServiceUrl: string,
    issuer: Issuer,
    forceAuthn: Option<bool>,
    comparison: Option<ComparisonType>)

  // ---- serialisation ----

  const REQUEST_OPEN: string := "<saml2p:AuthnRequest"
  const REQUEST_CLOSE: string := "</saml2p:AuthnRequest>"
  const ISSUER_OPEN: string := "<saml2:Issuer"
  const ISSUER_CLOSE: string := "</saml2:Issuer>"
  const CONTEXT_OPEN: string := "<saml2p:RequestedAuthnContext"

  /** ` name="value"`, the value escaped. */
  function Attribute(name: string, value: string): string {
    " " + name + "=\"" + Escape(value) + "\""
  }

  /** An attribute whose value has no markup is written as it is. */
  lemma PlainAttribute(name: string, value: string)
    requires IsPlain(value)
    ensures Attribute(name, value) == " " + name + "=\"" + value + "\""
  {
    EscapePlain(value);
  }

  function NameQualifierAttribute(nameQualifier: Option<string>): string {
    if nameQualifier.Some? then Attribute("NameQualifier", nameQualifier.value) else ""
  }

  function IssuerXml(issuer: Issuer): string {
    ISSUER_OPEN + Attribute("xmlns:saml2", SAML2_ASSERTION_NS) + Attribute("Format", issuer.format)
    + NameQualifierAttribute(issuer.nameQualifier) + ">" + Escape(issuer.value) + ISSUER_CLOSE
  }

  function RequestedAuthnContextXml(comparison: Option<ComparisonType>): string {
    if comparison.Some? then CONTEXT_OPEN + Attribute("Comparison", ComparisonName(comparison.value)) + "/>"
    else ""
  }

  function ForceAuthnAttribute(forceAuthn: Option<bool>): string {
    if forceAuthn.Some? then Attribute("ForceAuthn", if forceAuthn.value then "true" else "false") else ""
  }

  function RequestAttributes(r: AuthnRequest): string {
    Attribute("xmlns:saml2p", SAML2_PROTOCOL_NS)
    + Attribute("AssertionConsumerServiceURL", r.assertionConsumerServiceUrl)
    + Attribute("Destination", r.destination)
    + ForceAuthnAttribute(r.forceAuthn)
    + Attribute("ID", r.id)
    + Attribute("IssueInstant", r.issueInstant)
    + Attribute("Version", "2.0")
  }

  function StartTag(r: AuthnRequest): string {
    REQUEST_OPEN + RequestAttributes(r) + ">"
  }

  /** The request as an XML document. */
  function Serialize(r: AuthnRequest): string {
    StartTag(r) + IssuerXml(r.issuer) + RequestedAuthnContextXml(r.comparison) + REQUEST_CLOSE
  }

  /** The document is framed by the `AuthnRequest` start and end tags. */
  lemma SerializeFraming(r: AuthnRequest)
    ensures StartsWith(Serialize(r), REQUEST_OPEN)
    ensures Serialize(r)[|Serialize(r)| - |REQUEST_CLOSE|..] == REQUEST_CLOSE
  {
    var context := RequestedAuthnContextXml(r.comparison);
    StartsWithSelf(REQUEST_OPEN, RequestAttributes(r));
    StartsWithAppend(REQUEST_OPEN + RequestAttributes(r), ">", REQUEST_OPEN);
    StartsWithAppend(StartTag(r), IssuerXml(r.issuer), REQUEST_OPEN);
    StartsWithAppend(StartTag(r) + IssuerXml(r.issuer), context, REQUEST_OPEN);
    StartsWithAppend(StartTag(r) + IssuerXml(r.issuer) + context, REQUEST_CLOSE, REQUEST_OPEN);
    EndsWith(StartTag(r) + IssuerXml(r.issuer) + context, REQUEST_CLOSE);
  }

  /** Escaping keeps an attribute value inside its quotes: the first `"`
      after the opening one is the closing one. */
  lemma AttributeValueDelimited(name: string, value: string)
    ensures Attribute(name, value) == " " + name + "=\"" + (Escape(value) + "\"")
    ensures IndexOf(Escape(value) + "\"", '"') == Some(|Escape(value)|)
  {
    EscapeNoQuote(value);
    IndexOfAfterPrefix(Escape(value), '"', "");
    assert Escape(value) + ['"'] + "" == Escape(value) + "\"";
  }

  /** Without a forced authentication the start tag carries exactly the
      other six attributes, and no `ForceAuthn`. */
  lemma ForceAuthnOmittedAttributes(r: AuthnRequest)
    requires r.forceAuthn.None?
    ensures RequestAttributes(r)
      == Attribute("xmlns:saml2p", SAML2_PROTOCOL_NS)
         + Attribute("AssertionConsumerServiceURL", r.assertionConsumerServiceUrl)
         + Attribute("Destination", r.destination)
         + Attribute("ID", r.id)
         + Attribute("IssueInstant", r.issueInstant)
         + Attribute("Version", "2.0")
  {
    var a := Attribute("xmlns:saml2p", SAML2_PROTOCOL_NS)
      + Attribute("AssertionConsumerServiceURL", r.assertionConsumerServiceUrl)
      + Attribute("Destination", r.destination);
    assert a + ForceAuthnAttribute(r.forceAuthn) == a;
  }

  /** A plain attribute value, closed by its quote, occurs in the attribute. */
  lemma PlainValueInAttribute(name: string, value: string)
    requires IsPlain(value)
    ensures Contains(Attribute(name, value), value + "\"")
  {
    var needle := value + "\"";
    PlainAttribute(name, value);
    assert Attribute(name, value) == (" " + name + "=\"") + needle;
    ContainsSelf(needle);
    ContainsInRight(" " + name + "=\"", needle, needle);
  }

  /** The absence of `ForceAuthn` is a fact about the attribute list, not
      about the text: an attribute value may end in `ForceAuthn=`, and the
      closing quote then completes the text `ForceAuthn="`. */
  lemma ForceAuthnTextInValue()
    ensures Contains(Attribute("NameQualifier", "ForceAuthn="), "ForceAuthn=\"")
  {
    ForceAuthnTextPieces();
    PlainValueInAttribute("NameQualifier", "ForceAuthn=");
  }

  lemma ForceAuthnTextPieces()
    ensures IsPlain("ForceAuthn=")
    ensures "ForceAuthn=" + "\"" == "ForceAuthn=\""
  {
  }


  /** The serialised request holds its issuer element. */
  lemma SerializeHasIssuer(r: AuthnRequest)
    ensures Contains(Serialize(r), IssuerXml(r.issuer))
  {
    var issuer := IssuerXml(r.issuer);
    ContainsSelf(issuer);
    ContainsInRight(StartTag(r), issuer, issuer);
    ContainsInLeft(StartTag(r) + issuer, RequestedAuthnContextXml(r.comparison), issuer);
    ContainsInLeft(StartTag(r) + issuer + RequestedAuthnContextXml(r.comparison), REQUEST_CLOSE, issuer);
  }

  /** The serialised request holds the attributes of its start tag. */
  lemma SerializeHasAttributes(r: AuthnRequest)
    ensures Contains(Serialize(r), RequestAttributes(r))
  {
    var attributes := RequestAttributes(r);
    ContainsSelf(attributes);
    ContainsInRight(REQUEST_OPEN, attributes, attributes);
    ContainsInLeft(REQUEST_OPEN + attributes, ">", attributes);
    var tail := IssuerXml(r.issuer) + RequestedAuthnContextXml(r.comparison) + REQUEST_CLOSE;
    ContainsInLeft(StartTag(r), IssuerXml(r.issuer), attributes);
    ContainsInLeft(StartTag(r) + IssuerXml(r.issuer), RequestedAuthnContextXml(r.comparison), attributes);
    ContainsInLeft(StartTag(r) + IssuerXml(r.issuer) + RequestedAuthnContextXml(r.comparison), REQUEST_CLOSE, attributes);
  }

  lemma ForceAuthnText()
    ensures Contains(ForceAuthnAttribute(Some(true)), "ForceAuthn=\"true\"")
  {
    var needle := "ForceAuthn=\"true\"";
    EscapePlain("true");
    assert ForceAuthnAttribute(Some(true)) == " " + needle;
    ContainsSelf(needle);
    ContainsInRight(" ", needle, needle);
  }

  /** The start tag's attributes hold the `ForceAuthn` attribute. */
  lemma AttributesHaveForceAuthn(r: AuthnRequest)
    ensures Contains(RequestAttributes(r), ForceAuthnAttribute(r.forceAuthn))
  {
    var force := ForceAuthnAttribute(r.forceAuthn);
    var a := Attribute("xmlns:saml2p", SAML2_PROTOCOL_NS)
      + Attribute("AssertionConsumerServiceURL", r.assertionConsumerServiceUrl)
      + Attribute("Destination", r.destination);
    ContainsSelf(force);
    ContainsInRight(a, force, force);
    ContainsInLeft(a + force, Attribute("ID", r.id), force);
    ContainsInLeft(a + force + Attribute("ID", r.id), Attribute("IssueInstant", r.issueInstant), force);
    ContainsInLeft(a + force + Attribute("ID", r.id) + Attribute("IssueInstant", r.issueInstant), Attribute("Version", "2.0"), force);
  }

  /** A forced authentication is written as `ForceAuthn="true"`. */
  lemma SerializeHasForceAuthn(r: AuthnRequest)
    requires r.forceAuthn == Some(true)
    ensures Contains(Serialize(r), "ForceAuthn=\"true\"")
  {
    ForceAuthnText();
    AttributesHaveForceAuthn(r);
    SerializeHasAttributes(r);
    ContainsTransitive(RequestAttributes(r), ForceAuthnAttribute(r.forceAuthn), "ForceAuthn=\"true\"");
    ContainsTransitive(Serialize(r), RequestAttributes(r), "ForceAuthn=\"true\"");
  }

  /** The requested authentication context carries its comparison type. */
  lemma ContextHasComparison(c: ComparisonType)
    ensures Contains(RequestedAuthnContextXml(Some(c)), "Comparison=\"" + ComparisonName(c) + "\"")
  {
    var needle := "Comparison=\"" + ComparisonName(c) + "\"";
    ComparisonNamePlain(c);
    PlainAttribute("Comparison", ComparisonName(c));
    assert Attribute("Comparison", ComparisonName(c)) == " " + needle;
    ContainsSelf(needle);
    ContainsInRight(" ", needle, needle);
    ContainsInRight(CONTEXT_OPEN, " " + needle, needle);
    ContainsInLeft(CONTEXT_OPEN + (" " + needle), "/>", needle);
  }

  /** A comparison type is written as the `Comparison` attribute of the
      requested authentication context. */
  lemma SerializeHasComparison(r: AuthnRequest)
    requires r.comparison.Some?
    ensures Contains(Serialize(r), "Comparison=\"" + ComparisonName(r.comparison.value) + "\"")
  {
    var needle := "Comparison=\"" + ComparisonName(r.comparison.value) + "\"";
    var context := RequestedAuthnContextXml(r.comparison);
    ContextHasComparison(r.comparison.value);
    ContainsInRight(StartTag(r) + IssuerXml(r.issuer), context, needle);
    ContainsInLeft(StartTag(r) + IssuerXml(r.issuer) + context, REQUEST_CLOSE, needle);
  }

  /** A serialised request is never blank: it starts with `<`. */
  lemma SerializeNotBlank(r: AuthnRequest)
    ensures !IsBlank(Serialize(r))
  {
    assert REQUEST_OPEN[0] == '<';
    assert StartTag(r)[0] == '<';
    assert Serialize(r)[0] == '<';
  }

  /** For an entity id without markup, the issuer element reads exactly
      `<saml2:Issuer xmlns:saml2="…assertion" Format="…entity"
      NameQualifier="id">id</saml2:Issuer>` when qualified, and the same
      without the `NameQualifier` attribute otherwise. */
  lemma EntityIssuerXml(entityId: string, qualified: bool)
    requires IsPlain(entityId)
    ensures IssuerXml(Issuer(entityId, ENTITY_FORMAT, if qualified then Some(entityId) else None))
      == ISSUER_OPEN
         + (" " + "xmlns:saml2" + "=\"" + SAML2_ASSERTION_NS + "\"")
         + (" " + "Format" + "=\"" + ENTITY_FORMAT + "\"")
         + (if qualified then " " + "NameQualifier" + "=\"" + entityId + "\"" else "")
         + ">" + entityId + ISSUER_CLOSE
  {
    PlainAppend(SAML2_URN, "nameid-format:entity");
    PlainAppend(SAML2_URN, "assertion");
    PlainAttribute("Format", ENTITY_FORMAT);
    PlainAttribute("xmlns:saml2", SAML2_ASSERTION_NS);
    EscapePlain(entityId);
    if qualified {
      PlainAttribute("NameQualifier", entityId);
    }
  }

  // ---- POST-binding encoding and the form ----

  /** The `SAMLRequest` value for a document: base64 of its UTF-8 octets. */
  function PostPayload(xml: string): (payload: string)
    ensures |payload| % 4 == 0
  {
    Base64.Encode(Utf8.Encode(xml))
  }

  /** A `SAMLRequest` value decodes back to its document. */
  lemma PostPayloadDecodes(xml: string)
    ensures Base64.Decode(PostPayload(xml)).Some?
    ensures Utf8.Decode(Base64.Decode(PostPayload(xml)).value) == Some(xml)
  {
    Base64.DecodeEncode(Utf8.Encode(xml));
    Utf8.DecodeEncode(xml);
  }

  /** The form fields: the request, and the relay state when there is one. */
  function FormData(payload: string, relayState: Option<string>): (data: map<string, string>)
    ensures SAML_REQUEST in data && data[SAML_REQUEST] == payload
    ensures relayState.Some? ==> data.Keys == {SAML_REQUEST, RELAY_STATE} && data[RELAY_STATE] == relayState.value
    ensures relayState.Some? ==> |data| == 2
    ensures relayState.None? ==> data.Keys == {SAML_REQUEST}
  {
    assert |SAML_REQUEST| != |RELAY_STATE|;
    if relayState.Some? then map[SAML_REQUEST := payload, RELAY_STATE := relayState.value]
    else map[SAML_REQUEST := payload]
  }

  /** What a receiver reads back out of a form post: the `SAMLRequest` field
      base64-decoded and read as UTF-8. */
  function DecodedAuthnRequest(action: RedirectionAction): (r: Option<string>)
    ensures r.Some? ==> action.AutomaticFormPost? && SAML_REQUEST in action.data
    ensures r.Some? ==> Base64.Decode(action.data[SAML_REQUEST]).Some? && |action.data[SAML_REQUEST]| % 4 == 0
  {
    if action.AutomaticFormPost? && SAML_REQUEST in action.data then
      match Base64.Decode(action.data[SAML_REQUEST])
      case None => None
      case Some(octets) => Utf8.Decode(octets)
    else None
  }

  /** The POST-binding encoder: the auto-submitting form carrying a
      document to `url`, with exactly the fields `FormData` gives, out of
      which the document reads back. */
  method PostEncode(url: string, xml: string, relayState: Option<string>) returns (action: RedirectionAction)
    ensures action.AutomaticFormPost? && action.url == url
    ensures action.data == FormData(PostPayload(xml), relayState)
    ensures SAML_REQUEST in action.data && action.data[SAML_REQUEST] == PostPayload(xml)
    ensures DecodedAuthnRequest(action) == Some(xml)
  {
    var payload := PostPayload(xml);
    PostPayloadDecodes(xml);
    action := AutomaticFormPost(url, FormData(payload, relayState));
  }

  /** The relay state stored in the session, if it is a string. */
  function RelayStateIn(session: map<string, SessionValue>): (r: Option<string>)
    ensures r.Some? <==> SAML_RELAY_STATE_ATTRIBUTE in session && session[SAML_RELAY_STATE_ATTRIBUTE].StringValue?
    ensures r.Some? ==> session[SAML_RELAY_STATE_ATTRIBUTE] == StringValue(r.value)
  {
    if SAML_RELAY_STATE_ATTRIBUTE in session && session[SAML_RELAY_STATE_ATTRIBUTE].StringValue? then
      Some(session[SAML_RELAY_STATE_ATTRIBUTE].s)
    else None
  }

  // ---- configuration and client ----

  class SAML2Configuration {
    var serviceProviderEntityId: string
    var useNameQualifier: bool
    var forceAuth: bool
    var comparisonType: Option<string>
    var authnRequestBindingType: string
    var authnRequestSigned: bool

    constructor (serviceProviderEntityId: string)
      ensures this.serviceProviderEntityId == serviceProviderEntityId
      ensures !useNameQualifier && !forceAuth && comparisonType.None? && !authnRequestSigned
      ensures authnRequestBindingType == SAML2_POST_BINDING_URI
    {
      this.serviceProviderEntityId := serviceProviderEntityId;
      useNameQualifier := false;
      forceAuth := false;
      comparisonType := None;
      authnRequestBindingType := SAML2_POST_BINDING_URI;
      authnRequestSigned := false;
    }
  }

  class SAML2Client {
    const configuration: SAML2Configuration
    /** The identity provider's SSO endpoint for the POST binding, as its
        metadata gives it. */
    const identityProviderSsoUrl: string
    /** Where the identity provider posts its response. */
    const callbackUrl: string

    constructor (configuration: SAML2Configuration, identityProviderSsoUrl: string, callbackUrl: string)
      ensures this.configuration == configuration
      ensures this.identityProviderSsoUrl == identityProviderSsoUrl && this.callbackUrl == callbackUrl
    {
      this.configuration := configuration;
      this.identityProviderSsoUrl := identityProviderSsoUrl;
      this.callbackUrl := callbackUrl;
    }

    /** The configuration's comparison type, or the error for a name that
        is not one. */
    function Comparison(): (r: Result<Option<ComparisonType>, ClientError>)
      reads configuration
      ensures configuration.comparisonType.None? ==> r == Success(None)
      ensures configuration.comparisonType.Some? ==>
        match ParseComparison(configuration.comparisonType.value)
        case Some(c) => r == Success(Some(c)) && ComparisonName(c) == configuration.comparisonType.value
        case None => r == Failure(ConfigError("comparisonType"))
    {
      if configuration.comparisonType.None? then Success(None)
      else match ParseComparison(configuration.comparisonType.value)
        case Some(c) => Success(Some(c))
        case None => Failure(ConfigError("comparisonType"))
    }

    /** The request the configuration describes. */
    function BuildAuthnRequest(comparison: Option<ComparisonType>, requestId: string, issueInstant: string): (r: AuthnRequest)
      reads configuration
      ensures r.id == requestId && r.issueInstant == issueInstant
      ensures r.destination == identityProviderSsoUrl && r.assertionConsumerServiceUrl == callbackUrl
      ensures r.issuer.value == configuration.serviceProviderEntityId && r.issuer.format == ENTITY_FORMAT
      ensures r.issuer.nameQualifier.Some? <==> configuration.useNameQualifier
      ensures r.issuer.nameQualifier.Some? ==> r.issuer.nameQualifier.value == configuration.serviceProviderEntityId
      ensures r.forceAuthn.Some? <==> configuration.forceAuth
      ensures r.forceAuthn.Some? ==> r.forceAuthn.value
      ensures r.comparison == comparison
    {
      var entityId := configuration.serviceProviderEntityId;
      AuthnRequest(
        requestId, issueInstant, identityProviderSsoUrl, callbackUrl,
        Issuer(entityId, ENTITY_FORMAT, if configuration.useNameQualifier then Some(entityId) else None),
        if configuration.forceAuth then Some(true) else None,
        comparison)
    }

    /** The configuration `getRedirectionAction` accepts: a non-blank entity
        id, the POST binding, and a known comparison type if any. */
    predicate Accepted()
      reads configuration
    {
      && !IsBlank(configuration.serviceProviderEntityId)
      && configuration.authnRequestBindingType == SAML2_POST_BINDING_URI
      && Comparison().Success?
    }

    /** The checks made before a request is built, in the order they are
        made; on success, the comparison type to request. */
    function Validate(): (r: Result<Option<ComparisonType>, ClientError>)
      reads configuration
      ensures r.Success? <==> Accepted()
      ensures r.Success? ==> r == Comparison()
      ensures IsBlank(configuration.serviceProviderEntityId) ==> r == Failure(ConfigError("serviceProviderEntityId"))
      ensures !IsBlank(configuration.serviceProviderEntityId) && configuration.authnRequestBindingType == SAML2_REDIRECT_BINDING_URI ==>
        r.Failure? && r.error.Unsupported?
      ensures r.Failure? && r.error.Unsupported? ==> configuration.authnRequestBindingType == SAML2_REDIRECT_BINDING_URI
    {
      if IsBlank(configuration.serviceProviderEntityId) then Failure(ConfigError("serviceProviderEntityId"))
      else if configuration.authnRequestBindingType == SAML2_REDIRECT_BINDING_URI then
        Failure(Unsupported("HTTP-Redirect binding"))
      else if configuration.authnRequestBindingType != SAML2_POST_BINDING_URI then
        Failure(ConfigError("authnRequestBindingType"))
      else Comparison()
    }

    /** `getRedirectionAction`, with the request id and issue instant (drawn
        from a random source and the clock) passed in: the configuration
        error `Validate` finds, or a form posting the encoded request, and
        the session's relay state, to the identity provider. */
    method GetRedirectionAction(session: map<string, SessionValue>, requestId: string, issueInstant: string)
      returns (r: Result<RedirectionAction, ClientError>)
      ensures r.Success? <==> Accepted()
      ensures r.Failure? ==> Validate().Failure? && r.error == Validate().error
      ensures r.Success? ==> r.value.AutomaticFormPost? && r.value.url == identityProviderSsoUrl
      ensures r.Success? ==> SAML_REQUEST in r.value.data && r.value.data == FormData(r.value.data[SAML_REQUEST], RelayStateIn(session))
      ensures r.Success? ==>
        r.value.data[SAML_REQUEST] == PostPayload(Serialize(BuildAuthnRequest(Validate().value, requestId, issueInstant)))
      ensures r.Success? ==>
        DecodedAuthnRequest(r.value) == Some(Serialize(BuildAuthnRequest(Validate().value, requestId, issueInstant)))
    {
      var checked := Validate();
      if checked.Failure? {
        return Failure(checked.error);
      }
      var xml := Serialize(BuildAuthnRequest(checked.value, requestId, issueInstant));
      var action := PostEncode(identityProviderSsoUrl, xml, RelayStateIn(session));
      r := Success(action);
    }
  }

  // ---- the properties the POST-binding tests check ----

  /** With force-auth off, the request's start tag has no `ForceAuthn`
      attribute. */
  lemma NoForceAuthnUnlessRequested(client: SAML2Client, comparison: Option<ComparisonType>, requestId: string, issueInstant: string)
    requires !client.configuration.forceAuth
    ensures
      var r := client.BuildAuthnRequest(comparison, requestId, issueInstant);
      RequestAttributes(r)
        == Attribute("xmlns:saml2p", SAML2_PROTOCOL_NS)
           + Attribute("AssertionConsumerServiceURL", client.callbackUrl)
           + Attribute("Destination", client.identityProviderSsoUrl)
           + Attribute("ID", requestId)
           + Attribute("IssueInstant", issueInstant)
           + Attribute("Version", "2.0")
  {
    ForceAuthnOmittedAttributes(client.BuildAuthnRequest(comparison, requestId, issueInstant));
  }

  /** With the name qualifier on, the request's issuer names the entity id
      with the entity format and carries it as `NameQualifier` too. */
  lemma QualifiedIssuer(client: SAML2Client, comparison: Option<ComparisonType>, requestId: string, issueInstant: string)
    requires client.configuration.useNameQualifier
    ensures
      var entityId := client.configuration.serviceProviderEntityId;
      Contains(Serialize(client.BuildAuthnRequest(comparison, requestId, issueInstant)),
               IssuerXml(Issuer(entityId, ENTITY_FORMAT, Some(entityId))))
  {
    SerializeHasIssuer(client.BuildAuthnRequest(comparison, requestId, issueInstant));
  }

  /** With the name qualifier off, the issuer has the entity format and text
      and no `NameQualifier` attribute at all. */
  lemma UnqualifiedIssuer(client: SAML2Client, comparison: Option<ComparisonType>, requestId: string, issueInstant: string)
    requires !client.configuration.useNameQualifier
    ensures
      var entityId := client.configuration.serviceProviderEntityId;
      Contains(Serialize(client.BuildAuthnRequest(comparison, requestId, issueInstant)),
               IssuerXml(Issuer(entityId, ENTITY_FORMAT, None)))
  {
    SerializeHasIssuer(client.BuildAuthnRequest(comparison, requestId, issueInstant));
  }

  /** `forceAuth` yields `ForceAuthn="true"` in the request. */
  lemma ForcedAuthentication(client: SAML2Client, comparison: Option<ComparisonType>, requestId: string, issueInstant: string)
    requires client.configuration.forceAuth
    ensures Contains(Serialize(client.BuildAuthnRequest(comparison, requestId, issueInstant)), "ForceAuthn=\"true\"")
  {
    SerializeHasForceAuthn(client.BuildAuthnRequest(comparison, requestId, issueInstant));
  }

  lemma ExactComparisonAttribute()
    ensures "Comparison=\"" + ComparisonName(Exact) + "\"" == "Comparison=\"exact\""
  {
  }

  /** Comparison type `exact` is accepted as the comparison to request. */
  lemma ExactComparisonAccepted(client: SAML2Client)
    requires client.configuration.comparisonType == Some("exact")
    ensures client.Comparison() == Success(Some(Exact))
  {
    assert ParseComparison("exact") == Some(Exact);
  }

  /** Comparison type `exact` yields `Comparison="exact"` in the request. */
  lemma ExactComparison(client: SAML2Client, requestId: string, issueInstant: string)
    ensures Contains(Serialize(client.BuildAuthnRequest(Some(Exact), requestId, issueInstant)), "Comparison=\"exact\"")
  {
    SerializeHasComparison(client.BuildAuthnRequest(Some(Exact), requestId, issueInstant));
    ExactComparisonAttribute();
  }

  /** A comparison type that names none of the four is a configuration
      error, not silently dropped. */
  lemma UnknownComparisonRejected(client: SAML2Client)
    requires !IsBlank(client.configuration.serviceProviderEntityId)
    requires client.configuration.authnRequestBindingType == SAML2_POST_BINDING_URI
    requires client.configuration.comparisonType.Some?
    requires client.configuration.comparisonType.value !in {"exact", "minimum", "maximum", "better"}
    ensures client.Validate() == Failure(ConfigError("comparisonType"))
  {
  }

  /** With a relay state in the session, the form has exactly two fields:
      the request and that relay state. */
  lemma RelayStateField(session: map<string, SessionValue>, relayState: string, payload: string)
    requires SAML_RELAY_STATE_ATTRIBUTE in session && session[SAML_RELAY_STATE_ATTRIBUTE] == StringValue(relayState)
    ensures
      var data := FormData(payload, RelayStateIn(session));
      |data| == 2 && data[SAML_REQUEST] == payload && RELAY_STATE in data && data[RELAY_STATE] == relayState
  {
  }

  /** The request is never blank, whatever the configuration (signing on or
      off). */
  lemma RequestNotBlank(client: SAML2Client, comparison: Option<ComparisonType>, requestId: string, issueInstant: string)
    ensures !IsBlank(Serialize(client.BuildAuthnRequest(comparison, requestId, issueInstant)))
  {
    SerializeNotBlank(client.BuildAuthnRequest(comparison, requestId, issueInstant));
  }

  // ---- the tests' scenarios: an accepted configuration, the redirection
  // action, and the `SAMLRequest` field decoded as the tests decode it ----

  method CustomEntityIdScenario(client: SAML2Client, session: map<string, SessionValue>, requestId: string, issueInstant: string)
    returns (decoded: string)
    requires client.Accepted() && client.configuration.useNameQualifier
    ensures
      var entityId := client.configuration.serviceProviderEntityId;
      Contains(decoded, IssuerXml(Issuer(entityId, ENTITY_FORMAT, Some(entityId))))
  {
    var r := client.GetRedirectionAction(session, requestId, issueInstant);
    decoded := DecodedAuthnRequest(r.value).value;
    QualifiedIssuer(client, client.Validate().value, requestId, issueInstant);
  }

  method StandardEntityIdScenario(client: SAML2Client, session: map<string, SessionValue>, requestId: string, issueInstant: string)
    returns (decoded: string)
    requires client.Accepted() && !client.configuration.useNameQualifier
    ensures
      var entityId := client.configuration.serviceProviderEntityId;
      Contains(decoded, IssuerXml(Issuer(entityId, ENTITY_FORMAT, None)))
  {
    var r := client.GetRedirectionAction(session, requestId, issueInstant);
    decoded := DecodedAuthnRequest(r.value).value;
    UnqualifiedIssuer(client, client.Validate().value, requestId, issueInstant);
  }

  method ForceAuthScenario(client: SAML2Client, session: map<string, SessionValue>, requestId: string, issueInstant: string)
    returns (decoded: string)
    requires client.Accepted() && client.configuration.forceAuth
    ensures Contains(decoded, "ForceAuthn=\"true\"")
  {
    var r := client.GetRedirectionAction(session, requestId, issueInstant);
    decoded := DecodedAuthnRequest(r.value).value;
    ForcedAuthentication(client, client.Validate().value, requestId, issueInstant);
  }

  method ComparisonTypeScenario(client: SAML2Client, session: map<string, SessionValue>, requestId: string, issueInstant: string)
    returns (decoded: string)
    requires !IsBlank(client.configuration.serviceProviderEntityId)
    requires client.configuration.authnRequestBindingType == SAML2_POST_BINDING_URI
    requires client.configuration.comparisonType == Some("exact")
    ensures Contains(decoded, "Comparison=\"exact\"")
  {
    ExactComparisonAccepted(client);
    var r := client.GetRedirectionAction(session, requestId, issueInstant);
    decoded := DecodedAuthnRequest(r.value).value;
    ExactComparison(client, requestId, issueInstant);
  }

  method RelayStateScenario(client: SAML2Client, session: map<string, SessionValue>, requestId: string, issueInstant: string)
    returns (action: RedirectionAction)
    requires client.Accepted()
    requires SAML_RELAY_STATE_ATTRIBUTE in session && session[SAML_RELAY_STATE_ATTRIBUTE] == StringValue("relayState")
    ensures action.AutomaticFormPost? && action.url == client.identityProviderSsoUrl
    ensures |action.data| == 2 && SAML_REQUEST in action.data
    ensures RELAY_STATE in action.data && action.data[RELAY_STATE] == "relayState"
  {
    var r := client.GetRedirectionAction(session, requestId, issueInstant);
    action := r.value;
    RelayStateField(session, "relayState", action.data[SAML_REQUEST]);
  }

  method SignedPostScenario(client: SAML2Client, session: map<string, SessionValue>, requestId: string, issueInstant: string)
    returns (decoded: string)
    requires client.Accepted() && client.configuration.authnRequestSigned
    ensures !IsBlank(decoded)
  {
    var r := client.GetRedirectionAction(session, requestId, issueInstant);
    decoded := DecodedAuthnRequest(r.value).value;
    RequestNotBlank(client, client.Validate().value, requestId, issueInstant);
  }
}
