/** The parts of a web exchange the model touches: the response headers of
    the web context, and the session store's key-value attributes. */
module Context {
  import opened Wrappers

  /** The `WWW-Authenticate` header (`HttpConstants.AUTHENTICATE_HEADER`). */
  const AUTHENTICATE_HEADER: string := "WWW-Authenticate"

  /** `after` differs from `before` only in header `name`, which it holds. */
  ghost predicate OnlyHeaderSet(before: map<string, string>, after: map<string, string>, name: string) {
    && name in after
    && after.Keys == before.Keys + {name}
    && forall h :: h in before && h != name ==> after[h] == before[h]
  }

  class WebContext {
    var responseHeaders: map<string, string>

    constructor (headers: map<string, string>)
      ensures responseHeaders == headers
    {
      responseHeaders := headers;
    }

    /** Sets one response header, replacing an earlier value. */
    method SetResponseHeader(name: string, value: string)
      modifies this
      ensures responseHeaders == old(responseHeaders)[name := value]
      ensures OnlyHeaderSet(old(responseHeaders), responseHeaders, name)
    {
      responseHeaders := responseHeaders[name := value];
    }
  }

  /** A session attribute: Java stores `String` tokens and `Long` dates. */
  datatype SessionValue = StringValue(s: string) | LongValue(n: int)

  /** The `SessionStore` of one session: `set`, `get`, and `set` to `null`,
      which removes the key. */
  class SessionStore {
    var attributes: map<string, SessionValue>

    constructor (attributes: map<string, SessionValue>)
      ensures this.attributes == attributes
    {
      this.attributes := attributes;
    }

    function Get(key: string): (r: Option<SessionValue>)
      reads this
      ensures r.Some? <==> key in attributes
      ensures r.Some? ==> r.value == attributes[key]
    {
      if key in attributes then Some(attributes[key]) else None
    }

    method Set(key: string, value: SessionValue)
      modifies this
      ensures attributes == old(attributes)[key := value]
    {
      attributes := attributes[key := value];
    }

    method Remove(key: string)
      modifies this
      ensures attributes == old(attributes) - {key}
    {
      attributes := attributes - {key};
    }
  }
}
