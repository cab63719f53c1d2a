/** The network replaced by abstract replies, the request configuration
    the interceptors edit, and the browser storage their token comes from. */
module Http {
  import opened Values

  const Unauthorized := 401
  const AuthorizationHeader := "Authorization"
  const BearerPrefix := "Bearer "

  /** A rejected request: the HTTP status if a response arrived, the server's
      `response.data.message`, and the error's own `message`. */
  datatype Failure = Failure(status: Option<int>, serverMessage: Option<string>, message: Option<string>)

  /** The outcome of one request. */
  datatype Reply<T> = Ok(body: T) | Err(failure: Failure)

  predicate IsUnauthorized(f: Failure) {
    f.status == Some(Unauthorized)
  }

  /** `error.response?.data?.message || fallback`. */
  function ServerMessageOr(f: Failure, fallback: string): (m: string)
    ensures Filled(f.serverMessage) ==> m == f.serverMessage.value
    ensures !Filled(f.serverMessage) ==> m == fallback
  {
    OrElse(f.serverMessage, fallback)
  }

  /** The headers after a request interceptor has looked at the stored token:
      "Authorization" carries "Bearer " + token exactly when a token is
      stored; every other header is kept, and with no token nothing changes. */
  function WithBearer(headers: map<string, string>, stored: Option<string>): (h: map<string, string>)
    ensures h.Keys == if Filled(stored) then headers.Keys + {AuthorizationHeader} else headers.Keys
    ensures Filled(stored) ==> h[AuthorizationHeader] == BearerPrefix + stored.value
    ensures forall k :: k in headers && k != AuthorizationHeader ==> h[k] == headers[k]
    ensures !Filled(stored) ==> h == headers
  {
    if Filled(stored) then headers[AuthorizationHeader := BearerPrefix + stored.value] else headers
  }

  /** An axios request configuration; interceptors edit its headers in place. */
  class RequestConfig {
    var headers: map<string, string>

    constructor (headers: map<string, string>)
      ensures this.headers == headers
    {
      this.headers := headers;
    }
  }

  /** The browser's local storage, reduced to the one entry the client uses,
      'token'. It is one object: the session store, the `api` client and the
      Redux auth slice each hold a reference to the same instance, so a token
      one of them writes or removes is what the others read next. */
  class LocalStorage {
    var token: Option<string>

    constructor (token: Option<string>)
      ensures this.token == token
    {
      this.token := token;
    }
  }
}
