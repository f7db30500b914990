/**
 * The portal communicator (`JsoupPortalCommunicator`): it turns an action
 * or a bare URL into one session call, dispatching on the HTTP method, and
 * applies the caller's transform to a successful response. A failed session
 * call is passed on without running the transform; a transform that throws
 * becomes a failure.
 */
module Communicators {
  import opened Results
  import opened Http
  import opened ConnectionFactories
  import opened Sessions

  /** The defaults of `handleResponse` that `performRequest(url, transform)` relies on. */
  const DefaultIgnoreContentType: bool := false
  const DefaultTimeout: int := 30000

  /** The request one `handleResponse` call hands to the transport: `post` for POST, `get` otherwise. */
  function DispatchRequest(factory: ConnectionFactory, url: string, data: Option<Form>, httpMethod: HttpMethod,
                           ignoreContentType: bool, timeout: int, store: Form): (r: Request)
    ensures r.httpMethod == Some(httpMethod)
    ensures httpMethod == GET ==> r.ignoreContentType == Some(ignoreContentType) && r.timeout == Some(timeout)
    ensures httpMethod == POST && factory.JsoupFactory? ==> r.ignoreContentType.None? && r.timeout.None?
  {
    match httpMethod
    case POST => PostRequest(factory, url, data, store)
    case GET => GetRequest(factory, url, data, ignoreContentType, timeout, store)
  }

  /** A POST does not depend on the GET-only options: whatever they are, the same request goes out. */
  lemma PostIgnoresGetOptions(factory: ConnectionFactory, url: string, data: Option<Form>, store: Form,
                              ignore1: bool, timeout1: int, ignore2: bool, timeout2: int)
    ensures DispatchRequest(factory, url, data, POST, ignore1, timeout1, store)
         == DispatchRequest(factory, url, data, POST, ignore2, timeout2, store)
  {
  }

  /**
   * With the default factory, the request carries the session's whole store
   * as its cookies whenever the store is not empty, and no cookies otherwise.
   */
  lemma RequestCarriesStore(url: string, data: Option<Form>, httpMethod: HttpMethod, ignoreContentType: bool,
                            timeout: int, store: Form)
    ensures var r := DispatchRequest(JsoupFactory, url, data, httpMethod, ignoreContentType, timeout, store);
      && r.url == url && r.data == data && r.userAgent == Some(UserAgent) && r.headers == BaselineHeaders
      && r.cookies == (if |store| > 0 then Some(store) else None)
  {
  }

  class PortalCommunicator {
    const session: Session

    /** `JsoupPortalCommunicator.Builder().build()`: the given session, or a new default session. */
    constructor Build(s: Session?)
      ensures s != null ==> session == s
      ensures s == null ==> fresh(session) && session.Valid() && session.factory == JsoupFactory
      ensures s == null ==> session.cookies == map[] && session.Sent == [] && session.Received == []
    {
      var chosen: Session;
      if s != null {
        chosen := s;
      } else {
        chosen := new Session.Build(None);
      }
      session := chosen;
    }

    /**
     * `handleResponse`: exactly one session call, whose request is the
     * dispatched one built from the store at the time of the call; the
     * result is the session's result passed through `mapCatching`.
     */
    method HandleResponse<T>(url: string, data: Option<Form>, httpMethod: HttpMethod, ignoreContentType: bool,
                             timeout: int, transform: HttpResponse -> Result<T>, transport: Request -> Exchange)
      returns (r: Result<T>)
      requires session.Valid()
      modifies session
      ensures session.Valid()
      ensures session.Sent == old(session.Sent)
                + [DispatchRequest(session.factory, url, data, httpMethod, ignoreContentType, timeout, old(session.cookies))]
      ensures r == MapCatching(Respond(transport(session.Sent[|session.Sent| - 1])), transform)
      ensures session.cookies == StoreAfter(old(session.cookies), transport(session.Sent[|session.Sent| - 1]))
      ensures session.Received == old(session.Received) + MergedCookies(transport(session.Sent[|session.Sent| - 1]))
    {
      var response: Result<HttpResponse>;
      match httpMethod {
        case POST =>
          response := session.Post(url, data, transport);
        case GET =>
          response := session.Get(url, data, ignoreContentType, timeout, transport);
      }
      r := MapCatching(response, transform);
    }

    /** `performRequest(action, transform)`: the action's own URL, data, method, flag and timeout. */
    method PerformAction<T>(action: Action, transform: HttpResponse -> Result<T>, transport: Request -> Exchange)
      returns (r: Result<T>)
      requires session.Valid()
      modifies session
      ensures session.Valid()
      ensures session.Sent == old(session.Sent)
                + [DispatchRequest(session.factory, action.url, action.data, action.httpMethod,
                                   action.ignoreContentType, action.timeout, old(session.cookies))]
      ensures r == MapCatching(Respond(transport(session.Sent[|session.Sent| - 1])), transform)
      ensures session.cookies == StoreAfter(old(session.cookies), transport(session.Sent[|session.Sent| - 1]))
      ensures session.Received == old(session.Received) + MergedCookies(transport(session.Sent[|session.Sent| - 1]))
    {
      r := HandleResponse(action.url, action.data, action.httpMethod, action.ignoreContentType, action.timeout,
                          transform, transport);
    }

    /** `performRequest(url, transform)`: a GET with no data, the content type checked and a 30000 ms timeout. */
    method PerformUrl<T>(url: string, transform: HttpResponse -> Result<T>, transport: Request -> Exchange)
      returns (r: Result<T>)
      requires session.Valid()
      modifies session
      ensures session.Valid()
      ensures session.Sent == old(session.Sent)
                + [GetRequest(session.factory, url, None, DefaultIgnoreContentType, DefaultTimeout, old(session.cookies))]
      ensures r == MapCatching(Respond(transport(session.Sent[|session.Sent| - 1])), transform)
      ensures session.cookies == StoreAfter(old(session.cookies), transport(session.Sent[|session.Sent| - 1]))
      ensures session.Received == old(session.Received) + MergedCookies(transport(session.Sent[|session.Sent| - 1]))
    {
      r := HandleResponse(url, None, GET, DefaultIgnoreContentType, DefaultTimeout, transform, transport);
    }
  }
}
