/**
 * Concrete exchanges against a scripted transport, checked against the
 * session's and the communicator's contracts alone.
 */
module Scenarios {
  import opened Results
  import opened Http
  import opened ConnectionFactories
  import opened Sessions
  import opened Communicators

  const SessionCookie: Form := map["sid" := "123"]

  /** A portal that answers every request with status 200 and the given cookies. */
  function Answering(cookies: Form): Request -> Exchange
  {
    request => Completed(RawResponse(200, "OK", [], cookies))
  }

  /**
   * A login POST that comes back with `sid=123` succeeds with exactly that
   * cookie, and the GET the session sends next, to any URL, carries it.
   */
  method LoginThenFetch(url: string) returns (login: Result<HttpResponse>, fetched: Result<HttpResponse>,
                                              ghost sent: Request)
    ensures login == Success(HttpResponse(200, "OK", [], SessionCookie))
    ensures fetched == Success(HttpResponse(200, "OK", [], map[]))
    ensures sent.url == url && sent.httpMethod == Some(GET) && sent.cookies == Some(SessionCookie)
  {
    var session := new Session.Build(None);
    login := session.Post("https://portal/login", Some(map["user" := "a", "pass" := "b"]), Answering(SessionCookie));
    assert session.cookies == map[] + SessionCookie;
    ghost var store := session.cookies;
    assert store == SessionCookie;
    assert |store| > 0 by {
      assert "sid" in store;
    }
    fetched := session.Get(url, None, false, 30000, Answering(map[]));
    sent := session.Sent[|session.Sent| - 1];
    assert sent == GetRequest(JsoupFactory, url, None, false, 30000, store);
    assert sent.cookies == JsoupCreateConnection(url, None, Some(store)).cookies;
  }

  /**
   * After a login, a GET whose execution throws fails with the thrown error
   * itself, and the store keeps the login cookie.
   */
  method TimeoutKeepsStore() returns (r: Result<HttpResponse>, store: Form)
    ensures r == Failure(Error("Read timed out")) && store == SessionCookie
  {
    var session := new Session.Build(None);
    var _ := session.Post("https://portal/login", None, Answering(SessionCookie));
    assert session.cookies == map[] + SessionCookie;
    r := session.Get("https://portal/info", None, false, 30000, request => Threw(Error("Read timed out")));
    store := session.cookies;
  }

  /**
   * A response the failure check rejects fails with the error the check
   * raised, and its cookies are not stored.
   */
  method RejectedResponseKeepsStore() returns (r: Result<HttpResponse>, store: Form)
    ensures r == Failure(Error("HTTP error fetching URL. Status=503")) && store == map[]
  {
    var session := new Session.Build(None);
    r := session.Post("https://portal/login", None,
                      request => JudgedFailure(RawResponse(503, "Service Unavailable", [], SessionCookie),
                                               Error("HTTP error fetching URL. Status=503")));
    store := session.cookies;
  }

  /**
   * A transform that throws on a successful response makes the request
   * fail, but the cookies the response brought were already stored.
   */
  method ThrowingTransformAfterSuccess() returns (r: Result<int>, store: Form)
    ensures r == Failure(Error("unexpected page")) && store == SessionCookie
  {
    var communicator := new PortalCommunicator.Build(null);
    var action := Action("https://portal/login", Some(map["user" := "a"]), POST, false, 30000);
    r := communicator.PerformAction(action, (response: HttpResponse) => Failure(Error("unexpected page")),
                                    Answering(SessionCookie));
    assert communicator.session.cookies == map[] + SessionCookie;
    store := communicator.session.cookies;
  }

  /**
   * A response that passes the failure check but whose body cannot be read
   * fails the call with the read error, after its cookies were stored.
   */
  method ReadFailureAfterMerge() returns (r: Result<HttpResponse>, store: Form)
    ensures r == Failure(Error("Read timed out")) && store == SessionCookie
  {
    var session := new Session.Build(None);
    r := session.Post("https://portal/login", None,
                      request => ReadFailed(RawResponse(200, "OK", [], SessionCookie), Error("Read timed out")));
    assert session.cookies == map[] + SessionCookie;
    store := session.cookies;
  }
}
