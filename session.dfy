/**
 * The cookie-aware session. It owns a mutable cookie store, builds every
 * request with the store's current contents, hands the request to the
 * transport, and once the response passes the failure check merges the
 * returned cookies into the store before repackaging the response. A
 * failure before the check leaves the store untouched; one while the
 * response is read back comes after the merge.
 */
module Sessions {
  import opened Results
  import opened Http
  import opened ConnectionFactories

  /** The configuration a GET applies to the factory's request. */
  function ConfigureGet(request: Request, ignoreContentType: bool, timeout: int): Request
  {
    request.(ignoreContentType := Some(ignoreContentType), timeout := Some(timeout), httpMethod := Some(GET))
  }

  /** The configuration a POST applies: the method only. */
  function ConfigurePost(request: Request): Request
  {
    request.(httpMethod := Some(POST))
  }

  /** The request `get` hands to the transport, given the store at the time of the call. */
  function GetRequest(factory: ConnectionFactory, url: string, params: Option<Form>, ignoreContentType: bool,
                      timeout: int, store: Form): (r: Request)
    ensures r.httpMethod == Some(GET) && r.ignoreContentType == Some(ignoreContentType) && r.timeout == Some(timeout)
  {
    ConfigureGet(factory.CreateConnection(url, params, Some(store)), ignoreContentType, timeout)
  }

  /** The request `post` hands to the transport, given the store at the time of the call. */
  function PostRequest(factory: ConnectionFactory, url: string, data: Option<Form>, store: Form): (r: Request)
    ensures r.httpMethod == Some(POST)
    ensures factory.JsoupFactory? ==> r.ignoreContentType.None? && r.timeout.None?
  {
    ConfigurePost(factory.CreateConnection(url, data, Some(store)))
  }

  /**
   * What a call returns for a transport outcome: the error raised by the
   * execution, by the failure check or while reading the response back, or
   * the response's status code, status message, body and cookies, exactly.
   */
  function Respond(outcome: Exchange): (r: Result<HttpResponse>)
    ensures r.Success? <==> outcome.Completed?
    ensures !outcome.Completed? ==> r == Failure(outcome.error)
    ensures r.Success? ==>
      && r.value.statusCode == outcome.response.statusCode
      && r.value.statusMessage == outcome.response.statusMessage
      && r.value.content == outcome.response.body
      && r.value.cookies == outcome.response.cookies
  {
    match outcome
    case Threw(e) => Failure(e)
    case JudgedFailure(_, e) => Failure(e)
    case ReadFailed(_, e) => Failure(e)
    case Completed(raw) => Success(HttpResponse(raw.statusCode, raw.statusMessage, raw.body, raw.cookies))
  }

  /**
   * The store after a call: once the response passes the failure check every
   * returned cookie is written in, overwriting a same-named entry, and every
   * other entry keeps its value; a call that fails before the check changes
   * nothing. No entry is ever removed.
   */
  function StoreAfter(store: Form, outcome: Exchange): (after: Form)
    ensures !outcome.PassedCheck() ==> after == store
    ensures store.Keys <= after.Keys
    ensures outcome.PassedCheck() ==> after.Keys == store.Keys + outcome.response.cookies.Keys
    ensures outcome.PassedCheck() ==> forall name :: name in outcome.response.cookies ==>
              after[name] == outcome.response.cookies[name]
    ensures forall name :: name in store && (outcome.PassedCheck() ==> name !in outcome.response.cookies) ==>
              after[name] == store[name]
  {
    if outcome.PassedCheck() then store + outcome.response.cookies else store
  }

  /** The cookie maps an exchange adds to the session's record of merged exchanges. */
  function MergedCookies(outcome: Exchange): seq<Form>
  {
    if outcome.PassedCheck() then [outcome.response.cookies] else []
  }

  /** The store after a series of exchanges that passed the failure check: a left fold of map overwrite, from empty. */
  function Accumulate(received: seq<Form>): Form
  {
    if received == [] then map[] else Accumulate(received[..|received| - 1]) + received[|received| - 1]
  }

  /** `received[i]` is the last of the exchanges that returned a cookie called `name`. */
  ghost predicate LastWrite(received: seq<Form>, name: string, i: int)
  {
    && 0 <= i < |received|
    && name in received[i]
    && forall j :: i < j < |received| ==> name !in received[j]
  }

  /**
   * The store holds exactly the cookies some exchange returned, each with
   * the value of the last exchange that returned it.
   */
  lemma {:induction false} AccumulateLastWriteWins(received: seq<Form>, name: string)
    ensures name in Accumulate(received) <==> exists i :: 0 <= i < |received| && name in received[i]
    ensures forall i :: LastWrite(received, name, i) ==> name in Accumulate(received) && Accumulate(received)[name] == received[i][name]
  {
    if received != [] {
      var n := |received| - 1;
      var prefix := received[..n];
      AccumulateLastWriteWins(prefix, name);
      assert forall i :: 0 <= i < n ==> received[i] == prefix[i];
      if name in received[n] {
        assert forall i :: LastWrite(received, name, i) ==> i == n;
      } else {
        forall i | LastWrite(received, name, i)
          ensures name in Accumulate(received) && Accumulate(received)[name] == received[i][name]
        {
          assert LastWrite(prefix, name, i);
        }
        if name in Accumulate(received) {
          var i :| 0 <= i < n && name in prefix[i];
          assert name in received[i];
        }
      }
    }
  }

  /** Later exchanges never remove a cookie: the store only grows. */
  lemma {:induction false} AccumulateNeverRemoves(received: seq<Form>, more: seq<Form>)
    ensures Accumulate(received).Keys <= Accumulate(received + more).Keys
  {
    if more == [] {
      assert received + more == received;
    } else {
      var all := received + more;
      assert all[..|all| - 1] == received + more[..|more| - 1];
      AccumulateNeverRemoves(received, more[..|more| - 1]);
    }
  }

  /**
   * A session (`DefaultSession`). `cookies` is the store; the ghost fields
   * record, in order, the requests handed to the transport and the cookie
   * maps of the exchanges whose response passed the failure check.
   */
  class Session {
    const factory: ConnectionFactory
    var cookies: Form
    ghost var Sent: seq<Request>
    ghost var Received: seq<Form>

    /** The store is the overwrite-fold of the cookies of every exchange that passed the failure check. */
    ghost predicate Valid()
      reads this
    {
      cookies == Accumulate(Received)
    }

    /** `DefaultSession.Builder().build()`: the given factory, or the default one. */
    constructor Build(connectionFactory: Option<ConnectionFactory>)
      ensures Valid()
      ensures connectionFactory.Some? ==> factory == connectionFactory.value
      ensures connectionFactory.None? ==> factory == JsoupFactory
      ensures cookies == map[] && Sent == [] && Received == []
    {
      factory := if connectionFactory.Some? then connectionFactory.value else JsoupFactory;
      cookies := map[];
      Sent := [];
      Received := [];
    }

    /** `get`: a GET with the given data, content-type flag and timeout. */
    method Get(url: string, params: Option<Form>, ignoreContentType: bool, timeout: int, transport: Request -> Exchange)
      returns (r: Result<HttpResponse>)
      requires Valid()
      modifies this
      ensures Valid()
      ensures Sent == old(Sent) + [GetRequest(factory, url, params, ignoreContentType, timeout, old(cookies))]
      ensures r == Respond(transport(Sent[|Sent| - 1]))
      ensures cookies == StoreAfter(old(cookies), transport(Sent[|Sent| - 1]))
      ensures Received == old(Received) + MergedCookies(transport(Sent[|Sent| - 1]))
    {
      r := ExecuteRequest(url, params, request => ConfigureGet(request, ignoreContentType, timeout), transport);
    }

    /** `post`: a POST with the given data; timeout and content-type handling stay at the library's defaults. */
    method Post(url: string, data: Option<Form>, transport: Request -> Exchange) returns (r: Result<HttpResponse>)
      requires Valid()
      modifies this
      ensures Valid()
      ensures Sent == old(Sent) + [PostRequest(factory, url, data, old(cookies))]
      ensures r == Respond(transport(Sent[|Sent| - 1]))
      ensures cookies == StoreAfter(old(cookies), transport(Sent[|Sent| - 1]))
      ensures Received == old(Received) + MergedCookies(transport(Sent[|Sent| - 1]))
    {
      r := ExecuteRequest(url, data, ConfigurePost, transport);
    }

    /**
     * `executeRequest`: build the request from the current store, configure
     * and execute it; check for failure before touching the store; then
     * write every returned cookie into the store, one at a time.
     */
    method ExecuteRequest(url: string, requestData: Option<Form>, configure: Request -> Request,
                          transport: Request -> Exchange) returns (r: Result<HttpResponse>)
      requires Valid()
      modifies this
      ensures Valid()
      ensures Sent == old(Sent) + [configure(factory.CreateConnection(url, requestData, Some(old(cookies))))]
      ensures r == Respond(transport(Sent[|Sent| - 1]))
      ensures cookies == StoreAfter(old(cookies), transport(Sent[|Sent| - 1]))
      ensures Received == old(Received) + MergedCookies(transport(Sent[|Sent| - 1]))
    {
      var request := configure(factory.CreateConnection(url, requestData, Some(cookies)));
      Sent := Sent + [request];
      var outcome := transport(request);
      match outcome {
        case Threw(e) =>
          r := Failure(e);
        case JudgedFailure(_, e) =>
          r := Failure(e);
        case ReadFailed(raw, e) =>
          StoreCookies(raw.cookies);
          Received := Received + [raw.cookies];
          assert Received[..|Received| - 1] == old(Received);
          r := Failure(e);
        case Completed(raw) =>
          StoreCookies(raw.cookies);
          Received := Received + [raw.cookies];
          assert Received[..|Received| - 1] == old(Received);
          r := Success(HttpResponse(raw.statusCode, raw.statusMessage, raw.body, raw.cookies));
      }
    }

    /** The `forEach` over the returned cookies: each one is written into the store, overwriting. */
    method StoreCookies(incoming: Form)
      modifies this`cookies
      ensures cookies == old(cookies) + incoming
    {
      var pending := incoming.Keys;
      while pending != {}
        invariant pending <= incoming.Keys
        invariant cookies.Keys == old(cookies).Keys + (incoming.Keys - pending)
        invariant forall name :: name in incoming.Keys - pending ==> cookies[name] == incoming[name]
        invariant forall name :: name in old(cookies).Keys - (incoming.Keys - pending) ==> cookies[name] == old(cookies)[name]
        decreases pending
      {
        var name :| name in pending;
        cookies := cookies[name := incoming[name]];
        pending := pending - {name};
      }
    }
  }
}
