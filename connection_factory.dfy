/**
 * Building a configured, unexecuted request: the default factory fixes the
 * user agent and three content-negotiation headers, attaches form data
 * when it is given and cookies only when there are some.
 */
module ConnectionFactories {
  import opened Results
  import opened Http

  const UserAgent: string := "Mozilla/5.0 (X11; Ubuntu; Linux x86_64; rv:97.0) Gecko/20100101 Firefox/97.0"

  const BaselineHeaders: Form := map[
    "Accept" := "text/html,application/xhtml+xml,application/xml;q=0.9,image/avif,image/webp,*/*;q=0.8",
    "Accept-Encoding" := "gzip, deflate, br",
    "Accept-Language" := "es-MX,es;q=0.8,en-US;q=0.5,en;q=0.3"
  ]

  /** A freshly opened connection to `url`: nothing configured yet. */
  function Connect(url: string): Request
  {
    Request(url, None, map[], None, None, None, None, None)
  }

  /**
   * The default factory, configuring a fresh connection step by step:
   * user agent, headers, then data and cookies when the attachment rule allows.
   */
  function JsoupCreateConnection(url: string, requestData: Option<Form>, cookies: Option<Form>): (r: Request)
    ensures r.url == url
    ensures r.userAgent == Some(UserAgent)
    ensures r.headers.Keys == {"Accept", "Accept-Encoding", "Accept-Language"}
    ensures r.headers["Accept"] == "text/html,application/xhtml+xml,application/xml;q=0.9,image/avif,image/webp,*/*;q=0.8"
    ensures r.headers["Accept-Encoding"] == "gzip, deflate, br"
    ensures r.headers["Accept-Language"] == "es-MX,es;q=0.8,en-US;q=0.5,en;q=0.3"
    ensures r.data.Some? <==> requestData.Some?
    ensures r.data.Some? ==> r.data == requestData
    ensures r.cookies.Some? <==> cookies.Some? && |cookies.value| > 0
    ensures r.cookies.Some? ==> r.cookies == cookies
    ensures r.httpMethod.None? && r.ignoreContentType.None? && r.timeout.None?
  {
    var c := Connect(url);
    var c := c.(userAgent := Some(UserAgent));
    var c := c.(headers := c.headers + BaselineHeaders);
    var c := if requestData.Some? then c.(data := requestData) else c;
    if cookies.Some? && |cookies.value| > 0 then c.(cookies := cookies) else c
  }

  /** The connection-construction strategy a session is built with. */
  datatype ConnectionFactory =
    | JsoupFactory
    | CustomConnectionFactory(create: (string, Option<Form>, Option<Form>) -> Request)
  {
    function CreateConnection(url: string, requestData: Option<Form>, cookies: Option<Form>): (r: Request)
      ensures JsoupFactory? ==> r.userAgent == Some(UserAgent) && r.headers == BaselineHeaders
      ensures JsoupFactory? ==> r.httpMethod.None? && (r.cookies.Some? <==> cookies.Some? && |cookies.value| > 0)
    {
      match this
      case JsoupFactory => JsoupCreateConnection(url, requestData, cookies)
      case CustomConnectionFactory(create) => create(url, requestData, cookies)
    }
  }

  /** An empty cookie map is not attached: the request goes out with no cookies at all. */
  lemma EmptyCookiesNotAttached(url: string, requestData: Option<Form>)
    ensures JsoupCreateConnection(url, requestData, Some(map[])).cookies == None
    ensures JsoupCreateConnection(url, requestData, Some(map[])) == JsoupCreateConnection(url, requestData, None)
  {
  }
}
