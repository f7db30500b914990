/**
 * Value types shared by the connection factory, the session and the portal
 * communicator: request records, what the transport hands back, the
 * repackaged `HttpResponse`, and the caller's `Action`.
 */
module Http {
  import opened Results

  /** Kotlin's `Byte` is signed. */
  newtype byte = x: int | -128 <= x < 128

  /** A `Map<String, String>` of form data or cookies: names are unique. */
  type Form = map<string, string>

  datatype HttpMethod = GET | POST

  /**
   * A configured, not yet executed request. A field left `None` was never
   * set by this code, so the HTTP library's own default applies.
   */
  datatype Request = Request(
    url: string,
    userAgent: Option<string>,
    headers: Form,
    data: Option<Form>,
    cookies: Option<Form>,
    httpMethod: Option<HttpMethod>,
    ignoreContentType: Option<bool>,
    timeout: Option<int>)

  /** What the HTTP library reports for one executed request. */
  datatype RawResponse = RawResponse(statusCode: int, statusMessage: string, body: seq<byte>, cookies: Form)

  /**
   * The outcome of handing a request to the transport: execution threw;
   * the response came back but the failure check rejected it, raising the
   * error it carries; it passed the
   * check but reading it back (status, message, body or cookies) threw; or
   * it passed and was read in full.
   */
  datatype Exchange =
    | Threw(error: Error)
    | JudgedFailure(rejected: RawResponse, error: Error)
    | ReadFailed(response: RawResponse, error: Error)
    | Completed(response: RawResponse)
  {
    /** The response passed the failure check, so its cookies reach the store. */
    predicate PassedCheck()
    {
      ReadFailed? || Completed?
    }
  }

  /** The immutable snapshot a session returns for one successful exchange. */
  datatype HttpResponse = HttpResponse(statusCode: int, statusMessage: string, content: seq<byte>, cookies: Form)

  /** A declarative description of one request to the portal. */
  datatype Action = Action(url: string, data: Option<Form>, httpMethod: HttpMethod, ignoreContentType: bool, timeout: int)
}
