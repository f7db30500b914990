# Portal session and transport core, in Dafny

A model of the request-orchestration layer of the Nauta portal client
(`cu.suitetecsa.sdk.network` and `cu.suitetecsa.sdk.util`):

- **Connection factory** (`ConnectionFactories`): builds a configured,
  unexecuted request with a fixed user agent and three fixed
  content-negotiation headers. Form data is attached whenever it is given.
  Cookies are attached only when the map is given and not empty.
- **Session** (`Sessions.Session`): owns a mutable cookie store. Every GET
  or POST builds its request from the store's current contents and hands it
  to the transport. If the execution throws, or the response is judged a
  failure, the call fails before the store is touched. Otherwise every
  returned cookie is written into the store, overwriting a same-named
  entry. The response's status code, status message, body and cookies are
  then read back and repackaged as an `HttpResponse`. If that reading
  throws, the call fails, and the cookies are already stored.
- **Portal communicator** (`Communicators.PortalCommunicator`): dispatches
  an action, or a bare URL, to exactly one `post` or `get` of its session.
  It passes the session's result through `mapCatching` with the caller's
  transform. A failed call skips the transform. A transform that throws
  turns into a failure.
- **Exception handler** (`ExceptionHandling`): composes
  `message :: e1; e2; …`, or `message :: No specific error message` for an
  empty list, and hands the text to an exception factory.

The network is a parameter `transport: Request -> Exchange`. An `Exchange`
is one of four outcomes:
- `Threw(error)`: execution threw.
- `JudgedFailure(response, error)`: the response came back and the failure check rejected it, raising `error`.
- `ReadFailed(response, error)`: the response passed the check, but reading
  back its status, message, body or cookies threw.
- `Completed(response)`: the response passed the check and was read in full.

The session records, as ghost state, the requests it handed to the
transport (`Sent`). It also records the cookie maps of the exchanges whose
response passed the failure check (`Received`). Its invariant `Valid()` says that the store is the
left fold of map overwrite over `Received`, starting from the empty map.

Four consequences of the code worth knowing:

- Every failure reaches the caller as the error that was raised. A thrown
  transport error, such as a read timeout, is not rewrapped into a
  communication-failure message (`Scenarios.TimeoutKeepsStore`). Only the
  failure check is handed the text "There was a failure to communicate
  with the portal" (`Scenarios.RejectedResponseKeepsStore`).
- Request data is attached whenever it is non-null, for GET as well as for
  POST. The method plays no part in the attachment rule.
- When a transform throws on a successful response, the cookies of that
  response are already in the store (`Scenarios.ThrowingTransformAfterSuccess`).
- A failure while the response is read back, such as a body that times out,
  fails the call after the cookie merge (`Scenarios.ReadFailureAfterMerge`).

## Model

| member | source | states |
|---|---|---|
| `ConnectionFactories.JsoupCreateConnection` | src/main/kotlin/cu/suitetecsa/sdk/network/JsoupConnectionFactory.kt:6-34 | the request targets `url` and carries the fixed user agent and exactly the three fixed headers with their values; data is attached iff it is non-null, and then unchanged; cookies are attached iff the map is non-null and non-empty, and then unchanged; no method, timeout or content-type flag is set |
| `ConnectionFactories.EmptyCookiesNotAttached` | src/main/kotlin/cu/suitetecsa/sdk/network/JsoupConnectionFactory.kt:33 | an empty cookie map leaves the request cookie-less, exactly as if no map were given |
| `ConnectionFactories.ConnectionFactory.CreateConnection` | src/main/kotlin/cu/suitetecsa/sdk/network/DefaultSession.kt:66 | the default factory's requests carry the user agent and baseline headers, set no method, and carry cookies iff the map is non-empty |
| `Sessions.GetRequest` | src/main/kotlin/cu/suitetecsa/sdk/network/DefaultSession.kt:27-38 | a GET request sets method GET and the caller's content-type flag and timeout |
| `Sessions.PostRequest` | src/main/kotlin/cu/suitetecsa/sdk/network/DefaultSession.kt:48-49 | a POST request sets method POST; with the default factory it sets no timeout and no content-type flag |
| `Sessions.Respond` | src/main/kotlin/cu/suitetecsa/sdk/network/DefaultSession.kt:65-77 | a call succeeds iff the exchange completed; every failure returns the error raised by the execution, by the failure check or while reading the response back, as it is; a success carries exactly the response's status code, status message, body and cookies |
| `Sessions.StoreAfter` | src/main/kotlin/cu/suitetecsa/sdk/network/DefaultSession.kt:66-68 | when the call fails before the failure check passes, the store is unchanged; once it passes, every returned cookie is in the store with the returned value and every other entry keeps its value; no key is ever removed |
| `Sessions.AccumulateLastWriteWins` | src/main/kotlin/cu/suitetecsa/sdk/network/DefaultSession.kt:15-68 | after a series of merged exchanges a cookie is in the store iff some exchange returned it, and its value is the one from the last exchange that returned it |
| `Sessions.AccumulateNeverRemoves` | src/main/kotlin/cu/suitetecsa/sdk/network/DefaultSession.kt:15-68 | more merged exchanges never remove a stored cookie |
| `Sessions.Session.Build` | src/main/kotlin/cu/suitetecsa/sdk/network/DefaultSession.kt:101-105 | a new session uses the given factory, or the default one, and starts with an empty store |
| `Sessions.Session.Get` | src/main/kotlin/cu/suitetecsa/sdk/network/DefaultSession.kt:27-38 | exactly one GET request, built from the store before the call, goes to the transport; result and new store are `Respond` and `StoreAfter` of its outcome; the returned cookies join the record of merged exchanges iff the response passed the failure check; the store invariant holds |
| `Sessions.Session.Post` | src/main/kotlin/cu/suitetecsa/sdk/network/DefaultSession.kt:48-49 | the same for exactly one POST request with the given data |
| `Sessions.Session.ExecuteRequest` | src/main/kotlin/cu/suitetecsa/sdk/network/DefaultSession.kt:61-77 | the request is the factory's, given the current store, then configured; the failure check precedes the merge; a failure while reading the response back comes after it; the store stays the overwrite-fold of the cookies of every exchange that passed the check |
| `Sessions.Session.StoreCookies` | src/main/kotlin/cu/suitetecsa/sdk/network/DefaultSession.kt:68 | writing the returned cookies one at a time leaves the store equal to the old store overwritten by the returned map |
| `Communicators.DispatchRequest` | src/main/kotlin/cu/suitetecsa/sdk/network/JsoupPortalCommunicator.kt:29-31 | the request carries the action's method; a GET carries the given flag and timeout; a POST through the default factory carries neither |
| `Communicators.PostIgnoresGetOptions` | src/main/kotlin/cu/suitetecsa/sdk/network/JsoupPortalCommunicator.kt:29-30 | a POST sends the same request whatever the content-type flag and timeout are |
| `Communicators.RequestCarriesStore` | src/main/kotlin/cu/suitetecsa/sdk/network/DefaultSession.kt:66 | with the default factory every request carries the URL, the data, the user agent and headers, and the whole current store as cookies when it is non-empty |
| `Communicators.PortalCommunicator.Build` | src/main/kotlin/cu/suitetecsa/sdk/network/JsoupPortalCommunicator.kt:81-82 | the given session is used, otherwise a fresh default session with an empty store |
| `Communicators.PortalCommunicator.HandleResponse` | src/main/kotlin/cu/suitetecsa/sdk/network/JsoupPortalCommunicator.kt:21-33 | exactly one session call goes out, `post` for POST and `get` with the given data, flag and timeout for GET; the result is the session's result through `mapCatching` with the transform; the store and the record of merged exchanges change as that call says |
| `Communicators.PortalCommunicator.PerformAction` | src/main/kotlin/cu/suitetecsa/sdk/network/JsoupPortalCommunicator.kt:42-50 | the same, with the action's own URL, data, method, flag and timeout |
| `Communicators.PortalCommunicator.PerformUrl` | src/main/kotlin/cu/suitetecsa/sdk/network/JsoupPortalCommunicator.kt:59-60 | the same as a GET with no data, content-type flag false and timeout 30000 |
| `Results.MapCatching` | src/main/kotlin/cu/suitetecsa/sdk/network/JsoupPortalCommunicator.kt:32 | a failure is returned as it is; a success gives what the transform gives on its value |
| `Results.FailureSkipsTransform` | src/main/kotlin/cu/suitetecsa/sdk/network/JsoupPortalCommunicator.kt:32 | on a failed session call the result does not depend on the transform and is the original failure |
| `Results.ThrowingTransformFails` | src/main/kotlin/cu/suitetecsa/sdk/network/JsoupPortalCommunicator.kt:28-32 | a transform that throws on the response gives a failure carrying what it threw |
| `ExceptionHandling.JoinPlacesPart` | src/main/kotlin/cu/suitetecsa/sdk/util/ExceptionHandler.kt:19 | in the joined text each part stands at its offset (the earlier parts, each followed by one separator), and the last part ends the text |
| `ExceptionHandling.JoinSeparates` | src/main/kotlin/cu/suitetecsa/sdk/util/ExceptionHandler.kt:19 | exactly one separator stands between consecutive parts |
| `ExceptionHandling.ComposeMessage` | src/main/kotlin/cu/suitetecsa/sdk/util/ExceptionHandler.kt:17-23 | the text always starts with `message :: `; it is `message :: No specific error message` for no errors and `message :: ` followed by the errors joined with `; ` otherwise |
| `ExceptionHandling.ErrorsAppearInOrder` | src/main/kotlin/cu/suitetecsa/sdk/util/ExceptionHandler.kt:18-23 | every error appears after the marker at its place in list order, followed by `; ` when another error comes after it; the last error ends the text |
| `ExceptionHandling.SingleErrorFollowsMarker` | src/main/kotlin/cu/suitetecsa/sdk/util/ExceptionHandler.kt:18-23 | a one-element list `[e]` yields `message :: e` |
| `ExceptionHandling.PlaceholderIndistinguishable` | src/main/kotlin/cu/suitetecsa/sdk/util/ExceptionHandler.kt:18-23 | an empty list and a lone error reading "No specific error message" compose to the same text |
| `ExceptionHandling.ExceptionFactory.CreateException` | src/main/kotlin/cu/suitetecsa/sdk/util/ExceptionHandler.kt:49 | a factory for a class creates an exception of that class carrying the given message |
| `ExceptionHandling.ExceptionHandler.HandleException` | src/main/kotlin/cu/suitetecsa/sdk/util/ExceptionHandler.kt:17-24 | the factory is applied once, to the composed text, and its exception is returned unchanged |
| `ExceptionHandling.HandlerBuilder.SetExceptionFactory` | src/main/kotlin/cu/suitetecsa/sdk/util/ExceptionHandler.kt:40 | setting a factory records it and keeps the exception class |
| `ExceptionHandling.HandlerBuilder.Build` | src/main/kotlin/cu/suitetecsa/sdk/util/ExceptionHandler.kt:49 | the handler uses the factory that was set, otherwise a factory for the builder's exception class |
| `ExceptionHandling.NewBuilder` | src/main/kotlin/cu/suitetecsa/sdk/util/ExceptionHandler.kt:31-32 | a builder made without arguments uses the class `Exception` and has no factory set |
| `ExceptionHandling.DefaultHandlerCreatesException` | src/main/kotlin/cu/suitetecsa/sdk/util/ExceptionHandler.kt:31-49 | a handler built without a factory creates an `Exception` carrying the composed message |
| `Scenarios.LoginThenFetch` | src/main/kotlin/cu/suitetecsa/sdk/network/DefaultSession.kt:61-77 | a login POST answered with `sid=123` succeeds with exactly that cookie, and the GET request the session sends next carries `sid=123` and succeeds |
| `Scenarios.TimeoutKeepsStore` | src/main/kotlin/cu/suitetecsa/sdk/network/DefaultSession.kt:65-68 | a GET whose execution throws fails with the thrown error and leaves the login cookie in the store |
| `Scenarios.RejectedResponseKeepsStore` | src/main/kotlin/cu/suitetecsa/sdk/network/DefaultSession.kt:66-68 | a response the failure check rejects fails with the error the check raised, and its cookies are not stored |
| `Scenarios.ThrowingTransformAfterSuccess` | src/main/kotlin/cu/suitetecsa/sdk/network/JsoupPortalCommunicator.kt:28-32 | a throwing transform fails the request, while the response's cookies are already stored |
| `Scenarios.ReadFailureAfterMerge` | src/main/kotlin/cu/suitetecsa/sdk/network/DefaultSession.kt:66-76 | a response that passes the failure check but cannot be read back fails the call with the read error, after its cookies were stored |

## Left out

- Network execution (`Jsoup.connect`, `execute()`) is not modelled. The transport is a parameter `Request -> Exchange`.
- Sessions.Respond: the failure check `throwExceptionOnFailure` is an extension that is not part of this model. The code hands it the text "There was a failure to communicate with the portal". What it raises, and whether that message is the text as given, is not visible. Its verdict and the error it raises are part of the transport outcome (`JudgedFailure`).
- Sessions.Session.ExecuteRequest: a connection factory that throws is not modelled. A caller's factory set through the builder is an example, and so is `Jsoup.connect` rejecting a malformed URL. Every modelled factory returns a request. In the code such a throw fails the call before any request is sent, and the store is left as it was.
- What the HTTP library does with a request is not modelled: its own default headers, redirects, timeouts and content-type checks. A request field left `None` means "not set by this code".
- The exception factory implementation `ExceptionFactoryImpl` is not part of this model. It creates an instance of a class by reflection. The class-based factory here stands for it as a value holding the class name and the message.
- Kotlin's `runCatching` catching any `Throwable` is modelled by the `Failure` variant of `Result`.
- The communicator's session is always the modelled `Sessions.Session`, which never throws. `withSession` accepts any `Session`. A caller's own session whose `get` or `post` throws is not modelled; in the code the outer `runCatching` of `handleResponse` turns that throw into a failure.
- The `Session` interface is not part of this model, including the default arguments of `get` (`ignoreContentType = false`, `timeout = 30000`). The communicator always passes these values explicitly. The `ConnectionFactory` interface is modelled, with the default factory and a caller-supplied one.
- The builders' setters `connectionFactory(…)` and `withSession(…)` are folded into the constructors' optional arguments.
- Thread safety of the cookie store is not modelled; one caller drives a session.
- The data classes `AccountInfo` and `Connection`, the one-line exception classes and the `Elements` destructuring helper hold no logic of this core.
