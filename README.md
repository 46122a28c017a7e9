# BaseTask of EasyNet, modelled in Dafny

EasyNet runs every HTTP request in a `BaseTask`, which is an Android
`AsyncTask`. A task's life has three parts:

- **`onPreExecute`** tells the listener the request is starting, stamps the
  start time, and registers the task with the `EasyNet` registry under the
  request's tag.
- **`doInBackground`** runs a `while (true)` loop. Each pass does the
  following:
  1. Appends the query parameters to the URL (`addUrlParams`).
  2. Opens a connection and reads the status code.
  3. On 301, 302 or 303, asks the listener whether to follow the `Location`
     header. If it may, it rewrites the request model and goes round again.
     If not, it stops with an "interrupted" partial response.

  On any other status, the pass picks the success or the error stream by
  `status / 100 == 2`, reads the body chunk by chunk (`readResponseBody`),
  builds the response with its response time, and calls `listener.finish`.

  Every exception becomes a `null` result. A `finally` block disconnects the
  last connection and deregisters the task.
- **`onPostExecute`** / **`onCancelled`** dispatch the outcome to the
  listener's callbacks on the primary thread. The extended callbacks are
  reserved for an `NBaseCallback`.

The model has six modules:

- `Types`: requests, responses, the listener kinds and the observable events.
  The events are listener callbacks, registry calls, and connections set up
  and released. The module also holds a counting function over event
  sequences.
- `BodyReader`: what `readResponseBody` delivers for a scripted stream
  (`ReadBody`), and its properties.
- `Dispatch`: the choice of stream, `onPostExecute` and `onCancelled`, as
  functions from the task's state to the callbacks they fire.
- `RedirectLoop`:
  - `addUrlParams` (`WithUrlParams`).
  - One pass of the loop (`Pass`) and the loop from a given pass on
    (`RunHops`).
  - The whole of `doInBackground` (`Background`).
  - The properties of the redirect loop, the catch and the cleanup.
- `Lifecycle`: `onPreExecute`, and the composition of the three phases, with
  the ordering guarantees of the whole event sequence.
- `Task`: the classes `RequestModel` (the mutable `NRequestModel`) and
  `BaseTask`. Each `BaseTask` method works on the object's fields as the Java
  does, and is proved to leave exactly the state that the specification
  function describes. For example, `ReadResponseBody` is proved against
  `ReadBody`, the loop of `DoInBackground` pass by pass against `Pass`, and
  the whole of it against `Background`.

The connection is a parameter: a script of `Hop`s, one per pass of the
loop.

- `OpenFails`: `setupConnection` throws, so `connection` keeps its previous
  value.
- `RequestFails`: the connection exists, then adding headers, writing the
  body or reading the status throws.
- `Answered`: the status, the `Location` value, the headers, and both
  streams.

The `Answered` hop also carries the answer that `listener.redirect` gives on
that pass. A script that runs out behaves as a connection that cannot be
opened.

Streams are scripted as chunks. Each chunk holds the bytes that one `read`
returned and the value `isCancelled()` had right after it. A stream ends
either at end of file or with an `IOException`.

The clock readings (`System.currentTimeMillis()`) are parameters.
`NDataBuilder.getQuery` and the byte-to-text decoding of
`ByteArrayOutputStream.toString` are uninterpreted function parameters.

`getErrorStream` may return null. `readResponseBody` does not guard
against it, so `read` on null throws, and the catch at line 137 turns that
into a null result (`ReadBody(NullStream)`, `ScenarioNullErrorStream`).

`isCancelled()` stays true once set. A cancellation that a read observed
therefore always leads to `onCancelled` rather than `onPostExecute`
(`Lifecycle.CancelledAtEnd`); a cancellation that no read observed is a
parameter of the whole run.

Source paths below are relative to the repository root.

## Model

| member | source | states |
|---|---|---|
| Task.BaseTask.constructor | easynet/src/main/java/pro/oncreate/easynet/processing/BaseTask.java:61-64 | the task keeps the listener and request model it was given, with no tag yet and nothing observed |
| Task.BaseTask.OnPreExecute | easynet/src/main/java/pro/oncreate/easynet/processing/BaseTask.java:66-74 | the request model, tag and observed events are those of `PreExecute`: only the start time changes, `listener.start` sees the request before that, and the task is registered last |
| Lifecycle.PreExecuteRegisters | easynet/src/main/java/pro/oncreate/easynet/processing/BaseTask.java:66-74 | onPreExecute changes only the start time; it registers the task exactly once, under the request's own tag, as its last action; `listener.start` is called with the request as it was, exactly when there is a listener; no connection or outcome callback happens |
| Task.BaseTask.AddUrlParams | easynet/src/main/java/pro/oncreate/easynet/processing/BaseTask.java:196-213 | the request model becomes `WithUrlParams` of the old one; only the URL field is written |
| RedirectLoop.AddUrlParamsEffect | easynet/src/main/java/pro/oncreate/easynet/processing/BaseTask.java:196-213 | addUrlParams changes nothing but the URL. The URL changes iff the chosen list is non-empty and encodes to a non-empty string. The chosen list is the body parameters of a query method without query parameters, and the query parameters otherwise. A changed URL is the old one + `?` + that encoding |
| Task.BaseTask.ReadResponseBody | easynet/src/main/java/pro/oncreate/easynet/processing/BaseTask.java:241-261 | the chunk-by-chunk loop returns exactly `ReadBody` of the stream. The loop keeps the buffered output equal to the concatenation of the chunks read so far and the flush counter at or below 1 MiB. It throws on the first chunk after which the task is cancelled |
| BodyReader.BodyDeliveredIff | easynet/src/main/java/pro/oncreate/easynet/processing/BaseTask.java:241-261 | a body is delivered iff the stream is not null, no read saw cancellation and the stream ends normally. The body is then every byte read, in order, and its length is the sum of the chunk lengths |
| BodyReader.CancellationDiscards | easynet/src/main/java/pro/oncreate/easynet/processing/BaseTask.java:246-249 | once any read sees the cancellation flag, the result is the cancellation exception, whatever was read and however the stream ends |
| BodyReader.BodyExtends | easynet/src/main/java/pro/oncreate/easynet/processing/BaseTask.java:246-257 | without cancellation, reading more chunks only extends the body: the shorter read's body is a prefix of the longer one's, followed by the extra chunks' bytes |
| Dispatch.JavaDiv | easynet/src/main/java/pro/oncreate/easynet/processing/BaseTask.java:236 | Java integer division truncates toward zero: the quotient is bounded by the operand on the side of zero |
| Dispatch.GetInputStreamFromConnection | easynet/src/main/java/pro/oncreate/easynet/processing/BaseTask.java:235-239 | `status / 100 == 2` (Java division) picks the success stream exactly for statuses 200 to 299; every other status, negative ones included, reads the error stream |
| Dispatch.OnPostExecute | easynet/src/main/java/pro/oncreate/easynet/processing/BaseTask.java:153-172 | with no listener, no callback fires. `finishUI` fires, with the result, iff there is a listener and the result is complete. An NBaseCallback hears of exactly one outcome; a plain listener only of a complete one. Every failure-style callback comes second, after `finishUIFailed`. A null result gives `preFailed` or `onFailed` with CONNECTION_ERROR, chosen by `enableDefaultListeners`. An interrupted result gives `onRedirectInterrupted` with its location. A complete result fires `finishUI` and nothing else; a plain listener hears nothing of a null or interrupted result |
| Dispatch.OnCancelled | easynet/src/main/java/pro/oncreate/easynet/processing/BaseTask.java:277-281 | `preTaskCancelled(request, tag)` fires once for an NBaseCallback and never otherwise |
| Task.BaseTask.OnPostExecute | easynet/src/main/java/pro/oncreate/easynet/processing/BaseTask.java:153-172 | the branch-by-branch method appends exactly the callbacks of `Dispatch.OnPostExecute` |
| Task.BaseTask.OnCancelled | easynet/src/main/java/pro/oncreate/easynet/processing/BaseTask.java:277-281 | the method appends exactly the callbacks of `Dispatch.OnCancelled` |
| Lifecycle.UiCallbacksOnly | easynet/src/main/java/pro/oncreate/easynet/processing/BaseTask.java:153-172 | whichever of onPostExecute and onCancelled runs, it fires only primary-thread callbacks. An NBaseCallback hears of exactly one outcome, any other listener of at most one |
| RedirectLoop.NarrowToInt | easynet/src/main/java/pro/oncreate/easynet/processing/BaseTask.java:128 | the `(int)` cast of the long difference is in the int range, congruent to the difference modulo 2^32, and equal to it when it fits |
| Task.BaseTask.LoopPass | easynet/src/main/java/pro/oncreate/easynet/processing/BaseTask.java:89-135 | one pass of the loop body leaves the request model, events, `connection` and exit that `Pass` gives for the old request model |
| Task.BaseTask.FollowRedirects | easynet/src/main/java/pro/oncreate/easynet/processing/BaseTask.java:89-136 | the `while (true)` loop ends in the state `RunHops` from pass 0 describes: the exit, the last connection, the request model and the events |
| Task.BaseTask.DoInBackground | easynet/src/main/java/pro/oncreate/easynet/processing/BaseTask.java:76-147 | doInBackground returns the result of `Background` and leaves its request model and events; the properties below are proved about `Background` |
| RedirectLoop.RedirectFollowed | easynet/src/main/java/pro/oncreate/easynet/processing/BaseTask.java:96-118 | an accepted 301/302/303 (always accepted without a listener) sets the URL to the location, clears both parameter lists and sets the form-urlencoded type, leaving start time and tag alone. It disconnects, then runs the next pass, whose addUrlParams leaves the new URL alone |
| RedirectLoop.RedirectRefused | easynet/src/main/java/pro/oncreate/easynet/processing/BaseTask.java:101-111 | a refused redirect ends the loop with a response carrying the current URL and the redirect status, no body and no headers, flagged interrupted with the refused location. No `listener.finish` is called and no other connection is set up |
| RedirectLoop.NonRedirectEndsLoop | easynet/src/main/java/pro/oncreate/easynet/processing/BaseTask.java:119-134 | any other status (307 and 308 included) ends the loop on that pass, with one connection. The result is the chosen stream's body, headers, status, end time and response time, or that stream's exception |
| RedirectLoop.PassResult | easynet/src/main/java/pro/oncreate/easynet/processing/BaseTask.java:89-135 | one pass leaves start time, tag, method, headers and flags alone; a pass that ends the loop delivers what `Delivered` describes |
| RedirectLoop.LoopResult | easynet/src/main/java/pro/oncreate/easynet/processing/BaseTask.java:89-136 | over any number of redirects: a complete response has a non-redirect status, a body, headers, the final URL and the response time measured from the start time. A partial response has a redirect status refused by a listener right after asking it. Any non-exception exit leaves a connection to release |
| RedirectLoop.PassEvents | easynet/src/main/java/pro/oncreate/easynet/processing/BaseTask.java:89-135 | one pass produces only connection, redirect-question and finish events; `listener.finish` fires once exactly when the pass completes the loop with a listener |
| RedirectLoop.LoopEvents | easynet/src/main/java/pro/oncreate/easynet/processing/BaseTask.java:89-136 | the same for the whole loop: `listener.finish` fires once iff the loop completes with a listener, never after a refused redirect or an exception |
| RedirectLoop.PassConnections | easynet/src/main/java/pro/oncreate/easynet/processing/BaseTask.java:91-118 | a pass sets up at most one connection; one that goes on to the next pass has released it; one that ends the loop leaves open only the connection it records |
| RedirectLoop.LoopConnections | easynet/src/main/java/pro/oncreate/easynet/processing/BaseTask.java:89-136 | within the loop no connection is set up while another is open, and the one left open is the loop's `connection` |
| RedirectLoop.DeregisteredOnce | easynet/src/main/java/pro/oncreate/easynet/processing/BaseTask.java:140-145 | on every exit the last event is the only registry call, `removeTask(tag)`, right after the disconnect of the last connection set up, when there is one |
| RedirectLoop.BackgroundResult | easynet/src/main/java/pro/oncreate/easynet/processing/BaseTask.java:137-146 | the result is null iff an exception was caught. A complete result has a non-redirect status, body, headers and response time from the start time. An interrupted one has a redirect status, location, no body and no headers, and follows the redirect question. `listener.finish` fires once iff the result is complete and there is a listener |
| RedirectLoop.ConnectionsReleased | easynet/src/main/java/pro/oncreate/easynet/processing/BaseTask.java:140-143 | over the whole of doInBackground connections are strictly sequential and none is left open, whatever the exit path |
| RedirectLoop.ScenarioRedirectAccepted | easynet/src/main/java/pro/oncreate/easynet/processing/BaseTask.java:112-118 | GET http://x/a answered by 302 to http://x/b and accepted: the second request goes to http://x/b, and the result carries that URL, status 200, an empty body (decoded from the zero bytes read, not null) and a response time of 500 |
| RedirectLoop.ScenarioRedirectRefused | easynet/src/main/java/pro/oncreate/easynet/processing/BaseTask.java:105-111 | the same redirect refused: the exact interrupted response and the exact event sequence (connect, ask, disconnect, deregister) |
| RedirectLoop.ScenarioTemporaryRedirectNotFollowed | easynet/src/main/java/pro/oncreate/easynet/processing/BaseTask.java:96-98 | a 307 is not followed: its error stream is the body of a complete result (a scripted stream; a real connection hands out an error stream only from 400 on) |
| RedirectLoop.ScenarioNullErrorStream | easynet/src/main/java/pro/oncreate/easynet/processing/BaseTask.java:235-239 | a 404 whose error stream is null gives a null result (not an empty body), after connect, disconnect and deregistration |
| Lifecycle.RegisteredThenDeregistered | easynet/src/main/java/pro/oncreate/easynet/processing/BaseTask.java:66-147 | over a whole task: `listener.start` comes first, the task is registered once before any connection, and deregistered once after the last connection event and `listener.finish`. Only primary-thread callbacks follow; an NBaseCallback hears of exactly one outcome, any other listener of at most one |
| Lifecycle.ObservedCancellationReported | easynet/src/main/java/pro/oncreate/easynet/processing/BaseTask.java:246-249 | a cancellation seen by a read gives a null result and ends the task in onCancelled: `preTaskCancelled` for an NBaseCallback, and no callback of onPostExecute for any listener |
| Lifecycle.ResponseTimeFromStart | easynet/src/main/java/pro/oncreate/easynet/processing/BaseTask.java:126-128 | a complete result's response time is the end time minus the start time stamped by onPreExecute, cast to int, and exactly that difference when it fits |

## Left out

- Threading: `AsyncTask` scheduling, the thread priority (line 78) and `onProgressUpdate`, which is empty, are not modelled. The three phases are composed in order.
- Networking: `openConnection`, `setupConnection`, `addHeaders` and `makeRequestBody` are left out. `setupConnection` and `makeRequestBody` are abstract, and `addHeaders` only sets request properties and logs. Their effect on the loop is which of `OpenFails`, `RequestFails` and `Answered` the script gives on that pass.
- `getResponseHeaders` returns the connection's header map. Only that is modelled; its logging branch is not.
- Logging (`NLog`) is not modelled.
- `NDataBuilder.getQuery` and `ByteArrayOutputStream.toString` are uninterpreted functions. `UnsupportedEncodingException` from `getQuery` is not modelled, since it cannot occur with the fixed UTF-8 charset.
- The `EasyNet` registry is reduced to the `AddTask`/`RemoveTask` events it receives. What it does with them is not part of this model.
- Clock readings are parameters.
- `DEFAULT_TIMEOUT_READ`, `DEFAULT_TIMEOUT_CONNECT`, `BUFFER_SIZE` and the `flush`/`close` calls of the output buffer do not change what is delivered, so they are not modelled. `BUFFER_SIZE` only bounds how many bytes one `read` returns.
- A missing `Location` header, where `getHeaderField` returns null, is not modelled. The location is always a string.
- Exceptions thrown by listener callbacks are not modelled.
- The Java `long` subtraction in the response time is taken as exact. Its overflow would need clock readings about 2^63 ms apart.
- `NRequestModel.clearParams` is not part of this model. It is taken to empty both the body and the query parameter lists, as its name and the redirect's purpose imply.
- The script is finite, so an endless redirect chain (the source has no redirect limit) cannot be scripted. A script that runs out behaves as a connection that cannot be opened.
