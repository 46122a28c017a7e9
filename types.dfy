/** Values that the task engine of EasyNet reads, produces and reports:
    requests, responses, the scripted connection that stands in for
    HttpURLConnection, and the events observable from outside the task
    (listener callbacks, task-registry calls, connections opened and released). */
module Types {

  datatype Option<+T> = None | Some(value: T)

  type byte = b: int | 0 <= b < 256

  /** One entry of a header or parameter list (an NKeyValueModel). */
  datatype KeyValue = KeyValue(key: string, value: string)

  /** The request's HTTP method. Only one thing about it matters to the engine:
      whether it is a QueryMethod, whose parameters travel in the query string. */
  datatype Method = QueryMethod(name: string) | BodyMethod(name: string)

  /** Response headers: header name to its values, in the order received. */
  type Headers = map<string, seq<string>>

  /** The fields of an NRequestModel that the engine reads or writes. */
  datatype Request = Request(
    url: string,
    httpMethod: Method,
    headers: seq<KeyValue>,
    params: seq<KeyValue>,
    queryParams: seq<KeyValue>,
    requestType: string,
    tag: string,
    startTime: int,
    enableDefaultListeners: bool)

  /** An NResponseModel. `None` stands for a field that is null or was never set. */
  datatype Response = Response(
    url: string,
    status: int,
    body: Option<string>,
    headers: Option<Headers>,
    endTime: Option<int>,
    responseTime: Option<int>,
    redirectInterrupted: bool,
    redirectLocation: Option<string>)

  /** The task's listener: absent, a plain NTaskListener, or one that is also
      an NBaseCallback (and so has the extended callbacks). */
  datatype Listener = NoListener | TaskListener | BaseCallback

  /** NErrors.CONNECTION_ERROR, the only classification the engine reports. */
  datatype Error = ConnectionError

  /** What the engine does that someone outside the task can observe, in order. */
  datatype Event =
    | Start(request: Request)                                   // listener.start
    | AddTask(tag: Option<string>)                              // EasyNet registry: addTask
    | Connect(hop: nat, url: string)                            // setupConnection for hop `hop`
    | AskRedirect(location: string)                             // listener.redirect
    | Disconnect(hop: nat)                                      // connection.disconnect
    | Finish(response: Response)                                // listener.finish
    | RemoveTask(tag: Option<string>)                           // EasyNet registry: removeTask
    | FinishUI(response: Response)                              // listener.finishUI
    | FinishUIFailed                                            // NBaseCallback.finishUIFailed
    | RedirectInterrupted(rejected: Option<string>, response: Response) // NBaseCallback.onRedirectInterrupted
    | PreFailed(request: Request, error: Error)                 // NBaseCallback.preFailed
    | Failed(request: Request, error: Error)                    // NBaseCallback.onFailed
    | PreTaskCancelled(request: Request, tag: Option<string>)   // NBaseCallback.preTaskCancelled

  /** One call of `read(buf)` that returned data, and what `isCancelled()`
      answered right after it. */
  datatype Chunk = Chunk(data: seq<byte>, cancelled: bool)

  /** How a stream ends once its scripted reads are used up: `read` returns -1,
      or `read` throws an IOException. */
  datatype StreamEnd = EndOfStream | ReadFails

  /** A response stream as the connection hands it out; the error stream of
      HttpURLConnection may be null. */
  datatype InputStream = NullStream | Stream(chunks: seq<Chunk>, end: StreamEnd)

  /** What the connection does on one pass of the redirect loop. */
  datatype Hop =
      /** opening the connection (setupConnection) throws: `connection` is not reassigned */
    | OpenFails
      /** the connection was set up, then adding headers, writing the body or
          reading the status code throws */
    | RequestFails
      /** the server answered; `follow` is what listener.redirect(location)
          returns if the listener is asked on this pass */
    | Answered(status: int, location: string, headers: Headers,
               inputStream: InputStream, errorStream: InputStream, follow: bool)

  /** The exceptions the task can run into; the engine catches every one of them. */
  datatype Exception = TransportFailure | NullPointer | ReadFailure | TaskCancelled

  lemma AppendAssoc(a: seq<Event>, b: seq<Event>, c: seq<Event>)
    ensures (a + b) + c == a + (b + c)
  {
  }

  predicate IsConnect(e: Event) { e.Connect? }

  predicate IsFinish(e: Event) { e.Finish? }

  predicate IsRegistryCall(e: Event) { e.AddTask? || e.RemoveTask? }

  /** The callbacks that tell the caller how the task ended. */
  predicate IsTerminal(e: Event) {
    e.FinishUI? || e.RedirectInterrupted? || e.PreFailed? || e.Failed? || e.PreTaskCancelled?
  }

  /** Number of events in `ev` satisfying `p`. */
  function Count(ev: seq<Event>, p: Event -> bool): nat
  {
    if ev == [] then 0 else (if p(ev[0]) then 1 else 0) + Count(ev[1..], p)
  }

  lemma {:induction false} CountAppend(a: seq<Event>, b: seq<Event>, p: Event -> bool)
    ensures Count(a + b, p) == Count(a, p) + Count(b, p)
  {
    if a == [] {
      assert a + b == b;
    } else {
      assert (a + b)[1..] == a[1..] + b;
      CountAppend(a[1..], b, p);
    }
  }

  lemma CountOfShort(ev: seq<Event>, p: Event -> bool)
    requires |ev| <= 2
    ensures Count(ev, p) == (if |ev| >= 1 && p(ev[0]) then 1 else 0)
                          + (if |ev| == 2 && p(ev[1]) then 1 else 0)
  {
    if |ev| >= 1 {
      assert |ev| == 2 ==> ev[1..][1..] == [];
      assert |ev| == 1 ==> ev[1..] == [];
    }
  }

  lemma {:induction false} CountZero(ev: seq<Event>, p: Event -> bool)
    ensures Count(ev, p) == 0 <==> forall i :: 0 <= i < |ev| ==> !p(ev[i])
  {
    if ev != [] {
      CountZero(ev[1..], p);
      assert forall i :: 1 <= i < |ev| ==> ev[i] == ev[1..][i - 1];
    }
  }
}
