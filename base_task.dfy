/** The objects of the engine: the request model that a task mutates in place,
    and BaseTask itself. Each method is proved to leave exactly the state that
    the corresponding function of RedirectLoop, BodyReader or Lifecycle
    describes; what those functions promise is proved beside them. */
module Task {
  import opened Types
  import opened BodyReader
  import opened Dispatch
  import opened RedirectLoop
  import opened Lifecycle

  /** NRequestModel: the request description, owned by one task and mutated
      in place across redirects. */
  class RequestModel {
    var url: string
    var httpMethod: Method
    var headers: seq<KeyValue>
    var params: seq<KeyValue>
    var queryParams: seq<KeyValue>
    var requestType: string
    var tag: string
    var startTime: int
    var enableDefaultListeners: bool

    constructor (r: Request)
      ensures Value() == r
    {
      url := r.url;
      httpMethod := r.httpMethod;
      headers := r.headers;
      params := r.params;
      queryParams := r.queryParams;
      requestType := r.requestType;
      tag := r.tag;
      startTime := r.startTime;
      enableDefaultListeners := r.enableDefaultListeners;
    }

    /** The fields as one value. */
    function Value(): Request
      reads this
    {
      Request(url, httpMethod, headers, params, queryParams, requestType, tag, startTime,
              enableDefaultListeners)
    }
  }

  /** BaseTask: runs one request. The connection is a script of hops, the clock
      readings are parameters, and `trace` records, in order, every listener
      callback, registry call and connection set up or released. */
  class BaseTask {
    const listener: Listener
    const requestModel: RequestModel
    /** NDataBuilder.getQuery with the task's fixed charset. */
    const getQuery: seq<KeyValue> -> string
    /** ByteArrayOutputStream.toString: the platform's decoding of the body bytes. */
    const decode: seq<byte> -> string
    var tag: Option<string>
    var trace: seq<Event>

    constructor (listener: Listener, requestModel: RequestModel,
                 getQuery: seq<KeyValue> -> string, decode: seq<byte> -> string)
      ensures this.listener == listener && this.requestModel == requestModel
      ensures this.getQuery == getQuery && this.decode == decode
      ensures tag == None && trace == []
    {
      this.listener := listener;
      this.requestModel := requestModel;
      this.getQuery := getQuery;
      this.decode := decode;
      tag := None;
      trace := [];
    }

    /** onPreExecute, with `now` the clock reading. */
    method OnPreExecute(now: int)
      modifies this`tag, this`trace, requestModel`startTime
      ensures var p := PreExecute(old(requestModel.Value()), listener, now);
              requestModel.Value() == p.request && tag == p.tag && trace == old(trace) + p.events
    {
      if listener != NoListener {
        trace := trace + [Start(requestModel.Value())];
      }
      requestModel.startTime := now;
      tag := Some(requestModel.tag);
      trace := trace + [AddTask(tag)];
    }

    /** addUrlParams. */
    method AddUrlParams()
      modifies requestModel`url
      ensures requestModel.Value() == WithUrlParams(old(requestModel.Value()), getQuery)
    {
      if requestModel.httpMethod.QueryMethod? && requestModel.queryParams == [] && requestModel.params != [] {
        var urlParams := getQuery(requestModel.params);
        if urlParams != "" {
          requestModel.url := requestModel.url + "?" + urlParams;
        }
      } else if requestModel.queryParams != [] {
        var urlParams := getQuery(requestModel.queryParams);
        if urlParams != "" {
          requestModel.url := requestModel.url + "?" + urlParams;
        }
      }
    }

    /** readResponseBody: read until end of stream, checking for cancellation
        after every read that returned data; the counter of bytes since the last
        flush never exceeds FlushThreshold, and flushing leaves the content alone. */
    method ReadResponseBody(inputStream: InputStream) returns (r: ReadOutcome)
      ensures r == ReadBody(inputStream)
    {
      if inputStream.NullStream? {
        return Thrown(NullPointer);
      }
      var chunks := inputStream.chunks;
      var outputStream: seq<byte> := [];
      var bytesBuffered: nat := 0;
      var i := 0;
      while i < |chunks|
        invariant 0 <= i <= |chunks|
        invariant outputStream == Concat(chunks[..i])
        invariant forall j :: 0 <= j < i ==> !chunks[j].cancelled
        invariant bytesBuffered <= FlushThreshold
      {
        var bytesRead := chunks[i].data;
        if chunks[i].cancelled {
          return Thrown(TaskCancelled);
        }
        outputStream := outputStream + bytesRead;
        bytesBuffered := bytesBuffered + |bytesRead|;
        if bytesBuffered > FlushThreshold {
          bytesBuffered := 0;
        }
        assert chunks[..i + 1][..i] == chunks[..i];
        i := i + 1;
      }
      assert chunks[..i] == chunks;
      if inputStream.end == ReadFails {
        return Thrown(ReadFailure);
      }
      return Body(outputStream);
    }

    /** One pass of the `while (true)` loop of doInBackground: `exit` is the way
        the loop is left, None when it goes on with the next pass. */
    method LoopPass(hops: seq<Hop>, endTime: int, k: nat, connection: Option<nat>)
      returns (exit: Option<Exit>, lastConnection: Option<nat>)
      modifies this`trace, requestModel`url, requestModel`params, requestModel`queryParams,
               requestModel`requestType
      ensures var s := Pass(old(requestModel.Value()), Env(listener, hops, endTime, getQuery, decode), k, connection);
              && exit == s.Left() && requestModel.Value() == s.Model() && trace == old(trace) + s.Emitted()
              && lastConnection == (if s.Continue? then Some(k) else s.loop.connection)
    {
      lastConnection := connection;
      AddUrlParams();
      if k >= |hops| || hops[k].OpenFails? {
        return Some(Threw(TransportFailure)), lastConnection;
      }
      var hop := hops[k];
      lastConnection := Some(k);
      trace := trace + [Connect(k, requestModel.url)];
      if hop.RequestFails? {
        return Some(Threw(TransportFailure)), lastConnection;
      }
      if IsRedirect(hop.status) {
        var next := true;
        ghost var emitted := [Connect(k, requestModel.url)];
        if listener != NoListener {
          AppendAssoc(old(trace), emitted, [AskRedirect(hop.location)]);
          trace := trace + [AskRedirect(hop.location)];
          emitted := emitted + [AskRedirect(hop.location)];
          next := hop.follow;
        }
        if !next {
          return Some(RedirectRejected(RejectedResponse(requestModel.url, hop.status, hop.location))), lastConnection;
        }
        requestModel.url := hop.location;
        requestModel.params := [];
        requestModel.queryParams := [];
        requestModel.requestType := FormUrlEncoded;
        AppendAssoc(old(trace), emitted, [Disconnect(k)]);
        trace := trace + [Disconnect(k)];
        return None, lastConnection;
      }
      var inputStream := if GetInputStreamFromConnection(hop.status) == SuccessStream
                         then hop.inputStream else hop.errorStream;
      var body := ReadResponseBody(inputStream);
      if body.Thrown? {
        return Some(Threw(body.exception)), lastConnection;
      }
      var response := FinalResponse(requestModel.Value(), hop.status, decode(body.bytes), hop.headers, endTime);
      if listener != NoListener {
        AppendAssoc(old(trace), [Connect(k, requestModel.url)], [Finish(response)]);
        trace := trace + [Finish(response)];
      }
      return Some(Completed(response)), lastConnection;
    }

    /** The `while (true)` loop of doInBackground, up to the way it is left and
        the last connection set up. */
    method FollowRedirects(hops: seq<Hop>, endTime: int) returns (exit: Exit, connection: Option<nat>)
      modifies this`trace, requestModel`url, requestModel`params, requestModel`queryParams,
               requestModel`requestType
      ensures var l := RunHops(old(requestModel.Value()), Env(listener, hops, endTime, getQuery, decode), 0, None);
              && exit == l.exit && connection == l.connection
              && requestModel.Value() == l.request && trace == old(trace) + l.events
    {
      var env := Env(listener, hops, endTime, getQuery, decode);
      ghost var loop := RunHops(requestModel.Value(), env, 0, None);
      ghost var done: seq<Event> := [];
      ghost var current := requestModel.Value();
      connection := None;
      var k: nat := 0;
      var left: Option<Exit> := None;
      while left.None?
        invariant k <= |hops|
        invariant current == requestModel.Value()
        invariant trace == old(trace) + done
        invariant left.None? ==> loop == After(done, RunHops(current, env, k, connection))
        invariant left.Some? ==> loop == Loop(left.value, current, done, connection)
        decreases |hops| - k, if left.None? then 1 else 0
      {
        ghost var step := Pass(current, env, k, connection);
        RunHopsStep(current, env, k, connection, done);
        left, connection := LoopPass(hops, endTime, k, connection);
        AppendAssoc(old(trace), done, step.Emitted());
        done := done + step.Emitted();
        current := step.Model();
        if left.None? {
          k := k + 1;
        }
      }
      exit := left.value;
    }

    /** doInBackground, with `hops` what the connection does on each pass and
        `endTime` the clock reading when a final response is built. */
    method DoInBackground(hops: seq<Hop>, endTime: int) returns (result: Option<Response>)
      modifies this`trace, requestModel`url, requestModel`params, requestModel`queryParams,
               requestModel`requestType
      ensures var bg := Background(old(requestModel.Value()), Env(listener, hops, endTime, getQuery, decode), tag);
              result == bg.result && requestModel.Value() == bg.request && trace == old(trace) + bg.events
    {
      var exit, connection := FollowRedirects(hops, endTime);
      // finally
      if connection.Some? {
        trace := trace + [Disconnect(connection.value)];
      }
      trace := trace + [RemoveTask(tag)];
      result := ResultOf(exit);
    }

    /** onPostExecute: the callbacks for the value doInBackground returned. */
    method OnPostExecute(result: Option<Response>)
      modifies this`trace
      ensures trace == old(trace) + Dispatch.OnPostExecute(result, listener, requestModel.Value())
    {
      if listener != NoListener {
        if result.Some? {
          if !result.value.redirectInterrupted {
            trace := trace + [FinishUI(result.value)];
          } else if listener == BaseCallback {
            trace := trace + [FinishUIFailed];
            trace := trace + [RedirectInterrupted(result.value.redirectLocation, result.value)];
          }
        } else if listener == BaseCallback {
          trace := trace + [FinishUIFailed];
          if requestModel.enableDefaultListeners {
            trace := trace + [PreFailed(requestModel.Value(), ConnectionError)];
          } else {
            trace := trace + [Failed(requestModel.Value(), ConnectionError)];
          }
        }
      }
    }

    /** onCancelled: runs instead of onPostExecute for a cancelled task. */
    method OnCancelled()
      modifies this`trace
      ensures trace == old(trace) + Dispatch.OnCancelled(listener, requestModel.Value(), tag)
    {
      if listener == BaseCallback {
        trace := trace + [PreTaskCancelled(requestModel.Value(), tag)];
      }
    }
  }
}
