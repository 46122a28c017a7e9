/** doInBackground and addUrlParams as functions of the request model and a
    scripted connection. The methods BaseTask.DoInBackground and
    BaseTask.AddUrlParams are proved equal to RunHops/Background and
    WithUrlParams; the lemmas here state what those functions promise. */
module RedirectLoop {
  import opened Types
  import opened BodyReader
  import opened Dispatch

  const HttpMovedPerm: int := 301
  const HttpMovedTemp: int := 302
  const HttpSeeOther: int := 303

  /** NConst.MIME_TYPE_X_WWW_FORM_URLENCODED. */
  const FormUrlEncoded: string := "application/x-www-form-urlencoded"

  const IntMin: int := -0x8000_0000
  const IntMax: int := 0x7fff_ffff

  /** Only these three statuses make the loop consider a redirect. */
  predicate IsRedirect(status: int)
  {
    status == HttpMovedTemp || status == HttpMovedPerm || status == HttpSeeOther
  }

  /** What stays fixed during one run of doInBackground: the listener, the
      scripted connection (one Hop per pass of the loop), the clock reading
      taken when the final response is built, NDataBuilder.getQuery and the
      byte-to-text decoding of ByteArrayOutputStream.toString. */
  datatype Env = Env(listener: Listener, hops: seq<Hop>, endTime: int,
                     getQuery: seq<KeyValue> -> string, decode: seq<byte> -> string)

  /** Java's `(int)` cast of a long: the low 32 bits, read as two's complement. */
  function NarrowToInt(x: int): (r: int)
    ensures IntMin <= r <= IntMax
    ensures (x - r) % 0x1_0000_0000 == 0
    ensures IntMin <= x <= IntMax ==> r == x
  {
    var m := x % 0x1_0000_0000;
    if m > IntMax then m - 0x1_0000_0000 else m
  }

  // ---------------------------------------------------------------- addUrlParams

  function AppendQuery(r: Request, query: string): Request
  {
    if query == "" then r else r.(url := r.url + "?" + query)
  }

  /** addUrlParams, as the new value of the request model. */
  function WithUrlParams(r: Request, getQuery: seq<KeyValue> -> string): Request
  {
    if r.httpMethod.QueryMethod? && r.queryParams == [] && r.params != [] then
      AppendQuery(r, getQuery(r.params))
    else if r.queryParams != [] then
      AppendQuery(r, getQuery(r.queryParams))
    else
      r
  }

  /** The parameter list that ends up in the query string: the body parameters
      of a QueryMethod that has no query parameters, otherwise the query parameters. */
  function QuerySource(r: Request): seq<KeyValue>
  {
    if r.httpMethod.QueryMethod? && r.queryParams == [] then r.params else r.queryParams
  }

  /** addUrlParams changes only the URL; it appends `?` and the encoding of the
      chosen list, and leaves the URL alone exactly when that list is empty or
      encodes to the empty string. */
  lemma AddUrlParamsEffect(r: Request, getQuery: seq<KeyValue> -> string)
    ensures WithUrlParams(r, getQuery) == r.(url := WithUrlParams(r, getQuery).url)
    ensures WithUrlParams(r, getQuery).url != r.url
        <==> QuerySource(r) != [] && getQuery(QuerySource(r)) != ""
    ensures WithUrlParams(r, getQuery).url != r.url ==>
              WithUrlParams(r, getQuery).url == r.url + "?" + getQuery(QuerySource(r))
  {
    if QuerySource(r) != [] && getQuery(QuerySource(r)) != "" {
      assert |r.url + "?" + getQuery(QuerySource(r))| > |r.url|;
    }
  }

  // ---------------------------------------------------------------- the redirect loop

  /** The request model after an accepted redirect: new URL, no parameters,
      form-urlencoded request type. */
  function Redirected(r: Request, location: string): Request
  {
    r.(url := location, params := [], queryParams := [], requestType := FormUrlEncoded)
  }

  /** The partial response built when the listener refuses a redirect. */
  function RejectedResponse(url: string, status: int, location: string): Response
  {
    Response(url, status, None, None, None, None, true, Some(location))
  }

  /** The response built from a non-redirect status. */
  function FinalResponse(r: Request, status: int, body: string, headers: Headers, endTime: int): Response
  {
    Response(r.url, status, Some(body), Some(headers), Some(endTime),
             Some(NarrowToInt(endTime - r.startTime)), false, None)
  }

  datatype Exit = Completed(response: Response) | RedirectRejected(response: Response) | Threw(exception: Exception)

  /** How the loop of doInBackground ends: how it was left, the request model as
      it was left, the events on the way, and the value of `connection` then. */
  datatype Loop = Loop(exit: Exit, request: Request, events: seq<Event>, connection: Option<nat>)

  function After(done: seq<Event>, l: Loop): Loop
  {
    l.(events := done + l.events)
  }

  /** What one pass of the loop leads to: another pass, with the request model
      rewritten for the redirect and the events of this pass, or the end of the loop. */
  datatype Step = Continue(next: Request, events: seq<Event>) | Stop(loop: Loop)
  {
    /** The events of the pass. */
    function Emitted(): seq<Event> { if Continue? then events else loop.events }
    /** The request model once the pass is over. */
    function Model(): Request { if Continue? then next else loop.request }
    /** How the loop is left, if it is. */
    function Left(): Option<Exit> { if Continue? then None else Some(loop.exit) }
  }

  /** One pass of the loop of doInBackground: pass `k`, with `connection` holding
      the last connection set up. A script that runs out behaves as a connection
      that cannot be opened. */
  function Pass(r: Request, env: Env, k: nat, connection: Option<nat>): (s: Step)
    ensures s.Continue? ==> k < |env.hops|
  {
    var r1 := WithUrlParams(r, env.getQuery);
    if k >= |env.hops| then Stop(Loop(Threw(TransportFailure), r1, [], connection))
    else match env.hops[k]
      case OpenFails => Stop(Loop(Threw(TransportFailure), r1, [], connection))
      case RequestFails => Stop(Loop(Threw(TransportFailure), r1, [Connect(k, r1.url)], Some(k)))
      case Answered(status, location, headers, input, error, follow) =>
        if IsRedirect(status) then
          var asked := if env.listener == NoListener then [] else [AskRedirect(location)];
          if env.listener != NoListener && !follow then
            Stop(Loop(RedirectRejected(RejectedResponse(r1.url, status, location)), r1,
                      [Connect(k, r1.url)] + asked, Some(k)))
          else
            Continue(Redirected(r1, location), [Connect(k, r1.url)] + asked + [Disconnect(k)])
        else
          var stream := if GetInputStreamFromConnection(status) == SuccessStream then input else error;
          match ReadBody(stream)
          case Thrown(e) => Stop(Loop(Threw(e), r1, [Connect(k, r1.url)], Some(k)))
          case Body(bytes) =>
            var response := FinalResponse(r1, status, env.decode(bytes), headers, env.endTime);
            Stop(Loop(Completed(response), r1,
                      [Connect(k, r1.url)] + (if env.listener == NoListener then [] else [Finish(response)]),
                      Some(k)))
  }

  /** The loop of doInBackground from pass `k` on. */
  function RunHops(r: Request, env: Env, k: nat, connection: Option<nat>): Loop
    decreases |env.hops| - k
  {
    match Pass(r, env, k, connection)
    case Stop(l) => l
    case Continue(next, events) => After(events, RunHops(next, env, k + 1, Some(k)))
  }

  /** RunHops from pass `k`, in terms of the pass itself. */
  lemma RunHopsStep(r: Request, env: Env, k: nat, connection: Option<nat>, done: seq<Event>)
    ensures var s := Pass(r, env, k, connection);
            && (s.Continue? ==> After(done, RunHops(r, env, k, connection))
                                == After(done + s.Emitted(), RunHops(s.Model(), env, k + 1, Some(k))))
            && (s.Stop? ==> After(done, RunHops(r, env, k, connection))
                            == Loop(s.loop.exit, s.Model(), done + s.Emitted(), s.loop.connection))
  {
    match Pass(r, env, k, connection)
    case Stop(_) =>
    case Continue(next, events) =>
      var rest := RunHops(next, env, k + 1, Some(k));
      assert done + (events + rest.events) == done + events + rest.events;
  }

  function ResultOf(exit: Exit): Option<Response>
  {
    match exit
    case Completed(response) => Some(response)
    case RedirectRejected(response) => Some(response)
    case Threw(_) => None
  }

  /** The finally block: disconnect the last connection set up, then deregister. */
  function Cleanup(connection: Option<nat>, tag: Option<string>): seq<Event>
  {
    (if connection.Some? then [Disconnect(connection.value)] else []) + [RemoveTask(tag)]
  }

  datatype Outcome = Outcome(result: Option<Response>, request: Request, events: seq<Event>)

  /** doInBackground: the loop, the catch that turns every exception into a null
      result, and the cleanup. */
  function Background(r: Request, env: Env, tag: Option<string>): Outcome
  {
    var l := RunHops(r, env, 0, None);
    Outcome(ResultOf(l.exit), l.request, l.events + Cleanup(l.connection, tag))
  }

  // ---------------------------------------------------------------- properties of one pass

  /** Accepting a redirect (the default without a listener) rewrites the request
      model, releases the connection and starts the next pass; the next pass
      connects to exactly the Location value, since no parameter is left to append. */
  lemma RedirectFollowed(r: Request, env: Env, k: nat, connection: Option<nat>)
    requires k < |env.hops| && env.hops[k].Answered? && IsRedirect(env.hops[k].status)
    requires env.listener == NoListener || env.hops[k].follow
    ensures var r1 := WithUrlParams(r, env.getQuery);
            var location := env.hops[k].location;
            var next := Redirected(r1, location);
            && next.url == location && next.params == [] && next.queryParams == []
            && next.requestType == FormUrlEncoded
            && next.startTime == r.startTime && next.tag == r.tag
            && WithUrlParams(next, env.getQuery) == next
            && RunHops(r, env, k, connection)
               == After([Connect(k, r1.url)]
                        + (if env.listener == NoListener then [] else [AskRedirect(location)])
                        + [Disconnect(k)],
                        RunHops(next, env, k + 1, Some(k)))
  {
  }

  /** Refusing a redirect ends the loop on this pass with a partial response:
      the request's current URL, the redirect status, no body and no headers,
      flagged as interrupted with the refused location; listener.finish is not
      called and no further connection is set up. */
  lemma RedirectRefused(r: Request, env: Env, k: nat, connection: Option<nat>)
    requires k < |env.hops| && env.hops[k].Answered? && IsRedirect(env.hops[k].status)
    requires env.listener != NoListener && !env.hops[k].follow
    ensures var r1 := WithUrlParams(r, env.getQuery);
            var h := env.hops[k];
            RunHops(r, env, k, connection)
            == Loop(RedirectRejected(Response(r1.url, h.status, None, None, None, None, true, Some(h.location))),
                    r1, [Connect(k, r1.url), AskRedirect(h.location)], Some(k))
  {
  }

  /** Every status other than 301, 302 and 303 (307 and 308 included) ends the
      loop on this pass: with the body and headers of the response when the
      chosen stream reads through, and with the stream's exception otherwise.
      The response time is the end time minus the start time, cut to an int. */
  lemma NonRedirectEndsLoop(r: Request, env: Env, k: nat, connection: Option<nat>)
    requires k < |env.hops| && env.hops[k].Answered? && !IsRedirect(env.hops[k].status)
    ensures var h := env.hops[k];
            var stream := if 200 <= h.status <= 299 then h.inputStream else h.errorStream;
            var l := RunHops(r, env, k, connection);
            && l.connection == Some(k)
            && Count(l.events, IsConnect) == 1
            && (ReadBody(stream).Thrown? ==> l.exit == Threw(ReadBody(stream).exception))
            && (ReadBody(stream).Body? ==>
                  && l.exit.Completed?
                  && l.exit.response.status == h.status
                  && l.exit.response.body == Some(env.decode(ReadBody(stream).bytes))
                  && l.exit.response.headers == Some(h.headers)
                  && l.exit.response.endTime == Some(env.endTime)
                  && (IntMin <= env.endTime - r.startTime <= IntMax ==>
                        l.exit.response.responseTime == Some(env.endTime - r.startTime)))
  {
    var l := RunHops(r, env, k, connection);
    CountOfShort(l.events, IsConnect);
  }

  // ---------------------------------------------------------------- properties of the whole loop

  /** Events that the loop itself produces. */
  predicate IsLoopEvent(e: Event)
  {
    e.Connect? || e.AskRedirect? || e.Disconnect? || e.Finish?
  }

  /** The fields of the request model that the loop never writes. */
  predicate Untouched(before: Request, after: Request)
  {
    && after.startTime == before.startTime && after.tag == before.tag
    && after.httpMethod == before.httpMethod && after.headers == before.headers
    && after.enableDefaultListeners == before.enableDefaultListeners
  }

  /** What an ended loop delivers: a complete response only for a status that
      is not a redirect, with body and headers, the request's final URL and the
      response time measured from `startTime`; a partial response only for a
      redirect status refused by a listener, right after asking it. */
  predicate Delivered(l: Loop, env: Env, startTime: int)
  {
    && (l.exit.Completed? ==>
          var resp := l.exit.response;
          && !IsRedirect(resp.status) && resp.url == l.request.url
          && resp.body.Some? && resp.headers.Some? && !resp.redirectInterrupted
          && resp.redirectLocation.None? && resp.endTime == Some(env.endTime)
          && resp.responseTime == Some(NarrowToInt(env.endTime - startTime)))
    && (l.exit.RedirectRejected? ==>
          var resp := l.exit.response;
          && IsRedirect(resp.status) && resp.url == l.request.url
          && resp.body.None? && resp.headers.None? && resp.redirectInterrupted
          && resp.redirectLocation.Some? && env.listener != NoListener
          && l.events != [] && l.events[|l.events| - 1] == AskRedirect(resp.redirectLocation.value))
    && (!l.exit.Threw? ==> l.connection.Some?)
  }

  lemma PassResult(r: Request, env: Env, k: nat, connection: Option<nat>)
    ensures var s := Pass(r, env, k, connection);
            Untouched(r, s.Model()) && (s.Stop? ==> Delivered(s.loop, env, r.startTime))
  {
    var r1 := WithUrlParams(r, env.getQuery);
    assert Untouched(r, r1);
    if k < |env.hops| && env.hops[k].Answered? {
      var h := env.hops[k];
      if IsRedirect(h.status) {
        assert Untouched(r, Redirected(r1, h.location));
      } else {
        var stream := if GetInputStreamFromConnection(h.status) == SuccessStream
                      then h.inputStream else h.errorStream;
        if ReadBody(stream).Body? {
          var resp := FinalResponse(r1, h.status, env.decode(ReadBody(stream).bytes), h.headers, env.endTime);
          assert Pass(r, env, k, connection).loop.exit == Completed(resp);
        }
      }
    }
  }

  /** What any run of the loop delivers (see Delivered); the request model
      keeps its start time, tag, method, headers and flags. */
  lemma {:induction false} LoopResult(r: Request, env: Env, k: nat, connection: Option<nat>)
    decreases |env.hops| - k
    ensures var l := RunHops(r, env, k, connection);
            Untouched(r, l.request) && Delivered(l, env, r.startTime)
  {
    PassResult(r, env, k, connection);
    match Pass(r, env, k, connection)
    case Stop(_) =>
    case Continue(next, _) =>
      LoopResult(next, env, k + 1, Some(k));
  }

  /** One pass produces only loop events, and calls listener.finish once
      exactly when it completes the loop with a listener. */
  lemma PassEvents(r: Request, env: Env, k: nat, connection: Option<nat>)
    ensures var s := Pass(r, env, k, connection);
      && (forall i :: 0 <= i < |s.Emitted()| ==> IsLoopEvent(s.Emitted()[i]))
      && Count(s.Emitted(), IsFinish)
         == (if s.Stop? && s.loop.exit.Completed? && env.listener != NoListener then 1 else 0)
  {
    var s := Pass(r, env, k, connection);
    if s.Continue? {
      var done := s.events;
      assert done == done[..|done| - 1] + [Disconnect(k)];
      CountOfShort(done[..|done| - 1], IsFinish);
      CountAppend(done[..|done| - 1], [Disconnect(k)], IsFinish);
      CountOfShort([Disconnect(k)], IsFinish);
    } else {
      CountOfShort(s.loop.events, IsFinish);
    }
  }

  /** The loop produces only connection, redirect-question and finish events;
      listener.finish fires once when the loop completes with a listener, and
      never otherwise. */
  lemma {:induction false} LoopEvents(r: Request, env: Env, k: nat, connection: Option<nat>)
    decreases |env.hops| - k
    ensures var l := RunHops(r, env, k, connection);
      && (forall i :: 0 <= i < |l.events| ==> IsLoopEvent(l.events[i]))
      && Count(l.events, IsFinish) == (if l.exit.Completed? && env.listener != NoListener then 1 else 0)
  {
    PassEvents(r, env, k, connection);
    match Pass(r, env, k, connection)
    case Stop(_) =>
    case Continue(next, done) =>
      var rest := RunHops(next, env, k + 1, Some(k));
      var l := RunHops(r, env, k, connection);
      LoopEvents(next, env, k + 1, Some(k));
      CountAppend(done, rest.events, IsFinish);
      forall i | 0 <= i < |l.events| ensures IsLoopEvent(l.events[i]) {
        if i >= |done| { assert l.events[i] == rest.events[i - |done|]; }
      }
  }

  // ---------------------------------------------------------------- connections are sequential

  datatype Tracked = Tracked(ok: bool, open: Option<nat>)

  /** Replays the connection events of `ev` from `open`, the connection open
      before them. `ok` turns false when a connection is set up while another is
      still open; disconnecting a connection that is not the open one changes
      nothing (disconnect may be repeated). */
  function Track(ev: seq<Event>, open: Option<nat>): Tracked
  {
    if ev == [] then Tracked(true, open)
    else match ev[0]
      case Connect(k, _) => if open.Some? then Tracked(false, open) else Track(ev[1..], Some(k))
      case Disconnect(k) => Track(ev[1..], if open == Some(k) then None else open)
      case _ => Track(ev[1..], open)
  }

  lemma {:induction false} TrackAppend(a: seq<Event>, b: seq<Event>, open: Option<nat>)
    requires Track(a, open).ok
    ensures Track(a + b, open) == Track(b, Track(a, open).open)
  {
    if a == [] {
      assert a + b == b;
    } else {
      assert (a + b)[1..] == a[1..] + b;
      match a[0]
      case Connect(k, _) => TrackAppend(a[1..], b, Some(k));
      case Disconnect(k) => TrackAppend(a[1..], b, if open == Some(k) then None else open);
      case _ => TrackAppend(a[1..], b, open);
    }
  }

  lemma {:induction false} TrackQuiet(ev: seq<Event>, open: Option<nat>)
    requires forall i :: 0 <= i < |ev| ==> !ev[i].Connect? && !ev[i].Disconnect?
    ensures Track(ev, open) == Tracked(true, open)
  {
    if ev != [] {
      TrackQuiet(ev[1..], open);
    }
  }

  /** One pass sets up at most one connection, and releases it when it goes on
      to the next pass. */
  lemma PassConnections(r: Request, env: Env, k: nat, connection: Option<nat>)
    ensures match Pass(r, env, k, connection)
            case Continue(_, events) => Track(events, None) == Tracked(true, None)
            case Stop(l) => var t := Track(l.events, None);
                            t.ok && (t.open.Some? ==> t.open == l.connection)
  {
    var r1 := WithUrlParams(r, env.getQuery);
    if k < |env.hops| && env.hops[k].Answered? {
      var h := env.hops[k];
      if IsRedirect(h.status) && (env.listener == NoListener || h.follow) {
        var done := [Connect(k, r1.url)]
                    + (if env.listener == NoListener then [] else [AskRedirect(h.location)])
                    + [Disconnect(k)];
        assert Track([Disconnect(k)], Some(k)) == Tracked(true, None) by {
          assert [Disconnect(k)][1..] == [];
        }
        if env.listener == NoListener {
          assert done[1..] == [Disconnect(k)];
        } else {
          assert done[1..][1..] == [Disconnect(k)];
        }
      } else {
        var l := Pass(r, env, k, connection).loop;
        assert l.events != [] && l.events[0] == Connect(k, r1.url);
        TrackQuiet(l.events[1..], Some(k));
      }
    } else if k < |env.hops| && env.hops[k].RequestFails? {
      TrackQuiet([], Some(k));
    }
  }

  /** Within the loop no connection is set up before the previous one was
      released, and the one left open at the end, if any, is `connection`. */
  lemma {:induction false} LoopConnections(r: Request, env: Env, k: nat, connection: Option<nat>)
    decreases |env.hops| - k
    ensures var l := RunHops(r, env, k, connection);
            var t := Track(l.events, None);
            t.ok && (t.open.Some? ==> t.open == l.connection)
  {
    PassConnections(r, env, k, connection);
    match Pass(r, env, k, connection)
    case Stop(_) =>
    case Continue(next, done) =>
      LoopConnections(next, env, k + 1, Some(k));
      TrackAppend(done, RunHops(next, env, k + 1, Some(k)).events, None);
  }

  // ---------------------------------------------------------------- properties of doInBackground

  /** The finally block runs on every exit: the last event is the one call of
      removeTask, right after the disconnect of the last connection set up, and
      the loop before it never touches the registry. */
  lemma DeregisteredOnce(r: Request, env: Env, tag: Option<string>)
    ensures var bg := Background(r, env, tag);
            var l := RunHops(r, env, 0, None);
            && |bg.events| >= 1 && bg.events[|bg.events| - 1] == RemoveTask(tag)
            && (l.connection.Some? ==>
                  |bg.events| >= 2 && bg.events[|bg.events| - 2] == Disconnect(l.connection.value))
            && Count(bg.events, IsRegistryCall) == 1
            && forall i :: 0 <= i < |bg.events| - 1 ==> IsLoopEvent(bg.events[i])
  {
    var l := RunHops(r, env, 0, None);
    var bg := Background(r, env, tag);
    var c := Cleanup(l.connection, tag);
    LoopEvents(r, env, 0, None);
    forall i | 0 <= i < |l.events| ensures !IsRegistryCall(l.events[i]) {
      assert IsLoopEvent(l.events[i]);
    }
    CountZero(l.events, IsRegistryCall);
    CountAppend(l.events, c, IsRegistryCall);
    CountOfShort(c, IsRegistryCall);
    forall i | |l.events| <= i < |bg.events| - 1 ensures IsLoopEvent(bg.events[i]) {
      assert bg.events[i] == c[i - |l.events|];
    }
  }

  /** doInBackground returns null exactly when an exception was caught; a
      non-null result is either complete (non-redirect status, body and headers,
      listener.finish called once with it when there is a listener) or a refused
      redirect (listener.finish never called). */
  lemma BackgroundResult(r: Request, env: Env, tag: Option<string>)
    ensures var bg := Background(r, env, tag);
      && (bg.result.None? <==> RunHops(r, env, 0, None).exit.Threw?)
      && (bg.result.Some? && !bg.result.value.redirectInterrupted ==>
            var resp := bg.result.value;
            && !IsRedirect(resp.status) && resp.url == bg.request.url
            && resp.body.Some? && resp.headers.Some?
            && resp.responseTime == Some(NarrowToInt(env.endTime - r.startTime)))
      && (bg.result.Some? && bg.result.value.redirectInterrupted ==>
            var resp := bg.result.value;
            && IsRedirect(resp.status) && resp.url == bg.request.url
            && resp.body.None? && resp.headers.None? && resp.redirectLocation.Some?
            && |bg.events| >= 3
            && bg.events[|bg.events| - 3] == AskRedirect(resp.redirectLocation.value)
            && bg.events[|bg.events| - 2].Disconnect?)
      && Count(bg.events, IsFinish)
         == (if bg.result.Some? && !bg.result.value.redirectInterrupted && env.listener != NoListener
             then 1 else 0)
  {
    var l := RunHops(r, env, 0, None);
    var c := Cleanup(l.connection, tag);
    LoopResult(r, env, 0, None);
    LoopEvents(r, env, 0, None);
    CountAppend(l.events, c, IsFinish);
    CountOfShort(c, IsFinish);
  }

  /** Connections are strictly sequential over the whole of doInBackground, and
      none is left open once it returns, whatever the exit path. */
  lemma ConnectionsReleased(r: Request, env: Env, tag: Option<string>)
    ensures Track(Background(r, env, tag).events, None) == Tracked(true, None)
  {
    var l := RunHops(r, env, 0, None);
    var c := Cleanup(l.connection, tag);
    LoopConnections(r, env, 0, None);
    TrackAppend(l.events, c, None);
    var open := Track(l.events, None).open;
    assert [RemoveTask(tag)][1..] == [];
    TrackQuiet([RemoveTask(tag)], None);
    if l.connection.Some? {
      assert open == None || open == l.connection;
      assert c[1..] == [RemoveTask(tag)];
    } else {
      assert c == [RemoveTask(tag)];
    }
  }

  // ---------------------------------------------------------------- scenarios

  function Scenario(status: int, follow: bool, listener: Listener, errorStream: InputStream): Env
  {
    var first := Answered(status, "http://x/b", map[], Stream([], EndOfStream), errorStream, follow);
    var second := Answered(200, "", map["Server" := ["x"]], Stream([], EndOfStream), NullStream, true);
    Env(listener, [first, second], 1500, _ => "", bytes => if bytes == [] then "" else "data")
  }

  function ScenarioRequest(): Request
  {
    Request("http://x/a", QueryMethod("GET"), [], [], [], "", "t", 1000, true)
  }

  /** GET http://x/a answered by 302 to http://x/b, redirect accepted: the second
      request goes to http://x/b and the result carries that URL, an empty body
      (not null) and the headers. */
  lemma ScenarioRedirectAccepted()
    ensures var bg := Background(ScenarioRequest(), Scenario(302, true, TaskListener, NullStream), Some("t"));
            && bg.events[3] == Connect(1, "http://x/b")
            && bg.result.Some? && bg.result.value.url == "http://x/b"
            && bg.result.value.status == 200 && bg.result.value.body == Some("")
            && bg.result.value.responseTime == Some(500)
  {
  }

  /** The same with the redirect refused: an interrupted result with status 302,
      location http://x/b and no body, and no second request. */
  lemma ScenarioRedirectRefused()
    ensures var bg := Background(ScenarioRequest(), Scenario(302, false, TaskListener, NullStream), Some("t"));
            && bg.result == Some(Response("http://x/a", 302, None, None, None, None, true, Some("http://x/b")))
            && bg.events == [Connect(0, "http://x/a"), AskRedirect("http://x/b"), Disconnect(0), RemoveTask(Some("t"))]
  {
  }

  /** A 307 is not followed: its (empty) error stream is the body of the result.
      HttpURLConnection hands out an error stream only for statuses of 400 and
      above, so this script exercises the branch rather than a real server. */
  lemma ScenarioTemporaryRedirectNotFollowed()
    ensures var bg := Background(ScenarioRequest(), Scenario(307, true, NoListener, Stream([], EndOfStream)), Some("t"));
            && bg.result.Some? && bg.result.value.status == 307 && !bg.result.value.redirectInterrupted
            && bg.result.value.body == Some("")
  {
  }

  /** A non-2xx status whose error stream is null: reading it throws, and the
      result is null rather than an empty body. */
  lemma ScenarioNullErrorStream()
    ensures var bg := Background(ScenarioRequest(), Scenario(404, true, NoListener, NullStream), Some("t"));
            && bg.result.None?
            && bg.events == [Connect(0, "http://x/a"), Disconnect(0), RemoveTask(Some("t"))]
  {
  }
}
