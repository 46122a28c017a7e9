/** The branch-only decisions of BaseTask: which response stream to read,
    and which listener callbacks fire, in which order, once the background
    work is over (onPostExecute) or when the task was cancelled (onCancelled). */
module Dispatch {
  import opened Types

  datatype StreamChoice = SuccessStream | ErrorStream

  /** Java's `/` on int: the quotient is truncated toward zero. */
  function JavaDiv(a: int, b: int): (q: int)
    requires b > 0
    ensures a >= 0 ==> q * b <= a < q * b + b
    ensures a < 0 ==> q * b - b < a <= q * b
  {
    if a >= 0 then a / b else -((-a) / b)
  }

  /** getInputStreamFromConnection: `status / 100 == 2` (Java division) picks the
      success stream; it holds for exactly the statuses 200 to 299, so every
      other status, negative ones included, reads the error stream. */
  function GetInputStreamFromConnection(status: int): (c: StreamChoice)
    ensures c == SuccessStream <==> 200 <= status <= 299
  {
    if JavaDiv(status, 100) == 2 then SuccessStream else ErrorStream
  }

  /** The callbacks of onPostExecute for the value doInBackground returned.
      `request` is the request model as the background work left it. */
  function OnPostExecute(result: Option<Response>, listener: Listener, request: Request): (ev: seq<Event>)
    ensures listener == NoListener ==> ev == []
    ensures |ev| <= 2
    // exactly one outcome is reported to an NBaseCallback; a plain listener
    // hears only of a complete, non-interrupted response
    ensures listener == BaseCallback ==> Count(ev, IsTerminal) == 1
    ensures listener == TaskListener ==>
              Count(ev, IsTerminal) == (if result.Some? && !result.value.redirectInterrupted then 1 else 0)
    // a success is delivered exactly for a complete response, with that response
    ensures (exists i :: 0 <= i < |ev| && ev[i].FinishUI?)
        <==> listener != NoListener && result.Some? && !result.value.redirectInterrupted
    ensures forall i :: 0 <= i < |ev| && ev[i].FinishUI? ==> ev[i].response == result.value
    // a complete response fires finishUI and nothing else
    ensures listener != NoListener && result.Some? && !result.value.redirectInterrupted ==>
              ev == [FinishUI(result.value)]
    // a plain listener hears nothing of a null or interrupted result
    ensures listener == TaskListener && !(result.Some? && !result.value.redirectInterrupted) ==> ev == []
    // every failure-style outcome is announced by finishUIFailed first
    ensures (exists i :: 0 <= i < |ev| && (ev[i].PreFailed? || ev[i].Failed? || ev[i].RedirectInterrupted?))
        ==> |ev| == 2 && ev[0] == FinishUIFailed
    // a hard failure reports CONNECTION_ERROR, through preFailed exactly when
    // the request enables the default listeners
    ensures listener == BaseCallback && result.None? ==>
              |ev| == 2 && ev[1] == (if request.enableDefaultListeners then PreFailed(request, ConnectionError)
                        else Failed(request, ConnectionError))
    // a rejected redirect reports the rejected location with the partial response
    ensures listener == BaseCallback && result.Some? && result.value.redirectInterrupted ==>
              |ev| == 2 && ev[1] == RedirectInterrupted(result.value.redirectLocation, result.value)
  {
    var ev :=
    if listener == NoListener then []
    else if result.Some? then
      if !result.value.redirectInterrupted then [FinishUI(result.value)]
      else if listener == BaseCallback then
        [FinishUIFailed, RedirectInterrupted(result.value.redirectLocation, result.value)]
      else []
    else if listener == BaseCallback then
      if request.enableDefaultListeners then [FinishUIFailed, PreFailed(request, ConnectionError)]
      else [FinishUIFailed, Failed(request, ConnectionError)]
    else [];
    CountOfShort(ev, IsTerminal);
    ev
  }

  /** The callbacks of onCancelled: preTaskCancelled, for an NBaseCallback only. */
  function OnCancelled(listener: Listener, request: Request, tag: Option<string>): (ev: seq<Event>)
    ensures ev != [] <==> listener == BaseCallback
    ensures Count(ev, IsTerminal) == (if listener == BaseCallback then 1 else 0)
    ensures forall i :: 0 <= i < |ev| ==> ev[i] == PreTaskCancelled(request, tag)
  {
    var ev := if listener == BaseCallback then [PreTaskCancelled(request, tag)] else [];
    CountOfShort(ev, IsTerminal);
    ev
  }
}
