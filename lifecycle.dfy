/** One task from onPreExecute to its last callback, as a sequence of events,
    and the ordering guarantees of that sequence. */
module Lifecycle {
  import opened Types
  import opened Dispatch
  import opened RedirectLoop

  /** The request model, the task's tag and the events once onPreExecute returns. */
  datatype Prepared = Prepared(request: Request, tag: Option<string>, events: seq<Event>)

  /** onPreExecute: listener.start (given the request model as it is), then the
      start time, then the tag copied from the request, then the registration. */
  function PreExecute(r: Request, listener: Listener, now: int): Prepared
  {
    var started := if listener == NoListener then [] else [Start(r)];
    Prepared(r.(startTime := now), Some(r.tag), started + [AddTask(Some(r.tag))])
  }

  /** onPreExecute changes nothing but the start time, registers the task
      exactly once under the request's own tag as its last action, and
      notifies listener.start, with the request as it was before, exactly when
      there is a listener. */
  lemma PreExecuteRegisters(r: Request, listener: Listener, now: int)
    ensures var p := PreExecute(r, listener, now);
            && p.request.startTime == now && p.request.(startTime := r.startTime) == r
            && p.tag == Some(r.tag)
            && p.events != [] && p.events[|p.events| - 1] == AddTask(p.tag)
            && Count(p.events, IsRegistryCall) == 1
            && (forall i :: 0 <= i < |p.events| ==> !IsLoopEvent(p.events[i]) && !IsTerminal(p.events[i]))
            && ((exists i :: 0 <= i < |p.events| && p.events[i] == Start(r)) <==> listener != NoListener)
  {
    var p := PreExecute(r, listener, now);
    CountOfShort(p.events, IsRegistryCall);
  }

  datatype Run = Run(result: Option<Response>, request: Request, events: seq<Event>)

  /** Whether the task counts as cancelled once doInBackground returns:
      `cancelledLater` is a cancellation no read observed; one that a read did
      observe stays set, since isCancelled() never turns false again. */
  predicate CancelledAtEnd(request: Request, env: Env, cancelledLater: bool)
  {
    cancelledLater || RunHops(request, env, 0, None).exit == Threw(TaskCancelled)
  }

  /** The whole task. `now` is the clock when onPreExecute runs; the task is
      cancelled when doInBackground returns if CancelledAtEnd holds, in which
      case onCancelled runs instead of onPostExecute. */
  function Execute(r: Request, env: Env, now: int, cancelledLater: bool): Run
  {
    var pre := PreExecute(r, env.listener, now);
    var bg := Background(pre.request, env, pre.tag);
    var cancelled := CancelledAtEnd(pre.request, env, cancelledLater);
    var ui := UiCallbacks(bg.result, env.listener, bg.request, pre.tag, cancelled);
    Run(bg.result, bg.request, pre.events + bg.events + ui)
  }

  predicate IsUiEvent(e: Event)
  {
    e == FinishUIFailed || IsTerminal(e)
  }

  /** The callbacks of the primary thread, whichever of onPostExecute and
      onCancelled runs. */
  function UiCallbacks(result: Option<Response>, listener: Listener, request: Request,
                       tag: Option<string>, cancelled: bool): seq<Event>
  {
    if cancelled then OnCancelled(listener, request, tag) else OnPostExecute(result, listener, request)
  }

  lemma UiCallbacksOnly(result: Option<Response>, listener: Listener, request: Request,
                        tag: Option<string>, cancelled: bool)
    ensures var ui := UiCallbacks(result, listener, request, tag, cancelled);
            && (forall i :: 0 <= i < |ui| ==> IsUiEvent(ui[i]))
            && (listener == BaseCallback ==> Count(ui, IsTerminal) == 1)
            && (listener != BaseCallback ==> Count(ui, IsTerminal) <= 1)
  {
    var ui := UiCallbacks(result, listener, request, tag, cancelled);
    if !cancelled {
      forall i | 0 <= i < |ui| ensures IsUiEvent(ui[i]) {
        assert ui[i] == FinishUIFailed || ui[i].FinishUI? || ui[i].RedirectInterrupted?
               || ui[i].PreFailed? || ui[i].Failed?;
      }
      if listener == NoListener { CountOfShort(ui, IsTerminal); }
    }
  }

  /** The ordering facts of a task's events, from those of its three phases. */
  lemma {:induction false} PhasesInOrder(pre: seq<Event>, bg: seq<Event>, ui: seq<Event>, tag: Option<string>)
    requires pre != [] && pre[|pre| - 1] == AddTask(tag) && Count(pre, IsRegistryCall) == 1
    requires forall i :: 0 <= i < |pre| ==> !IsLoopEvent(pre[i]) && !IsTerminal(pre[i])
    requires bg != [] && bg[|bg| - 1] == RemoveTask(tag) && Count(bg, IsRegistryCall) == 1
    requires forall i :: 0 <= i < |bg| - 1 ==> IsLoopEvent(bg[i])
    requires forall i :: 0 <= i < |ui| ==> IsUiEvent(ui[i])
    ensures var ev := pre + bg + ui;
            var a := |pre| - 1;
            var d := |pre| + |bg| - 1;
            && 0 <= a < d < |ev|
            && ev[a] == AddTask(tag) && ev[d] == RemoveTask(tag)
            && Count(ev, IsRegistryCall) == 2
            && (forall i :: 0 <= i < |ev| && IsLoopEvent(ev[i]) ==> a < i < d)
            && (forall i :: d < i < |ev| ==> IsUiEvent(ev[i]))
            && Count(ev, IsTerminal) == Count(ui, IsTerminal)
  {
    var ev := pre + bg + ui;
    forall i | 0 <= i < |ui| ensures !IsRegistryCall(ui[i]) {
      assert IsUiEvent(ui[i]);
    }
    CountZero(ui, IsRegistryCall);
    CountZero(pre, IsTerminal);
    forall i | 0 <= i < |bg| ensures !IsTerminal(bg[i]) {
      if i < |bg| - 1 { assert IsLoopEvent(bg[i]); }
    }
    CountZero(bg, IsTerminal);
    CountAppend(pre, bg, IsRegistryCall);
    CountAppend(pre + bg, ui, IsRegistryCall);
    CountAppend(pre, bg, IsTerminal);
    CountAppend(pre + bg, ui, IsTerminal);
    forall i | 0 <= i < |ev| && IsLoopEvent(ev[i]) ensures |pre| - 1 < i < |pre| + |bg| - 1 {
    }
    forall i | |pre| + |bg| - 1 < i < |ev| ensures IsUiEvent(ev[i]) {
      assert ev[i] == ui[i - |pre| - |bg|];
    }
  }

  /** Registration and cleanup are ordered and guaranteed: listener.start comes
      first, the task is registered once before any connection is set up, it is
      deregistered once after the last connection event and listener.finish,
      only the callbacks of the primary thread follow, and an NBaseCallback hears
      of exactly one outcome. */
  lemma RegisteredThenDeregistered(r: Request, env: Env, now: int, cancelled: bool)
    ensures var ev := Execute(r, env, now, cancelled).events;
            var pre := PreExecute(r, env.listener, now);
            var a := |pre.events| - 1;
            var d := |pre.events| + |Background(pre.request, env, pre.tag).events| - 1;
            && 0 <= a < d < |ev|
            && (env.listener != NoListener ==> ev[0] == Start(r))
            && ev[a] == AddTask(Some(r.tag))
            && ev[d] == RemoveTask(Some(r.tag))
            && Count(ev, IsRegistryCall) == 2
            && (forall i :: 0 <= i < |ev| && IsLoopEvent(ev[i]) ==> a < i < d)
            && (forall i :: d < i < |ev| ==> IsUiEvent(ev[i]))
            && (env.listener == BaseCallback ==> Count(ev, IsTerminal) == 1)
            && (env.listener != BaseCallback ==> Count(ev, IsTerminal) <= 1)
  {
    var pre := PreExecute(r, env.listener, now);
    var bg := Background(pre.request, env, pre.tag);
    var atEnd := CancelledAtEnd(pre.request, env, cancelled);
    var ui := UiCallbacks(bg.result, env.listener, bg.request, pre.tag, atEnd);
    assert Execute(r, env, now, cancelled).events == pre.events + bg.events + ui;
    DeregisteredOnce(pre.request, env, pre.tag);
    UiCallbacksOnly(bg.result, env.listener, bg.request, pre.tag, atEnd);
    PreExecuteRegisters(r, env.listener, now);
    PhasesInOrder(pre.events, bg.events, ui, pre.tag);
  }

  /** The response time of a complete response is measured from the start time
      set by onPreExecute. */
  lemma ResponseTimeFromStart(r: Request, env: Env, now: int, cancelled: bool)
    ensures var run := Execute(r, env, now, cancelled);
            run.result.Some? && !run.result.value.redirectInterrupted ==>
              && run.result.value.responseTime == Some(NarrowToInt(env.endTime - now))
              && (IntMin <= env.endTime - now <= IntMax ==>
                    run.result.value.responseTime == Some(env.endTime - now))
  {
    var pre := PreExecute(r, env.listener, now);
    BackgroundResult(pre.request, env, pre.tag);
  }

  /** The callbacks only onPostExecute fires. */
  predicate IsPostExecuteEvent(e: Event)
  {
    e.FinishUI? || e.FinishUIFailed? || e.RedirectInterrupted? || e.PreFailed? || e.Failed?
  }

  /** A cancellation that a read observed ends the task in onCancelled: an
      NBaseCallback hears preTaskCancelled, and no listener hears any callback
      of onPostExecute. */
  lemma ObservedCancellationReported(r: Request, env: Env, now: int, cancelledLater: bool)
    requires RunHops(r.(startTime := now), env, 0, None).exit == Threw(TaskCancelled)
    ensures var pre := PreExecute(r, env.listener, now);
            var run := Execute(r, env, now, cancelledLater);
            var bg := Background(pre.request, env, pre.tag);
            && run.result.None?
            && run.events == pre.events + bg.events + OnCancelled(env.listener, bg.request, pre.tag)
            && (forall i :: 0 <= i < |run.events| ==> !IsPostExecuteEvent(run.events[i]))
  {
    var pre := PreExecute(r, env.listener, now);
    var bg := Background(pre.request, env, pre.tag);
    var ui := OnCancelled(env.listener, bg.request, pre.tag);
    var ev := pre.events + bg.events + ui;
    DeregisteredOnce(pre.request, env, pre.tag);
    PreExecuteRegisters(r, env.listener, now);
    forall i | 0 <= i < |ev|
      ensures !IsPostExecuteEvent(ev[i])
    {
      if i < |pre.events| {
        assert ev[i] == pre.events[i];
      } else if i < |pre.events| + |bg.events| - 1 {
        assert ev[i] == bg.events[i - |pre.events|];
      } else if i == |pre.events| + |bg.events| - 1 {
        assert ev[i] == RemoveTask(pre.tag);
      } else {
        assert ev[i] == ui[i - |pre.events| - |bg.events|];
      }
    }
  }
}
