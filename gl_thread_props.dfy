/** Properties of the GLThread transition system: the invariant a pass keeps, the caller
    handshakes each wait loop relies on, event order, pause and resume, surface and
    context loss, the calls a pass makes, and how the two variants differ. */
module GlThreadProps {
  import opened Wrappers
  import opened RenderNames
  import EglErrors
  import opened GlThreadSpec

  // ---------------------------------------------------------------- the invariant

  lemma InitialValid()
    ensures Valid(Initial()) && !Initial().life.exited && !AbleToDraw(Initial())
  {
  }

  lemma HousekeepingValid(v: Variant, s: ThreadState, env: Env)
    requires Valid(s) && !s.life.exited
    ensures var t := Housekeeping(v, s, env).state;
      && Valid(t) && !t.life.exited && !t.notices.lostEglContext
      && (t.window.hasSurface ==> !t.window.waitingForSurface)
  {
  }

  /** The two view-surface edges of housekeeping: a surface lost while not yet waiting
      releases the EGL surface, starts the wait and clears surfaceIsBad; a present surface
      ends the wait and leaves surfaceIsBad alone. */
  lemma HousekeepingSurfaceEdges(v: Variant, s: ThreadState, env: Env)
    ensures var t := Housekeeping(v, s, env).state;
      && (!s.window.hasSurface && !s.window.waitingForSurface
          ==> t.window.waitingForSurface && !t.window.surfaceIsBad && !t.held.haveEglSurface)
      && (!s.window.hasSurface && s.window.waitingForSurface
          ==> t.window.waitingForSurface && t.window.surfaceIsBad == s.window.surfaceIsBad)
      && (s.window.hasSurface ==> !t.window.waitingForSurface && t.window.surfaceIsBad == s.window.surfaceIsBad)
  {
  }

  lemma ReadyBranchValid(s: ThreadState, startThrows: bool)
    requires Valid(s) && !s.life.exited && !s.notices.lostEglContext && !s.window.waitingForSurface
    ensures var r := ReadyBranch(s, startThrows);
      && Valid(r.state) && !r.state.life.exited
      && (r.decision == Draw ==> r.state.held.haveEglSurface && !r.state.notices.lostEglContext)
  {
  }

  /** The ready branch step by step: start() is called exactly when there is no context and
      no release was just asked for, and its failure is the only way to StartFailed; the
      request flag is spent once there is no context; a context without a surface schedules
      a new surface, GL interface and size; a draw consumes the size change and the render
      request. */
  lemma ReadyBranchAcquire(s: ThreadState, startThrows: bool)
    ensures var r := ReadyBranch(s, startThrows);
      && (EglStart in r.calls <==> !s.held.haveEglContext && !s.notices.askedToReleaseEglContext)
      && (r.decision == StartFailed <==> StartsEgl(s) && startThrows)
      && (StartsEgl(s) && !startThrows ==> r.state.held.haveEglContext && r.state.pending.createEglContext)
      && (!s.held.haveEglContext ==> !r.state.notices.askedToReleaseEglContext)
      && (s.notices.askedToReleaseEglContext && !s.held.haveEglContext && !s.held.haveEglSurface
          ==> r.decision == Wait && !r.state.held.haveEglContext)
      && (!s.held.haveEglSurface && r.state.held.haveEglContext
          ==> r.state.pending.createEglSurface && r.state.pending.createGlInterface && r.state.pending.sizeChanged)
      && (r.decision == Draw <==> r.decision != StartFailed && r.state.held.haveEglSurface)
      && (r.decision == Draw ==> !r.state.frame.sizeChanged && !r.state.frame.requestRender)
      && (r.decision == Draw && s.frame.sizeChanged
          ==> r.state.pending.w == s.frame.width && r.state.pending.h == s.frame.height
              && r.state.pending.createEglSurface && r.state.frame.wantRenderNotification)
  {
  }

  lemma DecideValid(v: Variant, s: ThreadState, env: Env)
    requires Valid(s) && !s.life.exited
    ensures var d := Decide(v, s, env);
      && Valid(d.state) && !d.state.life.exited
      && (d.decision == Draw ==> d.state.held.haveEglSurface && !d.state.notices.lostEglContext)
  {
    if !s.life.shouldExit && |s.eventQueue| == 0 {
      HousekeepingValid(v, s, env);
      var h := Housekeeping(v, s, env).state;
      if ReadyToDraw(h) {
        ReadyBranchValid(h, env.startThrows);
      }
    }
  }

  lemma ExitPathValid(v: Variant, s: ThreadState, viewPresent: bool)
    ensures var t := ExitPath(v, s, viewPresent).state;
      Valid(t) && t.life.exited && !t.held.haveEglContext && !t.held.haveEglSurface
  {
  }

  lemma DrawFrameValid(v: Variant, s: ThreadState, env: Env)
    requires Valid(s) && !s.life.exited && s.held.haveEglSurface && !s.notices.lostEglContext
    ensures Valid(DrawFrame(v, s, env).state)
  {
    if !SurfaceCreationFails(s, env.createSurfaceOk) && RenderEscapes(v, env) {
      var n1 := CreateSurfaceStep(s, env.createSurfaceOk);
      var n4 := Prepare(v, n1.state, env.viewPresent);
      ExitPathValid(v, RenderStep(n4.state, env).state, env.viewPresent);
    }
  }

  lemma ExecuteValid(v: Variant, s: ThreadState, d: Decision, env: Env)
    requires Valid(s) && !s.life.exited
    requires d == Draw ==> s.held.haveEglSurface && !s.notices.lostEglContext
    ensures Valid(Execute(v, s, d, env).state)
  {
    match d
    case Draw => DrawFrameValid(v, s, env);
    case Exit => ExitPathValid(v, s, env.viewPresent);
    case StartFailed => ExitPathValid(v, s, env.viewPresent);
    case _ =>
  }

  /** A worker pass keeps Valid, whatever the environment reports. */
  lemma StepPreservesValid(v: Variant, s: ThreadState, env: Env)
    requires Valid(s) && !s.life.exited
    ensures Valid(Step(v, s, env).state)
  {
    var d := Decide(v, s, env);
    DecideValid(v, s, env);
    ExecuteValid(v, d.state, d.decision, env);
  }

  /** Every caller operation keeps Valid. */
  lemma CallersPreserveValid(s: ThreadState, mode: RenderMode, onWorker: bool, r: Option<Task>, w: int, h: int)
    requires Valid(s)
    ensures Valid(SetRenderMode(s, mode)) && Valid(RequestRender(s))
    ensures Valid(RequestRenderAndNotify(s, onWorker, r))
    ensures Valid(SurfaceCreated(s)) && Valid(SurfaceDestroyed(s))
    ensures Valid(OnPause(s)) && Valid(OnResume(s)) && Valid(OnWindowResize(s, w, h))
    ensures Valid(RequestExit(s)) && Valid(RequestReleaseEglContext(s))
    ensures QueueEvent(s, r).Ok? ==> Valid(QueueEvent(s, r).value)
  {
  }

  // ---------------------------------------------------------------- how a pass unfolds

  /** The checks of the decision loop leave the render request, the size, the queue and the
      exit flags alone, and make paused follow requestPaused. */
  lemma HousekeepingKeeps(v: Variant, s: ThreadState, env: Env)
    ensures var t := Housekeeping(v, s, env).state;
      && t.frame.renderMode == s.frame.renderMode && t.frame.requestRender == s.frame.requestRender
      && t.frame.width == s.frame.width && t.frame.height == s.frame.height
      && t.eventQueue == s.eventQueue && t.life == s.life.(paused := s.life.requestPaused)
      && t.window.hasSurface == s.window.hasSurface
  {
  }

  lemma DrawFrameKeeps(v: Variant, s: ThreadState, env: Env)
    ensures var p := DrawFrame(v, s, env);
      && p.state.frame == s.frame && p.state.eventQueue == s.eventQueue
      && p.state.window.hasSurface == s.window.hasSurface
      && p.state.window.waitingForSurface == s.window.waitingForSurface
      && p.state.life == s.life.(exited := s.life.exited || p.pass == Crashed)
      && (p.pass == SurfaceFailed <==> SurfaceCreationFails(s, env.createSurfaceOk))
      && (p.pass == Crashed <==> !SurfaceCreationFails(s, env.createSurfaceOk) && RenderEscapes(v, env))
      && (p.pass == SurfaceFailed || p.pass == Crashed || p.pass == Drew)
  {
  }

  /** The work after the decision loop leaves the frame request, the view-surface wait,
      the pause state and the queue alone, and exits exactly on Exit, StartFailed or a
      crash. */
  lemma ExecuteKeeps(v: Variant, s: ThreadState, d: Decision, env: Env)
    ensures var t := Execute(v, s, d, env).state;
      && t.frame == s.frame && t.eventQueue == s.eventQueue
      && t.window.hasSurface == s.window.hasSurface
      && t.window.waitingForSurface == s.window.waitingForSurface
      && t.life.paused == s.life.paused && t.life.requestPaused == s.life.requestPaused
      && (t.life.exited <==> s.life.exited || d == Exit || d == StartFailed || Execute(v, s, d, env).pass == Crashed)
  {
    if d == Draw {
      DrawFrameKeeps(v, s, env);
    }
  }

  /** The decision loop as a case split. */
  lemma DecideCases(v: Variant, s: ThreadState, env: Env)
    ensures var d := Decide(v, s, env);
      var h := Housekeeping(v, s, env);
      && (s.life.shouldExit ==> d == Decided(s, Exit, []))
      && (!s.life.shouldExit && |s.eventQueue| > 0 ==>
            d == Decided(s.(eventQueue := s.eventQueue[1..]), TakeEvent(s.eventQueue[0]), []))
      && (!s.life.shouldExit && |s.eventQueue| == 0 && !ReadyToDraw(h.state) ==>
            d.decision == Wait && d.state == ReportFinishEarly(h.state).state)
      && (!s.life.shouldExit && |s.eventQueue| == 0 && ReadyToDraw(h.state) ==>
            d.state == ReadyBranch(h.state, env.startThrows).state
            && d.decision == ReadyBranch(h.state, env.startThrows).decision)
      && (!s.life.shouldExit && |s.eventQueue| == 0 ==> |d.calls| >= |h.calls| && d.calls[..|h.calls|] == h.calls)
  {
    var d := Decide(v, s, env);
    var h := Housekeeping(v, s, env);
    if !s.life.shouldExit && |s.eventQueue| == 0 {
      if ReadyToDraw(h.state) {
        assert d.calls == h.calls + ReadyBranch(h.state, env.startThrows).calls;
      } else {
        assert d.calls == h.calls + ReportFinishEarly(h.state).calls;
      }
      assert d.calls[..|h.calls|] == h.calls;
    }
  }

  // ---------------------------------------------------------------- caller handshakes

  /** requestExitAndWait: one pass after the request the worker has exited, released
      surface and context, and made no call but dispose, destroySurface and finish, even
      with events still queued. */
  lemma RequestExitHandshake(v: Variant, s: ThreadState, env: Env)
    requires !s.life.exited
    ensures var p := Step(v, RequestExit(s), env);
      && p.pass == Exited && RequestExitReleased(p.state)
      && !p.state.held.haveEglContext && !p.state.held.haveEglSurface
      && p.calls == CallIf(v == Current && env.viewPresent, DisposeCallback)
                    + CallIf(s.held.haveEglSurface, EglDestroySurface)
                    + CallIf(s.held.haveEglContext, EglFinish)
  {
    var p := Step(v, RequestExit(s), env);
    assert p.calls == [] + ExitPath(v, RequestExit(s), env.viewPresent).calls;
  }

  /** onPause: one pass (with no event queued) later the caller is released. */
  lemma OnPauseHandshake(v: Variant, s: ThreadState, env: Env)
    requires !s.life.exited && |s.eventQueue| == 0
    ensures OnPauseReleased(Step(v, OnPause(s), env).state)
  {
    var d := Decide(v, OnPause(s), env);
    DecidePaused(v, OnPause(s), env);
    ExecuteKeeps(v, d.state, d.decision, env);
  }

  lemma OnResumeHandshake(v: Variant, s: ThreadState, env: Env)
    requires !s.life.exited && |s.eventQueue| == 0
    ensures OnResumeReleased(Step(v, OnResume(s), env).state)
  {
    var d := Decide(v, OnResume(s), env);
    DecidePaused(v, OnResume(s), env);
    ExecuteKeeps(v, d.state, d.decision, env);
  }

  /** After the checks have run, paused has caught up with requestPaused. */
  lemma DecidePaused(v: Variant, s: ThreadState, env: Env)
    ensures var d := Decide(v, s, env);
      && d.state.life.requestPaused == s.life.requestPaused
      && d.state.life.exited == s.life.exited
      && (s.life.shouldExit ==> d.decision == Exit)
      && (!s.life.shouldExit && |s.eventQueue| == 0 ==> d.state.life.paused == s.life.requestPaused)
  {
    if !s.life.shouldExit && |s.eventQueue| == 0 {
      DecideCases(v, s, env);
      HousekeepingKeeps(v, s, env);
      BranchesKeepLife(Housekeeping(v, s, env).state, env.startThrows);
    }
  }

  lemma BranchesKeepLife(s: ThreadState, startThrows: bool)
    ensures ReadyBranch(s, startThrows).state.life == s.life
    ensures ReportFinishEarly(s).state.life == s.life
  {
  }

  /** surfaceDestroyed: one pass later the worker is waiting for a new surface (or has
      exited) and holds no EGL surface. */
  lemma SurfaceDestroyedHandshake(v: Variant, s: ThreadState, env: Env)
    requires Valid(s) && !s.life.exited && |s.eventQueue| == 0
    ensures var t := Step(v, SurfaceDestroyed(s), env).state;
      && SurfaceDestroyedReleased(t) && !t.held.haveEglSurface
      && (!s.life.shouldExit ==> t.window.waitingForSurface && !t.window.hasSurface)
      && (!s.life.shouldExit && !s.window.waitingForSurface ==> !t.window.surfaceIsBad)
  {
    var s0 := SurfaceDestroyed(s);
    var d := Decide(v, s0, env);
    DecideCases(v, s0, env);
    ExecuteKeeps(v, d.state, d.decision, env);
    if s.life.shouldExit {
      ExitPathValid(v, s0, env.viewPresent);
    }
  }

  lemma SurfaceCreatedHandshake(v: Variant, s: ThreadState, env: Env)
    requires !s.life.exited && |s.eventQueue| == 0
    ensures SurfaceCreatedReleased(Step(v, SurfaceCreated(s), env).state)
  {
    var s0 := SurfaceCreated(s);
    var d := Decide(v, s0, env);
    DecideCases(v, s0, env);
    ExecuteKeeps(v, d.state, d.decision, env);
  }

  /** A frame drawn with a render notification pending completes the notification on the
      next pass, which releases onResume and onWindowResize. */
  lemma RenderNotificationDelivered(v: Variant, s: ThreadState, env: Env)
    requires !s.life.exited && !s.life.shouldExit && |s.eventQueue| == 0
    requires s.notices.doRenderNotification
    ensures var t := Step(v, s, env).state;
      t.frame.renderComplete && OnResumeReleased(t) && OnWindowResizeReleased(t, false)
  {
    var d := Decide(v, s, env);
    DecideCases(v, s, env);
    ExecuteKeeps(v, d.state, d.decision, env);
  }

  // ---------------------------------------------------------------- events

  function RanEvents(q: seq<Task>): (r: seq<Pass>)
    ensures |r| == |q| && forall i :: 0 <= i < |q| ==> r[i] == RanEvent(q[i])
  {
    if |q| == 0 then [] else [RanEvent(q[0])] + RanEvents(q[1..])
  }

  function RunTasks(q: seq<Task>): (r: seq<Effect>)
    ensures |r| == |q| && forall i :: 0 <= i < |q| ==> r[i] == RunTask(q[i])
  {
    if |q| == 0 then [] else [RunTask(q[0])] + RunTasks(q[1..])
  }

  /** Queued events run first, one per pass, in the order they were queued, and nothing
      else happens meanwhile. */
  lemma {:induction false} EventsRunInQueueOrder(v: Variant, s: ThreadState, envs: seq<Env>)
    requires !s.life.shouldExit && !s.life.exited && |envs| == |s.eventQueue|
    decreases |envs|
    ensures Run(v, s, envs) == Trace(s.(eventQueue := []), RanEvents(s.eventQueue), RunTasks(s.eventQueue))
  {
    var q := s.eventQueue;
    if |envs| > 0 {
      var p := Step(v, s, envs[0]);
      DecideCases(v, s, envs[0]);
      assert p == Passed(s.(eventQueue := q[1..]), RanEvent(q[0]), [RunTask(q[0])]);
      EventsRunInQueueOrder(v, p.state, envs[1..]);
    } else {
      assert s.(eventQueue := []) == s;
    }
  }

  /** queueEvent rejects null and otherwise puts the event behind those already queued,
      changing nothing else. */
  lemma QueueEventSpec(s: ThreadState, r: Option<Task>)
    ensures QueueEvent(s, r).Throws? <==> r.None?
    ensures r.Some? ==> QueueEvent(s, r).value == s.(eventQueue := s.eventQueue + [r.value])
  {
  }

  /** requestRenderAndNotify hands its runnable to the worker: the next pass with no
      events takes it over with the render request still set, and runs it at once when
      the thread is not ready to draw. */
  lemma RequestRenderAndNotifyHandover(v: Variant, s: ThreadState, r: Task, env: Env)
    requires !s.life.shouldExit && |s.eventQueue| == 0
    ensures var s0 := RequestRenderAndNotify(s, false, Some(r));
      var h := Housekeeping(v, s0, env).state;
      && h.notices.finishDrawingRunnable == Some(r) && h.finishDrawingRunnable.None?
      && h.frame.requestRender
      && (!ReadyToDraw(h) ==> RunTask(r) in Decide(v, s0, env).calls && Decide(v, s0, env).decision == Wait)
  {
    var s0 := RequestRenderAndNotify(s, false, Some(r));
    var n := Housekeeping(v, s0, env);
    if !ReadyToDraw(n.state) {
      var e := ReportFinishEarly(n.state);
      assert e.calls == [RunTask(r)];
      assert Decide(v, s0, env).calls == n.calls + e.calls;
    }
  }

  // ---------------------------------------------------------------- pause and resume

  lemma HousekeepingPause(v: Variant, s: ThreadState, env: Env)
    requires Valid(s) && !s.life.exited && s.life.requestPaused && !s.life.paused
    ensures var h := Housekeeping(v, s, env);
      && h.state.life.paused && !h.state.held.haveEglSurface
      && (!(env.viewPresent && env.preserveOnPause) ==> !h.state.held.haveEglContext)
      && ((s.held.haveEglContext && !s.held.shouldReleaseEglContext && !s.notices.lostEglContext
           && env.viewPresent && env.preserveOnPause) ==> h.state.held.haveEglContext)
      && (v == Current && env.viewPresent ==> |h.calls| > 0 && h.calls[0] == PauseCallback)
  {
  }

  /** The pass that notices a pause: the worker pauses and waits, always gives up its EGL
      surface, and keeps its context exactly when the view asks to preserve it (and
      nothing else asked to release it); in the current variant its first call is the
      renderer's pause when the view is still there. */
  lemma PauseReleases(v: Variant, s: ThreadState, env: Env)
    requires Valid(s) && !s.life.exited && !s.life.shouldExit && |s.eventQueue| == 0
    requires s.life.requestPaused && !s.life.paused
    ensures var p := Step(v, s, env);
      && p.pass == Waited && p.state.life.paused && !p.state.held.haveEglSurface
      && (!(env.viewPresent && env.preserveOnPause) ==> !p.state.held.haveEglContext)
      && ((s.held.haveEglContext && !s.held.shouldReleaseEglContext && !s.notices.lostEglContext
           && env.viewPresent && env.preserveOnPause) ==> p.state.held.haveEglContext)
      && (v == Current && env.viewPresent ==> |p.calls| > 0 && p.calls[0] == PauseCallback)
  {
    HousekeepingPause(v, s, env);
    DecideCases(v, s, env);
    var d := Decide(v, s, env);
    var h := Housekeeping(v, s, env);
    if v == Current && env.viewPresent {
      assert d.calls[..|h.calls|][0] == PauseCallback;
    }
  }

  /** Calls that only release EGL. */
  predicate OnlyStops(calls: seq<Effect>) {
    forall e :: e in calls ==> e == EglDestroySurface || e == EglFinish
  }

  lemma StopEglCalls(s: ThreadState, c: bool)
    ensures OnlyStops(StopEgl(s, c).calls)
  {
  }

  /** Apart from the pause edge's callback the checks only release EGL. */
  lemma HousekeepingCalls(v: Variant, s: ThreadState, env: Env)
    ensures var h := Housekeeping(v, s, env);
      && (PauseCallback in h.calls <==> !s.life.paused && s.life.requestPaused && v == Current && env.viewPresent)
      && (ResumeCallback in h.calls <==> s.life.paused && !s.life.requestPaused && v == Current && env.viewPresent)
      && DisposeCallback !in h.calls && EglCreateGl !in h.calls
  {
    var n1 := UpdatePause(v, s, env.viewPresent);
    var r := Releases(n1.state, Pausing(s), env.viewPresent && env.preserveOnPause);
    ReleasesCalls(n1.state, Pausing(s), env.viewPresent && env.preserveOnPause);
    assert Housekeeping(v, s, env).calls == n1.calls + r.calls;
    NoneOfStops(r.calls);
  }

  lemma NoneOfStops(calls: seq<Effect>)
    requires OnlyStops(calls)
    ensures PauseCallback !in calls && ResumeCallback !in calls
    ensures DisposeCallback !in calls && EglCreateGl !in calls
  {
  }

  lemma ReleasesCalls(s: ThreadState, pausing: bool, preserveContext: bool)
    ensures OnlyStops(Releases(s, pausing, preserveContext).calls)
  {
    var n2 := ReleaseOnRequest(s);
    StopEglCalls(s, s.held.shouldReleaseEglContext);
    StopEglCalls(n2.state, n2.state.notices.lostEglContext);
  }

  /** The decision loop's calls: the renderer's pause or resume only on a pause edge, never
      dispose or a GL interface. */
  lemma DecideCalls(v: Variant, s: ThreadState, env: Env)
    ensures var d := Decide(v, s, env);
      var houseKept := !s.life.shouldExit && |s.eventQueue| == 0;
      && (PauseCallback in d.calls <==>
            houseKept && !s.life.paused && s.life.requestPaused && v == Current && env.viewPresent)
      && (ResumeCallback in d.calls <==>
            houseKept && s.life.paused && !s.life.requestPaused && v == Current && env.viewPresent)
      && DisposeCallback !in d.calls && EglCreateGl !in d.calls
  {
    if !s.life.shouldExit && |s.eventQueue| == 0 {
      var h := Housekeeping(v, s, env);
      HousekeepingCalls(v, s, env);
      var tail := if ReadyToDraw(h.state) then ReadyBranch(h.state, env.startThrows).calls
                  else ReportFinishEarly(h.state).calls;
      assert Decide(v, s, env).calls == h.calls + tail;
      assert tail == [] || tail == [EglStart] || tail == [RunTask(h.state.notices.finishDrawingRunnable.value)];
    }
  }

  lemma ExitPathCalls(v: Variant, s: ThreadState, viewPresent: bool)
    ensures var x := ExitPath(v, s, viewPresent).calls;
      && PauseCallback !in x && ResumeCallback !in x && EglCreateGl !in x
      && (DisposeCallback in x <==> v == Current && viewPresent)
  {
    StopEglCalls(s, true);
  }

  lemma DrawFrameCalls(v: Variant, s: ThreadState, env: Env)
    ensures var p := DrawFrame(v, s, env);
      && PauseCallback !in p.calls && ResumeCallback !in p.calls
      && (DisposeCallback in p.calls <==> p.pass == Crashed && v == Current && env.viewPresent)
      && (EglCreateGl in p.calls ==> v == Current)
  {
    var p := DrawFrame(v, s, env);
    var n1 := CreateSurfaceStep(s, env.createSurfaceOk);
    if !SurfaceCreationFails(s, env.createSurfaceOk) {
      var n4 := Prepare(v, n1.state, env.viewPresent);
      var n5 := RenderStep(n4.state, env);
      PrepareCalls(v, n1.state, env.viewPresent);
      RenderStepCalls(n4.state, env);
      var last := if RenderEscapes(v, env) then ExitPath(v, n5.state, env.viewPresent).calls else [EglSwap];
      assert p.calls == n1.calls + n4.calls + n5.calls + last;
      if RenderEscapes(v, env) {
        ExitPathCalls(v, n5.state, env.viewPresent);
      }
    }
  }

  lemma PrepareCalls(v: Variant, s: ThreadState, viewPresent: bool)
    ensures var c := Prepare(v, s, viewPresent).calls;
      && PauseCallback !in c && ResumeCallback !in c && DisposeCallback !in c
      && (EglCreateGl in c ==> v == Current)
  {
  }

  lemma RenderStepCalls(s: ThreadState, env: Env)
    ensures var c := RenderStep(s, env).calls;
      PauseCallback !in c && ResumeCallback !in c && DisposeCallback !in c && EglCreateGl !in c
  {
  }

  /** The calls of the work after the decision loop: never pause or resume, dispose only on
      the way out, a GL interface only in the current variant. */
  lemma ExecuteCalls(v: Variant, s: ThreadState, d: Decision, env: Env)
    ensures var e := Execute(v, s, d, env);
      && PauseCallback !in e.calls && ResumeCallback !in e.calls
      && (DisposeCallback in e.calls <==> (d == Exit || d == StartFailed || e.pass == Crashed) && v == Current && env.viewPresent)
      && (EglCreateGl in e.calls ==> v == Current)
  {
    match d
    case Draw => DrawFrameCalls(v, s, env);
    case Exit => ExitPathCalls(v, s, env.viewPresent);
    case StartFailed => ExitPathCalls(v, s, env.viewPresent);
    case _ =>
  }

  /** The edges of the pause state are the only sources of the renderer's pause and resume:
      a pass calls pause exactly when it sees the edge into pause, resume exactly when it
      sees the edge out of it, and only in the current variant with the view present. */
  lemma PauseCallbacksOnEdges(v: Variant, s: ThreadState, env: Env)
    requires !s.life.exited
    ensures var p := Step(v, s, env);
      var houseKept := !s.life.shouldExit && |s.eventQueue| == 0;
      && (PauseCallback in p.calls <==>
            houseKept && !s.life.paused && s.life.requestPaused && v == Current && env.viewPresent)
      && (ResumeCallback in p.calls <==>
            houseKept && s.life.paused && !s.life.requestPaused && v == Current && env.viewPresent)
  {
    var d := Decide(v, s, env);
    DecideCalls(v, s, env);
    ExecuteCalls(v, d.state, d.decision, env);
  }

  /** dispose is called exactly on the way out, in the current variant, with the view there. */
  lemma DisposeOnlyOnExit(v: Variant, s: ThreadState, env: Env)
    requires !s.life.exited
    ensures var p := Step(v, s, env);
      DisposeCallback in p.calls <==> p.state.life.exited && v == Current && env.viewPresent
  {
    var d := Decide(v, s, env);
    DecideCalls(v, s, env);
    DecideValidExited(v, s, env);
    ExecuteCalls(v, d.state, d.decision, env);
    ExecuteKeeps(v, d.state, d.decision, env);
  }

  lemma DecideValidExited(v: Variant, s: ThreadState, env: Env)
    requires !s.life.exited
    ensures !Decide(v, s, env).state.life.exited
  {
  }

  /** The calls the older variant never makes. */
  predicate LegacyEffect(e: Effect) {
    !(e.PauseCallback? || e.ResumeCallback? || e.DisposeCallback? || e.EglCreateGl?)
  }

  /** The older variant never calls the renderer's pause, resume or dispose and never
      creates a GL interface. */
  lemma LegacyNeverCalls(s: ThreadState, env: Env)
    requires !s.life.exited
    ensures forall i :: 0 <= i < |Step(Legacy, s, env).calls| ==> LegacyEffect(Step(Legacy, s, env).calls[i])
  {
    var p := Step(Legacy, s, env);
    PauseCallbacksOnEdges(Legacy, s, env);
    DisposeOnlyOnExit(Legacy, s, env);
    var d := Decide(Legacy, s, env);
    DecideCalls(Legacy, s, env);
    ExecuteCalls(Legacy, d.state, d.decision, env);
    assert EglCreateGl !in p.calls;
    forall i | 0 <= i < |p.calls| ensures LegacyEffect(p.calls[i]) {
      assert p.calls[i] in p.calls;
    }
  }

  // ---------------------------------------------------------------- drawing

  /** In WHEN_DIRTY mode nothing is drawn until a render is requested. */
  lemma WhenDirtyNeedsRequest(v: Variant, s: ThreadState, env: Env)
    requires !s.life.exited && s.frame.renderMode == WhenDirty && !s.frame.requestRender
    ensures Step(v, s, env).pass != Drew && Step(v, s, env).pass != SurfaceFailed
  {
    DecideCases(v, s, env);
    HousekeepingKeeps(v, s, env);
  }

  lemma DrawFrameFacts(v: Variant, s: ThreadState, env: Env)
    requires !s.window.surfaceIsBad && !s.notices.lostEglContext
    ensures var p := DrawFrame(v, s, env);
      p.pass == Drew ==>
        && p.state.frame == s.frame && p.state.held == s.held
        && |p.calls| > 0 && p.calls[|p.calls| - 1] == EglSwap
        && (p.state.notices.lostEglContext <==> env.swapResult == EglErrors.EGL_CONTEXT_LOST)
        && (p.state.window.surfaceIsBad <==>
              env.swapResult != EglErrors.EGL_SUCCESS && env.swapResult != EglErrors.EGL_CONTEXT_LOST)
  {
  }

  /** A drawn frame was ready, consumed the render request and held surface and context. */
  lemma DrewWhenReady(v: Variant, s: ThreadState, env: Env)
    requires Valid(s) && !s.life.exited
    ensures var p := Step(v, s, env);
      p.pass == Drew ==>
        && !s.life.shouldExit && |s.eventQueue| == 0
        && ReadyToDraw(Housekeeping(v, s, env).state)
        && !p.state.frame.requestRender && p.state.held.haveEglContext && p.state.held.haveEglSurface
  {
    var d := Decide(v, s, env);
    var e := Execute(v, d.state, d.decision, env);
    ExecutePass(v, d.state, d.decision, env);
    if e.pass == Drew {
      DecideDraw(v, s, env);
      DrawFrameFacts(v, d.state, env);
    }
  }

  /** A drawn frame ended with a swap whose result is classified: a lost context is noted
      for the next pass, any other failure marks the surface bad. */
  lemma DrewEndsWithSwap(v: Variant, s: ThreadState, env: Env)
    requires Valid(s) && !s.life.exited
    ensures var p := Step(v, s, env);
      p.pass == Drew ==>
        && |p.calls| > 0 && p.calls[|p.calls| - 1] == EglSwap
        && (p.state.notices.lostEglContext <==> env.swapResult == EglErrors.EGL_CONTEXT_LOST)
        && (p.state.window.surfaceIsBad <==>
              env.swapResult != EglErrors.EGL_SUCCESS && env.swapResult != EglErrors.EGL_CONTEXT_LOST)
  {
    var d := Decide(v, s, env);
    var e := Execute(v, d.state, d.decision, env);
    ExecutePass(v, d.state, d.decision, env);
    if e.pass == Drew {
      DecideDraw(v, s, env);
      DrawFrameFacts(v, d.state, env);
      assert Step(v, s, env).calls == d.calls + e.calls;
      assert (d.calls + e.calls)[|d.calls + e.calls| - 1] == e.calls[|e.calls| - 1];
    }
  }

  /** The decision to draw is taken only when the checks left the state ready, with
      context and surface held, the request consumed and nothing lost or bad. */
  lemma DecideDraw(v: Variant, s: ThreadState, env: Env)
    requires Valid(s) && !s.life.exited
    ensures var d := Decide(v, s, env);
      d.decision == Draw ==>
        && !s.life.shouldExit && |s.eventQueue| == 0
        && ReadyToDraw(Housekeeping(v, s, env).state)
        && !d.state.frame.requestRender && d.state.held.haveEglContext && d.state.held.haveEglSurface
        && !d.state.window.surfaceIsBad && !d.state.notices.lostEglContext
  {
    var d := Decide(v, s, env);
    DecideCases(v, s, env);
    if d.decision == Draw {
      HousekeepingValid(v, s, env);
      var h := Housekeeping(v, s, env).state;
      ReadyBranchDraw(h, env.startThrows);
    }
  }

  lemma ReadyBranchDraw(s: ThreadState, startThrows: bool)
    requires Valid(s)
    ensures var r := ReadyBranch(s, startThrows);
      r.decision == Draw ==>
        && !r.state.frame.requestRender && r.state.held.haveEglContext && r.state.held.haveEglSurface
        && r.state.window == s.window && r.state.notices.lostEglContext == s.notices.lostEglContext
  {
  }

  /** When the EGL surface cannot be created the surface is marked bad, the creation is
      reported finished (so surfaceCreated is released) and stays scheduled. */
  lemma SurfaceFailureMarksBad(v: Variant, s: ThreadState, env: Env)
    requires !s.life.exited
    ensures var p := Step(v, s, env);
      p.pass == SurfaceFailed ==>
        && !env.createSurfaceOk && p.state.window.surfaceIsBad
        && p.state.window.finishedCreatingEglSurface && p.state.pending.createEglSurface
  {
  }

  /** A bad surface is not drawn on until the view surface is lost and comes back. */
  lemma BadSurfaceWaits(v: Variant, s: ThreadState, env: Env)
    requires !s.life.exited && !s.life.shouldExit && |s.eventQueue| == 0
    requires s.window.surfaceIsBad && s.window.hasSurface
    ensures Step(v, s, env).pass == Waited
  {
    DecideCases(v, s, env);
  }

  /** A lost context is torn down first thing on the next pass: surface, then context. */
  lemma LostContextTornDown(v: Variant, s: ThreadState, env: Env)
    requires Valid(s) && !s.life.exited && !s.life.shouldExit && |s.eventQueue| == 0
    requires s.notices.lostEglContext && s.life.paused == s.life.requestPaused
    requires !s.held.shouldReleaseEglContext
    ensures var p := Step(v, s, env);
      |p.calls| >= 2 && p.calls[0] == EglDestroySurface && p.calls[1] == EglFinish
  {
    var h := Housekeeping(v, s, env);
    assert h.calls[..2] == [EglDestroySurface, EglFinish];
    DecideCases(v, s, env);
    var d := Decide(v, s, env);
    assert d.calls[..2] == d.calls[..|h.calls|][..2];
  }

  /** A size change seen in the ready branch forces a new EGL surface, a resize to the new
      size and a render notification. */
  lemma SizeChangeRecreatesSurface(s: ThreadState, startThrows: bool)
    requires s.frame.sizeChanged && ReadyBranch(s, startThrows).decision == Draw
    ensures var t := ReadyBranch(s, startThrows).state;
      && t.pending.createEglSurface && t.pending.sizeChanged
      && t.pending.w == s.frame.width && t.pending.h == s.frame.height
      && t.notices.wantRenderNotification && !t.frame.sizeChanged && !t.frame.requestRender
  {
  }

  /** The first frame after the surface appears and gets a size: start EGL, create the
      surface, (current variant) create the GL interface, call create, resize with the new
      size, render and swap, in that order; the render notification goes out next pass. */
  lemma FirstFrame(v: Variant, w: int, h: int)
    requires w > 0 && h > 0
    ensures var env := Env(true, true, false, true, false, EglErrors.EGL_SUCCESS as int);
      var p := Step(v, OnWindowResize(SurfaceCreated(Initial()), w, h), env);
      && p.pass == Drew
      && p.calls == [EglStart, EglCreateSurface] + (if v == Current then [EglCreateGl] else [])
                    + [CreateCallback, ResizeCallback(w, h), RenderCallback, EglSwap]
      && p.state.notices.doRenderNotification
  {
    var env := Env(true, true, false, true, false, EglErrors.EGL_SUCCESS as int);
    var s := OnWindowResize(SurfaceCreated(Initial()), w, h);
    var hk := Housekeeping(v, s, env);
    assert hk.calls == [];
    assert hk.state == s;
    var r := ReadyBranch(s, false);
    assert r.calls == [EglStart] && r.decision == Draw;
    var d := Decide(v, s, env);
    assert d.calls == [EglStart] && d.decision == Draw && d.state == r.state;
    FirstDraw(v, r.state, w, h);
  }

  lemma FirstDraw(v: Variant, s: ThreadState, w: int, h: int)
    requires s.pending == Pending(true, true, true, true, w, h)
    requires !s.notices.lostEglContext && !s.window.surfaceIsBad && s.notices.finishDrawingRunnable.None?
    requires s.notices.wantRenderNotification
    ensures var env := Env(true, true, false, true, false, EglErrors.EGL_SUCCESS as int);
      var p := DrawFrame(v, s, env);
      && p.pass == Drew
      && p.calls == [EglCreateSurface] + (if v == Current then [EglCreateGl] else [])
                    + [CreateCallback, ResizeCallback(w, h), RenderCallback, EglSwap]
      && p.state.notices.doRenderNotification
  {
  }

  // ---------------------------------------------------------------- exceptions

  /** How the worker dies: only by start() throwing, or, in the older variant that does not
      catch renderer exceptions, by render() throwing. */
  lemma CrashCauses(v: Variant, s: ThreadState, env: Env)
    requires !s.life.exited
    ensures var p := Step(v, s, env);
      && (p.pass == Crashed ==> env.startThrows || RenderEscapes(v, env))
      && (p.pass == Exited || p.pass == Crashed <==> p.state.life.exited)
  {
    var d := Decide(v, s, env);
    var e := Execute(v, d.state, d.decision, env);
    DecideValidExited(v, s, env);
    DecideStartFailed(v, s, env);
    ExecutePass(v, d.state, d.decision, env);
    ExecuteKeeps(v, d.state, d.decision, env);
    assert Step(v, s, env).pass == e.pass && Step(v, s, env).state == e.state;
  }

  lemma DecideStartFailed(v: Variant, s: ThreadState, env: Env)
    ensures Decide(v, s, env).decision == StartFailed ==> env.startThrows
  {
  }

  /** How the work after the decision loop ends. */
  lemma ExecutePass(v: Variant, s: ThreadState, d: Decision, env: Env)
    ensures var e := Execute(v, s, d, env);
      && (e.pass == Exited <==> d == Exit)
      && (e.pass == Crashed <==>
            d == StartFailed || (d == Draw && !SurfaceCreationFails(s, env.createSurfaceOk) && RenderEscapes(v, env)))
  {
    if d == Draw {
      DrawFrameKeeps(v, s, env);
    }
  }

  /** Once a frame is being drawn, a throwing render kills the older worker; the current
      one carries on to the swap and keeps the finish-drawing callback pending. */
  lemma RenderExceptionOutcome(v: Variant, s: ThreadState, env: Env)
    requires !s.life.exited && env.viewPresent && env.renderThrows
    requires Decide(v, s, env).decision == Draw
    requires !SurfaceCreationFails(Decide(v, s, env).state, env.createSurfaceOk)
    ensures var p := Step(v, s, env);
      && (v == Legacy ==> p.pass == Crashed && p.state.life.exited)
      && (v == Current ==> p.pass == Drew && p.state.notices.finishDrawingRunnable
                                              == Decide(v, s, env).state.notices.finishDrawingRunnable)
  {
  }
}
