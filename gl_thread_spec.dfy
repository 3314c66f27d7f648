/** The render-thread controller GLThread as a transition system: the monitor-protected
    fields, the worker loop's carried locals, and a log of the calls the worker makes
    outside the monitor. One worker pass is one trip through the synchronized decision
    loop (ending in an exit, a dequeued event, a draw or a wait) followed by the work done
    outside the lock. The older GLThread of trash/IRenderView.java is the Legacy variant.
    The fields are grouped into small records; the grouping is not the source's. */
module GlThreadSpec {
  import opened Wrappers
  import opened RenderNames
  import EglErrors

  /** GLThread.java, or the older copy in trash/IRenderView.java. */
  datatype Variant = Current | Legacy

  /** A Runnable handed to the thread (an event or a finish-drawing callback). */
  datatype Task = Task(id: nat)

  /** The calls the worker makes: renderer callbacks, EGL helper operations, tasks it runs. */
  datatype Effect =
    | PauseCallback | ResumeCallback | CreateCallback | ResizeCallback(width: int, height: int)
    | RenderCallback | DisposeCallback
    | EglStart | EglCreateSurface | EglCreateGl | EglDestroySurface | EglFinish | EglSwap
    | RunTask(task: Task)

  // Monitor-protected fields.
  datatype Lifecycle = Lifecycle(shouldExit: bool, exited: bool, requestPaused: bool, paused: bool)
  datatype Window = Window(hasSurface: bool, surfaceIsBad: bool, waitingForSurface: bool,
                           finishedCreatingEglSurface: bool)
  datatype Held = Held(haveEglContext: bool, haveEglSurface: bool, shouldReleaseEglContext: bool)
  datatype Frame = Frame(width: int, height: int, renderMode: RenderMode, requestRender: bool,
                         wantRenderNotification: bool, renderComplete: bool, sizeChanged: bool)

  // Locals of guardedRun carried from one pass to the next.
  datatype Pending = Pending(createEglContext: bool, createEglSurface: bool, createGlInterface: bool,
                             sizeChanged: bool, w: int, h: int)
  datatype Notices = Notices(lostEglContext: bool, wantRenderNotification: bool,
                             doRenderNotification: bool, askedToReleaseEglContext: bool,
                             finishDrawingRunnable: Option<Task>)

  /** The monitor fields (life, window, held, frame, eventQueue, finishDrawingRunnable)
      and the worker's locals (pending, notices). */
  datatype ThreadState = ThreadState(
    life: Lifecycle, window: Window, held: Held, frame: Frame,
    eventQueue: seq<Task>, finishDrawingRunnable: Option<Task>,
    pending: Pending, notices: Notices)

  /** A state reached with the calls that were made on the way. */
  datatype Next = Next(state: ThreadState, calls: seq<Effect>)

  /** Where the decision loop leaves the monitor, and the calls it made under it. */
  datatype Decided = Decided(state: ThreadState, decision: Decision, calls: seq<Effect>)

  /** The end of one worker pass: the new state, how the pass ended, its calls in order. */
  datatype Passed = Passed(state: ThreadState, pass: Pass, calls: seq<Effect>)

  /** What the world outside the monitor reports during one pass: whether the view is
      still referenced and preserves its context on pause, whether EGL start throws,
      whether createSurface succeeds, whether the renderer's render throws, and the code
      swap returns. */
  datatype Env = Env(
    viewPresent: bool, preserveOnPause: bool, startThrows: bool, createSurfaceOk: bool,
    renderThrows: bool, swapResult: int)

  /** How a pass ends: the worker exited (asked to, or by an exception), ran an event,
      waited, gave up on a surface it could not create, or drew a frame. */
  datatype Pass = Exited | Crashed | RanEvent(task: Task) | Waited | SurfaceFailed | Drew

  /** Where the decision loop leaves the monitor. */
  datatype Decision = Exit | TakeEvent(task: Task) | Draw | Wait | StartFailed

  /** The state after the constructor and the first lines of guardedRun. */
  function Initial(): ThreadState {
    ThreadState(
      Lifecycle(false, false, false, false), Window(false, false, false, false),
      Held(false, false, false), Frame(0, 0, Continuously, true, false, false, true),
      [], None,
      Pending(false, false, false, false, 0, 0), Notices(false, false, false, false, None))
  }

  // ---------------------------------------------------------------- predicates

  /** readyToDraw */
  predicate ReadyToDraw(s: ThreadState) {
    !s.life.paused && s.window.hasSurface && !s.window.surfaceIsBad &&
    s.frame.width > 0 && s.frame.height > 0 &&
    (s.frame.requestRender || s.frame.renderMode == Continuously)
  }

  /** ableToDraw */
  predicate AbleToDraw(s: ThreadState) {
    s.held.haveEglContext && s.held.haveEglSurface && ReadyToDraw(s)
  }

  /** What holds between passes: an EGL surface is held only with a context, never while
      waiting for a view surface, nothing is held after exit, and a lost context is
      noticed while its surface is still held. */
  predicate Valid(s: ThreadState) {
    && (s.held.haveEglSurface ==> s.held.haveEglContext)
    && (s.window.waitingForSurface ==> !s.held.haveEglSurface)
    && (s.life.exited ==> !s.held.haveEglContext && !s.held.haveEglSurface)
    && (s.notices.lostEglContext && !s.life.exited ==> s.held.haveEglSurface)
  }

  // ---------------------------------------------------------------- caller operations

  function SetRenderMode(s: ThreadState, mode: RenderMode): ThreadState {
    s.(frame := s.frame.(renderMode := mode))
  }

  function RequestRender(s: ThreadState): ThreadState {
    s.(frame := s.frame.(requestRender := true))
  }

  /** requestRenderAndNotify; a call from the worker thread itself changes nothing. */
  function RequestRenderAndNotify(s: ThreadState, onWorkerThread: bool, finishDrawing: Option<Task>): ThreadState {
    if onWorkerThread then s
    else s.(frame := s.frame.(wantRenderNotification := true, requestRender := true, renderComplete := false),
            finishDrawingRunnable := finishDrawing)
  }

  function SurfaceCreated(s: ThreadState): ThreadState {
    s.(window := s.window.(hasSurface := true, finishedCreatingEglSurface := false))
  }

  /** surfaceCreated returns once this holds. */
  predicate SurfaceCreatedReleased(s: ThreadState) {
    !s.window.waitingForSurface || s.window.finishedCreatingEglSurface || s.life.exited
  }

  function SurfaceDestroyed(s: ThreadState): ThreadState {
    s.(window := s.window.(hasSurface := false))
  }

  predicate SurfaceDestroyedReleased(s: ThreadState) {
    s.window.waitingForSurface || s.life.exited
  }

  function OnPause(s: ThreadState): ThreadState {
    s.(life := s.life.(requestPaused := true))
  }

  predicate OnPauseReleased(s: ThreadState) {
    s.life.exited || s.life.paused
  }

  function OnResume(s: ThreadState): ThreadState {
    s.(life := s.life.(requestPaused := false), frame := s.frame.(requestRender := true, renderComplete := false))
  }

  predicate OnResumeReleased(s: ThreadState) {
    s.life.exited || !s.life.paused || s.frame.renderComplete
  }

  function OnWindowResize(s: ThreadState, w: int, h: int): ThreadState {
    s.(frame := s.frame.(width := w, height := h, sizeChanged := true, requestRender := true, renderComplete := false))
  }

  /** onWindowResize returns at once on the worker thread, otherwise once this holds. */
  predicate OnWindowResizeReleased(s: ThreadState, onWorkerThread: bool) {
    onWorkerThread || s.life.exited || s.life.paused || s.frame.renderComplete || !AbleToDraw(s)
  }

  function RequestExit(s: ThreadState): ThreadState {
    s.(life := s.life.(shouldExit := true))
  }

  predicate RequestExitReleased(s: ThreadState) {
    s.life.exited
  }

  function RequestReleaseEglContext(s: ThreadState): ThreadState {
    s.(held := s.held.(shouldReleaseEglContext := true))
  }

  /** queueEvent: a null Runnable is rejected, any other is appended. */
  function QueueEvent(s: ThreadState, r: Option<Task>): Result<ThreadState> {
    if r.None? then Throws(IllegalArgumentException("r must not be null"))
    else Ok(s.(eventQueue := s.eventQueue + [r.value]))
  }

  // ---------------------------------------------------------------- decision phases

  /** The call e if c holds, otherwise none. */
  function CallIf(c: bool, e: Effect): seq<Effect> {
    if c then [e] else []
  }

  // Each phase below is written as one update of the fields it touches, each new value
  // stated as a condition on the old state, rather than as branches over whole states.

  /** stopEglSurfaceLocked, called when c holds. */
  function StopEglSurface(s: ThreadState, c: bool): Next {
    Next(s.(held := s.held.(haveEglSurface := s.held.haveEglSurface && !c)),
         CallIf(c && s.held.haveEglSurface, EglDestroySurface))
  }

  /** stopEglContextLocked, called when c holds. */
  function StopEglContext(s: ThreadState, c: bool): Next {
    Next(s.(held := s.held.(haveEglContext := s.held.haveEglContext && !c)),
         CallIf(c && s.held.haveEglContext, EglFinish))
  }

  /** Both, surface first. */
  function StopEgl(s: ThreadState, c: bool): Next {
    var a := StopEglSurface(s, c);
    var b := StopEglContext(a.state, c);
    Next(b.state, a.calls + b.calls)
  }

  /** The pause edge: paused follows requestPaused, with the renderer's pause or resume
      callback in the current variant when the view is there. */
  function UpdatePause(v: Variant, s: ThreadState, viewPresent: bool): Next {
    var edge := s.life.paused != s.life.requestPaused;
    Next(s.(life := s.life.(paused := s.life.requestPaused)),
         CallIf(edge && v == Current && viewPresent,
                if s.life.requestPaused then PauseCallback else ResumeCallback))
  }

  /** Whether this pass sees the edge into pause. */
  predicate Pausing(s: ThreadState) {
    s.life.paused != s.life.requestPaused && s.life.requestPaused
  }

  /** Giving up surface and context because asked to. */
  function ReleaseOnRequest(s: ThreadState): Next {
    var c := s.held.shouldReleaseEglContext;
    var t := StopEgl(s, c);
    Next(t.state.(held := t.state.held.(shouldReleaseEglContext := false),
                  notices := t.state.notices.(askedToReleaseEglContext := t.state.notices.askedToReleaseEglContext || c)),
         t.calls)
  }

  /** Giving up surface and context after the last swap reported a lost context. */
  function ReleaseLostContext(s: ThreadState): Next {
    var t := StopEgl(s, s.notices.lostEglContext);
    Next(t.state.(notices := t.state.notices.(lostEglContext := false)), t.calls)
  }

  /** When pausing the surface goes, and the context too unless it is preserved. */
  function ReleaseOnPause(s: ThreadState, pausing: bool, preserveContext: bool): Next {
    var a := StopEglSurface(s, pausing);
    var b := StopEglContext(a.state, pausing && !preserveContext);
    Next(b.state, a.calls + b.calls)
  }

  /** The two view-surface edges: a lost view surface releases the EGL surface and starts
      the wait for a new one (clearing surfaceIsBad); a present one ends the wait. */
  function TrackSurface(s: ThreadState): Next {
    var lost := !s.window.hasSurface && !s.window.waitingForSurface;
    var t := StopEglSurface(s, lost);
    var u := t.state;
    Next(u.(window := u.window.(waitingForSurface := (u.window.waitingForSurface || lost) && !u.window.hasSurface,
                                surfaceIsBad := u.window.surfaceIsBad && !lost)),
         t.calls)
  }

  /** A frame drawn on the previous pass completes a render notification. */
  function DeliverRenderNotification(s: ThreadState): ThreadState {
    var c := s.notices.doRenderNotification;
    s.(frame := s.frame.(wantRenderNotification := s.frame.wantRenderNotification && !c,
                         renderComplete := s.frame.renderComplete || c),
       notices := s.notices.(doRenderNotification := false))
  }

  /** A finish-drawing callback handed over by requestRenderAndNotify moves to the worker. */
  function TakeFinishDrawing(s: ThreadState): ThreadState {
    s.(notices := s.notices.(finishDrawingRunnable :=
         if s.finishDrawingRunnable.Some? then s.finishDrawingRunnable else s.notices.finishDrawingRunnable),
       finishDrawingRunnable := None)
  }

  /** Running a pending callback, if there is one. */
  function RunPending(r: Option<Task>): seq<Effect> {
    if r.Some? then [RunTask(r.value)] else []
  }

  /** Not ready to draw: a pending finish-drawing callback is run early. */
  function ReportFinishEarly(s: ThreadState): Next {
    Next(s.(notices := s.notices.(finishDrawingRunnable := None)),
         RunPending(s.notices.finishDrawingRunnable))
  }

  /** Whether the ready branch calls start(): no context, and no release was just asked for. */
  predicate StartsEgl(s: ThreadState) {
    !s.held.haveEglContext && !s.notices.askedToReleaseEglContext
  }

  /** Acquiring a context in the ready branch (skipped once after a requested release). */
  function AcquireContext(s: ThreadState, startThrows: bool): Next {
    var ok := StartsEgl(s) && !startThrows;
    Next(s.(held := s.held.(haveEglContext := s.held.haveEglContext || ok),
            pending := s.pending.(createEglContext := s.pending.createEglContext || ok),
            notices := s.notices.(askedToReleaseEglContext := s.notices.askedToReleaseEglContext && s.held.haveEglContext)),
         CallIf(StartsEgl(s), EglStart))
  }

  /** A context without a surface: take the surface and schedule its creation. */
  function ClaimSurface(s: ThreadState): ThreadState {
    var c := s.held.haveEglContext && !s.held.haveEglSurface;
    s.(held := s.held.(haveEglSurface := s.held.haveEglSurface || c),
       pending := s.pending.(createEglSurface := s.pending.createEglSurface || c,
                             createGlInterface := s.pending.createGlInterface || c,
                             sizeChanged := s.pending.sizeChanged || c))
  }

  /** With a surface held: a pending size change forces a new surface, a resize to the new
      size and a render notification; the render request is consumed. */
  function ConsumeRequest(s: ThreadState): ThreadState {
    var c := s.frame.sizeChanged;
    s.(pending := s.pending.(sizeChanged := s.pending.sizeChanged || c,
                             w := if c then s.frame.width else s.pending.w,
                             h := if c then s.frame.height else s.pending.h,
                             createEglSurface := s.pending.createEglSurface || c),
       frame := s.frame.(wantRenderNotification := s.frame.wantRenderNotification || c,
                         sizeChanged := false, requestRender := false),
       notices := s.notices.(wantRenderNotification :=
                               s.notices.wantRenderNotification || s.frame.wantRenderNotification || c))
  }

  /** The ready branch of the decision loop. */
  function ReadyBranch(s: ThreadState, startThrows: bool): Decided {
    var a := AcquireContext(s, startThrows);
    if StartsEgl(s) && startThrows then Decided(a.state, StartFailed, a.calls)
    else
      var s2 := ClaimSurface(a.state);
      if !s2.held.haveEglSurface then Decided(s2, Wait, a.calls)
      else Decided(ConsumeRequest(s2), Draw, a.calls)
  }

  /** The release checks after the pause edge, in source order. */
  function Releases(s: ThreadState, pausing: bool, preserveContext: bool): Next {
    var n2 := ReleaseOnRequest(s);
    var n3 := ReleaseLostContext(n2.state);
    var n4 := ReleaseOnPause(n3.state, pausing, preserveContext);
    var n5 := TrackSurface(n4.state);
    Next(n5.state, n2.calls + n3.calls + n4.calls + n5.calls)
  }

  /** The pause, release and surface checks of one trip through the decision loop. */
  function Housekeeping(v: Variant, s: ThreadState, env: Env): Next {
    var n1 := UpdatePause(v, s, env.viewPresent);
    var r := Releases(n1.state, Pausing(s), env.viewPresent && env.preserveOnPause);
    Next(TakeFinishDrawing(DeliverRenderNotification(r.state)), n1.calls + r.calls)
  }

  /** The decision loop under the monitor. */
  function Decide(v: Variant, s: ThreadState, env: Env): Decided {
    if s.life.shouldExit then Decided(s, Exit, [])
    else if |s.eventQueue| > 0 then Decided(s.(eventQueue := s.eventQueue[1..]), TakeEvent(s.eventQueue[0]), [])
    else
      var h := Housekeeping(v, s, env);
      if ReadyToDraw(h.state) then
        var r := ReadyBranch(h.state, env.startThrows);
        Decided(r.state, r.decision, h.calls + r.calls)
      else
        var e := ReportFinishEarly(h.state);
        Decided(e.state, Wait, h.calls + e.calls)
  }

  // ---------------------------------------------------------------- work outside the lock

  /** The finally blocks of guardedRun and run: dispose (current variant only), release
      surface and context, mark the thread exited. */
  function ExitPath(v: Variant, s: ThreadState, viewPresent: bool): Next {
    var t := StopEgl(s, true);
    Next(t.state.(life := t.state.life.(exited := true)),
         CallIf(v == Current && viewPresent, DisposeCallback) + t.calls)
  }

  /** Whether creating a scheduled EGL surface failed, which ends the pass. */
  predicate SurfaceCreationFails(s: ThreadState, ok: bool) {
    s.pending.createEglSurface && !ok
  }

  /** Creating the EGL surface when asked to (on failure the creation stays scheduled). */
  function CreateSurfaceStep(s: ThreadState, ok: bool): Next {
    var c := s.pending.createEglSurface;
    Next(s.(window := s.window.(finishedCreatingEglSurface := s.window.finishedCreatingEglSurface || c,
                                surfaceIsBad := s.window.surfaceIsBad || (c && !ok)),
            pending := s.pending.(createEglSurface := c && !ok)),
         CallIf(c, EglCreateSurface))
  }

  /** Creating the GL interface (current variant only). */
  function CreateGlStep(v: Variant, s: ThreadState): Next {
    var c := v == Current && s.pending.createGlInterface;
    Next(s.(pending := s.pending.(createGlInterface := s.pending.createGlInterface && !c)),
         CallIf(c, EglCreateGl))
  }

  /** The renderer's create after a new context, if the view is there. */
  function CreateStep(s: ThreadState, viewPresent: bool): Next {
    Next(s.(pending := s.pending.(createEglContext := false)),
         CallIf(s.pending.createEglContext && viewPresent, CreateCallback))
  }

  /** The renderer's resize after a size change, if the view is there. */
  function ResizeStep(s: ThreadState, viewPresent: bool): Next {
    Next(s.(pending := s.pending.(sizeChanged := false)),
         CallIf(s.pending.sizeChanged && viewPresent, ResizeCallback(s.pending.w, s.pending.h)))
  }

  /** Whether render's exception escapes: only in the older variant, which does not catch it. */
  predicate RenderEscapes(v: Variant, env: Env) {
    env.viewPresent && env.renderThrows && v == Legacy
  }

  /** The render callback and, if it returns, the finish-drawing callback. */
  function RenderStep(s: ThreadState, env: Env): Next {
    var rendered := env.viewPresent && !env.renderThrows;
    Next(s.(notices := s.notices.(finishDrawingRunnable := if rendered then None else s.notices.finishDrawingRunnable)),
         CallIf(env.viewPresent, RenderCallback) + (if rendered then RunPending(s.notices.finishDrawingRunnable) else []))
  }

  /** Swapping and classifying the swap result: a lost context is noted for the next
      pass, any other failure marks the surface bad. */
  function SwapStep(s: ThreadState, code: int): Next {
    Next(s.(notices := s.notices.(lostEglContext := s.notices.lostEglContext || code == EglErrors.EGL_CONTEXT_LOST),
            window := s.window.(surfaceIsBad := s.window.surfaceIsBad ||
                                  (code != EglErrors.EGL_SUCCESS && code != EglErrors.EGL_CONTEXT_LOST))),
         [EglSwap])
  }

  /** A wanted render notification is sent on the next pass. */
  function NotifyStep(s: ThreadState): ThreadState {
    s.(notices := s.notices.(doRenderNotification := s.notices.doRenderNotification || s.notices.wantRenderNotification,
                             wantRenderNotification := false))
  }

  /** The steps between a created surface and the render call. */
  function Prepare(v: Variant, s: ThreadState, viewPresent: bool): Next {
    var n2 := CreateGlStep(v, s);
    var n3 := CreateStep(n2.state, viewPresent);
    var n4 := ResizeStep(n3.state, viewPresent);
    Next(n4.state, n2.calls + n3.calls + n4.calls)
  }

  /** The drawing half of a pass. */
  function DrawFrame(v: Variant, s: ThreadState, env: Env): Passed {
    var n1 := CreateSurfaceStep(s, env.createSurfaceOk);
    if SurfaceCreationFails(s, env.createSurfaceOk) then Passed(n1.state, SurfaceFailed, n1.calls)
    else
      var n4 := Prepare(v, n1.state, env.viewPresent);
      var n5 := RenderStep(n4.state, env);
      var early := n1.calls + n4.calls + n5.calls;
      if RenderEscapes(v, env) then
        var x := ExitPath(v, n5.state, env.viewPresent);
        Passed(x.state, Crashed, early + x.calls)
      else
        var n6 := SwapStep(n5.state, env.swapResult);
        Passed(NotifyStep(n6.state), Drew, early + n6.calls)
  }

  /** The work after the decision loop. */
  function Execute(v: Variant, s: ThreadState, d: Decision, env: Env): Passed {
    match d
    case Exit => var x := ExitPath(v, s, env.viewPresent); Passed(x.state, Exited, x.calls)
    case StartFailed => var x := ExitPath(v, s, env.viewPresent); Passed(x.state, Crashed, x.calls)
    case TakeEvent(t) => Passed(s, RanEvent(t), [RunTask(t)])
    case Wait => Passed(s, Waited, [])
    case Draw => DrawFrame(v, s, env)
  }

  /** One worker pass. */
  function Step(v: Variant, s: ThreadState, env: Env): Passed
    requires !s.life.exited
  {
    var d := Decide(v, s, env);
    var e := Execute(v, d.state, d.decision, env);
    Passed(e.state, e.pass, d.calls + e.calls)
  }

  /** Where a run of passes ends: the final state, how each pass ended, all calls in order. */
  datatype Trace = Trace(state: ThreadState, passes: seq<Pass>, calls: seq<Effect>)

  /** guardedRun's outer loop: passes in sequence, one environment per pass, until the
      worker exits or the environments run out. */
  function Run(v: Variant, s: ThreadState, envs: seq<Env>): Trace
    decreases |envs|
  {
    if |envs| == 0 || s.life.exited then Trace(s, [], [])
    else
      var p := Step(v, s, envs[0]);
      var rest := Run(v, p.state, envs[1..]);
      Trace(rest.state, [p.pass] + rest.passes, p.calls + rest.calls)
  }
}
