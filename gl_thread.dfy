/** GLThread as an object: the monitor fields (grouped as in the spec module), the worker
    loop's carried locals, and the log of calls the worker has made. Each caller operation
    updates the fields as the source does and reports whether it would now block waiting
    for the worker; a worker pass and the outer loop are proved against the spec. */
module GlThread {
  import opened Wrappers
  import opened RenderNames
  import opened GlThreadSpec
  import GlThreadProps

  /** Concatenating logs regroups freely. */
  lemma AppendAssoc(a: seq<Effect>, b: seq<Effect>, c: seq<Effect>)
    ensures (a + b) + c == a + (b + c)
  {
  }

  /** One more pass of the outer loop. */
  lemma RunFrom(v: Variant, s: ThreadState, envs: seq<Env>, i: nat)
    requires i < |envs| && !s.life.exited
    ensures var step := GlThreadSpec.Step(v, s, envs[i]);
      var rest := Run(v, step.state, envs[i + 1..]);
      Run(v, s, envs[i..]) == Trace(rest.state, [step.pass] + rest.passes, step.calls + rest.calls)
  {
    assert envs[i..][0] == envs[i] && envs[i..][1..] == envs[i + 1..];
  }

  lemma PassesAssoc(a: seq<Pass>, b: seq<Pass>, c: seq<Pass>)
    ensures (a + b) + c == a + (b + c)
  {
  }

  class GLThread {
    const variant: Variant
    var life: Lifecycle
    var window: Window
    var held: Held
    var frame: Frame
    var eventQueue: seq<Task>
    var finishDrawingRunnable: Option<Task>
    var pending: Pending
    var notices: Notices
    /** Every call the worker has made, in order. */
    var calls: seq<Effect>

    function State(): ThreadState
      reads this
    {
      ThreadState(life, window, held, frame, eventQueue, finishDrawingRunnable, pending, notices)
    }

    predicate Valid()
      reads this
    {
      GlThreadSpec.Valid(State())
    }

    method SetState(t: ThreadState)
      modifies this
      ensures State() == t && calls == old(calls)
    {
      life, window, held, frame := t.life, t.window, t.held, t.frame;
      eventQueue, finishDrawingRunnable := t.eventQueue, t.finishDrawingRunnable;
      pending, notices := t.pending, t.notices;
    }

    /** Takes a phase's result: its state, and its calls appended to the log. */
    method Apply(n: Next)
      modifies this
      ensures State() == n.state && calls == old(calls) + n.calls
    {
      SetState(n.state);
      calls := calls + n.calls;
    }

    constructor(variant: Variant)
      ensures this.variant == variant && State() == Initial() && calls == []
      ensures Valid() && !AbleToDraw()
    {
      this.variant := variant;
      life := Lifecycle(false, false, false, false);
      window := Window(false, false, false, false);
      held := Held(false, false, false);
      frame := Frame(0, 0, Continuously, true, false, false, true);
      eventQueue := [];
      finishDrawingRunnable := None;
      pending := Pending(false, false, false, false, 0, 0);
      notices := Notices(false, false, false, false, None);
      calls := [];
      new;
      GlThreadProps.InitialValid();
    }

    predicate ReadyToDraw()
      reads this
    {
      !life.paused && window.hasSurface && !window.surfaceIsBad && frame.width > 0 && frame.height > 0
      && (frame.requestRender || frame.renderMode == Continuously)
    }

    predicate AbleToDraw()
      reads this
      ensures AbleToDraw() <==> GlThreadSpec.AbleToDraw(State())
    {
      held.haveEglContext && held.haveEglSurface && ReadyToDraw()
    }

    // ---------------------------------------------------------------- caller operations

    method SetRenderMode(mode: RenderMode)
      modifies this
      ensures State() == GlThreadSpec.SetRenderMode(old(State()), mode) && calls == old(calls)
    {
      frame := frame.(renderMode := mode);
    }

    method GetRenderMode() returns (mode: RenderMode)
      ensures mode == frame.renderMode
    {
      mode := frame.renderMode;
    }

    method RequestRender()
      modifies this
      ensures State() == GlThreadSpec.RequestRender(old(State())) && calls == old(calls)
    {
      frame := frame.(requestRender := true);
    }

    /** The caller does not wait: the worker runs the runnable after its next frame, or
        early when it is not ready to draw. */
    method RequestRenderAndNotify(onWorkerThread: bool, finishDrawing: Option<Task>)
      modifies this
      ensures State() == GlThreadSpec.RequestRenderAndNotify(old(State()), onWorkerThread, finishDrawing)
      ensures calls == old(calls)
    {
      if onWorkerThread {
        return;
      }
      frame := frame.(wantRenderNotification := true, requestRender := true, renderComplete := false);
      finishDrawingRunnable := finishDrawing;
    }

    method SurfaceCreated() returns (waits: bool)
      modifies this
      ensures State() == GlThreadSpec.SurfaceCreated(old(State())) && calls == old(calls)
      ensures waits <==> !SurfaceCreatedReleased(State())
    {
      window := window.(hasSurface := true, finishedCreatingEglSurface := false);
      waits := window.waitingForSurface && !window.finishedCreatingEglSurface && !life.exited;
    }

    method SurfaceDestroyed() returns (waits: bool)
      modifies this
      ensures State() == GlThreadSpec.SurfaceDestroyed(old(State())) && calls == old(calls)
      ensures waits <==> !SurfaceDestroyedReleased(State())
    {
      window := window.(hasSurface := false);
      waits := !window.waitingForSurface && !life.exited;
    }

    method OnPause() returns (waits: bool)
      modifies this
      ensures State() == GlThreadSpec.OnPause(old(State())) && calls == old(calls)
      ensures waits <==> !OnPauseReleased(State())
    {
      life := life.(requestPaused := true);
      waits := !life.exited && !life.paused;
    }

    method OnResume() returns (waits: bool)
      modifies this
      ensures State() == GlThreadSpec.OnResume(old(State())) && calls == old(calls)
      ensures waits <==> !OnResumeReleased(State())
    {
      life := life.(requestPaused := false);
      frame := frame.(requestRender := true, renderComplete := false);
      waits := !life.exited && life.paused && !frame.renderComplete;
    }

    method OnWindowResize(w: int, h: int, onWorkerThread: bool) returns (waits: bool)
      modifies this
      ensures State() == GlThreadSpec.OnWindowResize(old(State()), w, h) && calls == old(calls)
      ensures waits <==> !OnWindowResizeReleased(State(), onWorkerThread)
    {
      frame := frame.(width := w, height := h, sizeChanged := true, requestRender := true, renderComplete := false);
      if onWorkerThread {
        return false;
      }
      waits := !life.exited && !life.paused && !frame.renderComplete && AbleToDraw();
    }

    method RequestExitAndWait() returns (waits: bool)
      modifies this
      ensures State() == GlThreadSpec.RequestExit(old(State())) && calls == old(calls)
      ensures waits <==> !RequestExitReleased(State())
    {
      life := life.(shouldExit := true);
      waits := !life.exited;
    }

    method RequestReleaseEglContextLocked()
      modifies this
      ensures State() == GlThreadSpec.RequestReleaseEglContext(old(State())) && calls == old(calls)
    {
      held := held.(shouldReleaseEglContext := true);
    }

    /** queueEvent: a null Runnable raises IllegalArgumentException and changes nothing. */
    method QueueEvent(r: Option<Task>) returns (o: Outcome)
      modifies this
      ensures GlThreadSpec.QueueEvent(old(State()), r).Ok? ==> o == Done && State() == GlThreadSpec.QueueEvent(old(State()), r).value
      ensures GlThreadSpec.QueueEvent(old(State()), r).Throws? ==>
                o == Raised(GlThreadSpec.QueueEvent(old(State()), r).error) && State() == old(State())
      ensures calls == old(calls)
    {
      if r.None? {
        return Raised(IllegalArgumentException("r must not be null"));
      }
      eventQueue := eventQueue + [r.value];
      o := Done;
    }

    // ---------------------------------------------------------------- the worker

    /** The synchronized decision loop of one pass. */
    method DecideLocked(env: Env) returns (d: Decision)
      modifies this
      ensures var r := GlThreadSpec.Decide(variant, old(State()), env);
        State() == r.state && d == r.decision && calls == old(calls) + r.calls
    {
      if life.shouldExit {
        return Exit;
      }
      if |eventQueue| > 0 {
        var t := eventQueue[0];
        eventQueue := eventQueue[1..];
        return TakeEvent(t);
      }
      ghost var c0 := calls;
      var h := Housekeeping(variant, State(), env);
      Apply(h);
      if ReadyToDraw() {
        var r := ReadyBranch(State(), env.startThrows);
        Apply(Next(r.state, r.calls));
        AppendAssoc(c0, h.calls, r.calls);
        d := r.decision;
      } else {
        var e := ReportFinishEarly(State());
        Apply(e);
        AppendAssoc(c0, h.calls, e.calls);
        d := Wait;
      }
    }

    /** The finally blocks: dispose (current variant), release surface and context, exit. */
    method ExitPath(viewPresent: bool)
      modifies this
      ensures var x := GlThreadSpec.ExitPath(variant, old(State()), viewPresent);
        State() == x.state && calls == old(calls) + x.calls
    {
      ghost var c0 := calls;
      var dispose := CallIf(variant == Current && viewPresent, DisposeCallback);
      calls := calls + dispose;
      var t := StopEgl(State(), true);
      Apply(t);
      AppendAssoc(c0, dispose, t.calls);
      life := life.(exited := true);
    }

    /** Drawing a frame outside the lock. */
    method DrawFrame(env: Env) returns (pass: Pass)
      modifies this
      ensures var p := GlThreadSpec.DrawFrame(variant, old(State()), env);
        State() == p.state && pass == p.pass && calls == old(calls) + p.calls
    {
      ghost var c0 := calls;
      var failed := SurfaceCreationFails(State(), env.createSurfaceOk);
      var n1 := CreateSurfaceStep(State(), env.createSurfaceOk);
      Apply(n1);
      if failed {
        return SurfaceFailed;
      }
      var n4 := Prepare(variant, State(), env.viewPresent);
      Apply(n4);
      AppendAssoc(c0, n1.calls, n4.calls);
      var n5 := RenderStep(State(), env);
      Apply(n5);
      ghost var early := n1.calls + n4.calls + n5.calls;
      AppendAssoc(c0, n1.calls + n4.calls, n5.calls);
      assert calls == c0 + early;
      if RenderEscapes(variant, env) {
        ghost var x := GlThreadSpec.ExitPath(variant, State(), env.viewPresent);
        ExitPath(env.viewPresent);
        AppendAssoc(c0, early, x.calls);
        return Crashed;
      }
      var n6 := SwapStep(State(), env.swapResult);
      Apply(n6);
      AppendAssoc(c0, early, n6.calls);
      notices := notices.(doRenderNotification := notices.doRenderNotification || notices.wantRenderNotification,
                          wantRenderNotification := false);
      assert State() == NotifyStep(n6.state);
      pass := Drew;
    }

    /** One pass of guardedRun; it keeps the invariant. */
    method Step(env: Env) returns (pass: Pass)
      requires !life.exited
      modifies this
      ensures var p := GlThreadSpec.Step(variant, old(State()), env);
        State() == p.state && pass == p.pass && calls == old(calls) + p.calls
      ensures old(Valid()) ==> Valid()
    {
      ghost var s := State();
      if Valid() {
        GlThreadProps.StepPreservesValid(variant, s, env);
      }
      ghost var c0 := calls;
      var d := DecideLocked(env);
      ghost var dr := GlThreadSpec.Decide(variant, s, env);
      pass := Execute(d, env);
      AppendAssoc(c0, dr.calls, GlThreadSpec.Execute(variant, dr.state, dr.decision, env).calls);
    }

    /** The work outside the lock, as the decision loop left it. */
    method Execute(d: Decision, env: Env) returns (pass: Pass)
      modifies this
      ensures var e := GlThreadSpec.Execute(variant, old(State()), d, env);
        State() == e.state && pass == e.pass && calls == old(calls) + e.calls
    {
      match d
      case Exit => ExitPath(env.viewPresent); pass := Exited;
      case StartFailed => ExitPath(env.viewPresent); pass := Crashed;
      case TakeEvent(t) => calls := calls + [RunTask(t)]; pass := RanEvent(t);
      case Wait => pass := Waited;
      case Draw => pass := DrawFrame(env);
    }

    /** guardedRun's outer loop over a sequence of environments, until the worker exits. */
    method GuardedRun(envs: seq<Env>) returns (passes: seq<Pass>)
      modifies this
      ensures var r := Run(variant, old(State()), envs);
        State() == r.state && passes == r.passes && calls == old(calls) + r.calls
      ensures old(Valid()) ==> Valid()
    {
      passes := [];
      ghost var done: seq<Effect> := [];
      ghost var whole := Run(variant, State(), envs);
      var i := 0;
      while i < |envs| && !life.exited
        invariant 0 <= i <= |envs|
        invariant old(Valid()) ==> Valid()
        invariant calls == old(calls) + done
        invariant var rest := Run(variant, State(), envs[i..]);
          whole == Trace(rest.state, passes + rest.passes, done + rest.calls)
        decreases |envs| - i
      {
        ghost var s := State();
        ghost var step := GlThreadSpec.Step(variant, s, envs[i]);
        ghost var rest := Run(variant, step.state, envs[i + 1..]);
        RunFrom(variant, s, envs, i);
        var p := Step(envs[i]);
        AppendAssoc(old(calls), done, step.calls);
        AppendAssoc(done, step.calls, rest.calls);
        PassesAssoc(passes, [p], rest.passes);
        passes := passes + [p];
        done := done + step.calls;
        i := i + 1;
      }
      assert Run(variant, State(), envs[i..]) == Trace(State(), [], []);
    }
  }
}
