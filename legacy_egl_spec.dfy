/** The older EglHelper nested in the trash IRenderView: an EGL10 helper whose chooser,
    context factory and window-surface factory are fixed defaults it never drops. Its
    finish() releases only the context and the display, its createSurface() dereferences
    the view without a null check, and its errors carry the decimal error code. */
module LegacyEglSpec {
  import opened Wrappers
  import opened Digits
  import opened EglErrors
  import opened EglConfig
  import opened EglResources

  /** The fields of one instance that change: mEgl, mEglDisplay, mEglSurface, mEglConfig
      and mEglContext. The chooser is always SimpleEGLConfigChooser(false), and the view
      reference is never cleared. */
  datatype Helper = Helper(egl: bool, display: Handle, surface: Handle, config: Option<Config>, context: Handle)

  /** The chooser every instance holds. */
  function FixedChooser(): LegacyChooser {
    LegacySimpleChooser(false)
  }

  function New(): (h: Helper)
    ensures !h.egl && h.display == Null && h.surface == Null && h.config.None? && h.context == Null
  {
    Helper(false, Null, Null, None, Null)
  }

  /** start(): display, initialisation, config and context, in that order. */
  function Start(h: Helper, n: StartNatives): (Helper, Outcome) {
    var h1 := h.(egl := true, display := n.display);
    if n.display == NoObject then (h1, Raised(RuntimeException("eglGetDisplay failed")))
    else if !n.initializeOk then (h1, Raised(RuntimeException("eglInitialize failed")))
    else match LegacyChoose(FixedChooser(), n.chooseConfig)
      case Throws(e) => (h1, Raised(e))
      case Ok(config) =>
        var h2 := h1.(config := Some(config));
        if n.context == Null || n.context == NoObject then
          (h2.(context := Null), Raised(RuntimeException(LegacyFormatEglError("createContext", n.error))))
        else (h2.(context := n.context, surface := Null), Done)
  }

  /** destroySurfaceImp(): releases a live surface and forgets it. */
  function DestroySurfaceImp(h: Helper): Helper {
    if h.surface == Null || h.surface == NoObject then h else h.(surface := Null)
  }

  /** createSurface(): the checks, the old surface released, then the view's surface. A
      view that is gone throws NullPointerException. */
  function CreateSurface(h: Helper, n: SurfaceNatives): (Helper, Result<bool>) {
    if !h.egl then (h, Throws(RuntimeException("egl not initialized")))
    else if h.display == Null then (h, Throws(RuntimeException("eglDisplay not initialized")))
    else if h.config.None? then (h, Throws(RuntimeException("mEglConfig not initialized")))
    else
      var h1 := DestroySurfaceImp(h);
      if !n.viewAlive then (h1, Throws(NullPointerException))
      else
        var h2 := h1.(surface := n.windowSurface);
        if n.windowSurface == Null || n.windowSurface == NoObject then (h2, Ok(false))
        else if !n.makeCurrentOk then (h2, Ok(false))
        else (h2, Ok(true))
  }

  /** finish(): destroys the context (a failing eglDestroyContext throws, under the
      misspelt function name the source uses) and terminates the display. */
  function Finish(h: Helper, destroyContextOk: bool, error: Int32): (Helper, Outcome) {
    if h.context != Null && !destroyContextOk then
      (h, Raised(RuntimeException(LegacyFormatEglError("eglDestroyContex", error))))
    else (h.(context := Null, display := Null), Done)
  }

  // ---------------------------------------------------------------- properties

  /** start() succeeds exactly when every native step succeeds and then holds the chosen
      config, the created context and no surface; a failed context creation throws the
      decimal-coded createContext error and leaves the context null. */
  lemma StartCases(h: Helper, n: StartNatives)
    ensures var (h', o) := Start(h, n);
      && h'.egl && h'.display == n.display
      && (o == Done <==>
            n.display != NoObject && n.initializeOk && LegacyChoose(FixedChooser(), n.chooseConfig).Ok? && n.context.Live?)
      && (o == Done ==>
            h' == Helper(true, n.display, Null, Some(LegacyChoose(FixedChooser(), n.chooseConfig).value), n.context))
      && (n.display != NoObject && n.initializeOk && LegacyChoose(FixedChooser(), n.chooseConfig).Ok? && !n.context.Live? ==>
            h'.context == Null && o == Raised(RuntimeException(LegacyFormatEglError("createContext", n.error))))
      && (o.Raised? && !(n.display != NoObject && n.initializeOk && LegacyChoose(FixedChooser(), n.chooseConfig).Ok?) ==>
            h'.context == h.context && h'.config == h.config)
  {
  }

  /** createSurface() throws when EGL, the display or the config is missing, and throws
      NullPointerException for a view that is gone; otherwise it returns true exactly when
      the factory gives a live surface and eglMakeCurrent succeeds. */
  lemma CreateSurfaceCases(h: Helper, n: SurfaceNatives)
    ensures var (h', r) := CreateSurface(h, n);
      && (!h.egl || h.display == Null || h.config.None? ==> r.Throws? && h' == h)
      && (h.egl && h.display != Null && h.config.Some? && !n.viewAlive ==>
            r == Throws(NullPointerException) && !h'.surface.Live?)
      && (r == Ok(true) <==>
            h.egl && h.display != Null && h.config.Some? && n.viewAlive && n.windowSurface.Live? && n.makeCurrentOk)
      && (r.Ok? ==> h' == h.(surface := n.windowSurface))
  {
  }

  /** finish() releases the context and the display and keeps the config: it fails only
      when eglDestroyContext does on a held context. */
  lemma FinishKeeps(h: Helper, destroyContextOk: bool, error: Int32)
    ensures var (h', o) := Finish(h, destroyContextOk, error);
      && (o == Done <==> h.context == Null || destroyContextOk)
      && (o == Done ==> h' == h.(context := Null, display := Null))
      && (o.Raised? ==> h' == h && o.error == RuntimeException(LegacyFormatEglError("eglDestroyContex", error)))
  {
  }

  /** Because finish() keeps the chooser and the factories, a start() after it behaves as
      start() would have without the finish(); until then createSurface() reports the
      missing display. */
  lemma RestartAfterFinish(h: Helper, destroyContextOk: bool, error: Int32, n: StartNatives, sn: SurfaceNatives)
    requires Finish(h, destroyContextOk, error).1 == Done
    ensures var h' := Finish(h, destroyContextOk, error).0;
      && Start(h', n).1 == Start(h, n).1
      && (Start(h, n).1 == Done ==> Start(h', n).0 == Start(h, n).0)
      && (h'.egl && h'.config.Some? ==>
            CreateSurface(h', sn).1 == Throws(RuntimeException("eglDisplay not initialized")))
  {
  }

  /** The two helpers part on a view that is gone: this one throws, the newer bookkeeping
      returns false. */
  lemma DeadViewDiffers(h: Helper, n: SurfaceNatives, handles: Handles)
    requires h.egl && h.display != Null && h.config.Some? && !n.viewAlive
    requires handles.egl && handles.display != Null && handles.config.Some? && !handles.surface.Live?
    ensures CreateSurface(h, n).1 == Throws(NullPointerException)
    ensures EglResources.CreateSurface(handles, n).1 == Ok(false)
  {
  }
}
