/** The handle bookkeeping of EGLCore (over EGL14) and EglHelper (over EGL10): which
    display, surface, config and context references an instance holds after start,
    createSurface, destroySurface, finish and swap. Every native call is a parameter. */
module EglResources {
  import opened Wrappers
  import opened Digits
  import opened EglErrors
  import opened EglConfig

  /** A reference to an EGL object: null, the EGL_NO_DISPLAY / EGL_NO_SURFACE /
      EGL_NO_CONTEXT sentinel, or a live object. */
  datatype Handle = Null | NoObject | Live(id: nat)

  /** The config chooser an instance holds: a BaseConfigChooser of this class, which writes
      GL_VERSION when it finds a config, or any other EGLConfigChooser the view supplies,
      whose answer is a native parameter and which leaves GL_VERSION alone. */
  datatype Chooser = BaseChooser(base: ConfigChooser) | ForeignChooser

  /** What the view supplies when the instance is constructed; an absent chooser, context
      factory or surface factory is replaced by the default one. */
  datatype ViewSettings = ViewSettings(chooser: Option<Chooser>, glWrapper: bool)

  /** The fields of one instance. `egl` is EglHelper's mEgl (EGLCore calls the static
      EGL14 and always has it); `viewReferenced` is false once the WeakReference to the
      view has been cleared; `glVersion` is the value of the class-wide static GL_VERSION as
      this instance sees it. */
  datatype Handles = Handles(
    egl: bool,
    display: Handle, surface: Handle, config: Option<Config>, context: Handle,
    chooser: Option<Chooser>, contextFactory: bool, surfaceFactory: bool, glWrapper: bool,
    viewReferenced: bool, glVersion: int)

  /** The native results start() sees: eglGetDisplay, eglInitialize, eglChooseConfig,
      what a foreign chooser returns (None for null) or throws, the context factory's
      eglCreateContext and the eglGetError that follows it. */
  datatype StartNatives = StartNatives(
    display: Handle, initializeOk: bool, chooseConfig: seq<int> -> ChooseAnswer,
    foreignChoice: Result<Option<Config>>, context: Handle, error: Int32)

  /** The native results createSurface() sees: whether the view is still alive, what the
      window-surface factory returns, and whether eglMakeCurrent succeeds. */
  datatype SurfaceNatives = SurfaceNatives(viewAlive: bool, windowSurface: Handle, makeCurrentOk: bool)

  /** The constructor: the view's chooser and factories, defaults for the missing ones.
      `staticEgl` is true for EGLCore. GL_VERSION is static, so a new instance sees the
      value the last config choice of any instance left (-1 before the first). */
  function New(view: Option<ViewSettings>, staticEgl: bool, glVersion: int): (h: Handles)
    ensures h.chooser.Some? && h.contextFactory && h.surfaceFactory && h.viewReferenced
    ensures h.display == Null && h.surface == Null && h.context == Null && h.config.None?
    ensures h.glVersion == glVersion
    ensures view.None? || view.value.chooser.None? ==> h.chooser == Some(BaseChooser(DefaultChooser))
    ensures view.Some? && view.value.chooser.Some? ==> h.chooser == view.value.chooser
  {
    var chooser := if view.Some? && view.value.chooser.Some? then view.value.chooser.value else BaseChooser(DefaultChooser);
    Handles(staticEgl, Null, Null, None, Null, Some(chooser), true, true, view.Some? && view.value.glWrapper, true, glVersion)
  }

  /** The config a chooser picks and the GL_VERSION after the choice. */
  function ChooseWith(chooser: Chooser, n: StartNatives, glVersion: int): Result<(Option<Config>, int)> {
    match chooser
      case BaseChooser(c) =>
        (match Choose(c, n.chooseConfig)
           case Throws(e) => Throws(e)
           case Ok((config, version)) => Ok((Some(config), version)))
      case ForeignChooser =>
        (match n.foreignChoice
           case Throws(e) => Throws(e)
           case Ok(config) => Ok((config, glVersion)))
  }

  /** start(): display, initialisation, config and context, in that order. */
  function Start(h: Handles, n: StartNatives): (Handles, Outcome)
  {
    var h1 := h.(egl := true, display := n.display);
    if n.display == NoObject then (h1, Raised(RuntimeException("eglGetDisplay failed")))
    else if !n.initializeOk then (h1, Raised(RuntimeException("eglInitialize failed")))
    else if h1.chooser.None? then (h1, Raised(NullPointerException))
    else match ChooseWith(h1.chooser.value, n, h1.glVersion)
      case Throws(e) => (h1, Raised(e))
      case Ok((config, version)) =>
        var h2 := h1.(config := config, glVersion := version);
        if !h2.contextFactory then (h2, Raised(NullPointerException))
        else if n.context == Null || n.context == NoObject then
          (h2.(context := Null), Raised(RuntimeException(FormatEglError("createContext", n.error))))
        else (h2.(context := n.context, surface := Null), Done)
  }

  /** destroySurfaceImp(): releases a live surface and forgets it. */
  function DestroySurfaceImp(h: Handles): (Handles, Outcome)
  {
    if h.surface == Null || h.surface == NoObject then (h, Done)
    else if !h.surfaceFactory then (h, Raised(NullPointerException))
    else (h.(surface := Null), Done)
  }

  /** createSurface(): checks, destroys the old surface, creates and binds a new one. */
  function CreateSurface(h: Handles, n: SurfaceNatives): (Handles, Result<bool>)
  {
    if !h.egl then (h, Throws(RuntimeException("egl not initialized")))
    else if h.display == Null then (h, Throws(RuntimeException("eglDisplay not initialized")))
    else if h.config.None? then (h, Throws(RuntimeException("mEglConfig not initialized")))
    else
      var (h1, destroyed) := DestroySurfaceImp(h);
      if destroyed.Raised? then (h1, Throws(destroyed.error))
      else if !(h1.viewReferenced && n.viewAlive) then (h1.(surface := Null), Ok(false))
      else if !h1.surfaceFactory then (h1, Throws(NullPointerException))
      else
        var h2 := h1.(surface := n.windowSurface);
        if n.windowSurface == Null || n.windowSurface == NoObject then (h2, Ok(false))
        else if !n.makeCurrentOk then (h2, Ok(false))
        else (h2, Ok(true))
  }

  /** finish() as written: releases context and display, then forgets the config, the
      chooser, both factories, the GL wrapper and the view. */
  function Finish(h: Handles, destroyContextOk: bool, error: Int32): (Handles, Outcome)
  {
    if h.context != Null && !h.contextFactory then (h, Raised(NullPointerException))
    else if h.context != Null && !destroyContextOk then
      (h, Raised(RuntimeException(FormatEglError("eglDestroyContext", error))))
    else
      var h1 := h.(context := Null, display := Null);
      (h1.(config := None, chooser := None, contextFactory := false, surfaceFactory := false,
           glWrapper := false, viewReferenced := false), Done)
  }

  /** finish() as its callers need it: releases context and display and forgets the
      config, but keeps what the constructor obtained from the view. */
  function FinishRetainingFactories(h: Handles, destroyContextOk: bool, error: Int32): (Handles, Outcome)
  {
    if h.context != Null && !h.contextFactory then (h, Raised(NullPointerException))
    else if h.context != Null && !destroyContextOk then
      (h, Raised(RuntimeException(FormatEglError("eglDestroyContext", error))))
    else (h.(context := Null, display := Null, config := None), Done)
  }

  /** swap(): EGL_SUCCESS, or the error eglGetError reports after a failed eglSwapBuffers. */
  function Swap(swapOk: bool, error: Int32): Int32 {
    if swapOk then EGL_SUCCESS else error
  }

  // ---------------------------------------------------------------- properties

  /** start() succeeds exactly when every native step succeeds; it then holds the chosen
      config, the created context and no surface. A base chooser's success writes the
      version it chose into GL_VERSION; a foreign chooser never changes GL_VERSION, so the
      context is created for whatever version was there. A null or EGL_NO_CONTEXT context
      leaves the context null and throws the formatted createContext error. */
  lemma StartCases(h: Handles, n: StartNatives)
    ensures var (h', o) := Start(h, n);
      && h'.display == n.display && h'.egl
      && (o == Done <==>
            n.display != NoObject && n.initializeOk && h.chooser.Some? &&
            ChooseWith(h.chooser.value, n, h.glVersion).Ok? && h.contextFactory &&
            n.context.Live?)
      && (o == Done ==>
            && h'.surface == Null && h'.context == n.context
            && h'.config == ChooseWith(h.chooser.value, n, h.glVersion).value.0)
      && (o == Done && h.chooser.value.BaseChooser? ==>
            && h'.config == Some(Choose(h.chooser.value.base, n.chooseConfig).value.0)
            && h'.glVersion == Choose(h.chooser.value.base, n.chooseConfig).value.1)
      && (h.chooser == Some(ForeignChooser) ==> h'.glVersion == h.glVersion)
      && (o == Done && h.chooser == Some(ForeignChooser) ==> h'.config == n.foreignChoice.value)
      && (n.display != NoObject && n.initializeOk && h.chooser.Some? &&
          ChooseWith(h.chooser.value, n, h.glVersion).Ok? && h.contextFactory && !n.context.Live? ==>
            h'.context == Null && o == Raised(RuntimeException(FormatEglError("createContext", n.error))))
  {
  }

  /** destroySurfaceImp() is a no-op without a live surface, otherwise leaves none, and
      doing it twice is doing it once. */
  lemma DestroySurfaceImpIdempotent(h: Handles)
    ensures !h.surface.Live? ==> DestroySurfaceImp(h) == (h, Done)
    ensures DestroySurfaceImp(h).1 == Done ==>
              && !DestroySurfaceImp(h).0.surface.Live?
              && DestroySurfaceImp(h).0 == h.(surface := DestroySurfaceImp(h).0.surface)
              && DestroySurfaceImp(DestroySurfaceImp(h).0) == DestroySurfaceImp(h)
  {
  }

  /** createSurface() throws when EGL, the display or the config is missing; otherwise it
      first releases the old surface and returns true exactly when the view is alive, the
      factory returns a live surface and eglMakeCurrent succeeds, holding that surface. */
  lemma CreateSurfaceCases(h: Handles, n: SurfaceNatives)
    ensures var (h', r) := CreateSurface(h, n);
      && (!h.egl || h.display == Null || h.config.None? ==> r.Throws? && h' == h)
      && (r == Ok(true) <==>
            h.egl && h.display != Null && h.config.Some? && (h.surface.Live? ==> h.surfaceFactory) &&
            h.viewReferenced && n.viewAlive && h.surfaceFactory && n.windowSurface.Live? && n.makeCurrentOk)
      && (r == Ok(true) ==> h'.surface == n.windowSurface)
      && (r.Ok? ==> h' == h.(surface := h'.surface))
      && (r == Ok(false) ==> !h'.surface.Live? || !n.makeCurrentOk)
  {
  }

  /** finish() as written leaves nothing behind: no context, display, config, chooser,
      factories, GL wrapper or view reference. */
  lemma FinishClears(h: Handles, destroyContextOk: bool, error: Int32)
    ensures var (h', o) := Finish(h, destroyContextOk, error);
      && (o == Done <==> h.context == Null || (h.contextFactory && destroyContextOk))
      && (o == Done ==>
            && h'.context == Null && h'.display == Null && h'.config.None?
            && h'.chooser.None? && !h'.contextFactory && !h'.surfaceFactory && !h'.glWrapper
            && !h'.viewReferenced
            && h'.surface == h.surface && h'.glVersion == h.glVersion)
  {
  }

  /** As written, a start() after a completed finish() reaches the chooser and throws
      NullPointerException, whatever the natives report once the display initialises. */
  lemma RestartAfterFinishThrows(h: Handles, destroyContextOk: bool, error: Int32, n: StartNatives)
    requires Finish(h, destroyContextOk, error).1 == Done
    requires n.display != NoObject && n.initializeOk
    ensures Start(Finish(h, destroyContextOk, error).0, n).1 == Raised(NullPointerException)
  {
  }

  /** With the factories retained, finish() releases the same handles, and a later start()
      behaves exactly as a start() on the instance before finish() would. */
  lemma RestartAfterRetainingFinish(h: Handles, destroyContextOk: bool, error: Int32, n: StartNatives)
    requires FinishRetainingFactories(h, destroyContextOk, error).1 == Done
    ensures var h' := FinishRetainingFactories(h, destroyContextOk, error).0;
      && h'.context == Null && h'.display == Null && h'.config.None?
      && Start(h', n).1 == Start(h, n).1
      && (Start(h, n).1 == Done ==>
            Start(h', n).0.context == Start(h, n).0.context && Start(h', n).0.config == Start(h, n).0.config)
  {
  }

  /** A freshly constructed instance always has a chooser and a context factory, so
      start() fails only on a native failure. */
  lemma FreshStartCases(view: Option<ViewSettings>, staticEgl: bool, glVersion: int, n: StartNatives)
    ensures var h := New(view, staticEgl, glVersion);
      Start(h, n).1 == Done <==>
        n.display != NoObject && n.initializeOk && ChooseWith(h.chooser.value, n, glVersion).Ok? && n.context.Live?
  {
  }

  /** swap() reports success exactly when eglSwapBuffers succeeds or the reported error
      is itself EGL_SUCCESS. */
  lemma SwapCases(swapOk: bool, error: Int32)
    ensures Swap(swapOk, error) == EGL_SUCCESS <==> swapOk || error == EGL_SUCCESS
    ensures !swapOk ==> Swap(swapOk, error) == error
  {
  }
}
