/** EGLCore (over the static EGL14 binding) and EglHelper (over an EGL10 instance it
    obtains in start) as one class: the same fields, the same handle bookkeeping, and the
    two getGLESVersion answers. */
module EglCore {
  import opened Wrappers
  import opened Digits
  import opened EglConfig
  import opened EglResources

  /** Which of the two helpers an instance is. */
  datatype Binding = Egl14 | Egl10

  /** A static GL_VERSION field: one cell shared by every instance of a helper class
      (EGLCore.GL_VERSION, or EglHelper.GL_VERSION), -1 until a config choice succeeds. */
  class GlVersion {
    var value: int

    constructor ()
      ensures value == -1
    {
      value := -1;
    }
  }

  class EglCore {
    const binding: Binding
    var egl: bool
    var display: Handle
    var surface: Handle
    var config: Option<Config>
    var context: Handle
    var chooser: Option<Chooser>
    var contextFactory: bool
    var surfaceFactory: bool
    var glWrapper: bool
    var viewReferenced: bool
    const glVersion: GlVersion

    function State(): Handles
      reads this, glVersion
    {
      Handles(egl, display, surface, config, context, chooser, contextFactory, surfaceFactory,
              glWrapper, viewReferenced, glVersion.value)
    }

    /** `glVersion` is the class's static GL_VERSION, shared with every other instance. */
    constructor (view: Option<ViewSettings>, binding: Binding, glVersion: GlVersion)
      ensures this.binding == binding && this.glVersion == glVersion
      ensures State() == EglResources.New(view, binding == Egl14, glVersion.value)
    {
      this.binding := binding;
      this.glVersion := glVersion;
      egl := binding == Egl14;
      display, surface, config, context := Null, Null, None, Null;
      var chosen: Option<Chooser> := None;
      glWrapper := false;
      if view.Some? {
        chosen := view.value.chooser;
        glWrapper := view.value.glWrapper;
      }
      if chosen.None? {
        chosen := Some(BaseChooser(DefaultChooser));
      }
      chooser := chosen;
      contextFactory, surfaceFactory := true, true;
      viewReferenced := true;
    }

    /** getGlVersion: the version the last successful config choice recorded, -1 before. */
    function GetGlVersion(): int
      reads this, glVersion
    {
      glVersion.value
    }

    /** getGLESVersion: EGLCore reports GL_VERSION, EglHelper always 3. */
    function GetGLESVersion(): (version: int)
      reads this, glVersion
      ensures binding == Egl10 ==> version == 3
      ensures binding == Egl14 ==> version == GetGlVersion()
    {
      if binding == Egl10 then 3 else glVersion.value
    }

    method Start(n: StartNatives) returns (outcome: Outcome)
      modifies this, glVersion
      ensures State() == EglResources.Start(old(State()), n).0
      ensures outcome == EglResources.Start(old(State()), n).1
    {
      egl := true;
      display := n.display;
      if display == NoObject {
        return Raised(RuntimeException("eglGetDisplay failed"));
      }
      if !n.initializeOk {
        return Raised(RuntimeException("eglInitialize failed"));
      }
      if chooser.None? {
        return Raised(NullPointerException);
      }
      var chosen: Result<(Option<Config>, int)>;
      match chooser.value {
        case BaseChooser(c) =>
          var r := ChooseConfig(c, n.chooseConfig);
          chosen := if r.Ok? then Ok((Some(r.value.0), r.value.1)) else Throws(r.error);
        case ForeignChooser =>
          chosen := if n.foreignChoice.Ok? then Ok((n.foreignChoice.value, glVersion.value)) else Throws(n.foreignChoice.error);
      }
      if chosen.Throws? {
        return Raised(chosen.error);
      }
      config := chosen.value.0;
      glVersion.value := chosen.value.1;
      if !contextFactory {
        return Raised(NullPointerException);
      }
      context := n.context;
      if context == Null || context == NoObject {
        context := Null;
        return Raised(RuntimeException(EglErrors.FormatEglError("createContext", n.error)));
      }
      surface := Null;
      return Done;
    }

    method DestroySurfaceImp() returns (outcome: Outcome)
      modifies this
      ensures State() == EglResources.DestroySurfaceImp(old(State())).0
      ensures outcome == EglResources.DestroySurfaceImp(old(State())).1
    {
      if surface != Null && surface != NoObject {
        if !surfaceFactory {
          return Raised(NullPointerException);
        }
        surface := Null;
      }
      return Done;
    }

    /** destroySurface: the public entry to destroySurfaceImp. */
    method DestroySurface() returns (outcome: Outcome)
      modifies this
      ensures State() == EglResources.DestroySurfaceImp(old(State())).0
      ensures outcome == EglResources.DestroySurfaceImp(old(State())).1
    {
      outcome := DestroySurfaceImp();
    }

    method CreateSurface(n: SurfaceNatives) returns (r: Result<bool>)
      modifies this
      ensures State() == EglResources.CreateSurface(old(State()), n).0
      ensures r == EglResources.CreateSurface(old(State()), n).1
    {
      if !egl {
        return Throws(RuntimeException("egl not initialized"));
      }
      if display == Null {
        return Throws(RuntimeException("eglDisplay not initialized"));
      }
      if config.None? {
        return Throws(RuntimeException("mEglConfig not initialized"));
      }
      var destroyed := DestroySurfaceImp();
      if destroyed.Raised? {
        return Throws(destroyed.error);
      }
      if viewReferenced && n.viewAlive {
        if !surfaceFactory {
          return Throws(NullPointerException);
        }
        surface := n.windowSurface;
      } else {
        surface := Null;
      }
      if surface == Null || surface == NoObject {
        return Ok(false);
      }
      if !n.makeCurrentOk {
        return Ok(false);
      }
      return Ok(true);
    }

    method Finish(destroyContextOk: bool, error: Int32) returns (outcome: Outcome)
      modifies this
      ensures State() == EglResources.Finish(old(State()), destroyContextOk, error).0
      ensures outcome == EglResources.Finish(old(State()), destroyContextOk, error).1
    {
      if context != Null {
        if !contextFactory {
          return Raised(NullPointerException);
        }
        if !destroyContextOk {
          return Raised(RuntimeException(EglErrors.FormatEglError("eglDestroyContext", error)));
        }
        context := Null;
      }
      if display != Null {
        display := Null;
      }
      config := None;
      chooser := None;
      contextFactory, surfaceFactory := false, false;
      glWrapper := false;
      viewReferenced := false;
      return Done;
    }

    method Swap(swapOk: bool, error: Int32) returns (code: Int32)
      ensures code == EglResources.Swap(swapOk, error)
    {
      if !swapOk {
        return error;
      }
      return EglErrors.EGL_SUCCESS;
    }
  }
}
