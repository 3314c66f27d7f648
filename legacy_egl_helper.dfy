/** The older EglHelper of the trash IRenderView as an object whose fields change in place,
    each method proved against the functions of LegacyEglSpec. */
module LegacyEgl {
  import opened Wrappers
  import opened Digits
  import opened EglErrors
  import opened EglConfig
  import opened EglResources
  import LegacyEglSpec

  class EglHelper {
    var egl: bool
    var display: Handle
    var surface: Handle
    var config: Option<Config>
    var context: Handle

    function State(): LegacyEglSpec.Helper
      reads this
    {
      LegacyEglSpec.Helper(egl, display, surface, config, context)
    }

    constructor ()
      ensures State() == LegacyEglSpec.New()
    {
      egl, display, surface, config, context := false, Null, Null, None, Null;
    }

    method Start(n: StartNatives) returns (outcome: Outcome)
      modifies this
      ensures State() == LegacyEglSpec.Start(old(State()), n).0
      ensures outcome == LegacyEglSpec.Start(old(State()), n).1
    {
      egl := true;
      display := n.display;
      if display == NoObject {
        return Raised(RuntimeException("eglGetDisplay failed"));
      }
      if !n.initializeOk {
        return Raised(RuntimeException("eglInitialize failed"));
      }
      var chosen := LegacyChooseConfig(LegacyEglSpec.FixedChooser(), n.chooseConfig);
      if chosen.Throws? {
        return Raised(chosen.error);
      }
      config := Some(chosen.value);
      context := n.context;
      if context == Null || context == NoObject {
        context := Null;
        return Raised(RuntimeException(LegacyFormatEglError("createContext", n.error)));
      }
      surface := Null;
      return Done;
    }

    method DestroySurfaceImp()
      modifies this
      ensures State() == LegacyEglSpec.DestroySurfaceImp(old(State()))
    {
      if surface != Null && surface != NoObject {
        surface := Null;
      }
    }

    /** destroySurface: the public entry to destroySurfaceImp. */
    method DestroySurface()
      modifies this
      ensures State() == LegacyEglSpec.DestroySurfaceImp(old(State()))
    {
      DestroySurfaceImp();
    }

    method CreateSurface(n: SurfaceNatives) returns (r: Result<bool>)
      modifies this
      ensures State() == LegacyEglSpec.CreateSurface(old(State()), n).0
      ensures r == LegacyEglSpec.CreateSurface(old(State()), n).1
    {
      if !egl {
        return Throws(RuntimeException("egl not initialized"));
      }
      if display == Null {
        return Throws(RuntimeException("eglDisplay not initialized"));
      }
      if config.None? {
        return Throws(RuntimeException("mEglConfig not initialized"));
      }
      DestroySurfaceImp();
      if !n.viewAlive {
        return Throws(NullPointerException);
      }
      surface := n.windowSurface;
      if surface == Null || surface == NoObject {
        return Ok(false);
      }
      if !n.makeCurrentOk {
        return Ok(false);
      }
      return Ok(true);
    }

    method Finish(destroyContextOk: bool, error: Int32) returns (outcome: Outcome)
      modifies this
      ensures State() == LegacyEglSpec.Finish(old(State()), destroyContextOk, error).0
      ensures outcome == LegacyEglSpec.Finish(old(State()), destroyContextOk, error).1
    {
      if context != Null {
        if !destroyContextOk {
          return Raised(RuntimeException(LegacyFormatEglError("eglDestroyContex", error)));
        }
        context := Null;
      }
      if display != Null {
        display := Null;
      }
      return Done;
    }

    method Swap(swapOk: bool, error: Int32) returns (code: Int32)
      ensures code == EglResources.Swap(swapOk, error)
    {
      if !swapOk {
        return error;
      }
      return EGL_SUCCESS;
    }
  }
}
