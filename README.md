# libgdx-for-android rendering core in Dafny

This project models the rendering and recording core of libgdx-for-android. It has seven parts.

- **The render thread (`GLThread`).** The monitor-driven worker loop that owns the EGL display, context and surface. It decides on each pass whether to exit, run a queued event, release resources on pause, tear down a lost context, wait, or draw a frame. It also holds the caller-side methods (`onPause`, `onResume`, `surfaceCreated`, `onWindowResize`, `requestExitAndWait`, `queueEvent`, ...) that set flags and wait for the worker. The current thread (`com.erlei.gdx.widget.GLThread`) and the older one in `trash/IRenderView.java` are one model with a `Variant` switch. The older one has no pause, resume or dispose callbacks and no GL-interface creation, and a render exception kills it.
- **The EGL bookkeeping (`EGLCore`, `EglHelper`).** start, createSurface, destroySurface, finish and swap over the handles they hold. The older `EglHelper` nested in `trash/IRenderView.java` is a separate module: its finish keeps the chooser, factories and config, and its createSurface throws on a view that is gone. The config choosers splice `EGL_RENDERABLE_TYPE` (and `EGL_RECORDABLE_ANDROID`) into an attribute list and pick the first config of matching component sizes. Error strings are built from EGL codes.
- **The `RenderMode` / `ViewType` name lookup** of `IRenderView`.
- **The `LogWriter`** that splits written characters into log lines.
- **`MediaMuxerWrapper`.** It counts encoders and starts and stops the shared muxer when the last encoder starts or stops.
- **`MultipleRender`.** A composite renderer that forwards lifecycle calls to its children and replays missed ones to a child added late.
- **`ETC1TextureData`.** Its prepare / consume cycle.

Every module that changes state has two halves:

- **A specification module.** Pure functions on a datatype of the object's fields. Each returns the new state and the list of outside calls it made, in order, as `Effect` values.
- **A class.** Its fields are the Java fields and its methods change them in place. Each method's `ensures` ties the new fields and the call log to the specification function. The properties are lemmas about those functions.

Outside behaviour enters as parameters:

- native EGL, GL and `MediaMuxer` answers;
- whether the view still exists;
- what a callback throws.

A Java exception is a `Throws`/`Raised` value of the `Wrappers` module. A Java `null` is an `Option`.

The worker loop is modelled one pass at a time. A pass is one iteration of the synchronized loop in `guardedRun`, plus the unlocked tail (event run or frame) when the loop breaks. A `wait()` ends a pass with `Waited`, and the next pass re-evaluates the conditions. A caller's `wait()` loop is its release predicate. For each caller the handshake lemmas prove that one worker pass makes the predicate true. The central invariant `Valid` (an EGL surface only with an EGL context) is proved preserved by every pass and every caller operation.

## Model

| member | source | states |
|---|---|---|
| GlThreadProps.InitialValid | libgdx/src/main/java/com/erlei/gdx/widget/GLThread.java:63-71 | A new thread holds no surface without a context, has not exited and cannot draw. |
| GlThreadProps.HousekeepingValid | libgdx/src/main/java/com/erlei/gdx/widget/GLThread.java:146-220 | The pause edge, the release requests and the surface edges keep `haveEglSurface ==> haveEglContext`, clear the lost-context notice, and leave a thread that has a surface not waiting for one. |
| GlThreadProps.ReadyBranchValid | libgdx/src/main/java/com/erlei/gdx/widget/GLThread.java:223-269 | The ready branch keeps the invariant and decides to draw only once it holds a surface. |
| GlThreadProps.ReadyBranchAcquire | libgdx/src/main/java/com/erlei/gdx/widget/GLThread.java:223-268 | start() is called exactly when there is no context and no release was just asked for; only its exception gives StartFailed; a success sets haveEglContext and createEglContext; without a context the release request is spent, and with no surface either the pass waits; a context without a surface sets createEglSurface, createGlInterface and sizeChanged; Draw happens exactly when a surface is held; a draw clears mSizeChanged and mRequestRender, and a pending size change copies the size, forces a new surface and asks for a render notification. |
| GlThreadProps.HousekeepingSurfaceEdges | libgdx/src/main/java/com/erlei/gdx/widget/GLThread.java:191-207 | A surface lost while not waiting releases the EGL surface, starts the wait and clears surfaceIsBad; a missing surface already waited for keeps both; a present surface ends the wait and leaves surfaceIsBad. |
| GlThreadProps.DecideValid | libgdx/src/main/java/com/erlei/gdx/widget/GLThread.java:135-279 | One pass of the locked loop keeps the invariant and the thread alive; a Draw decision comes with a surface and no pending context loss. |
| GlThreadProps.ExitPathValid | libgdx/src/main/java/com/erlei/gdx/widget/GLThread.java:380-397 | The exit path leaves the thread exited with neither a context nor a surface. |
| GlThreadProps.DrawFrameValid | libgdx/src/main/java/com/erlei/gdx/widget/GLThread.java:288-377 | The unlocked drawing half keeps the invariant. |
| GlThreadProps.ExecuteValid | libgdx/src/main/java/com/erlei/gdx/widget/GLThread.java:282-377 | Running an event, waiting, exiting or drawing keeps the invariant, given a Draw decision comes with a surface. |
| GlThreadProps.StepPreservesValid | libgdx/src/main/java/com/erlei/gdx/widget/GLThread.java:133-397 | Every worker pass keeps `haveEglSurface ==> haveEglContext`. |
| GlThreadProps.CallersPreserveValid | libgdx/src/main/java/com/erlei/gdx/widget/GLThread.java:434-607 | Every caller operation keeps the invariant; queueEvent keeps it when it accepts the item. |
| GlThreadProps.HousekeepingKeeps | libgdx/src/main/java/com/erlei/gdx/widget/GLThread.java:146-220 | Housekeeping touches neither the render mode, the render request, the size, the event queue nor hasSurface; it sets paused to requestPaused. |
| GlThreadProps.DrawFrameKeeps | libgdx/src/main/java/com/erlei/gdx/widget/GLThread.java:288-377 | The drawing half leaves the frame fields, the queue and the surface flags alone; it ends in exactly one of three ways (surface creation failed, a crash, drawn), each under its stated condition. |
| GlThreadProps.ExecuteKeeps | libgdx/src/main/java/com/erlei/gdx/widget/GLThread.java:282-397 | Executing a decision keeps the frame, the queue and the pause flags; the thread has exited after it exactly when it exits, start failed, or the pass crashed. |
| GlThreadProps.DecideCases | libgdx/src/main/java/com/erlei/gdx/widget/GLThread.java:135-279 | The decision comes in four cases: exit first, then the front event is dequeued with no other change, then wait when not ready to draw, then the ready branch; housekeeping's calls come first. |
| GlThreadProps.RequestExitHandshake | libgdx/src/main/java/com/erlei/gdx/widget/GLThread.java:573-587 | After requestExitAndWait, the next pass exits and releases the caller. It drops surface and context, and calls dispose (current variant, view present), then destroySurface, then finish, each only when held. |
| GlThreadProps.OnPauseHandshake | libgdx/src/main/java/com/erlei/gdx/widget/GLThread.java:507-521 | After onPause, one pass with an empty queue releases the waiting caller. |
| GlThreadProps.OnResumeHandshake | libgdx/src/main/java/com/erlei/gdx/widget/GLThread.java:523-539 | After onResume, one pass with an empty queue releases the waiting caller (the code waits while paused, not for a rendered frame). |
| GlThreadProps.DecidePaused | libgdx/src/main/java/com/erlei/gdx/widget/GLThread.java:146-157 | A pass never changes requestPaused or exited, exits first on shouldExit, and after housekeeping paused equals requestPaused. |
| GlThreadProps.BranchesKeepLife | libgdx/src/main/java/com/erlei/gdx/widget/GLThread.java:223-277 | The ready branch and the early finish report leave the lifecycle flags alone. |
| GlThreadProps.SurfaceDestroyedHandshake | libgdx/src/main/java/com/erlei/gdx/widget/GLThread.java:492-505 | After surfaceDestroyed, one pass with an empty queue releases the caller and leaves no EGL surface. Unless the thread is exiting, it is waiting for a surface, and surfaceIsBad is cleared when the wait was not already on. |
| GlThreadProps.SurfaceCreatedHandshake | libgdx/src/main/java/com/erlei/gdx/widget/GLThread.java:473-490 | After surfaceCreated, one pass with an empty queue releases the caller. |
| GlThreadProps.RenderNotificationDelivered | libgdx/src/main/java/com/erlei/gdx/widget/GLThread.java:209-215 | A pending render notification is delivered on the next pass: renderComplete is set and the onResume and onWindowResize callers are released. |
| GlThreadProps.RanEvents | libgdx/src/main/java/com/erlei/gdx/widget/GLThread.java:282-286 | One event pass per queued task, in order. |
| GlThreadProps.RunTasks | libgdx/src/main/java/com/erlei/gdx/widget/GLThread.java:282-286 | One run call per queued task, in order. |
| GlThreadProps.EventsRunInQueueOrder | libgdx/src/main/java/com/erlei/gdx/widget/GLThread.java:140-143 | Passes over a queue of n events run exactly those n tasks, front first, one per pass without drawing, and empty the queue. |
| GlThreadProps.QueueEventSpec | libgdx/src/main/java/com/erlei/gdx/widget/GLThread.java:599-607 | queueEvent(null) throws; any other task is appended at the end of the queue. |
| GlThreadProps.RequestRenderAndNotifyHandover | libgdx/src/main/java/com/erlei/gdx/widget/GLThread.java:217-220 | After requestRenderAndNotify, the next pass with no events moves the runnable to the worker with the render request still set, and when the thread is not ready to draw it runs the runnable at once and waits (GLThread.java:270-276). |
| GlThreadProps.HousekeepingPause | libgdx/src/main/java/com/erlei/gdx/widget/GLThread.java:147-189 | On a pause edge the surface is released and the context too unless the view is present and preserves it; a preserved, undisturbed context stays; the current variant calls pause first when the view is present. |
| GlThreadProps.PauseReleases | libgdx/src/main/java/com/erlei/gdx/widget/GLThread.java:147-189 | The same for a whole pass: a pass on a pause edge waits, is paused, holds no surface, and keeps or drops the context as above. |
| GlThreadProps.StopEglCalls | libgdx/src/main/java/com/erlei/gdx/widget/GLThread.java:93-110 | The stop helpers make only destroySurface and finish calls. |
| GlThreadProps.HousekeepingCalls | libgdx/src/main/java/com/erlei/gdx/widget/GLThread.java:146-220 | Housekeeping calls pause exactly on a pause edge and resume exactly on a resume edge (current variant, view present), and never dispose or createGL. |
| GlThreadProps.ReleasesCalls | libgdx/src/main/java/com/erlei/gdx/widget/GLThread.java:160-189 | The release steps make only stop calls. |
| GlThreadProps.DecideCalls | libgdx/src/main/java/com/erlei/gdx/widget/GLThread.java:135-279 | The decision calls pause and resume only on their edges and never dispose or createGL. |
| GlThreadProps.ExitPathCalls | libgdx/src/main/java/com/erlei/gdx/widget/GLThread.java:380-397 | The exit path calls dispose exactly when it is the current variant and the view is present, and never pause, resume or createGL. |
| GlThreadProps.DrawFrameCalls | libgdx/src/main/java/com/erlei/gdx/widget/GLThread.java:288-377 | Drawing never calls pause or resume; it calls dispose only when it crashes; it calls createGL only in the current variant. |
| GlThreadProps.PrepareCalls | libgdx/src/main/java/com/erlei/gdx/widget/GLThread.java:306-336 | The createGL, create and resize steps make no pause, resume or dispose call; createGL only in the current variant. |
| GlThreadProps.RenderStepCalls | libgdx/src/main/java/com/erlei/gdx/widget/GLThread.java:338-351 | The render step makes no lifecycle call other than render. |
| GlThreadProps.ExecuteCalls | libgdx/src/main/java/com/erlei/gdx/widget/GLThread.java:282-397 | Executing a decision calls dispose exactly on exit, on a failed start or on a crash (current variant, view present). |
| GlThreadProps.PauseCallbacksOnEdges | libgdx/src/main/java/com/erlei/gdx/widget/GLThread.java:147-157 | A whole pass calls pause exactly on a pause edge and resume exactly on a resume edge, so a second onPause without onResume makes no second pause call. |
| GlThreadProps.DisposeOnlyOnExit | libgdx/src/main/java/com/erlei/gdx/widget/GLThread.java:380-389 | A pass calls dispose exactly when it leaves the thread exited (current variant, view present). |
| GlThreadProps.DecideValidExited | libgdx/src/main/java/com/erlei/gdx/widget/GLThread.java:135-279 | The locked half never marks the thread exited. |
| GlThreadProps.LegacyNeverCalls | GdxLibrary/src/main/java/com/erlei/gdx/android/widget/trash/IRenderView.java:780-787 | The older variant never calls pause, resume or dispose and never creates a GL interface. |
| GlThreadProps.WhenDirtyNeedsRequest | libgdx/src/main/java/com/erlei/gdx/widget/GLThread.java:428-432 | In WHEN_DIRTY mode without a render request no pass draws or tries to create a surface. |
| GlThreadProps.DrawFrameFacts | libgdx/src/main/java/com/erlei/gdx/widget/GLThread.java:352-372 | A drawn frame ends with the swap. Its result is classified: CONTEXT_LOST marks the context for teardown, any other error but success marks the surface bad. |
| GlThreadProps.DrewWhenReady | libgdx/src/main/java/com/erlei/gdx/widget/GLThread.java:223-268 | A pass draws only when readyToDraw held after housekeeping; it then clears the render request and holds both context and surface. |
| GlThreadProps.DrewEndsWithSwap | libgdx/src/main/java/com/erlei/gdx/widget/GLThread.java:352-372 | A drawn pass ends with the swap and classifies its result as above. |
| GlThreadProps.DecideDraw | libgdx/src/main/java/com/erlei/gdx/widget/GLThread.java:223-268 | A Draw decision needs readyToDraw after housekeeping and leaves the request cleared, context and surface held, the surface good and no context loss pending. |
| GlThreadProps.ReadyBranchDraw | libgdx/src/main/java/com/erlei/gdx/widget/GLThread.java:226-268 | The ready branch decides to draw only with both handles held and the request cleared, and leaves the window flags alone. |
| GlThreadProps.SurfaceFailureMarksBad | libgdx/src/main/java/com/erlei/gdx/widget/GLThread.java:288-302 | A failed createSurface marks the surface bad, reports creation finished and keeps the create request for later. |
| GlThreadProps.BadSurfaceWaits | libgdx/src/main/java/com/erlei/gdx/widget/GLThread.java:428-432 | With a bad surface the thread waits instead of drawing. |
| GlThreadProps.LostContextTornDown | libgdx/src/main/java/com/erlei/gdx/widget/GLThread.java:169-173 | After a lost context the next pass first destroys the surface and then finishes the context. |
| GlThreadProps.SizeChangeRecreatesSurface | libgdx/src/main/java/com/erlei/gdx/widget/GLThread.java:250-262 | A size change while drawing recreates the surface, resizes with the new size and asks for a render notification. |
| GlThreadProps.FirstFrame | libgdx/src/main/java/com/erlei/gdx/widget/GLThread.java:223-377 | From a new thread, surfaceCreated plus a positive resize make the first pass start EGL, create the surface (and GL), call create, resize, render, then swap, and schedule the render notification. |
| GlThreadProps.FirstDraw | libgdx/src/main/java/com/erlei/gdx/widget/GLThread.java:288-377 | The drawing half with every create flag pending makes those calls in that order. |
| GlThreadProps.CrashCauses | libgdx/src/main/java/com/erlei/gdx/widget/GLThread.java:230-235 | A pass crashes only from a throwing EGL start or a render exception that escapes; the thread has exited after a pass exactly when it exited or crashed. |
| GlThreadProps.DecideStartFailed | libgdx/src/main/java/com/erlei/gdx/widget/GLThread.java:230-235 | The StartFailed decision happens only when start throws. |
| GlThreadProps.ExecutePass | libgdx/src/main/java/com/erlei/gdx/widget/GLThread.java:282-397 | Executing gives Exited exactly on Exit, and Crashed exactly on a failed start or an escaping render exception. |
| GlThreadProps.RenderExceptionOutcome | GdxLibrary/src/main/java/com/erlei/gdx/android/widget/trash/IRenderView.java:999-1011 | A throwing render crashes the older worker, while the current one catches it, finishes the pass as drawn and keeps the finish-drawing task. |
| GlThread.GLThread.constructor | libgdx/src/main/java/com/erlei/gdx/widget/GLThread.java:63-71 | A new thread is in the initial state: CONTINUOUSLY, a render requested, size 0, no notification wanted; it is valid and cannot draw. |
| GlThread.GLThread.AbleToDraw | libgdx/src/main/java/com/erlei/gdx/widget/GLThread.java:424-426 | ableToDraw holds exactly when a context and a surface are held and readyToDraw holds. |
| GlThread.GLThread.SetRenderMode | libgdx/src/main/java/com/erlei/gdx/widget/GLThread.java:434-439 | Only the render mode changes. |
| GlThread.GLThread.GetRenderMode | libgdx/src/main/java/com/erlei/gdx/widget/GLThread.java:441-445 | Returns the render mode. |
| GlThread.GLThread.RequestRender | libgdx/src/main/java/com/erlei/gdx/widget/GLThread.java:447-452 | Only the render request is set. |
| GlThread.GLThread.RequestRenderAndNotify | libgdx/src/main/java/com/erlei/gdx/widget/GLThread.java:454-471 | On the worker thread nothing changes. Otherwise it sets the notification, the request and the task, and clears renderComplete; it returns without waiting. |
| GlThread.GLThread.SurfaceCreated | libgdx/src/main/java/com/erlei/gdx/widget/GLThread.java:473-490 | Sets hasSurface and clears finishedCreatingEglSurface. The caller waits while the worker waits for a surface, has not finished creating one and has not exited. |
| GlThread.GLThread.SurfaceDestroyed | libgdx/src/main/java/com/erlei/gdx/widget/GLThread.java:492-505 | Clears hasSurface; the caller waits until the worker waits for a surface or has exited. |
| GlThread.GLThread.OnPause | libgdx/src/main/java/com/erlei/gdx/widget/GLThread.java:507-521 | Sets requestPaused; the caller waits until paused or exited. |
| GlThread.GLThread.OnResume | libgdx/src/main/java/com/erlei/gdx/widget/GLThread.java:523-539 | Clears requestPaused, requests a render, clears renderComplete. The caller waits while the worker is paused, alive and has not rendered. |
| GlThread.GLThread.OnWindowResize | libgdx/src/main/java/com/erlei/gdx/widget/GLThread.java:541-571 | Stores the size and marks it changed, requests a render and clears renderComplete. A caller off the worker thread waits while the worker is alive, not paused, able to draw and has not rendered. |
| GlThread.GLThread.RequestExitAndWait | libgdx/src/main/java/com/erlei/gdx/widget/GLThread.java:573-587 | Sets shouldExit; the caller waits until exited. |
| GlThread.GLThread.RequestReleaseEglContextLocked | libgdx/src/main/java/com/erlei/gdx/widget/GLThread.java:589-592 | Sets shouldReleaseEglContext. |
| GlThread.GLThread.QueueEvent | libgdx/src/main/java/com/erlei/gdx/widget/GLThread.java:599-607 | Appends the task, or raises IllegalArgumentException for null and changes nothing. |
| GlThread.GLThread.DecideLocked | libgdx/src/main/java/com/erlei/gdx/widget/GLThread.java:134-279 | The fields and call log after the locked half are the decision function's. |
| GlThread.GLThread.ExitPath | libgdx/src/main/java/com/erlei/gdx/widget/GLThread.java:380-397 | The fields and log after the exit path are the exit function's. |
| GlThread.GLThread.DrawFrame | libgdx/src/main/java/com/erlei/gdx/widget/GLThread.java:288-377 | The fields, the pass and the log after the unlocked half are the drawing function's. |
| GlThread.GLThread.Execute | libgdx/src/main/java/com/erlei/gdx/widget/GLThread.java:282-397 | The fields, the pass and the log after executing a decision are the execution function's. |
| GlThread.GLThread.Step | libgdx/src/main/java/com/erlei/gdx/widget/GLThread.java:133-397 | One worker pass moves the fields as the pass function says and keeps the invariant. |
| GlThread.GLThread.GuardedRun | libgdx/src/main/java/com/erlei/gdx/widget/GLThread.java:112-398 | The loop over passes ends in the state, passes and calls of the run function and keeps the invariant. |
| Digits.Unsigned32 | libgdx/src/main/java/com/erlei/gdx/widget/EGLCore.java:413-415 | The unsigned reading of a 32-bit int that Integer.toHexString renders. |
| Digits.ToDigits | libgdx/src/main/java/com/erlei/gdx/widget/EGLCore.java:413-415 | Digits in a base, never empty, each a digit character. |
| Digits.FromToDigits | libgdx/src/main/java/com/erlei/gdx/widget/EGLCore.java:413-415 | Parsing the rendered digits gives the number back. |
| Digits.ToDigitsInjective | libgdx/src/main/java/com/erlei/gdx/widget/EGLCore.java:413-415 | Different numbers render differently. |
| Digits.DecimalString | GdxLibrary/src/main/java/com/erlei/gdx/android/widget/trash/IRenderView.java:668-670 | The decimal rendering of an int: a leading '-' exactly for negatives, then the digits of the magnitude. |
| Digits.DecimalStringInjective | GdxLibrary/src/main/java/com/erlei/gdx/android/widget/trash/IRenderView.java:668-670 | Different ints render differently in decimal. |
| EglErrors.ErrorName | libgdx/src/main/java/com/erlei/gdx/widget/EGLCore.java:417-449 | Every listed EGL code has a name that begins with "EGL_". |
| EglErrors.Hex | libgdx/src/main/java/com/erlei/gdx/widget/EGLCore.java:413-415 | getHex is "0x" followed by hexadecimal digits that parse back to the unsigned value. |
| EglErrors.ErrorStringCases | libgdx/src/main/java/com/erlei/gdx/widget/EGLCore.java:417-452 | getErrorString gives the name for the codes 0x3000-0x300E and getHex for every other code. |
| EglErrors.ErrorNameInjective | libgdx/src/main/java/com/erlei/gdx/widget/EGLCore.java:417-449 | The listed names are distinct. |
| EglErrors.NameIsNotHex | libgdx/src/main/java/com/erlei/gdx/widget/EGLCore.java:417-452 | No name is also a hex rendering. |
| EglErrors.ErrorStringInjective | libgdx/src/main/java/com/erlei/gdx/widget/EGLCore.java:417-452 | getErrorString never gives two codes the same string. |
| EglErrors.FormatEglErrorInjective | libgdx/src/main/java/com/erlei/gdx/widget/EGLCore.java:400-402 | formatEglError for one function distinguishes every error code. |
| EglErrors.LegacyFormatEglErrorInjective | GdxLibrary/src/main/java/com/erlei/gdx/android/widget/trash/IRenderView.java:668-670 | The older formatEglError (decimal code) distinguishes every error code. |
| EglConfig.FilterConfigSpec | libgdx/src/main/java/com/erlei/gdx/widget/EGLCore.java:525-548 | The new array is the spec without its EGL_NONE, then RENDERABLE_TYPE with the version's bit, RECORDABLE_ANDROID 1 when the flag is set, and EGL_NONE. |
| EglConfig.FilteredSpecShape | libgdx/src/main/java/com/erlei/gdx/widget/EGLCore.java:525-548 | The spliced list has length+2, or length+4 with the recordable flag. The copied prefix is unchanged and the tail is as stated. |
| EglConfig.FilteredSpecLookup | libgdx/src/main/java/com/erlei/gdx/widget/EGLCore.java:525-548 | Splicing keeps the list well formed. Every attribute the spec sets keeps its value, and RENDERABLE_TYPE gets the version's bit. |
| EglConfig.DefaultChooserSpecs | libgdx/src/main/java/com/erlei/gdx/widget/EGLCore.java:630-638 | The default chooser asks for RGBA 8888, no depth or stencil, GLES3 or GLES2, recordable. |
| EglConfig.FirstMatchIsFirst | libgdx/src/main/java/com/erlei/gdx/widget/EGLCore.java:581-605 | The component-size search returns a matching config preceded only by non-matching ones, and null exactly when none matches. |
| EglConfig.ChooseMatching | libgdx/src/main/java/com/erlei/gdx/widget/EGLCore.java:581-605 | The for-each loop returns the first match. |
| EglConfig.ChooseConfigForVersion | libgdx/src/main/java/com/erlei/gdx/widget/EGLCore.java:496-519 | The per-version choice, as the function of the native answers. |
| EglConfig.ChooseConfig | libgdx/src/main/java/com/erlei/gdx/widget/EGLCore.java:477-494 | The version fallback, as the function of the native answers. |
| EglConfig.ChooseForVersionCases | libgdx/src/main/java/com/erlei/gdx/widget/EGLCore.java:496-519 | Count failure, zero configs and listing failure throw IllegalArgumentException; otherwise the result is a listed matching config, absent exactly when none matches. |
| EglConfig.ChooseFallback | libgdx/src/main/java/com/erlei/gdx/widget/EGLCore.java:477-494 | GLES3 is tried only with FLAG_TRY_GLES3 and wins when it finds a config. GLES2 is tried otherwise. A throwing attempt ends the search, and nothing found raises "Unable to find a suitable EGLConfig". |
| EglConfig.LegacyFilterConfigSpec | GdxLibrary/src/main/java/com/erlei/gdx/android/widget/trash/IRenderView.java:385-403 | The older splice returns the same array unless the client version is 2 or 3, otherwise a fresh array as stated. |
| EglConfig.NewLegacyChooser | GdxLibrary/src/main/java/com/erlei/gdx/android/widget/trash/IRenderView.java:346-352 | mEGLContextClientVersion is never assigned, so the stored spec is the component spec unchanged. |
| EglConfig.LegacyFilteredSpecShape | GdxLibrary/src/main/java/com/erlei/gdx/android/widget/trash/IRenderView.java:385-403 | The older splice is the identity except for versions 2 and 3. For those the output has two more entries, and RENDERABLE_TYPE, the bit and EGL_NONE replace the terminator. |
| EglConfig.LegacySimpleChooser | GdxLibrary/src/main/java/com/erlei/gdx/android/widget/trash/IRenderView.java:479-482 | The older simple chooser asks for no alpha and no stencil, and depth 16 exactly when a depth buffer is wanted. |
| EglConfig.LegacyChooseConfig | GdxLibrary/src/main/java/com/erlei/gdx/android/widget/trash/IRenderView.java:354-378 | The older chooseConfig, as the function of the native answers. |
| EglConfig.LegacyChooseCases | GdxLibrary/src/main/java/com/erlei/gdx/android/widget/trash/IRenderView.java:354-378 | The older chooser returns a listed matching config, or throws IllegalArgumentException on every failure including no match. |
| EglResources.New | libgdx/src/main/java/com/erlei/gdx/widget/EGLCore.java:56-72 | The constructor takes the view's chooser (one of this class's base choosers or a foreign one) and factories, and defaults the missing ones; no handle is held, and GL_VERSION is whatever the class-wide static holds. |
| EglResources.StartCases | libgdx/src/main/java/com/erlei/gdx/widget/EGLCore.java:98-132 | start succeeds exactly when display, initialise, config choice and context creation all succeed. It then holds the config and context and no surface. A base chooser that succeeds writes the version it chose into GL_VERSION (EGLCore.java:477-494); a foreign chooser leaves GL_VERSION as it was, so the context is created for that stale value. A failed context throws the formatted createContext error. |
| EglResources.DestroySurfaceImpIdempotent | libgdx/src/main/java/com/erlei/gdx/widget/EGLCore.java:356-364 | destroySurfaceImp is a no-op without a live surface, otherwise drops only the surface; twice is once. |
| EglResources.CreateSurfaceCases | libgdx/src/main/java/com/erlei/gdx/widget/EGLCore.java:140-188 | createSurface throws without EGL, display or config. Otherwise it returns true exactly when the view is alive, the factory gives a live surface and makeCurrent succeeds. |
| EglResources.FinishClears | libgdx/src/main/java/com/erlei/gdx/widget/EGLCore.java:366-383 | finish drops context, display, config, chooser, factories, wrapper and view reference. |
| EglResources.RestartAfterFinishThrows | libgdx/src/main/java/com/erlei/gdx/widget/EGLCore.java:366-383 | As written, start after a completed finish throws NullPointerException once the display initialises. |
| EglResources.RestartAfterRetainingFinish | libgdx/src/main/java/com/erlei/gdx/widget/EGLCore.java:366-383 | A finish that keeps the view's chooser and factories releases the same handles, and a later start behaves like the first one. |
| EglResources.FreshStartCases | libgdx/src/main/java/com/erlei/gdx/widget/EGLCore.java:56-132 | On a fresh instance start succeeds exactly when the display, initialisation, config choice and context creation succeed. |
| EglResources.SwapCases | libgdx/src/main/java/com/erlei/gdx/widget/EGLCore.java:344-349 | swap gives EGL_SUCCESS when eglSwapBuffers succeeds, else the reported error. |
| EglCore.EglCore.constructor | GdxLibrary/src/main/java/com/erlei/gdx/android/widget/EglHelper.java:62-78 | Both helpers start from the constructor state of the shared bookkeeping, and the instance reads the shared static GL_VERSION cell it is given, left as it was. |
| EglCore.EglCore.GetGLESVersion | GdxLibrary/src/main/java/com/erlei/gdx/android/widget/EglHelper.java:310-312 | EglHelper answers 3; EGLCore answers GL_VERSION. |
| EglCore.EglCore.Start | GdxLibrary/src/main/java/com/erlei/gdx/android/widget/EglHelper.java:87-125 | The fields after start are the shared start function's; a base chooser's successful choice writes the chosen version into the shared static GL_VERSION cell, and a foreign chooser leaves it. |
| EglCore.EglCore.DestroySurfaceImp | GdxLibrary/src/main/java/com/erlei/gdx/android/widget/EglHelper.java:221-229 | The fields after destroySurfaceImp are the shared function's. |
| EglCore.EglCore.DestroySurface | GdxLibrary/src/main/java/com/erlei/gdx/android/widget/EglHelper.java:216-219 | destroySurface is destroySurfaceImp. |
| EglCore.EglCore.CreateSurface | GdxLibrary/src/main/java/com/erlei/gdx/android/widget/EglHelper.java:133-187 | The fields and result after createSurface are the shared function's. |
| EglCore.EglCore.Finish | GdxLibrary/src/main/java/com/erlei/gdx/android/widget/EglHelper.java:231-248 | The fields after finish are the as-written finish function's. |
| EglCore.EglCore.Swap | GdxLibrary/src/main/java/com/erlei/gdx/android/widget/EglHelper.java:209-214 | swap returns EGL_SUCCESS or the error. |
| LegacyEglSpec.New | GdxLibrary/src/main/java/com/erlei/gdx/android/widget/trash/IRenderView.java:489-499 | A new older helper holds no EGL, display, surface, config or context. |
| LegacyEglSpec.StartCases | GdxLibrary/src/main/java/com/erlei/gdx/android/widget/trash/IRenderView.java:504-545 | start succeeds exactly when the display, initialisation, the fixed SimpleEGLConfigChooser(false) and context creation succeed, and then holds exactly that display, config and context and no surface. A failed context throws createContext with the decimal error code; an earlier failure keeps the old config and context. |
| LegacyEglSpec.CreateSurfaceCases | GdxLibrary/src/main/java/com/erlei/gdx/android/widget/trash/IRenderView.java:553-605 | createSurface throws without EGL, display or config, and throws NullPointerException when the view is gone. Otherwise it returns true exactly when the factory gives a live surface and eglMakeCurrent succeeds. |
| LegacyEglSpec.FinishKeeps | GdxLibrary/src/main/java/com/erlei/gdx/android/widget/trash/IRenderView.java:636-648 | finish fails only when eglDestroyContext fails on a held context, with the misspelt eglDestroyContex message; otherwise it drops only the context and the display and keeps the config. |
| LegacyEglSpec.RestartAfterFinish | GdxLibrary/src/main/java/com/erlei/gdx/android/widget/trash/IRenderView.java:636-648 | After a completed finish, start behaves exactly as it would have without the finish, and createSurface reports the missing display until then. |
| LegacyEglSpec.DeadViewDiffers | GdxLibrary/src/main/java/com/erlei/gdx/android/widget/trash/IRenderView.java:579-581 | On a view that is gone the older createSurface throws NullPointerException where EGLCore's returns false. |
| LegacyEgl.EglHelper.constructor | GdxLibrary/src/main/java/com/erlei/gdx/android/widget/trash/IRenderView.java:497-499 | The fields are the spec's new helper. |
| LegacyEgl.EglHelper.Start | GdxLibrary/src/main/java/com/erlei/gdx/android/widget/trash/IRenderView.java:504-545 | The fields and outcome after start are the spec's. |
| LegacyEgl.EglHelper.DestroySurfaceImp | GdxLibrary/src/main/java/com/erlei/gdx/android/widget/trash/IRenderView.java:626-634 | Drops a live surface, as the spec's function does. |
| LegacyEgl.EglHelper.DestroySurface | GdxLibrary/src/main/java/com/erlei/gdx/android/widget/trash/IRenderView.java:619-624 | Forwards to destroySurfaceImp. |
| LegacyEgl.EglHelper.CreateSurface | GdxLibrary/src/main/java/com/erlei/gdx/android/widget/trash/IRenderView.java:553-605 | The fields and result after createSurface are the spec's. |
| LegacyEgl.EglHelper.Finish | GdxLibrary/src/main/java/com/erlei/gdx/android/widget/trash/IRenderView.java:636-648 | The fields and outcome after finish are the spec's. |
| LegacyEgl.EglHelper.Swap | GdxLibrary/src/main/java/com/erlei/gdx/android/widget/trash/IRenderView.java:612-617 | EGL_SUCCESS, or the error after a failed eglSwapBuffers. |
| RenderNames.FindByNameSpec | GdxLibrary/src/main/java/com/erlei/gdx/android/widget/IRenderView.java:32-37 | The loop of `from` returns a constant whose name equals the argument, and nothing exactly when no name does. |
| RenderNames.RenderModeFromSpec | GdxLibrary/src/main/java/com/erlei/gdx/android/widget/IRenderView.java:32-37 | RenderMode.from returns the constant of that name and throws IllegalArgumentException for every other string and for null. |
| RenderNames.ViewTypeFromSpec | GdxLibrary/src/main/java/com/erlei/gdx/android/widget/IRenderView.java:50-55 | ViewType.from likewise for SurfaceView and TextureView. |
| RenderNames.NamesRoundTrip | GdxLibrary/src/main/java/com/erlei/gdx/android/widget/trash/IRenderView.java:38-61 | from(m.name) == m for every constant of both enums. |
| LogWriter.FlushBuilder | GdxLibrary/src/main/java/com/erlei/gdx/android/widget/trash/IRenderView.java:1314-1319 | flushBuilder emits the buffer only when non-empty, and always leaves it empty. |
| LogWriter.SplitLines | GdxLibrary/src/main/java/com/erlei/gdx/android/widget/trash/IRenderView.java:1303-1312 | The reference split of a text at its newlines: it has at least one piece and no piece contains a newline. |
| LogWriter.NonEmptyFacts | GdxLibrary/src/main/java/com/erlei/gdx/android/widget/trash/IRenderView.java:1314-1319 | The emitted pieces are exactly the non-empty ones, so consecutive newlines emit nothing. |
| LogWriter.FeedSplits | GdxLibrary/src/main/java/com/erlei/gdx/android/widget/trash/IRenderView.java:1303-1312 | Writing text to a newline-free buffer emits the non-empty complete pieces of buffer+text in order and keeps the last piece buffered. |
| LogWriter.WriteThenFlush | GdxLibrary/src/main/java/com/erlei/gdx/android/widget/trash/IRenderView.java:1297-1319 | A flush after a write has emitted exactly the non-empty pieces of buffer+text. |
| LogWriter.FeedKeepsNewlinesOut | GdxLibrary/src/main/java/com/erlei/gdx/android/widget/trash/IRenderView.java:1303-1312 | Newlines are never stored, and every emitted line is non-empty and newline-free. |
| LogWriter.Consumed | GdxLibrary/src/main/java/com/erlei/gdx/android/widget/trash/IRenderView.java:1303-1305 | How many characters write takes: all count when every index is inside buf, else those before the first bad index. |
| LogWriter.LogWriter.constructor | GdxLibrary/src/main/java/com/erlei/gdx/android/widget/trash/IRenderView.java:1321 | Starts with an empty buffer and no lines. |
| LogWriter.LogWriter.FlushBuilderNow | GdxLibrary/src/main/java/com/erlei/gdx/android/widget/trash/IRenderView.java:1314-1319 | The state after flushBuilder is FlushBuilder's. |
| LogWriter.LogWriter.Close | GdxLibrary/src/main/java/com/erlei/gdx/android/widget/trash/IRenderView.java:1292-1295 | close flushes. |
| LogWriter.LogWriter.Flush | GdxLibrary/src/main/java/com/erlei/gdx/android/widget/trash/IRenderView.java:1297-1300 | flush flushes. |
| LogWriter.LogWriter.Write | GdxLibrary/src/main/java/com/erlei/gdx/android/widget/trash/IRenderView.java:1303-1312 | The state is the line splitting of the characters taken. IndexOutOfBoundsException is raised exactly when count > 0 and offset..offset+count leaves buf; the characters before the first bad index are still taken. |
| MediaMuxerSpec.New | videorecorder/src/main/java/com/erlei/videorecorder/encoder/MediaMuxerWrapper.java:58-64 | The constructor rejects a null or empty path with IllegalArgumentException; otherwise both counters are 0, not started, no encoders. |
| MediaMuxerSpec.AddTrack | videorecorder/src/main/java/com/erlei/videorecorder/encoder/MediaMuxerWrapper.java:173-179 | addTrack throws IllegalStateException("muxer already started") exactly once started, else returns the muxer's track index. |
| MediaMuxerSpec.WriteSampleData | videorecorder/src/main/java/com/erlei/videorecorder/encoder/MediaMuxerWrapper.java:189-192 | A sample is forwarded exactly while startedCount > 0. |
| MediaMuxerSpec.AddEncoderSpec | videorecorder/src/main/java/com/erlei/videorecorder/encoder/MediaMuxerWrapper.java:105-117 | A second video encoder, a second audio encoder, null and any other kind are refused; otherwise the slot is filled, the other kept, and encoderCount counts the occupied slots. |
| MediaMuxerSpec.StopRecordingKeepsCount | videorecorder/src/main/java/com/erlei/videorecorder/encoder/MediaMuxerWrapper.java:84-91 | stopRecording empties both slots but leaves encoderCount, so the count no longer matches the slots. |
| MediaMuxerSpec.EncoderCallsInOrder | videorecorder/src/main/java/com/erlei/videorecorder/encoder/MediaMuxerWrapper.java:70-91 | prepare, startRecording and stopRecording call the video encoder before the audio one. |
| MediaMuxerSpec.StartSpec | videorecorder/src/main/java/com/erlei/videorecorder/encoder/MediaMuxerWrapper.java:125-136 | start increments startedCount. It starts the muxer exactly when encoderCount > 0 and the new count equals it, and isStarted is then set. It returns isStarted, and throws exactly when it started the muxer without a handler. |
| MediaMuxerSpec.StopSpec | videorecorder/src/main/java/com/erlei/videorecorder/encoder/MediaMuxerWrapper.java:142-164 | stop decrements startedCount. When encoderCount > 0 and the count drops to 0 or below, it stops the muxer, tells the handler (when there is one), releases it and clears isStarted. Otherwise it calls nothing and keeps isStarted. |
| MediaMuxerSpec.StartsUntilAllStarted | videorecorder/src/main/java/com/erlei/videorecorder/encoder/MediaMuxerWrapper.java:125-136 | From a fresh count, k starts leave the muxer started exactly when k reaches encoderCount, and call the muxer's start exactly then. |
| MediaMuxerSpec.StopsUntilAllStopped | videorecorder/src/main/java/com/erlei/videorecorder/encoder/MediaMuxerWrapper.java:142-164 | From startedCount encoders started, k stops release the muxer exactly when the count reaches zero. |
| MediaMuxer.MediaMuxerWrapper.constructor | videorecorder/src/main/java/com/erlei/videorecorder/encoder/MediaMuxerWrapper.java:58-64 | The fields start as New gives them. |
| MediaMuxer.Create | videorecorder/src/main/java/com/erlei/videorecorder/encoder/MediaMuxerWrapper.java:58-64 | The path check throws IllegalArgumentException for a null or empty path, else a fresh wrapper. |
| MediaMuxer.MediaMuxerWrapper.GetOutputPath | videorecorder/src/main/java/com/erlei/videorecorder/encoder/MediaMuxerWrapper.java:66-68 | Returns the path. |
| MediaMuxer.MediaMuxerWrapper.IsStarted | videorecorder/src/main/java/com/erlei/videorecorder/encoder/MediaMuxerWrapper.java:93-95 | Returns isStarted. |
| MediaMuxer.MediaMuxerWrapper.Prepare | videorecorder/src/main/java/com/erlei/videorecorder/encoder/MediaMuxerWrapper.java:70-75 | Calls prepare on the present encoders, video first, nothing else changes. |
| MediaMuxer.MediaMuxerWrapper.StartRecording | videorecorder/src/main/java/com/erlei/videorecorder/encoder/MediaMuxerWrapper.java:77-82 | Calls startRecording on the present encoders, video first. |
| MediaMuxer.MediaMuxerWrapper.StopRecording | videorecorder/src/main/java/com/erlei/videorecorder/encoder/MediaMuxerWrapper.java:84-91 | The fields and calls after stopRecording are StopRecording's. |
| MediaMuxer.MediaMuxerWrapper.AddEncoder | videorecorder/src/main/java/com/erlei/videorecorder/encoder/MediaMuxerWrapper.java:105-117 | The fields after addEncoder are AddEncoder's; a refused encoder changes nothing. |
| MediaMuxer.MediaMuxerWrapper.Start | videorecorder/src/main/java/com/erlei/videorecorder/encoder/MediaMuxerWrapper.java:125-136 | The fields, calls and result are Start's. |
| MediaMuxer.MediaMuxerWrapper.Stop | videorecorder/src/main/java/com/erlei/videorecorder/encoder/MediaMuxerWrapper.java:142-164 | The fields and calls are Stop's. |
| MediaMuxer.MediaMuxerWrapper.AddTrack | videorecorder/src/main/java/com/erlei/videorecorder/encoder/MediaMuxerWrapper.java:173-179 | The result is AddTrack's. |
| MediaMuxer.MediaMuxerWrapper.WriteSampleData | videorecorder/src/main/java/com/erlei/videorecorder/encoder/MediaMuxerWrapper.java:189-192 | The calls are WriteSampleData's, nothing else changes. |
| MultipleRenderSpec.IndexOf | videorecorder/src/main/java/com/erlei/videorecorder/recorder/MultipleRender.java:107-108 | List.remove(Object) finds the first occurrence, -1 exactly when absent. |
| MultipleRenderSpec.FirstRecorderIndex | videorecorder/src/main/java/com/erlei/videorecorder/recorder/MultipleRender.java:121-128 | The first child that is a Recorder, all before it not, -1 exactly when none is. |
| MultipleRenderSpec.ForwardSpec | videorecorder/src/main/java/com/erlei/videorecorder/recorder/MultipleRender.java:40-42 | A forwarded call reaches every child once, in list order. |
| MultipleRenderSpec.NotifySpec | videorecorder/src/main/java/com/erlei/videorecorder/recorder/MultipleRender.java:36-84 | Each lifecycle call sets its own flag (render none), clears no flag, keeps the list, and reaches every child in order. |
| MultipleRenderSpec.AddSpec | videorecorder/src/main/java/com/erlei/videorecorder/recorder/MultipleRender.java:90-101 | add appends the child and replays create, resize and pause exactly when each was seen, all to the new child; it never replays resume or dispose. |
| MultipleRenderSpec.AddReplaysInOrder | videorecorder/src/main/java/com/erlei/videorecorder/recorder/MultipleRender.java:91-99 | The replay order is create, resize with the last size, then pause. |
| MultipleRenderSpec.PauseIsNeverForgotten | videorecorder/src/main/java/com/erlei/videorecorder/recorder/MultipleRender.java:63-99 | After pause and then resume, a later add still replays pause and not resume. |
| MultipleRenderSpec.RemoveRendererSpec | videorecorder/src/main/java/com/erlei/videorecorder/recorder/MultipleRender.java:107-111 | remove(renderer) drops one occurrence and keeps the other children. It disposes exactly when the child was present and the composite not disposed. An absent child changes nothing. |
| MultipleRenderSpec.AddThenRemove | videorecorder/src/main/java/com/erlei/videorecorder/recorder/MultipleRender.java:90-111 | Removing a just-added new child restores the list. |
| MultipleRenderSpec.RemoveIndexSpec | videorecorder/src/main/java/com/erlei/videorecorder/recorder/MultipleRender.java:113-117 | remove(index) is a no-op past the end and throws for a negative index. Otherwise it removes that child and disposes it unless the composite was disposed. |
| MultipleRenderSpec.GenerateFrameBufferSpec | videorecorder/src/main/java/com/erlei/videorecorder/recorder/MultipleRender.java:121-128 | generateFrameBuffer asks the first Recorder child and returns null when there is none. |
| MultipleRender.MultipleRender.constructor | videorecorder/src/main/java/com/erlei/videorecorder/recorder/MultipleRender.java:31-33 | The given children, no flag set. |
| MultipleRender.MultipleRender.ForwardAll | videorecorder/src/main/java/com/erlei/videorecorder/recorder/MultipleRender.java:40-42 | The loop logs one call per child in order and changes no field. |
| MultipleRender.MultipleRender.Create | videorecorder/src/main/java/com/erlei/videorecorder/recorder/MultipleRender.java:36-43 | The fields and calls are Notify's for create. |
| MultipleRender.MultipleRender.Resize | videorecorder/src/main/java/com/erlei/videorecorder/recorder/MultipleRender.java:46-53 | The fields and calls are Notify's for resize. |
| MultipleRender.MultipleRender.Render | videorecorder/src/main/java/com/erlei/videorecorder/recorder/MultipleRender.java:56-60 | The calls are Notify's for render. |
| MultipleRender.MultipleRender.Pause | videorecorder/src/main/java/com/erlei/videorecorder/recorder/MultipleRender.java:63-68 | The fields and calls are Notify's for pause. |
| MultipleRender.MultipleRender.Resume | videorecorder/src/main/java/com/erlei/videorecorder/recorder/MultipleRender.java:71-76 | The fields and calls are Notify's for resume. |
| MultipleRender.MultipleRender.Dispose | videorecorder/src/main/java/com/erlei/videorecorder/recorder/MultipleRender.java:79-84 | The fields and calls are Notify's for dispose. |
| MultipleRender.MultipleRender.Size | videorecorder/src/main/java/com/erlei/videorecorder/recorder/MultipleRender.java:86-88 | Returns the number of children. |
| MultipleRender.MultipleRender.Contains | videorecorder/src/main/java/com/erlei/videorecorder/recorder/MultipleRender.java:103-105 | True exactly when the child is in the list. |
| MultipleRender.MultipleRender.Add | videorecorder/src/main/java/com/erlei/videorecorder/recorder/MultipleRender.java:90-101 | The fields and calls are Add's. |
| MultipleRender.MultipleRender.RemoveRenderer | videorecorder/src/main/java/com/erlei/videorecorder/recorder/MultipleRender.java:107-111 | The fields and calls are RemoveRenderer's. |
| MultipleRender.MultipleRender.RemoveIndex | videorecorder/src/main/java/com/erlei/videorecorder/recorder/MultipleRender.java:113-117 | The fields and calls are RemoveIndex's, or the exception with nothing changed. |
| MultipleRender.MultipleRender.GenerateFrameBuffer | videorecorder/src/main/java/com/erlei/videorecorder/recorder/MultipleRender.java:121-128 | The loop returns the first Recorder child and logs its call, or None. |
| Etc1TextureDataSpec.NewIsUnprepared | libgdx/src/main/java/com/erlei/gdx/graphics/glutils/ETC1TextureData.java:29-48 | Every constructor leaves the instance unprepared with width and height 0. |
| Etc1TextureDataSpec.PrepareSpec | libgdx/src/main/java/com/erlei/gdx/graphics/glutils/ETC1TextureData.java:61-70 | prepare throws "Already prepared" when prepared, then "Can only load once from ETC1Data" with neither file nor data. Otherwise it takes the size from the data (loaded from the file when there is one) and is prepared. |
| Etc1TextureDataSpec.ConsumeSpec | libgdx/src/main/java/com/erlei/gdx/graphics/glutils/ETC1TextureData.java:73-91 | consumeCustomData throws exactly when not prepared. Otherwise it ends unprepared with no data and the same size, and its last call disposes the data. Without the ETC1 extension it decodes and generates mipmaps by hand exactly when useMipMaps is set, then turns useMipMaps off. With the extension it calls glGenerateMipmap exactly when useMipMaps is set. |
| Etc1TextureDataSpec.DataIsPreparedOnce | libgdx/src/main/java/com/erlei/gdx/graphics/glutils/ETC1TextureData.java:45-91 | An instance built from data prepares once; the prepare after a consume throws. |
| Etc1TextureDataSpec.FileIsPreparedAgain | libgdx/src/main/java/com/erlei/gdx/graphics/glutils/ETC1TextureData.java:36-91 | An instance built from a file loads it again on the second prepare. |
| Etc1TextureDataSpec.NothingToPrepare | libgdx/src/main/java/com/erlei/gdx/graphics/glutils/ETC1TextureData.java:61-63 | Without file and data prepare always throws. |
| Etc1TextureDataSpec.StepsPreserveValid | libgdx/src/main/java/com/erlei/gdx/graphics/glutils/ETC1TextureData.java:61-91 | prepare and consume keep a prepared instance's data present, so consume never dereferences null. |
| Etc1TextureData.ETC1TextureData.FromFile | libgdx/src/main/java/com/erlei/gdx/graphics/glutils/ETC1TextureData.java:36-43 | The fields start as FromFile gives them. |
| Etc1TextureData.ETC1TextureData.FromData | libgdx/src/main/java/com/erlei/gdx/graphics/glutils/ETC1TextureData.java:45-48 | The fields start as FromData gives them. |
| Etc1TextureData.ETC1TextureData.GetType | libgdx/src/main/java/com/erlei/gdx/graphics/glutils/ETC1TextureData.java:51-53 | Custom. |
| Etc1TextureData.ETC1TextureData.IsPrepared | libgdx/src/main/java/com/erlei/gdx/graphics/glutils/ETC1TextureData.java:56-58 | Returns isPrepared. |
| Etc1TextureData.ETC1TextureData.Prepare | libgdx/src/main/java/com/erlei/gdx/graphics/glutils/ETC1TextureData.java:61-70 | The fields and calls are Prepare's, or the exception with nothing changed. |
| Etc1TextureData.ETC1TextureData.ConsumeCustomData | libgdx/src/main/java/com/erlei/gdx/graphics/glutils/ETC1TextureData.java:73-91 | The fields and calls are ConsumeCustomData's, or the exception with nothing changed. |
| Etc1TextureData.ETC1TextureData.ConsumePixmap | libgdx/src/main/java/com/erlei/gdx/graphics/glutils/ETC1TextureData.java:94-96 | Always throws the no-Pixmap GdxRuntimeException. |
| Etc1TextureData.ETC1TextureData.DisposePixmap | libgdx/src/main/java/com/erlei/gdx/graphics/glutils/ETC1TextureData.java:99-101 | Always throws the no-Pixmap GdxRuntimeException. |
| Etc1TextureData.ETC1TextureData.GetWidth | libgdx/src/main/java/com/erlei/gdx/graphics/glutils/ETC1TextureData.java:104-106 | Returns width. |
| Etc1TextureData.ETC1TextureData.GetHeight | libgdx/src/main/java/com/erlei/gdx/graphics/glutils/ETC1TextureData.java:109-111 | Returns height. |
| Etc1TextureData.ETC1TextureData.GetFormat | libgdx/src/main/java/com/erlei/gdx/graphics/glutils/ETC1TextureData.java:114-116 | Always RGB565. |
| Etc1TextureData.ETC1TextureData.UseMipMaps | libgdx/src/main/java/com/erlei/gdx/graphics/glutils/ETC1TextureData.java:119-121 | Returns useMipMaps. |

## Left out

- Threads, monitors, `wait`/`notifyAll` and interrupts. A caller's wait is the release predicate it waits on, and a worker's wait ends a pass. `InterruptedException` handling and the `GLThreadManager` are not modelled.
- Native EGL, GL, `MediaMuxer`, `MediaCodec` and ETC1 codec calls. Their answers are parameters, and the model records each call as an `Effect` without modelling what it does. One exception is the render thread, which never lets `finish()` fail (next two lines).
- GlThreadProps.CrashCauses: a failing `eglDestroyContext` inside `finish()` (EGLCore.java:366-383, raised by EGLCore.java:675-681) is not a crash cause. `stopEglContextLocked` (GLThread.java:104-110) would let that exception end the worker, but the thread model's `EglFinish` effect always succeeds. `EglResources.Finish` does model the failure on its own (`EglResources.FinishClears`).
- GlThreadProps.ExecutePass: for the same reason, a pass that releases the context never ends in `Crashed` from `finish()`.
- The static GL_VERSION is a `GlVersion` cell that the caller hands to each `EglCore.EglCore`. The model does not force all `EGLCore` instances to share one cell and all `EglHelper` instances another.
- MultipleRender forwards each callback to its children with no catch. A child whose callback throws, which would stop the forwarding part-way, is not modelled, and neither are null children.
- LogWriter.LogWriter.Write: a null `buf`, which throws `NullPointerException` in the source, is not modelled; the buffer is a sequence.
- Logging (`mLogger`, `Log.v`). The emitted log line is modelled; the log sink is not.
- GlThread.GLThread.QueueEvent: running a queued `Runnable` is an opaque `Task` effect, so an exception thrown by an event is not modelled.
- The renderer's `create`, `resize`, `pause`, `resume` and `dispose` callbacks are assumed not to throw. Only `render` throwing is modelled: the current thread catches it and the older one dies.
- `EglHelper.createGL` and the choice of GL interface (the `GLWrapper`, debug flags) are left out. The model records only that the current thread asks for a GL interface.
- The older `trash` `EglHelper` (module `LegacyEgl`): its logging is not modelled. Its `DefaultContextFactory` asks for client version 3 (trash/IRenderView.java:260), but that number only reaches the native `eglCreateContext`, whose answer is a parameter.
- A foreign `EGLConfigChooser` supplied by the view is modelled only by its answer, a parameter of `start()`: the config it returns (null included) or the exception it throws.
- `EGLCore`'s thin native wrappers (the handle getters, `makeCurrent`, `makeNothingCurrent`, `swapBuffers`, `createWindowSurface`, `createOffscreenSurface`, `querySurface`, `releaseSurface`, `setPresentationTime`, `queryString`, `checkEglError`, `logEglErrorAsWarning`) are left out because they only forward to EGL. The context and surface factories are flags saying whether one is present.
- Java `int` overflow of the renderer size, the encoder counters and the track index is not modelled: they are unbounded integers.
- MediaMuxer.MediaMuxerWrapper.constructor: the `MediaMuxer` constructor's `IOException` and the encoders' `prepare` `IOException` are not modelled.
- MediaMuxer.MediaMuxerWrapper.Start: an exception from the native `MediaMuxer.start` is not modelled; `MediaMuxer.addTrack` is the parameter `trackIndex`.
- Etc1TextureData.ETC1TextureData.Prepare: the loaded `ETC1Data` is a parameter, so a failure while reading the file is not modelled.
- Etc1TextureData.ETC1TextureData.ConsumeCustomData: decoding to a `Pixmap` and building mipmaps by hand are single effects, and the GL context is a parameter.

## Findings

| source | as written | input that shows it | evidently intended | confidence | as-written member | corrected member |
|---|---|---|---|---|---|---|
| libgdx/src/main/java/com/erlei/gdx/widget/EGLCore.java:366-383 | `finish()` nulls the config chooser and both factories and clears the view reference it shares with `GLThread`. The thread creates its `EGLCore` once and calls `start()` again after a non-preserving pause, a lost context or a release request. | A successful `finish()`, then `start()` with a display that initialises: `mEGLConfigChooser` is null, so `start()` throws `NullPointerException` and the render thread dies. | `finish()` releases the EGL handles and keeps the chooser and factories, so a later `start()` behaves like the first. | not executed | EglResources.RestartAfterFinishThrows | EglResources.RestartAfterRetainingFinish |

The class `EglCore.EglCore` keeps the code as written. The render-thread model treats a restart as able to succeed, as the corrected definition allows; the native outcome of `start()` is one of its parameters.
