/** The RenderMode and ViewType enums of IRenderView and their name lookup `from`. */
module RenderNames {
  import opened Wrappers

  datatype RenderMode = Continuously | WhenDirty
  datatype ViewType = SurfaceView | TextureView

  /** values(), in declaration order. */
  const RenderModes: seq<RenderMode> := [Continuously, WhenDirty]
  const ViewTypes: seq<ViewType> := [SurfaceView, TextureView]

  /** The name each constant is constructed with. */
  function RenderModeName(mode: RenderMode): string {
    match mode
    case Continuously => "CONTINUOUSLY"
    case WhenDirty => "WHEN_DIRTY"
  }

  function ViewTypeName(viewType: ViewType): string {
    match viewType
    case SurfaceView => "SurfaceView"
    case TextureView => "TextureView"
  }

  /** The loop of `from`: the first value whose name equals the argument
      (TextUtils.equals, which never equals a non-null name to null). */
  function FindByName<T>(values: seq<T>, nameOf: T -> string, name: Option<string>): Option<T>
  {
    if values == [] then None
    else if name == Some(nameOf(values[0])) then Some(values[0])
    else FindByName(values[1..], nameOf, name)
  }

  /** The search returns a value carrying the name, and finds nothing exactly when no
      value carries it. */
  lemma {:induction false} FindByNameSpec<T>(values: seq<T>, nameOf: T -> string, name: Option<string>)
    ensures FindByName(values, nameOf, name).Some? ==>
              FindByName(values, nameOf, name).value in values &&
              name == Some(nameOf(FindByName(values, nameOf, name).value))
    ensures FindByName(values, nameOf, name).None? <==>
              forall i :: 0 <= i < |values| ==> name != Some(nameOf(values[i]))
  {
    if values != [] && name != Some(nameOf(values[0])) {
      FindByNameSpec(values[1..], nameOf, name);
      assert forall i :: 1 <= i < |values| ==> values[i] == values[1..][i - 1];
    }
  }

  /** RenderMode.from */
  function RenderModeFrom(name: Option<string>): Result<RenderMode> {
    match FindByName(RenderModes, RenderModeName, name)
    case Some(mode) => Ok(mode)
    case None => Throws(IllegalArgumentException(""))
  }

  /** ViewType.from */
  function ViewTypeFrom(name: Option<string>): Result<ViewType> {
    match FindByName(ViewTypes, ViewTypeName, name)
    case Some(viewType) => Ok(viewType)
    case None => Throws(IllegalArgumentException(""))
  }

  /** `from` returns the constant of that name, and throws IllegalArgumentException for
      every other string and for null. */
  lemma RenderModeFromSpec(name: Option<string>)
    ensures forall mode :: RenderModeFrom(name) == Ok(mode) <==> name == Some(RenderModeName(mode))
    ensures RenderModeFrom(name).Throws? <==> name != Some("CONTINUOUSLY") && name != Some("WHEN_DIRTY")
    ensures RenderModeFrom(name).Throws? ==> RenderModeFrom(name).error == IllegalArgumentException("")
  {
    FindByNameSpec(RenderModes, RenderModeName, name);
    assert RenderModeName(Continuously) != RenderModeName(WhenDirty);
  }

  lemma ViewTypeFromSpec(name: Option<string>)
    ensures forall viewType :: ViewTypeFrom(name) == Ok(viewType) <==> name == Some(ViewTypeName(viewType))
    ensures ViewTypeFrom(name).Throws? <==> name != Some("SurfaceView") && name != Some("TextureView")
    ensures ViewTypeFrom(name).Throws? ==> ViewTypeFrom(name).error == IllegalArgumentException("")
  {
    FindByNameSpec(ViewTypes, ViewTypeName, name);
    assert ViewTypeName(SurfaceView) != ViewTypeName(TextureView);
  }

  /** Round trip: every constant is found again under its own name. */
  lemma NamesRoundTrip(mode: RenderMode, viewType: ViewType)
    ensures RenderModeFrom(Some(RenderModeName(mode))) == Ok(mode)
    ensures ViewTypeFrom(Some(ViewTypeName(viewType))) == Ok(viewType)
  {
    RenderModeFromSpec(Some(RenderModeName(mode)));
    ViewTypeFromSpec(Some(ViewTypeName(viewType)));
  }
}
