/** ETC1TextureData: a TextureData that is prepared (its ETC1 image loaded from a file, or
    taken as given) and then consumed into the bound texture, once per preparation. The GL
    context, the file loader and the ETC1 decoder are outside the model. */
module Etc1TextureDataSpec {
  import opened Wrappers

  /** A file handle, by identity. */
  datatype FileHandle = FileHandle(id: nat)

  /** An encoded ETC1 image: its size, and an identity for the buffer. */
  datatype Etc1Data = Etc1Data(id: nat, width: int, height: int)

  datatype TextureDataType = PixmapData | Custom

  /** Pixmap.Format. */
  datatype Format = Alpha | Intensity | LuminanceAlpha | RGB565 | RGBA4444 | RGB888 | RGBA8888

  /** The calls made on the loader, the decoder, GL and the buffers. */
  datatype Effect =
    | LoadEtc1Data(file: FileHandle)
    | DecodeImage(data: Etc1Data, format: Format)
    | TexImage2D(target: int, width: int, height: int)
    | GenerateMipMap(target: int, width: int, height: int)
    | PixmapDispose
    | CompressedTexImage2D(target: int, width: int, height: int)
    | GlGenerateMipmap
    | DataDispose(data: Etc1Data)

  /** The fields of the object. */
  datatype Etc1 = Etc1(file: Option<FileHandle>, data: Option<Etc1Data>, useMipMaps: bool,
                       width: int, height: int, isPrepared: bool)

  datatype Next = Next(state: Etc1, calls: seq<Effect>)

  const NoPixmap := GdxRuntimeException("This TextureData implementation does not return a Pixmap")

  /** ETC1TextureData(file[, useMipMaps]). */
  function FromFile(file: Option<FileHandle>, useMipMaps: bool): Etc1 {
    Etc1(file, None, useMipMaps, 0, 0, false)
  }

  /** ETC1TextureData(encodedImage, useMipMaps). */
  function FromData(data: Option<Etc1Data>, useMipMaps: bool): Etc1 {
    Etc1(None, data, useMipMaps, 0, 0, false)
  }

  /** A prepared object holds its data. */
  predicate Valid(t: Etc1) {
    t.isPrepared ==> t.data.Some?
  }

  /** prepare: loaded is what the ETC1 loader reads from the file, when there is one. */
  function Prepare(t: Etc1, loaded: Etc1Data): Result<Next> {
    if t.isPrepared then Throws(GdxRuntimeException("Already prepared"))
    else if t.file.None? && t.data.None? then Throws(GdxRuntimeException("Can only load once from ETC1Data"))
    else
      var data := if t.file.Some? then loaded else t.data.value;
      Ok(Next(t.(data := Some(data), width := data.width, height := data.height, isPrepared := true),
              if t.file.Some? then [LoadEtc1Data(t.file.value)] else []))
  }

  /** The GL calls of consumeCustomData with or without the ETC1 extension. */
  function Upload(t: Etc1, data: Etc1Data, target: int, hasEtc1Extension: bool): seq<Effect> {
    if !hasEtc1Extension then
      [DecodeImage(data, RGB565), TexImage2D(target, data.width, data.height)]
      + (if t.useMipMaps then [GenerateMipMap(target, data.width, data.height)] else [])
      + [PixmapDispose]
    else
      [CompressedTexImage2D(target, t.width, t.height)] + (if t.useMipMaps then [GlGenerateMipmap] else [])
  }

  /** consumeCustomData: the image is uploaded (decoded first when GL lacks the ETC1
      extension, which also turns mipmaps off), its buffer disposed and dropped, and the
      object is unprepared again. A prepared object always has its data, so the null
      dereference is never reached from a Valid state. */
  function ConsumeCustomData(t: Etc1, target: int, hasEtc1Extension: bool): Result<Next> {
    if !t.isPrepared then Throws(GdxRuntimeException("Call prepare() before calling consumeCompressedData()"))
    else if t.data.None? then Throws(NullPointerException)
    else
      Ok(Next(t.(data := None, isPrepared := false, useMipMaps := t.useMipMaps && hasEtc1Extension),
              Upload(t, t.data.value, target, hasEtc1Extension) + [DataDispose(t.data.value)]))
  }

  // ---------------------------------------------------------------- properties

  lemma NewIsUnprepared(file: Option<FileHandle>, data: Option<Etc1Data>, useMipMaps: bool)
    ensures var a := FromFile(file, useMipMaps);
      !a.isPrepared && a.width == 0 && a.height == 0 && a.useMipMaps == useMipMaps && Valid(a)
    ensures var b := FromData(data, useMipMaps);
      !b.isPrepared && b.width == 0 && b.height == 0 && b.useMipMaps == useMipMaps && Valid(b)
  {
  }

  lemma PrepareSpec(t: Etc1, loaded: Etc1Data)
    ensures var r := Prepare(t, loaded);
      && (r.Throws? <==> t.isPrepared || (t.file.None? && t.data.None?))
      && (t.isPrepared ==> r == Throws(GdxRuntimeException("Already prepared")))
      && (!t.isPrepared && t.file.None? && t.data.None? ==>
            r == Throws(GdxRuntimeException("Can only load once from ETC1Data")))
      && (r.Ok? ==>
            var d := if t.file.Some? then loaded else t.data.value;
            && r.value.state.isPrepared && Valid(r.value.state) && r.value.state.data == Some(d)
            && r.value.state.width == d.width && r.value.state.height == d.height
            && r.value.state.useMipMaps == t.useMipMaps && r.value.state.file == t.file)
  {
  }

  lemma ConsumeSpec(t: Etc1, target: int, hasEtc1Extension: bool)
    requires Valid(t)
    ensures var r := ConsumeCustomData(t, target, hasEtc1Extension);
      && (r.Throws? <==> !t.isPrepared)
      && (r.Ok? ==>
            && !r.value.state.isPrepared && r.value.state.data.None? && Valid(r.value.state)
            && r.value.state.width == t.width && r.value.state.height == t.height
            && (!hasEtc1Extension ==> !r.value.state.useMipMaps)
            && (hasEtc1Extension ==> r.value.state.useMipMaps == t.useMipMaps)
            && r.value.calls[|r.value.calls| - 1] == DataDispose(t.data.value)
            && ((GenerateMipMap(target, t.data.value.width, t.data.value.height) in r.value.calls)
                <==> !hasEtc1Extension && t.useMipMaps)
            && (GlGenerateMipmap in r.value.calls <==> hasEtc1Extension && t.useMipMaps))
  {
    if t.isPrepared {
      var d := t.data.value;
      var up := Upload(t, d, target, hasEtc1Extension);
      if !hasEtc1Extension {
        var mip := if t.useMipMaps then [GenerateMipMap(target, d.width, d.height)] else [];
        assert up == [DecodeImage(d, RGB565), TexImage2D(target, d.width, d.height)] + mip + [PixmapDispose];
        assert GlGenerateMipmap !in up;
      } else {
        var mip := if t.useMipMaps then [GlGenerateMipmap] else [];
        assert up == [CompressedTexImage2D(target, t.width, t.height)] + mip;
        assert GenerateMipMap(target, d.width, d.height) !in up;
      }
    }
  }

  /** An object built from encoded data can be prepared once: after it is consumed, prepare
      has nothing to load from. */
  lemma DataIsPreparedOnce(d: Etc1Data, useMipMaps: bool, loaded: Etc1Data, target: int, hasEtc1Extension: bool)
    ensures var p := Prepare(FromData(Some(d), useMipMaps), loaded);
      && p.Ok? && p.value.state.width == d.width && p.value.state.height == d.height
      && var c := ConsumeCustomData(p.value.state, target, hasEtc1Extension);
      && c.Ok?
      && Prepare(c.value.state, loaded) == Throws(GdxRuntimeException("Can only load once from ETC1Data"))
  {
  }

  /** An object built from a file loads it again on every prepare. */
  lemma FileIsPreparedAgain(f: FileHandle, useMipMaps: bool, first: Etc1Data, second: Etc1Data,
                            target: int, hasEtc1Extension: bool)
    ensures var p := Prepare(FromFile(Some(f), useMipMaps), first);
      && p.Ok?
      && var c := ConsumeCustomData(p.value.state, target, hasEtc1Extension);
      && c.Ok?
      && var q := Prepare(c.value.state, second);
      && q.Ok? && q.value.state.width == second.width && q.value.state.height == second.height
      && q.value.calls == [LoadEtc1Data(f)]
  {
  }

  /** Without a file or data, prepare always throws. */
  lemma NothingToPrepare(useMipMaps: bool, loaded: Etc1Data)
    ensures Prepare(FromFile(None, useMipMaps), loaded).Throws?
    ensures Prepare(FromData(None, useMipMaps), loaded).Throws?
  {
  }

  /** prepare and consumeCustomData keep a prepared object's data present. */
  lemma StepsPreserveValid(t: Etc1, loaded: Etc1Data, target: int, hasEtc1Extension: bool)
    requires Valid(t)
    ensures Prepare(t, loaded).Ok? ==> Valid(Prepare(t, loaded).value.state)
    ensures ConsumeCustomData(t, target, hasEtc1Extension).Ok? ==>
              Valid(ConsumeCustomData(t, target, hasEtc1Extension).value.state)
    ensures ConsumeCustomData(t, target, hasEtc1Extension) != Throws(NullPointerException)
  {
  }
}

/** The TextureData object, its methods proved against Etc1TextureDataSpec. */
module Etc1TextureData {
  import opened Wrappers
  import opened Etc1TextureDataSpec

  class ETC1TextureData {
    var file: Option<FileHandle>
    var data: Option<Etc1Data>
    var useMipMaps: bool
    var width: int
    var height: int
    var isPrepared: bool
    /** The calls made on the loader, the decoder, GL and the buffers, in order. */
    var calls: seq<Effect>

    function State(): Etc1
      reads this
    {
      Etc1(file, data, useMipMaps, width, height, isPrepared)
    }

    constructor FromFile(file: Option<FileHandle>, useMipMaps: bool)
      ensures State() == Etc1TextureDataSpec.FromFile(file, useMipMaps) && calls == []
    {
      this.file := file;
      data := None;
      this.useMipMaps := useMipMaps;
      width, height := 0, 0;
      isPrepared := false;
      calls := [];
    }

    constructor FromData(encodedImage: Option<Etc1Data>, useMipMaps: bool)
      ensures State() == Etc1TextureDataSpec.FromData(encodedImage, useMipMaps) && calls == []
    {
      file := None;
      data := encodedImage;
      this.useMipMaps := useMipMaps;
      width, height := 0, 0;
      isPrepared := false;
      calls := [];
    }

    method GetType() returns (t: TextureDataType)
      ensures t == Custom
    {
      t := Custom;
    }

    method IsPrepared() returns (b: bool)
      ensures b == isPrepared
    {
      b := isPrepared;
    }

    method Prepare(loaded: Etc1Data) returns (o: Outcome)
      modifies this
      ensures var r := Etc1TextureDataSpec.Prepare(old(State()), loaded);
        && (r.Throws? ==> o == Raised(r.error) && State() == old(State()) && calls == old(calls))
        && (r.Ok? ==> o == Done && State() == r.value.state && calls == old(calls) + r.value.calls)
    {
      if isPrepared {
        return Raised(GdxRuntimeException("Already prepared"));
      }
      if file.None? && data.None? {
        return Raised(GdxRuntimeException("Can only load once from ETC1Data"));
      }
      if file.Some? {
        calls := calls + [LoadEtc1Data(file.value)];
        data := Some(loaded);
      }
      width := data.value.width;
      height := data.value.height;
      isPrepared := true;
      o := Done;
    }

    method ConsumeCustomData(target: int, hasEtc1Extension: bool) returns (o: Outcome)
      modifies this
      ensures var r := Etc1TextureDataSpec.ConsumeCustomData(old(State()), target, hasEtc1Extension);
        && (r.Throws? ==> o == Raised(r.error) && State() == old(State()) && calls == old(calls))
        && (r.Ok? ==> o == Done && State() == r.value.state && calls == old(calls) + r.value.calls)
    {
      if !isPrepared {
        return Raised(GdxRuntimeException("Call prepare() before calling consumeCompressedData()"));
      }
      if data.None? {
        return Raised(NullPointerException);
      }
      var d := data.value;
      if !hasEtc1Extension {
        calls := calls + [DecodeImage(d, RGB565), TexImage2D(target, d.width, d.height)];
        if useMipMaps {
          calls := calls + [GenerateMipMap(target, d.width, d.height)];
        }
        calls := calls + [PixmapDispose];
        useMipMaps := false;
      } else {
        calls := calls + [CompressedTexImage2D(target, width, height)];
        if useMipMaps {
          calls := calls + [GlGenerateMipmap];
        }
      }
      calls := calls + [DataDispose(d)];
      data := None;
      isPrepared := false;
      o := Done;
    }

    method ConsumePixmap() returns (o: Outcome)
      ensures o == Raised(NoPixmap)
    {
      o := Raised(GdxRuntimeException("This TextureData implementation does not return a Pixmap"));
    }

    method DisposePixmap() returns (o: Outcome)
      ensures o == Raised(NoPixmap)
    {
      o := Raised(GdxRuntimeException("This TextureData implementation does not return a Pixmap"));
    }

    method GetWidth() returns (w: int)
      ensures w == width
    {
      w := width;
    }

    method GetHeight() returns (h: int)
      ensures h == height
    {
      h := height;
    }

    method GetFormat() returns (f: Format)
      ensures f == RGB565
    {
      f := RGB565;
    }

    method UseMipMaps() returns (b: bool)
      ensures b == useMipMaps
    {
      b := useMipMaps;
    }
  }
}
