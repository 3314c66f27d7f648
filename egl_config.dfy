/** EGL frame-buffer configuration selection: the EGL_NONE-terminated attribute lists
    of section 3.4.1 of the Khronos EGL 1.4 specification, the component-size chooser,
    the GLES3-to-GLES2 fallback of BaseConfigChooser (EGLCore and EglHelper) and the
    older BaseConfigChooser that splices nothing. The native eglChooseConfig and
    eglGetConfigAttrib calls are parameters: a function from the attribute list to what
    the two eglChooseConfig calls report, and each config's attribute map. */
module EglConfig {
  import opened Wrappers

  const EGL_NONE: int := 0x3038
  const EGL_ALPHA_SIZE: int := 0x3021
  const EGL_BLUE_SIZE: int := 0x3022
  const EGL_GREEN_SIZE: int := 0x3023
  const EGL_RED_SIZE: int := 0x3024
  const EGL_DEPTH_SIZE: int := 0x3025
  const EGL_STENCIL_SIZE: int := 0x3026
  const EGL_RENDERABLE_TYPE: int := 0x3040
  const EGL_OPENGL_ES2_BIT: int := 0x0004
  const EGL_OPENGL_ES3_BIT_KHR: int := 0x0040
  const EGL_RECORDABLE_ANDROID: int := 0x3142

  /** The chooser flags of EGLCore and EglHelper. */
  const FLAG_RECORDABLE: bv32 := 0x01
  const FLAG_TRY_GLES3: bv32 := 0x02

  /** An EGLConfig: an identity and the attributes eglGetConfigAttrib can read. */
  datatype Config = Config(id: nat, attribs: map<int, int>)

  /** The requested colour, depth and stencil sizes of a ComponentSizeChooser. */
  datatype ComponentSizes = ComponentSizes(red: int, green: int, blue: int, alpha: int, depth: int, stencil: int)

  /** What the two eglChooseConfig calls for one attribute list report: whether the
      counting call succeeded, the count, whether the listing call succeeded, and the
      configs it wrote into the array. */
  datatype ChooseAnswer = ChooseAnswer(countOk: bool, numConfigs: int, listOk: bool, configs: seq<Config>)

  /** A ComponentSizeChooser (or SimpleEGLConfigChooser) of EGLCore and EglHelper. */
  datatype ConfigChooser = ConfigChooser(flags: bv32, sizes: ComponentSizes)

  /** The chooser of the older EglHelper: mEGLContextClientVersion and the spec it stores. */
  datatype LegacyChooser = LegacyChooser(clientVersion: int, sizes: ComponentSizes, configSpec: seq<int>)

  // ---------------------------------------------------------------- attribute lists

  /** An attribute list: (attribute, value) pairs whose attributes are not EGL_NONE,
      closed by EGL_NONE. */
  predicate WellFormed(spec: seq<int>) {
    |spec| % 2 == 1 && spec[|spec| - 1] == EGL_NONE &&
    forall i :: 0 <= i < |spec| / 2 ==> spec[2 * i] != EGL_NONE
  }

  /** The value an attribute list gives an attribute, if any (the first pair wins). */
  function Lookup(spec: seq<int>, attribute: int): Option<int>
    decreases |spec|
  {
    if |spec| < 2 || spec[0] == EGL_NONE then None
    else if spec[0] == attribute then Some(spec[1])
    else Lookup(spec[2..], attribute)
  }

  /** The list ComponentSizeChooser hands to its base class. */
  function ComponentSpec(sizes: ComponentSizes): seq<int> {
    [EGL_RED_SIZE, sizes.red, EGL_GREEN_SIZE, sizes.green, EGL_BLUE_SIZE, sizes.blue,
     EGL_ALPHA_SIZE, sizes.alpha, EGL_DEPTH_SIZE, sizes.depth, EGL_STENCIL_SIZE, sizes.stencil,
     EGL_NONE]
  }

  /** The renderable-type bit filterConfigSpec requests for a client version. */
  function RenderableBit(version: int): int {
    if version == 2 then EGL_OPENGL_ES2_BIT else EGL_OPENGL_ES3_BIT_KHR
  }

  /** The attr list filterConfigSpec appends. */
  function AttrTail(flags: bv32, version: int): seq<int> {
    [EGL_RENDERABLE_TYPE, RenderableBit(version)]
    + (if flags & FLAG_RECORDABLE != 0 then [EGL_RECORDABLE_ANDROID, 1] else [])
    + [EGL_NONE]
  }

  /** The list filterConfigSpec returns: the spec without its terminator, then AttrTail. */
  function FilteredSpec(flags: bv32, version: int, spec: seq<int>): seq<int>
    requires |spec| >= 1
  {
    spec[..|spec| - 1] + AttrTail(flags, version)
  }

  /** filterConfigSpec: two array copies into a new array of length
      spec.length + attr.length - 1. */
  method FilterConfigSpec(flags: bv32, version: int, configSpec: array<int>) returns (newConfigSpec: array<int>)
    requires configSpec.Length >= 1
    ensures fresh(newConfigSpec)
    ensures newConfigSpec[..] == FilteredSpec(flags, version, configSpec[..])
  {
    var attr := AttrTail(flags, version);
    newConfigSpec := new int[configSpec.Length + |attr| - 1];
    var n := configSpec.Length - 1;
    for i := 0 to n
      invariant newConfigSpec[..i] == configSpec[..i]
    {
      newConfigSpec[i] := configSpec[i];
    }
    for j := 0 to |attr|
      invariant newConfigSpec[..n] == configSpec[..n]
      invariant newConfigSpec[n..n + j] == attr[..j]
    {
      newConfigSpec[n + j] := attr[j];
    }
    assert newConfigSpec[..] == newConfigSpec[..n] + newConfigSpec[n..n + |attr|];
  }

  /** The shape of the spliced list: its length, the copied prefix and the appended tail. */
  lemma FilteredSpecShape(flags: bv32, version: int, spec: seq<int>)
    requires |spec| >= 1
    ensures var r := FilteredSpec(flags, version, spec);
      && |r| == |spec| + |AttrTail(flags, version)| - 1
      && r[..|spec| - 1] == spec[..|spec| - 1]
      && r[|spec| - 1] == EGL_RENDERABLE_TYPE
      && r[|spec|] == (if version == 2 then EGL_OPENGL_ES2_BIT else EGL_OPENGL_ES3_BIT_KHR)
      && (flags & FLAG_RECORDABLE != 0 ==>
            |r| == |spec| + 4 && r[|spec| + 1] == EGL_RECORDABLE_ANDROID && r[|spec| + 2] == 1)
      && (flags & FLAG_RECORDABLE == 0 ==> |r| == |spec| + 2)
      && r[|r| - 1] == EGL_NONE
  {
  }

  lemma LookupSkip(spec: seq<int>, k: nat, attribute: int)
    requires 2 * k <= |spec|
    requires forall i :: 0 <= i < k ==> spec[2 * i] != EGL_NONE && spec[2 * i] != attribute
    ensures Lookup(spec, attribute) == Lookup(spec[2 * k..], attribute)
    decreases k
  {
    if k > 0 {
      assert spec[0] == spec[2 * 0];
      assert forall i :: 0 <= i < k - 1 ==> spec[2..][2 * i] == spec[2 * (i + 1)];
      LookupSkip(spec[2..], k - 1, attribute);
      assert spec[2..][2 * (k - 1)..] == spec[2 * k..];
    }
  }

  lemma LookupPrefix(prefix: seq<int>, rest: seq<int>, attribute: int)
    requires |prefix| % 2 == 0
    requires forall i :: 0 <= i < |prefix| / 2 ==> prefix[2 * i] != EGL_NONE
    ensures Lookup(prefix, attribute).Some? ==> Lookup(prefix + rest, attribute) == Lookup(prefix, attribute)
    ensures Lookup(prefix, attribute).None? ==> Lookup(prefix + rest, attribute) == Lookup(rest, attribute)
    decreases |prefix|
  {
    if |prefix| >= 2 {
      assert prefix[0] == prefix[2 * 0];
      assert (prefix + rest)[2..] == prefix[2..] + rest;
      assert forall i :: 0 <= i < |prefix[2..]| / 2 ==> prefix[2..][2 * i] == prefix[2 * (i + 1)];
      LookupPrefix(prefix[2..], rest, attribute);
    } else {
      assert prefix + rest == rest;
    }
  }

  /** Splicing keeps a well-formed list well formed: every attribute the spec sets keeps
      its value, and one the spec leaves unset gets its value from the appended tail; in
      particular EGL_RENDERABLE_TYPE is set to the version's bit. */
  lemma {:induction false} FilteredSpecLookup(flags: bv32, version: int, spec: seq<int>, attribute: int)
    requires WellFormed(spec)
    ensures WellFormed(FilteredSpec(flags, version, spec))
    ensures Lookup(spec, attribute).Some? ==>
              Lookup(FilteredSpec(flags, version, spec), attribute) == Lookup(spec, attribute)
    ensures Lookup(spec, attribute).None? ==>
              Lookup(FilteredSpec(flags, version, spec), attribute) == Lookup(AttrTail(flags, version), attribute)
  {
    var prefix := spec[..|spec| - 1];
    var tail := AttrTail(flags, version);
    var r := FilteredSpec(flags, version, spec);
    assert forall i :: 0 <= i < |prefix| / 2 ==> prefix[2 * i] == spec[2 * i];
    LookupPrefix(prefix, tail, attribute);
    LookupPrefix(prefix, [EGL_NONE], attribute);
    assert prefix + [EGL_NONE] == spec;
    assert Lookup([EGL_NONE], attribute) == None;
    forall i | 0 <= i < |r| / 2
      ensures r[2 * i] != EGL_NONE
    {
      if 2 * i < |prefix| {
        assert r[2 * i] == spec[2 * i];
      } else {
        assert r[2 * i] == tail[2 * i - |prefix|];
      }
    }
  }

  /** The default chooser's spliced lists: RGBA 8888 with no depth or stencil, then GLES3
      or GLES2 and the recordable flag. */
  lemma DefaultChooserSpecs()
    ensures DefaultChooser.sizes == ComponentSizes(8, 8, 8, 8, 0, 0)
    ensures FilteredSpec(DefaultChooser.flags, 3, ComponentSpec(DefaultChooser.sizes)) ==
      [EGL_RED_SIZE, 8, EGL_GREEN_SIZE, 8, EGL_BLUE_SIZE, 8, EGL_ALPHA_SIZE, 8,
       EGL_DEPTH_SIZE, 0, EGL_STENCIL_SIZE, 0,
       EGL_RENDERABLE_TYPE, EGL_OPENGL_ES3_BIT_KHR, EGL_RECORDABLE_ANDROID, 1, EGL_NONE]
    ensures FilteredSpec(DefaultChooser.flags, 2, ComponentSpec(DefaultChooser.sizes)) ==
      [EGL_RED_SIZE, 8, EGL_GREEN_SIZE, 8, EGL_BLUE_SIZE, 8, EGL_ALPHA_SIZE, 8,
       EGL_DEPTH_SIZE, 0, EGL_STENCIL_SIZE, 0,
       EGL_RENDERABLE_TYPE, EGL_OPENGL_ES2_BIT, EGL_RECORDABLE_ANDROID, 1, EGL_NONE]
  {
    assert DefaultChooser.flags & FLAG_RECORDABLE != 0;
  }

  // ---------------------------------------------------------------- component sizes

  /** findConfigAttrib with default 0: a failed query reads as 0. */
  function FindConfigAttrib(config: Config, attribute: int): int {
    if attribute in config.attribs then config.attribs[attribute] else 0
  }

  /** At least the requested depth and stencil sizes, exactly the requested colour sizes. */
  predicate Matches(sizes: ComponentSizes, config: Config) {
    && FindConfigAttrib(config, EGL_DEPTH_SIZE) >= sizes.depth
    && FindConfigAttrib(config, EGL_STENCIL_SIZE) >= sizes.stencil
    && FindConfigAttrib(config, EGL_RED_SIZE) == sizes.red
    && FindConfigAttrib(config, EGL_GREEN_SIZE) == sizes.green
    && FindConfigAttrib(config, EGL_BLUE_SIZE) == sizes.blue
    && FindConfigAttrib(config, EGL_ALPHA_SIZE) == sizes.alpha
  }

  /** The first matching config in array order. */
  function FirstMatch(sizes: ComponentSizes, configs: seq<Config>): Option<Config>
  {
    if configs == [] then None
    else if Matches(sizes, configs[0]) then Some(configs[0])
    else FirstMatch(sizes, configs[1..])
  }

  /** FirstMatch finds a matching config preceded only by non-matching ones, and finds
      nothing exactly when no config matches. */
  lemma {:induction false} FirstMatchIsFirst(sizes: ComponentSizes, configs: seq<Config>)
    ensures FirstMatch(sizes, configs).None? <==> forall j :: 0 <= j < |configs| ==> !Matches(sizes, configs[j])
    ensures FirstMatch(sizes, configs).Some? ==>
              exists k :: 0 <= k < |configs| && configs[k] == FirstMatch(sizes, configs).value
                && Matches(sizes, configs[k])
                && forall j :: 0 <= j < k ==> !Matches(sizes, configs[j])
  {
    if configs != [] && !Matches(sizes, configs[0]) {
      FirstMatchIsFirst(sizes, configs[1..]);
      assert forall j :: 1 <= j < |configs| ==> configs[j] == configs[1..][j - 1];
      if FirstMatch(sizes, configs[1..]).Some? {
        var k :| 0 <= k < |configs[1..]| && configs[1..][k] == FirstMatch(sizes, configs[1..]).value
          && Matches(sizes, configs[1..][k]) && forall j :: 0 <= j < k ==> !Matches(sizes, configs[1..][j]);
        assert configs[k + 1] == FirstMatch(sizes, configs).value;
      }
    } else if configs != [] {
      assert configs[0] == FirstMatch(sizes, configs).value;
    }
  }

  /** ComponentSizeChooser.chooseConfig: the for-each search over the configs array. */
  method ChooseMatching(sizes: ComponentSizes, configs: seq<Config>) returns (config: Option<Config>)
    ensures config == FirstMatch(sizes, configs)
  {
    var i := 0;
    while i < |configs|
      invariant 0 <= i <= |configs|
      invariant FirstMatch(sizes, configs) == FirstMatch(sizes, configs[i..])
    {
      var c := configs[i];
      var d := FindConfigAttrib(c, EGL_DEPTH_SIZE);
      var s := FindConfigAttrib(c, EGL_STENCIL_SIZE);
      if d >= sizes.depth && s >= sizes.stencil {
        var r := FindConfigAttrib(c, EGL_RED_SIZE);
        var g := FindConfigAttrib(c, EGL_GREEN_SIZE);
        var b := FindConfigAttrib(c, EGL_BLUE_SIZE);
        var a := FindConfigAttrib(c, EGL_ALPHA_SIZE);
        if r == sizes.red && g == sizes.green && b == sizes.blue && a == sizes.alpha {
          return Some(c);
        }
      }
      assert configs[i..][1..] == configs[i + 1..];
      i := i + 1;
    }
    return None;
  }

  /** SimpleEGLConfigChooser of EGLCore and EglHelper: RGBA 8888, depth 16 or none, no stencil. */
  function SimpleChooser(flags: bv32, withDepthBuffer: bool): ConfigChooser {
    ConfigChooser(flags, ComponentSizes(8, 8, 8, 8, if withDepthBuffer then 16 else 0, 0))
  }

  /** The chooser EGLCore and EglHelper fall back to when the view supplies none. */
  const DefaultChooser: ConfigChooser := SimpleChooser(FLAG_TRY_GLES3 | FLAG_RECORDABLE, false)

  // ---------------------------------------------------------------- version fallback

  /** chooseConfig(glVersion, display): the result for one client version. */
  function ChooseForVersion(chooser: ConfigChooser, version: int, egl: seq<int> -> ChooseAnswer): Result<Option<Config>>
  {
    var answer := egl(FilteredSpec(chooser.flags, version, ComponentSpec(chooser.sizes)));
    if !answer.countOk then Throws(IllegalArgumentException("eglChooseConfig failed"))
    else if answer.numConfigs <= 0 then Throws(IllegalArgumentException("No configs match configSpec"))
    else if !answer.listOk then Throws(IllegalArgumentException("eglChooseConfig#2 failed"))
    else Ok(FirstMatch(chooser.sizes, answer.configs))
  }

  method ChooseConfigForVersion(chooser: ConfigChooser, version: int, egl: seq<int> -> ChooseAnswer)
    returns (r: Result<Option<Config>>)
    ensures r == ChooseForVersion(chooser, version, egl)
  {
    var spec := new int[13];
    spec[0], spec[1], spec[2], spec[3] := EGL_RED_SIZE, chooser.sizes.red, EGL_GREEN_SIZE, chooser.sizes.green;
    spec[4], spec[5], spec[6], spec[7] := EGL_BLUE_SIZE, chooser.sizes.blue, EGL_ALPHA_SIZE, chooser.sizes.alpha;
    spec[8], spec[9], spec[10], spec[11] := EGL_DEPTH_SIZE, chooser.sizes.depth, EGL_STENCIL_SIZE, chooser.sizes.stencil;
    spec[12] := EGL_NONE;
    assert spec[..] == ComponentSpec(chooser.sizes);
    var configSpec := FilterConfigSpec(chooser.flags, version, spec);
    var answer := egl(configSpec[..]);
    if !answer.countOk {
      return Throws(IllegalArgumentException("eglChooseConfig failed"));
    }
    if answer.numConfigs <= 0 {
      return Throws(IllegalArgumentException("No configs match configSpec"));
    }
    if !answer.listOk {
      return Throws(IllegalArgumentException("eglChooseConfig#2 failed"));
    }
    var config := ChooseMatching(chooser.sizes, answer.configs);
    return Ok(config);
  }

  /** BaseConfigChooser.chooseConfig(display): the chosen config and the client version
      that produced it, the value GL_VERSION receives. */
  function Choose(chooser: ConfigChooser, egl: seq<int> -> ChooseAnswer): Result<(Config, int)>
  {
    var gles3: Result<Option<Config>> :=
      if chooser.flags & FLAG_TRY_GLES3 != 0 then ChooseForVersion(chooser, 3, egl) else Ok(None);
    match gles3
    case Throws(e) => Throws(e)
    case Ok(Some(c)) => Ok((c, 3))
    case Ok(None) =>
      match ChooseForVersion(chooser, 2, egl)
      case Throws(e) => Throws(e)
      case Ok(Some(c)) => Ok((c, 2))
      case Ok(None) => Throws(RuntimeException("Unable to find a suitable EGLConfig"))
  }

  method ChooseConfig(chooser: ConfigChooser, egl: seq<int> -> ChooseAnswer) returns (r: Result<(Config, int)>)
    ensures r == Choose(chooser, egl)
  {
    var eglConfig: Option<Config> := None;
    var version := 0;
    if chooser.flags & FLAG_TRY_GLES3 != 0 {
      var three := ChooseConfigForVersion(chooser, 3, egl);
      if three.Throws? {
        return Throws(three.error);
      }
      eglConfig := three.value;
      if eglConfig.Some? {
        version := 3;
      }
    }
    if eglConfig.None? {
      var two := ChooseConfigForVersion(chooser, 2, egl);
      if two.Throws? {
        return Throws(two.error);
      }
      eglConfig := two.value;
      if eglConfig.Some? {
        version := 2;
      }
    }
    if eglConfig.None? {
      return Throws(RuntimeException("Unable to find a suitable EGLConfig"));
    }
    return Ok((eglConfig.value, version));
  }

  /** The outcomes of one client version: the three eglChooseConfig failures throw
      IllegalArgumentException, and otherwise the result is the first match among the
      listed configs, absent only when none of them matches. */
  lemma ChooseForVersionCases(chooser: ConfigChooser, version: int, egl: seq<int> -> ChooseAnswer)
    ensures var answer := egl(FilteredSpec(chooser.flags, version, ComponentSpec(chooser.sizes)));
      && (ChooseForVersion(chooser, version, egl).Throws? <==>
            !answer.countOk || answer.numConfigs <= 0 || !answer.listOk)
      && (ChooseForVersion(chooser, version, egl).Throws? ==>
            ChooseForVersion(chooser, version, egl).error.IllegalArgumentException?)
      && (ChooseForVersion(chooser, version, egl) == Ok(None) <==>
            answer.countOk && answer.numConfigs > 0 && answer.listOk &&
            forall j :: 0 <= j < |answer.configs| ==> !Matches(chooser.sizes, answer.configs[j]))
      && (ChooseForVersion(chooser, version, egl).Ok? && ChooseForVersion(chooser, version, egl).value.Some? ==>
            var c := ChooseForVersion(chooser, version, egl).value.value;
            c in answer.configs && Matches(chooser.sizes, c))
  {
    var answer := egl(FilteredSpec(chooser.flags, version, ComponentSpec(chooser.sizes)));
    FirstMatchIsFirst(chooser.sizes, answer.configs);
  }

  /** The version fallback: GLES3 is tried only when FLAG_TRY_GLES3 is set, its config is
      taken when there is one, GLES2 is tried when GLES3 found none, a throwing attempt
      ends the search, and nothing found in either is a RuntimeException. */
  lemma ChooseFallback(chooser: ConfigChooser, egl: seq<int> -> ChooseAnswer)
    ensures chooser.flags & FLAG_TRY_GLES3 == 0 ==>
              Choose(chooser, egl) == match ChooseForVersion(chooser, 2, egl)
                case Throws(e) => Throws(e)
                case Ok(Some(c)) => Ok((c, 2))
                case Ok(None) => Throws(RuntimeException("Unable to find a suitable EGLConfig"))
    ensures chooser.flags & FLAG_TRY_GLES3 != 0 ==>
              && (ChooseForVersion(chooser, 3, egl).Throws? ==>
                    Choose(chooser, egl) == Throws(ChooseForVersion(chooser, 3, egl).error))
              && (ChooseForVersion(chooser, 3, egl).Ok? && ChooseForVersion(chooser, 3, egl).value.Some? ==>
                    Choose(chooser, egl) == Ok((ChooseForVersion(chooser, 3, egl).value.value, 3)))
              && (ChooseForVersion(chooser, 3, egl) == Ok(None) ==>
                    Choose(chooser, egl) == match ChooseForVersion(chooser, 2, egl)
                      case Throws(e) => Throws(e)
                      case Ok(Some(c)) => Ok((c, 2))
                      case Ok(None) => Throws(RuntimeException("Unable to find a suitable EGLConfig")))
    ensures Choose(chooser, egl).Ok? ==>
              var (c, v) := Choose(chooser, egl).value;
              (v == 3 || v == 2) && (v == 3 ==> chooser.flags & FLAG_TRY_GLES3 != 0) &&
              Matches(chooser.sizes, c) &&
              c in egl(FilteredSpec(chooser.flags, v, ComponentSpec(chooser.sizes))).configs
  {
    ChooseForVersionCases(chooser, 2, egl);
    ChooseForVersionCases(chooser, 3, egl);
  }

  // ---------------------------------------------------------------- older chooser

  /** filterConfigSpec of the older BaseConfigChooser: the spec itself unless the client
      version is 2 or 3, otherwise the spec with RENDERABLE_TYPE and the bit spliced in
      before the terminator. */
  function LegacyFilteredSpec(clientVersion: int, spec: seq<int>): seq<int>
    requires |spec| >= 1
  {
    if clientVersion != 2 && clientVersion != 3 then spec
    else spec[..|spec| - 1] + [EGL_RENDERABLE_TYPE, RenderableBit(clientVersion), EGL_NONE]
  }

  method LegacyFilterConfigSpec(clientVersion: int, configSpec: array<int>) returns (newConfigSpec: array<int>)
    requires configSpec.Length >= 1
    ensures clientVersion != 2 && clientVersion != 3 ==> newConfigSpec == configSpec
    ensures clientVersion == 2 || clientVersion == 3 ==> fresh(newConfigSpec)
    ensures newConfigSpec[..] == LegacyFilteredSpec(clientVersion, configSpec[..])
  {
    if clientVersion != 2 && clientVersion != 3 {
      return configSpec;
    }
    var len := configSpec.Length;
    newConfigSpec := new int[len + 2];
    for i := 0 to len - 1
      invariant newConfigSpec[..i] == configSpec[..i]
    {
      newConfigSpec[i] := configSpec[i];
    }
    newConfigSpec[len - 1] := EGL_RENDERABLE_TYPE;
    if clientVersion == 2 {
      newConfigSpec[len] := EGL_OPENGL_ES2_BIT;
    } else {
      newConfigSpec[len] := EGL_OPENGL_ES3_BIT_KHR;
    }
    newConfigSpec[len + 1] := EGL_NONE;
    assert newConfigSpec[..len - 1] == configSpec[..len - 1];
    assert newConfigSpec[..] == newConfigSpec[..len - 1] + [EGL_RENDERABLE_TYPE, RenderableBit(clientVersion), EGL_NONE];
  }

  /** The older ComponentSizeChooser: mEGLContextClientVersion is never assigned, so it is
      0 and the constructor stores the component spec as given. */
  function NewLegacyChooser(sizes: ComponentSizes): (chooser: LegacyChooser)
    ensures chooser.configSpec == ComponentSpec(sizes)
  {
    LegacyChooser(0, sizes, LegacyFilteredSpec(0, ComponentSpec(sizes)))
  }

  /** The older splice: identity for every client version other than 2 and 3, otherwise
      two entries longer with the terminator replaced by RENDERABLE_TYPE, the bit, EGL_NONE;
      a well-formed list stays well formed either way. */
  lemma {:induction false} LegacyFilteredSpecShape(clientVersion: int, spec: seq<int>)
    requires WellFormed(spec)
    ensures clientVersion != 2 && clientVersion != 3 ==> LegacyFilteredSpec(clientVersion, spec) == spec
    ensures clientVersion == 2 || clientVersion == 3 ==>
              var r := LegacyFilteredSpec(clientVersion, spec);
              && |r| == |spec| + 2
              && r[..|spec| - 1] == spec[..|spec| - 1]
              && r[|spec| - 1..] == [EGL_RENDERABLE_TYPE, RenderableBit(clientVersion), EGL_NONE]
    ensures WellFormed(LegacyFilteredSpec(clientVersion, spec))
  {
    if clientVersion == 2 || clientVersion == 3 {
      var r := LegacyFilteredSpec(clientVersion, spec);
      forall i | 0 <= i < |r| / 2
        ensures r[2 * i] != EGL_NONE
      {
        if 2 * i < |spec| - 1 {
          assert r[2 * i] == spec[2 * i];
        }
      }
    }
  }

  /** The older SimpleEGLConfigChooser: RGB 888 with no alpha, depth 16 or none, no stencil. */
  function LegacySimpleChooser(withDepthBuffer: bool): (chooser: LegacyChooser)
    ensures chooser.sizes.alpha == 0 && chooser.sizes.stencil == 0
    ensures chooser.sizes.depth == (if withDepthBuffer then 16 else 0)
  {
    NewLegacyChooser(ComponentSizes(8, 8, 8, 0, if withDepthBuffer then 16 else 0, 0))
  }

  /** The older chooseConfig(egl, display): any failure, and no match, throws. */
  function LegacyChoose(chooser: LegacyChooser, egl: seq<int> -> ChooseAnswer): Result<Config>
  {
    var answer := egl(chooser.configSpec);
    if !answer.countOk then Throws(IllegalArgumentException("eglChooseConfig failed"))
    else if answer.numConfigs <= 0 then Throws(IllegalArgumentException("No configs match configSpec"))
    else if !answer.listOk then Throws(IllegalArgumentException("eglChooseConfig#2 failed"))
    else match FirstMatch(chooser.sizes, answer.configs)
      case None => Throws(IllegalArgumentException("No config chosen"))
      case Some(c) => Ok(c)
  }

  method LegacyChooseConfig(chooser: LegacyChooser, egl: seq<int> -> ChooseAnswer) returns (r: Result<Config>)
    ensures r == LegacyChoose(chooser, egl)
  {
    var answer := egl(chooser.configSpec);
    if !answer.countOk {
      return Throws(IllegalArgumentException("eglChooseConfig failed"));
    }
    if answer.numConfigs <= 0 {
      return Throws(IllegalArgumentException("No configs match configSpec"));
    }
    if !answer.listOk {
      return Throws(IllegalArgumentException("eglChooseConfig#2 failed"));
    }
    var config := ChooseMatching(chooser.sizes, answer.configs);
    if config.None? {
      return Throws(IllegalArgumentException("No config chosen"));
    }
    return Ok(config.value);
  }

  /** The older chooser never returns without a config: it returns the first match or
      throws IllegalArgumentException, in exactly the cases listed. */
  lemma LegacyChooseCases(chooser: LegacyChooser, egl: seq<int> -> ChooseAnswer)
    ensures var answer := egl(chooser.configSpec);
      && (LegacyChoose(chooser, egl).Ok? <==>
            answer.countOk && answer.numConfigs > 0 && answer.listOk &&
            exists j :: 0 <= j < |answer.configs| && Matches(chooser.sizes, answer.configs[j]))
      && (LegacyChoose(chooser, egl).Ok? ==>
            LegacyChoose(chooser, egl).value in answer.configs && Matches(chooser.sizes, LegacyChoose(chooser, egl).value))
      && (LegacyChoose(chooser, egl).Throws? ==> LegacyChoose(chooser, egl).error.IllegalArgumentException?)
  {
    FirstMatchIsFirst(chooser.sizes, egl(chooser.configSpec).configs);
  }
}
