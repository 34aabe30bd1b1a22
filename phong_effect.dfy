/**
 The universal Phong effect as a state machine.

 The effect caches the values it will hand to its shader program: the light
 and its transform, the solid, emission and diffuse-map colours, the diffuse
 and normal textures, and whether the program is active (between `begin` and
 `end`). Every setter only stores; `begin` uploads the cached values and
 marks the program active; `end` only clears the mark; `setLight` uploads
 the two light uniforms as well when the program is active.

 GL calls are recorded as events appended to a trace. The meaning of a call
 is given twice: by `Step`/`Uploads`, which follow the source method by
 method, and by `Assigns`, which lists the fields each call writes; the two
 are proved to agree, and that is what makes a sequence of calls
 idempotent on the effect's state.
 */
module PhongEffect {
  import opened Common

  // ---------------------------------------------------------------------
  // State, calls and GL events
  // ---------------------------------------------------------------------

  /** The effect's cached fields. A texture is `None` for a null pointer. */
  datatype EffectState = EffectState(
    active: bool,
    light: Light,
    lightTransform: Transform,
    solidColor: Vec4,
    emissionColor: Vec3,
    diffuseMapColor: Vec4,
    diffuseMap: Option<Texture>,
    normalMap: Option<Texture>)

  /** The calls a client makes on the effect. `setSolidColor` is overloaded
      in the source on vec3 and vec4; the matrix setters are declared in a
      header that is not part of this model and are recorded only. */
  datatype Call =
    | SetLight(transform: Transform, light: Light)
    | SetMaterial(material: Material)
    | Begin
    | End
    | SetSolidColor3(color3: Vec3)
    | SetSolidColor4(color4: Vec4)
    | SetEmissionColor(emission: Vec3)
    | SetDiffuseTextureColor(multiplier: Vec4)
    | SetDiffuseTexture(texture: Option<Texture>)
    | SetNormalMap(normalMap: Option<Texture>)
    | SetProjectionMatrix(projection: Mat4)
    | SetViewMatrix(view: Mat4)
    | SetModelMatrix(model: Mat4)

  /** The uniform locations the constructor looks up by name. */
  datatype Uniform =
    | AlbedoMapSampler | NormalMapSampler | LightColor | LightDirection
    | LightPosition | EmissionColor | SolidColor | DiffuseMapColor

  /** The GL calls the effect makes. */
  datatype GlEvent =
    | UseProgram
    | ActiveTexture(unit: nat)
    | BindTexture2D(textureId: nat)
    | Uniform1i(location: Uniform, value: int)
    | Uniform3(location: Uniform, vec3: Vec3)
    | Uniform4(location: Uniform, vec4: Vec4)

  // ---------------------------------------------------------------------
  // Semantics, call by call
  // ---------------------------------------------------------------------

  /** The state after one call. */
  function Step(s: EffectState, c: Call): EffectState
  {
    match c
    case SetLight(t, l) => s.(lightTransform := t, light := l)
    case SetMaterial(m) => s.(emissionColor := m.emission, solidColor := Widen(m.albedo, 1.0))
    case Begin => s.(active := true)
    case End => s.(active := false)
    case SetSolidColor3(c3) => s.(solidColor := Widen(c3, 1.0))
    case SetSolidColor4(c4) => s.(solidColor := c4)
    case SetEmissionColor(e) => s.(emissionColor := e)
    case SetDiffuseTextureColor(d) => s.(diffuseMapColor := d)
    case SetDiffuseTexture(t) => s.(diffuseMap := t)
    case SetNormalMap(t) => s.(normalMap := t)
    case SetProjectionMatrix(_) => s
    case SetViewMatrix(_) => s
    case SetModelMatrix(_) => s
  }

  /** updateLightUniforms: the light colour, then the light position. */
  function LightUploads(s: EffectState): seq<GlEvent>
  {
    [Uniform3(LightColor, s.light.color), Uniform3(LightPosition, s.lightTransform.position)]
  }

  /** Binding texture t to texture unit `unit` and pointing a sampler at it;
      nothing for a null texture. */
  function TextureUploads(t: Option<Texture>, unit: nat, sampler: Uniform): seq<GlEvent>
  {
    match t
    case None => []
    case Some(texture) => [ActiveTexture(unit), BindTexture2D(texture.id), Uniform1i(sampler, unit)]
  }

  /** What `begin` uploads from state s. */
  function BeginUploads(s: EffectState): seq<GlEvent>
  {
    [UseProgram]
    + TextureUploads(s.diffuseMap, 0, AlbedoMapSampler)
    + TextureUploads(s.normalMap, 1, NormalMapSampler)
    + [Uniform3(EmissionColor, s.emissionColor),
       Uniform4(SolidColor, s.solidColor),
       Uniform4(DiffuseMapColor, s.diffuseMapColor)]
    + LightUploads(s)
  }

  /** The GL events of one call made in state s. */
  function Uploads(s: EffectState, c: Call): seq<GlEvent>
  {
    match c
    case Begin => BeginUploads(s)
    case SetLight(_, _) => if s.active then LightUploads(Step(s, c)) else []
    case _ => []
  }

  /** The state after a sequence of calls. */
  function Run(s: EffectState, calls: seq<Call>): EffectState
  {
    if calls == [] then s else Step(Run(s, calls[..|calls| - 1]), calls[|calls| - 1])
  }

  /** The GL events of a sequence of calls. */
  function Trace(s: EffectState, calls: seq<Call>): seq<GlEvent>
  {
    if calls == [] then []
    else
      var prefix := calls[..|calls| - 1];
      Trace(s, prefix) + Uploads(Run(s, prefix), calls[|calls| - 1])
  }

  // ---------------------------------------------------------------------
  // Properties of single calls
  // ---------------------------------------------------------------------

  /** Every call except begin, end and setLight only stores: it uploads
      nothing and leaves the active flag alone. */
  lemma SettersOnlyStore(s: EffectState, c: Call)
    requires !c.Begin? && !c.End? && !c.SetLight?
    ensures Uploads(s, c) == []
    ensures Step(s, c).active == s.active
  {
  }

  /** Each cached field is written only by its own setters: a call that
      changes a field is one of the calls that set it. */
  lemma FieldsChangeOnlyByTheirSetters(s: EffectState, c: Call)
    ensures Step(s, c).active != s.active ==> c.Begin? || c.End?
    ensures Step(s, c).light != s.light || Step(s, c).lightTransform != s.lightTransform ==> c.SetLight?
    ensures Step(s, c).solidColor != s.solidColor ==> c.SetSolidColor3? || c.SetSolidColor4? || c.SetMaterial?
    ensures Step(s, c).emissionColor != s.emissionColor ==> c.SetEmissionColor? || c.SetMaterial?
    ensures Step(s, c).diffuseMapColor != s.diffuseMapColor ==> c.SetDiffuseTextureColor?
    ensures Step(s, c).diffuseMap != s.diffuseMap ==> c.SetDiffuseTexture?
    ensures Step(s, c).normalMap != s.normalMap ==> c.SetNormalMap?
  {
  }

  /** `end` clears the active flag and changes nothing else. */
  lemma EndOnlyDeactivates(s: EffectState)
    ensures !Step(s, End).active
    ensures Step(s, End).(active := s.active) == s
    ensures Uploads(s, End) == []
  {
  }

  /** `setLight` always stores the light and its transform, and uploads the
      new light colour and position exactly when the program is active. */
  lemma SetLightUploadsIffActive(s: EffectState, t: Transform, l: Light)
    ensures Step(s, SetLight(t, l)).light == l && Step(s, SetLight(t, l)).lightTransform == t
    ensures Uploads(s, SetLight(t, l)) != [] <==> s.active
    ensures s.active ==> Uploads(s, SetLight(t, l)) == [Uniform3(LightColor, l.color), Uniform3(LightPosition, t.position)]
  {
  }

  /** `setMaterial` is `setEmissionColor(emission)` followed by
      `setSolidColor(albedo)`, in state and in uploads. */
  lemma SetMaterialIsEmissionThenSolid(s: EffectState, m: Material)
    ensures Step(s, SetMaterial(m)) == Run(s, [SetEmissionColor(m.emission), SetSolidColor3(m.albedo)])
    ensures Uploads(s, SetMaterial(m)) == Trace(s, [SetEmissionColor(m.emission), SetSolidColor3(m.albedo)])
  {
    var calls := [SetEmissionColor(m.emission), SetSolidColor3(m.albedo)];
    RunOne(s, SetEmissionColor(m.emission));
    assert calls[..|calls| - 1] == [SetEmissionColor(m.emission)];
  }

  /** The vec3 `setSolidColor` stores the colour with an opaque alpha of 1;
      the vec4 one stores its argument as given. */
  lemma SolidColorOverloads(s: EffectState, c3: Vec3, c4: Vec4)
    ensures Step(s, SetSolidColor3(c3)) == Step(s, SetSolidColor4(Vec4(c3.x, c3.y, c3.z, 1.0)))
    ensures Step(s, SetSolidColor4(c4)).solidColor == c4
  {
  }

  /** `begin` activates the program and uploads, in order: the program, the
      diffuse texture on unit 0 if there is one, the normal map on unit 1
      if there is one, the emission, solid and diffuse-map colours, and the
      light colour and position. */
  lemma BeginUploadOrder(s: EffectState)
    ensures Step(s, Begin).active
    ensures var u := Uploads(s, Begin);
      && |u| == 6 + |TextureUploads(s.diffuseMap, 0, AlbedoMapSampler)| + |TextureUploads(s.normalMap, 1, NormalMapSampler)|
      && u[0] == UseProgram
      && u[|u| - 5..] == [Uniform3(EmissionColor, s.emissionColor),
                          Uniform4(SolidColor, s.solidColor),
                          Uniform4(DiffuseMapColor, s.diffuseMapColor),
                          Uniform3(LightColor, s.light.color),
                          Uniform3(LightPosition, s.lightTransform.position)]
    ensures Uniform1i(AlbedoMapSampler, 0) in Uploads(s, Begin) <==> s.diffuseMap.Some?
    ensures Uniform1i(NormalMapSampler, 1) in Uploads(s, Begin) <==> s.normalMap.Some?
  {
    var u := Uploads(s, Begin);
    var head := [UseProgram] + TextureUploads(s.diffuseMap, 0, AlbedoMapSampler)
                + TextureUploads(s.normalMap, 1, NormalMapSampler);
    var colours := [Uniform3(EmissionColor, s.emissionColor),
                    Uniform4(SolidColor, s.solidColor),
                    Uniform4(DiffuseMapColor, s.diffuseMapColor)];
    assert u == head + colours + LightUploads(s);
    assert Uniform1i(AlbedoMapSampler, 0) in u <==> Uniform1i(AlbedoMapSampler, 0) in head;
    assert Uniform1i(NormalMapSampler, 1) in u <==> Uniform1i(NormalMapSampler, 1) in head;
  }

  // ---------------------------------------------------------------------
  // Sequences of calls
  // ---------------------------------------------------------------------

  /** One more call: one more step, and its uploads appended. */
  lemma RunSnoc(s: EffectState, calls: seq<Call>, c: Call)
    ensures Run(s, calls + [c]) == Step(Run(s, calls), c)
    ensures Trace(s, calls + [c]) == Trace(s, calls) + Uploads(Run(s, calls), c)
  {
    assert (calls + [c])[..|calls|] == calls;
  }

  /** Running a + b is running a, then b from where a left off. */
  lemma {:induction false} RunConcat(s: EffectState, a: seq<Call>, b: seq<Call>)
    ensures Run(s, a + b) == Run(Run(s, a), b)
    decreases |b|
  {
    if b == [] {
      assert a + b == a;
    } else {
      var b', c := b[..|b| - 1], b[|b| - 1];
      assert b == b' + [c];
      assert a + b == (a + b') + [c];
      RunConcat(s, a, b');
      RunSnoc(s, a + b', c);
      RunSnoc(Run(s, a), b', c);
    }
  }

  /** The trace of a + b is the trace of a followed by that of b. */
  lemma {:induction false} TraceConcat(s: EffectState, a: seq<Call>, b: seq<Call>)
    ensures Trace(s, a + b) == Trace(s, a) + Trace(Run(s, a), b)
    decreases |b|
  {
    if b == [] {
      assert a + b == a;
    } else {
      var b', c := b[..|b| - 1], b[|b| - 1];
      assert b == b' + [c];
      assert a + b == (a + b') + [c];
      TraceConcat(s, a, b');
      RunConcat(s, a, b');
      RunSnoc(s, a + b', c);
      RunSnoc(Run(s, a), b', c);
      AppendAssociates(Trace(s, a), Trace(Run(s, a), b'), Uploads(Run(s, a + b'), c));
    }
  }

  /** Running one call is taking one step. */
  lemma RunOne(s: EffectState, c: Call)
    ensures Run(s, [c]) == Step(s, c)
    ensures Trace(s, [c]) == Uploads(s, c)
  {
    assert [c][..0] == [];
  }

  /** A field no call of the sequence sets keeps its value: with no
      `setDiffuseTextureColor`, the diffuse-map colour survives any calls. */
  lemma {:induction false} DiffuseColorPersists(s: EffectState, calls: seq<Call>)
    requires forall i :: 0 <= i < |calls| ==> !calls[i].SetDiffuseTextureColor?
    ensures Run(s, calls).diffuseMapColor == s.diffuseMapColor
  {
    if calls != [] {
      DiffuseColorPersists(s, calls[..|calls| - 1]);
      FieldsChangeOnlyByTheirSetters(Run(s, calls[..|calls| - 1]), calls[|calls| - 1]);
    }
  }

  /** The only diffuse-map colour a call uploads is the stored one, and only
      `begin` uploads it. */
  lemma DiffuseUploadIsStored(s: EffectState, c: Call, x: Vec4)
    requires Uniform4(DiffuseMapColor, x) in Uploads(s, c)
    ensures c.Begin? && x == s.diffuseMapColor
  {
    if c.Begin? {
      var u := BeginUploads(s);
      var head := [UseProgram] + TextureUploads(s.diffuseMap, 0, AlbedoMapSampler)
                  + TextureUploads(s.normalMap, 1, NormalMapSampler);
      var colours := [Uniform3(EmissionColor, s.emissionColor), Uniform4(SolidColor, s.solidColor),
                      Uniform4(DiffuseMapColor, s.diffuseMapColor)];
      assert u == head + colours + LightUploads(s);
      assert Uniform4(DiffuseMapColor, x) !in head;
      assert Uniform4(DiffuseMapColor, x) !in LightUploads(s);
    }
  }

  /** With no `setDiffuseTextureColor` among the calls, every diffuse-map
      colour they upload is the one stored before them. */
  lemma {:induction false} DiffuseUploadsCarryStoredColor(s: EffectState, calls: seq<Call>)
    requires forall i :: 0 <= i < |calls| ==> !calls[i].SetDiffuseTextureColor?
    ensures forall x :: Uniform4(DiffuseMapColor, x) in Trace(s, calls) ==> x == s.diffuseMapColor
  {
    if calls != [] {
      var prefix, c := calls[..|calls| - 1], calls[|calls| - 1];
      DiffuseUploadsCarryStoredColor(s, prefix);
      DiffuseColorPersists(s, prefix);
      forall x | Uniform4(DiffuseMapColor, x) in Trace(s, calls)
        ensures x == s.diffuseMapColor
      {
        if Uniform4(DiffuseMapColor, x) !in Trace(s, prefix) {
          DiffuseUploadIsStored(Run(s, prefix), c, x);
        }
      }
    }
  }

  // ---------------------------------------------------------------------
  // Calls as field assignments
  // ---------------------------------------------------------------------

  /** The fields a call (or a run of calls) writes, with the values it
      writes; `None` for a field left alone. */
  datatype Assignment = Assignment(
    active: Option<bool>,
    light: Option<Light>,
    lightTransform: Option<Transform>,
    solidColor: Option<Vec4>,
    emissionColor: Option<Vec3>,
    diffuseMapColor: Option<Vec4>,
    diffuseMap: Option<Option<Texture>>,
    normalMap: Option<Option<Texture>>)

  const NoAssignment := Assignment(None, None, None, None, None, None, None, None)

  function Or<T>(o: Option<T>, otherwise: T): T
  {
    if o.Some? then o.value else otherwise
  }

  function Later<T>(earlier: Option<T>, later: Option<T>): Option<T>
  {
    if later.Some? then later else earlier
  }

  /** The state s with the assignment's fields written. */
  function Apply(s: EffectState, a: Assignment): EffectState
  {
    EffectState(
      Or(a.active, s.active),
      Or(a.light, s.light),
      Or(a.lightTransform, s.lightTransform),
      Or(a.solidColor, s.solidColor),
      Or(a.emissionColor, s.emissionColor),
      Or(a.diffuseMapColor, s.diffuseMapColor),
      Or(a.diffuseMap, s.diffuseMap),
      Or(a.normalMap, s.normalMap))
  }

  /** Assignment a followed by assignment b: b's writes win. */
  function Then(a: Assignment, b: Assignment): Assignment
  {
    Assignment(
      Later(a.active, b.active),
      Later(a.light, b.light),
      Later(a.lightTransform, b.lightTransform),
      Later(a.solidColor, b.solidColor),
      Later(a.emissionColor, b.emissionColor),
      Later(a.diffuseMapColor, b.diffuseMapColor),
      Later(a.diffuseMap, b.diffuseMap),
      Later(a.normalMap, b.normalMap))
  }

  /** The fields each call writes. None of the values depends on the state
      the call is made in. */
  function Assigns(c: Call): Assignment
  {
    match c
    case SetLight(t, l) => NoAssignment.(light := Some(l), lightTransform := Some(t))
    case SetMaterial(m) => NoAssignment.(emissionColor := Some(m.emission), solidColor := Some(Widen(m.albedo, 1.0)))
    case Begin => NoAssignment.(active := Some(true))
    case End => NoAssignment.(active := Some(false))
    case SetSolidColor3(c3) => NoAssignment.(solidColor := Some(Widen(c3, 1.0)))
    case SetSolidColor4(c4) => NoAssignment.(solidColor := Some(c4))
    case SetEmissionColor(e) => NoAssignment.(emissionColor := Some(e))
    case SetDiffuseTextureColor(d) => NoAssignment.(diffuseMapColor := Some(d))
    case SetDiffuseTexture(t) => NoAssignment.(diffuseMap := Some(t))
    case SetNormalMap(t) => NoAssignment.(normalMap := Some(t))
    case _ => NoAssignment
  }

  /** The fields a run of calls writes, the last write to each field winning. */
  function AssignsAll(calls: seq<Call>): Assignment
  {
    if calls == [] then NoAssignment
    else Then(AssignsAll(calls[..|calls| - 1]), Assigns(calls[|calls| - 1]))
  }

  /** Applying a then b is applying their composition. */
  lemma ApplyThen(s: EffectState, a: Assignment, b: Assignment)
    ensures Apply(Apply(s, a), b) == Apply(s, Then(a, b))
  {
  }

  /** Writing the same fields twice is writing them once. */
  lemma ApplyTwice(s: EffectState, a: Assignment)
    ensures Apply(Apply(s, a), a) == Apply(s, a)
  {
  }

  /** Step agrees with the assignment view of every call. */
  lemma StepAssigns(s: EffectState, c: Call)
    ensures Step(s, c) == Apply(s, Assigns(c))
  {
  }

  /** A run of calls writes exactly AssignsAll(calls). */
  lemma {:induction false} RunAssigns(s: EffectState, calls: seq<Call>)
    ensures Run(s, calls) == Apply(s, AssignsAll(calls))
  {
    if calls != [] {
      var prefix, last := calls[..|calls| - 1], calls[|calls| - 1];
      RunAssigns(s, prefix);
      StepAssigns(Run(s, prefix), last);
      ApplyThen(s, AssignsAll(prefix), Assigns(last));
    }
  }

  /** Making the same calls twice leaves the effect as making them once:
      no setter reads the state it overwrites. */
  lemma RunIdempotent(s: EffectState, calls: seq<Call>)
    ensures Run(Run(s, calls), calls) == Run(s, calls)
  {
    RunAssigns(s, calls);
    RunAssigns(Run(s, calls), calls);
    ApplyTwice(s, AssignsAll(calls));
  }

  // ---------------------------------------------------------------------
  // The effect object
  // ---------------------------------------------------------------------

  /** fw::UniversalPhongEffect: the cached fields, and the GL events it has
      issued so far. */
  class UniversalPhongEffect {
    var shaderActive: bool
    var light: Light
    var lightTransform: Transform
    var solidColor: Vec4
    var emissionColor: Vec3
    var diffuseMapColor: Vec4
    var diffuseMap: Option<Texture>
    var normalMap: Option<Texture>
    var uploads: seq<GlEvent>

    function State(): EffectState
      reads this
    {
      EffectState(shaderActive, light, lightTransform, solidColor, emissionColor,
                  diffuseMapColor, diffuseMap, normalMap)
    }

    /** The diffuse-map colour starts transparent black, the solid colour
        opaque red, and there are no textures. The light, its transform and
        the emission colour keep whatever their own default constructors
        give, which the model leaves unspecified. */
    constructor()
      ensures diffuseMapColor == Vec4(0.0, 0.0, 0.0, 0.0)
      ensures solidColor == Vec4(1.0, 0.0, 0.0, 1.0)
      ensures diffuseMap == None && normalMap == None
      ensures !shaderActive
      ensures uploads == []
    {
      diffuseMapColor := Vec4(0.0, 0.0, 0.0, 0.0);
      solidColor := Vec4(1.0, 0.0, 0.0, 1.0);
      diffuseMap := None;
      normalMap := None;
      shaderActive := false;
      uploads := [];
    }

    /** destroy: nothing to release. */
    method Destroy()
      ensures State() == old(State()) && uploads == old(uploads)
    {
    }

    method Begin()
      modifies this
      ensures State() == Step(old(State()), Call.Begin)
      ensures uploads == old(uploads) + Uploads(old(State()), Call.Begin)
    {
      ghost var s0, before := State(), uploads;
      uploads := uploads + [UseProgram];
      if diffuseMap.Some? {
        uploads := uploads + [ActiveTexture(0), BindTexture2D(diffuseMap.value.id), Uniform1i(AlbedoMapSampler, 0)];
      }
      ghost var textured := uploads;
      assert textured == before + ([UseProgram] + TextureUploads(s0.diffuseMap, 0, AlbedoMapSampler));
      if normalMap.Some? {
        uploads := uploads + [ActiveTexture(1), BindTexture2D(normalMap.value.id), Uniform1i(NormalMapSampler, 1)];
      }
      ghost var head := uploads;
      assert head == textured + TextureUploads(s0.normalMap, 1, NormalMapSampler);
      uploads := uploads + [Uniform3(EmissionColor, emissionColor)];
      uploads := uploads + [Uniform4(SolidColor, solidColor)];
      uploads := uploads + [Uniform4(DiffuseMapColor, diffuseMapColor)];
      ghost var colours := [Uniform3(EmissionColor, s0.emissionColor),
                            Uniform4(SolidColor, s0.solidColor),
                            Uniform4(DiffuseMapColor, s0.diffuseMapColor)];
      assert uploads == head + colours;
      UpdateLightUniforms();
      shaderActive := true;
      assert uploads == head + colours + LightUploads(s0);
      ghost var textures := [UseProgram] + TextureUploads(s0.diffuseMap, 0, AlbedoMapSampler)
                            + TextureUploads(s0.normalMap, 1, NormalMapSampler);
      assert head == before + textures by {
        AppendAssociates(before, [UseProgram] + TextureUploads(s0.diffuseMap, 0, AlbedoMapSampler),
                         TextureUploads(s0.normalMap, 1, NormalMapSampler));
      }
      AppendAssociates(before, textures, colours);
      AppendAssociates(before, textures + colours, LightUploads(s0));
    }

    method End()
      modifies this
      ensures State() == Step(old(State()), Call.End)
      ensures uploads == old(uploads)
    {
      shaderActive := false;
    }

    method SetLight(transform: Transform, light: Light)
      modifies this
      ensures State() == Step(old(State()), Call.SetLight(transform, light))
      ensures uploads == old(uploads) + Uploads(old(State()), Call.SetLight(transform, light))
    {
      this.lightTransform := transform;
      this.light := light;
      if shaderActive {
        UpdateLightUniforms();
      }
    }

    method SetMaterial(material: Material)
      modifies this
      ensures State() == Step(old(State()), Call.SetMaterial(material))
      ensures uploads == old(uploads)
    {
      SetEmissionColor(material.emission);
      SetSolidColor3(material.albedo);
    }

    method SetDiffuseTextureColor(diffuseMultiplier: Vec4)
      modifies this
      ensures State() == Step(old(State()), Call.SetDiffuseTextureColor(diffuseMultiplier))
      ensures uploads == old(uploads)
    {
      diffuseMapColor := diffuseMultiplier;
    }

    method SetDiffuseTexture(texture: Option<Texture>)
      modifies this
      ensures State() == Step(old(State()), Call.SetDiffuseTexture(texture))
      ensures uploads == old(uploads)
    {
      diffuseMap := texture;
    }

    method SetNormalMap(texture: Option<Texture>)
      modifies this
      ensures State() == Step(old(State()), Call.SetNormalMap(texture))
      ensures uploads == old(uploads)
    {
      normalMap := texture;
    }

    method SetEmissionColor(color: Vec3)
      modifies this
      ensures State() == Step(old(State()), Call.SetEmissionColor(color))
      ensures uploads == old(uploads)
    {
      emissionColor := color;
    }

    /** setSolidColor(glm::vec3): the colour with alpha 1. */
    method SetSolidColor3(color: Vec3)
      modifies this
      ensures State() == Step(old(State()), Call.SetSolidColor3(color))
      ensures uploads == old(uploads)
    {
      solidColor := Vec4(color.x, color.y, color.z, 1.0);
    }

    /** setSolidColor(glm::vec4): the colour as given. */
    method SetSolidColor4(color: Vec4)
      modifies this
      ensures State() == Step(old(State()), Call.SetSolidColor4(color))
      ensures uploads == old(uploads)
    {
      solidColor := color;
    }

    /** setProjectionMatrix, setViewMatrix, setModelMatrix: declared in a
        header that is not part of this model; their effect on the program
        is not modelled, so they change no cached field and upload nothing. */
    method SetProjectionMatrix(projection: Mat4)
      ensures State() == Step(old(State()), Call.SetProjectionMatrix(projection))
      ensures uploads == old(uploads)
    {
    }

    method SetViewMatrix(view: Mat4)
      ensures State() == Step(old(State()), Call.SetViewMatrix(view))
      ensures uploads == old(uploads)
    {
    }

    method SetModelMatrix(model: Mat4)
      ensures State() == Step(old(State()), Call.SetModelMatrix(model))
      ensures uploads == old(uploads)
    {
    }

    /** updateLightUniforms: uploads the light colour and position. */
    method UpdateLightUniforms()
      modifies this
      ensures State() == old(State())
      ensures uploads == old(uploads) + LightUploads(State())
    {
      uploads := uploads + [Uniform3(LightColor, light.color)];
      uploads := uploads + [Uniform3(LightPosition, lightTransform.position)];
    }
  }
}
