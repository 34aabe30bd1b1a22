/**
 The forward rendering system: one frame of the scene, drawn through the
 universal Phong effect.

 A frame resolves the camera (the last Transform+ProjectionCamera entity
 visited wins) and the shading light (the last Transform+Light entity
 visited wins), then draws every geometry chunk of every Transform+
 StaticModel entity inside its own begin/end bracket, then draws a small box
 marker at every light, again one bracket each.

 The entity store is given as three sequences in visiting order. The output
 is the sequence of calls made on the effect, with the mesh draws between
 them; the effect's own state and GL uploads follow from the calls.
 */
module ForwardRendering {
  import opened Common
  import opened PhongEffect
  import DebugShapes

  // ---------------------------------------------------------------------
  // The scene and the frame's events
  // ---------------------------------------------------------------------

  /** An entity with a Transform and a ProjectionCamera. */
  datatype CameraEntity = CameraEntity(transform: Transform, camera: Camera)

  /** An entity with a Transform and a Light. */
  datatype LightEntity = LightEntity(transform: Transform, light: Light)

  /** A geometry chunk of a static model: its mesh (a handle) and the
      chunk's own material. */
  datatype GeometryChunk = GeometryChunk(mesh: nat, material: Material)

  /** An entity with a Transform, a StaticModel and a Material component. */
  datatype ModelEntity = ModelEntity(transform: Transform, material: Material, chunks: seq<GeometryChunk>)

  /** The entity store, each sequence in the order the store visits it. */
  datatype Scene = Scene(cameras: seq<CameraEntity>, lights: seq<LightEntity>, models: seq<ModelEntity>)

  /** What a draw renders: a chunk's mesh or the system's marker box. */
  datatype DrawTarget = ChunkMesh(id: nat) | MarkerBox

  /** One event of a frame: a call on the effect, or a mesh draw. */
  datatype FrameEvent = Invoke(call: Call) | Draw(target: DrawTarget)

  /** The view and projection matrices of a frame. */
  datatype Camera3D = Camera3D(view: Mat4, projection: Mat4)

  // ---------------------------------------------------------------------
  // Camera and light resolution
  // ---------------------------------------------------------------------

  /** The matrices of the last camera visited; both default-constructed
      matrices when there is no camera. */
  function CameraMatrices(cameras: seq<CameraEntity>, ext: Externals): Camera3D
  {
    if cameras == [] then Camera3D(ext.defaultMatrix, ext.defaultMatrix)
    else
      var last := cameras[|cameras| - 1];
      Camera3D(ext.inverse(last.transform.matrix), last.camera.projection)
  }

  /** The last light visited; a default-constructed light and transform when
      there is none. */
  function ShadingLight(lights: seq<LightEntity>, ext: Externals): LightEntity
  {
    if lights == [] then LightEntity(ext.defaultTransform, ext.defaultLight) else lights[|lights| - 1]
  }

  /** The camera callback of `update`: every camera visited overwrites the
      view and projection matrices, so the last one wins. */
  method ResolveCamera(cameras: seq<CameraEntity>, ext: Externals) returns (view: Mat4, projection: Mat4)
    ensures Camera3D(view, projection) == CameraMatrices(cameras, ext)
    ensures cameras != [] ==> view == ext.inverse(cameras[|cameras| - 1].transform.matrix)
    ensures cameras == [] ==> view == ext.defaultMatrix && projection == ext.defaultMatrix
  {
    view := ext.defaultMatrix;
    projection := ext.defaultMatrix;
    for i := 0 to |cameras|
      invariant Camera3D(view, projection) == CameraMatrices(cameras[..i], ext)
    {
      assert cameras[..i + 1][..i] == cameras[..i];
      view := ext.inverse(cameras[i].transform.matrix);
      projection := cameras[i].camera.projection;
    }
    assert cameras[..|cameras|] == cameras;
  }

  /** The light callback of `update`: every light visited overwrites the
      current light and its transform, so the last one wins. */
  method ResolveLight(lights: seq<LightEntity>, ext: Externals) returns (transform: Transform, light: Light)
    ensures LightEntity(transform, light) == ShadingLight(lights, ext)
    ensures lights == [] ==> transform == ext.defaultTransform && light == ext.defaultLight
  {
    transform := ext.defaultTransform;
    light := ext.defaultLight;
    for i := 0 to |lights|
      invariant LightEntity(transform, light) == ShadingLight(lights[..i], ext)
    {
      light := lights[i].light;
      transform := lights[i].transform;
    }
    assert lights[..|lights|] == lights;
  }

  // ---------------------------------------------------------------------
  // The frame as a sequence of events
  // ---------------------------------------------------------------------

  /** Calls made one after another, as events. */
  function Invokes(calls: seq<Call>): (events: seq<FrameEvent>)
    ensures |events| == |calls|
    ensures forall i :: 0 <= i < |calls| ==> events[i] == Invoke(calls[i])
  {
    if calls == [] then [] else Invokes(calls[..|calls| - 1]) + [Invoke(calls[|calls| - 1])]
  }

  /** One draw: the setup calls, begin, the three matrices, the draw of
      `target`, end. */
  function Bracket(setup: seq<Call>, camera: Camera3D, model: Mat4, target: DrawTarget): seq<FrameEvent>
  {
    Invokes(setup)
    + [Invoke(Begin), Invoke(SetProjectionMatrix(camera.projection)), Invoke(SetViewMatrix(camera.view)),
       Invoke(SetModelMatrix(model)), Draw(target), Invoke(End)]
  }

  /** The setup of a chunk draw: the shading light, then the entity's
      Material component. */
  function ChunkSetup(shading: LightEntity, m: ModelEntity): seq<Call>
  {
    [SetLight(shading.transform, shading.light), SetMaterial(m.material)]
  }

  /** The bracket of one geometry chunk of model entity m. */
  function ChunkBracket(shading: LightEntity, camera: Camera3D, m: ModelEntity, chunk: GeometryChunk): seq<FrameEvent>
  {
    Bracket(ChunkSetup(shading, m), camera, m.transform.matrix, ChunkMesh(chunk.mesh))
  }

  /** The setup of a light marker: black solid colour, the light's colour as
      emission, and a transparent black diffuse-map colour. */
  function MarkerSetup(l: LightEntity): seq<Call>
  {
    [SetSolidColor3(Zero3), SetEmissionColor(l.light.color), SetDiffuseTextureColor(Zero4)]
  }

  /** The bracket of the marker of light entity l. */
  function MarkerBracket(camera: Camera3D, l: LightEntity): seq<FrameEvent>
  {
    Bracket(MarkerSetup(l), camera, l.transform.matrix, MarkerBox)
  }

  /** The brackets of the given chunks of model entity m, in order. */
  function ChunkDraws(shading: LightEntity, camera: Camera3D, m: ModelEntity, chunks: seq<GeometryChunk>): seq<FrameEvent>
  {
    if chunks == [] then []
    else ChunkDraws(shading, camera, m, chunks[..|chunks| - 1]) + ChunkBracket(shading, camera, m, chunks[|chunks| - 1])
  }

  /** The geometry pass over the given model entities. */
  function GeometryPass(shading: LightEntity, camera: Camera3D, models: seq<ModelEntity>): seq<FrameEvent>
  {
    if models == [] then []
    else
      var m := models[|models| - 1];
      GeometryPass(shading, camera, models[..|models| - 1]) + ChunkDraws(shading, camera, m, m.chunks)
  }

  /** The light-marker pass over the given light entities. */
  function MarkerPass(camera: Camera3D, lights: seq<LightEntity>): seq<FrameEvent>
  {
    if lights == [] then [] else MarkerPass(camera, lights[..|lights| - 1]) + MarkerBracket(camera, lights[|lights| - 1])
  }

  /** Everything one call of `update` does, in order. */
  function FrameEvents(scene: Scene, ext: Externals): seq<FrameEvent>
  {
    var camera := CameraMatrices(scene.cameras, ext);
    GeometryPass(ShadingLight(scene.lights, ext), camera, scene.models) + MarkerPass(camera, scene.lights)
  }

  // ---------------------------------------------------------------------
  // Reading a sequence of events
  // ---------------------------------------------------------------------

  /** The effect calls among the events, in order. */
  function Calls(events: seq<FrameEvent>): seq<Call>
  {
    if events == [] then []
    else
      var last := events[|events| - 1];
      Calls(events[..|events| - 1]) + (if last.Invoke? then [last.call] else [])
  }

  /** The number of draws among the events. */
  function DrawCount(events: seq<FrameEvent>): nat
  {
    if events == [] then 0
    else DrawCount(events[..|events| - 1]) + (if events[|events| - 1].Draw? then 1 else 0)
  }

  /** The number of chunks of the given model entities. */
  function TotalChunks(models: seq<ModelEntity>): nat
  {
    if models == [] then 0 else TotalChunks(models[..|models| - 1]) + |models[|models| - 1].chunks|
  }

  /** Following the effect's active flag through the events: `None` as soon
      as a begin comes while the program is active, or a draw or an end
      while it is not; otherwise the flag at the end. */
  function Bracketing(active: bool, events: seq<FrameEvent>): Option<bool>
  {
    if events == [] then Some(active)
    else
      match Bracketing(active, events[..|events| - 1])
      case None => None
      case Some(a) => BracketStep(a, events[|events| - 1])
  }

  function BracketStep(active: bool, e: FrameEvent): Option<bool>
  {
    match e
    case Draw(_) => if active then Some(true) else None
    case Invoke(Begin) => if active then None else Some(true)
    case Invoke(End) => if active then Some(false) else None
    case Invoke(_) => Some(active)
  }

  // ---------------------------------------------------------------------
  // Concatenation
  // ---------------------------------------------------------------------

  /** The calls of a + b are the calls of a, then those of b. */
  lemma {:induction false} CallsConcat(a: seq<FrameEvent>, b: seq<FrameEvent>)
    ensures Calls(a + b) == Calls(a) + Calls(b)
    decreases |b|
  {
    if b == [] {
      assert a + b == a;
    } else {
      var b', e := b[..|b| - 1], b[|b| - 1];
      assert b == b' + [e];
      assert a + b == (a + b') + [e];
      CallsConcat(a, b');
      AppendAssociates(Calls(a), Calls(b'), if e.Invoke? then [e.call] else []);
    }
  }

  /** The draws of a + b are those of a plus those of b. */
  lemma {:induction false} DrawCountConcat(a: seq<FrameEvent>, b: seq<FrameEvent>)
    ensures DrawCount(a + b) == DrawCount(a) + DrawCount(b)
    decreases |b|
  {
    if b == [] {
      assert a + b == a;
    } else {
      var b', e := b[..|b| - 1], b[|b| - 1];
      assert b == b' + [e];
      assert a + b == (a + b') + [e];
      DrawCountConcat(a, b');
    }
  }

  /** Following the flag through a + b is following it through a, then
      through b from where a left it. */
  lemma {:induction false} BracketingConcat(active: bool, a: seq<FrameEvent>, b: seq<FrameEvent>)
    ensures Bracketing(active, a + b)
         == (match Bracketing(active, a) case None => None case Some(x) => Bracketing(x, b))
    decreases |b|
  {
    if b == [] {
      assert a + b == a;
    } else {
      var b', e := b[..|b| - 1], b[|b| - 1];
      assert b == b' + [e];
      assert a + b == (a + b') + [e];
      BracketingConcat(active, a, b');
    }
  }

  /** The calls among Invokes(calls) are the calls themselves. */
  lemma {:induction false} CallsOfInvokes(calls: seq<Call>)
    ensures Calls(Invokes(calls)) == calls
    ensures DrawCount(Invokes(calls)) == 0
  {
    if calls != [] {
      var prefix := calls[..|calls| - 1];
      CallsOfInvokes(prefix);
      assert Invokes(calls)[..|calls| - 1] == Invokes(prefix);
    }
  }

  /** Calls other than begin and end leave the flag as it is. */
  lemma {:induction false} BracketingOfSetters(active: bool, calls: seq<Call>)
    requires forall i :: 0 <= i < |calls| ==> !calls[i].Begin? && !calls[i].End?
    ensures Bracketing(active, Invokes(calls)) == Some(active)
  {
    if calls != [] {
      var prefix := calls[..|calls| - 1];
      BracketingOfSetters(active, prefix);
      assert Invokes(calls)[..|calls| - 1] == Invokes(prefix);
    }
  }

  // ---------------------------------------------------------------------
  // One bracket
  // ---------------------------------------------------------------------

  /** The six events that close every bracket. */
  function Closing(camera: Camera3D, model: Mat4, target: DrawTarget): seq<FrameEvent>
  {
    [Invoke(Begin), Invoke(SetProjectionMatrix(camera.projection)), Invoke(SetViewMatrix(camera.view)),
     Invoke(SetModelMatrix(model)), Draw(target), Invoke(End)]
  }

  /** What appending one event does to the readings of a sequence. */
  lemma SnocFacts(a: seq<FrameEvent>, e: FrameEvent)
    ensures Calls(a + [e]) == Calls(a) + (if e.Invoke? then [e.call] else [])
    ensures DrawCount(a + [e]) == DrawCount(a) + (if e.Draw? then 1 else 0)
    ensures forall active :: (Bracketing(active, a + [e])
      == match Bracketing(active, a) case None => None case Some(x) => BracketStep(x, e))
  {
    assert (a + [e])[..|a|] == a;
  }

  /** The calls among them. */
  function ClosingCalls(camera: Camera3D, model: Mat4): seq<Call>
  {
    [Begin, SetProjectionMatrix(camera.projection), SetViewMatrix(camera.view), SetModelMatrix(model), End]
  }

  lemma ClosingFacts(camera: Camera3D, model: Mat4, target: DrawTarget)
    ensures Calls(Closing(camera, model, target)) == ClosingCalls(camera, model)
    ensures DrawCount(Closing(camera, model, target)) == 1
    ensures Bracketing(false, Closing(camera, model, target)) == Some(false)
  {
    var c0: seq<FrameEvent> := [];
    var c1 := c0 + [Invoke(Begin)];
    var c2 := c1 + [Invoke(SetProjectionMatrix(camera.projection))];
    var c3 := c2 + [Invoke(SetViewMatrix(camera.view))];
    var c4 := c3 + [Invoke(SetModelMatrix(model))];
    var c5 := c4 + [Draw(target)];
    var c6 := c5 + [Invoke(End)];
    assert c6 == Closing(camera, model, target);
    SnocFacts(c0, Invoke(Begin));
    SnocFacts(c1, Invoke(SetProjectionMatrix(camera.projection)));
    SnocFacts(c2, Invoke(SetViewMatrix(camera.view)));
    SnocFacts(c3, Invoke(SetModelMatrix(model)));
    SnocFacts(c4, Draw(target));
    SnocFacts(c5, Invoke(End));
  }

  /** A bracket whose setup neither begins nor ends: it makes its setup
      calls, begins, sets the three matrices, draws once and ends; it opens
      and closes the program exactly once. */
  lemma BracketFacts(setup: seq<Call>, camera: Camera3D, model: Mat4, target: DrawTarget)
    requires forall i :: 0 <= i < |setup| ==> !setup[i].Begin? && !setup[i].End?
    ensures |Bracket(setup, camera, model, target)| == |setup| + 6
    ensures Calls(Bracket(setup, camera, model, target))
         == setup + [Begin, SetProjectionMatrix(camera.projection), SetViewMatrix(camera.view), SetModelMatrix(model), End]
    ensures DrawCount(Bracket(setup, camera, model, target)) == 1
    ensures Bracketing(false, Bracket(setup, camera, model, target)) == Some(false)
  {
    var head, tail := Invokes(setup), Closing(camera, model, target);
    assert Bracket(setup, camera, model, target) == head + tail;
    CallsConcat(head, tail);
    DrawCountConcat(head, tail);
    BracketingConcat(false, head, tail);
    CallsOfInvokes(setup);
    BracketingOfSetters(false, setup);
    ClosingFacts(camera, model, target);
  }

  lemma ChunkBracketFacts(shading: LightEntity, camera: Camera3D, m: ModelEntity, chunk: GeometryChunk)
    ensures |ChunkBracket(shading, camera, m, chunk)| == 8
    ensures DrawCount(ChunkBracket(shading, camera, m, chunk)) == 1
    ensures Bracketing(false, ChunkBracket(shading, camera, m, chunk)) == Some(false)
    ensures Calls(ChunkBracket(shading, camera, m, chunk))
         == [SetLight(shading.transform, shading.light), SetMaterial(m.material), Begin,
             SetProjectionMatrix(camera.projection), SetViewMatrix(camera.view),
             SetModelMatrix(m.transform.matrix), End]
  {
    BracketFacts(ChunkSetup(shading, m), camera, m.transform.matrix, ChunkMesh(chunk.mesh));
  }

  lemma MarkerBracketFacts(camera: Camera3D, l: LightEntity)
    ensures |MarkerBracket(camera, l)| == 9
    ensures DrawCount(MarkerBracket(camera, l)) == 1
    ensures Bracketing(false, MarkerBracket(camera, l)) == Some(false)
    ensures Calls(MarkerBracket(camera, l))
         == [SetSolidColor3(Zero3), SetEmissionColor(l.light.color), SetDiffuseTextureColor(Zero4), Begin,
             SetProjectionMatrix(camera.projection), SetViewMatrix(camera.view),
             SetModelMatrix(l.transform.matrix), End]
  {
    BracketFacts(MarkerSetup(l), camera, l.transform.matrix, MarkerBox);
  }

  // ---------------------------------------------------------------------
  // The passes
  // ---------------------------------------------------------------------

  /** The chunk brackets of m: eight events and one draw per chunk, each
      closing what it opens. */
  lemma {:induction false} ChunkDrawsFacts(shading: LightEntity, camera: Camera3D, m: ModelEntity, chunks: seq<GeometryChunk>)
    ensures |ChunkDraws(shading, camera, m, chunks)| == 8 * |chunks|
    ensures DrawCount(ChunkDraws(shading, camera, m, chunks)) == |chunks|
    ensures Bracketing(false, ChunkDraws(shading, camera, m, chunks)) == Some(false)
  {
    if chunks != [] {
      var prefix, last := chunks[..|chunks| - 1], chunks[|chunks| - 1];
      ChunkDrawsFacts(shading, camera, m, prefix);
      ChunkBracketFacts(shading, camera, m, last);
      DrawCountConcat(ChunkDraws(shading, camera, m, prefix), ChunkBracket(shading, camera, m, last));
      BracketingConcat(false, ChunkDraws(shading, camera, m, prefix), ChunkBracket(shading, camera, m, last));
    }
  }

  /** Chunk j of m is drawn by the j-th group of eight events. */
  lemma {:induction false} ChunkDrawsAt(shading: LightEntity, camera: Camera3D, m: ModelEntity, chunks: seq<GeometryChunk>, j: nat)
    requires j < |chunks|
    ensures 8 * j + 8 <= |ChunkDraws(shading, camera, m, chunks)|
    ensures ChunkDraws(shading, camera, m, chunks)[8 * j..8 * j + 8] == ChunkBracket(shading, camera, m, chunks[j])
  {
    var prefix, last := chunks[..|chunks| - 1], chunks[|chunks| - 1];
    var head := ChunkDraws(shading, camera, m, prefix);
    ChunkDrawsFacts(shading, camera, m, prefix);
    ChunkBracketFacts(shading, camera, m, last);
    if j < |prefix| {
      ChunkDrawsAt(shading, camera, m, prefix, j);
      SliceOfAppendLeft(head, ChunkBracket(shading, camera, m, last), 8 * j, 8 * j + 8);
    } else {
      SliceOfAppendRight(head, ChunkBracket(shading, camera, m, last), 0, 8);
    }
  }

  /** The geometry pass: eight events and one draw per chunk of every model
      entity, each bracket closing what it opens. */
  lemma {:induction false} GeometryPassFacts(shading: LightEntity, camera: Camera3D, models: seq<ModelEntity>)
    ensures |GeometryPass(shading, camera, models)| == 8 * TotalChunks(models)
    ensures DrawCount(GeometryPass(shading, camera, models)) == TotalChunks(models)
    ensures Bracketing(false, GeometryPass(shading, camera, models)) == Some(false)
  {
    if models != [] {
      var prefix, m := models[..|models| - 1], models[|models| - 1];
      GeometryPassFacts(shading, camera, prefix);
      ChunkDrawsFacts(shading, camera, m, m.chunks);
      DrawCountConcat(GeometryPass(shading, camera, prefix), ChunkDraws(shading, camera, m, m.chunks));
      BracketingConcat(false, GeometryPass(shading, camera, prefix), ChunkDraws(shading, camera, m, m.chunks));
    }
  }

  /** Chunk j of model entity k is drawn after every chunk of the entities
      before it and the chunks before it in its own entity, with the
      entity's own Material component and transform. */
  lemma {:induction false} GeometryPassAt(shading: LightEntity, camera: Camera3D, models: seq<ModelEntity>, k: nat, j: nat)
    requires k < |models| && j < |models[k].chunks|
    ensures var p := 8 * (TotalChunks(models[..k]) + j);
      p + 8 <= |GeometryPass(shading, camera, models)|
      && GeometryPass(shading, camera, models)[p..p + 8] == ChunkBracket(shading, camera, models[k], models[k].chunks[j])
  {
    var prefix, m := models[..|models| - 1], models[|models| - 1];
    var head, tail := GeometryPass(shading, camera, prefix), ChunkDraws(shading, camera, m, m.chunks);
    GeometryPassFacts(shading, camera, prefix);
    ChunkDrawsFacts(shading, camera, m, m.chunks);
    if k == |models| - 1 {
      assert models[..k] == prefix;
      ChunkDrawsAt(shading, camera, m, m.chunks, j);
      SliceOfAppendRight(head, tail, 8 * j, 8 * j + 8);
    } else {
      assert prefix[..k] == models[..k] && prefix[k] == models[k];
      GeometryPassAt(shading, camera, prefix, k, j);
      var p := 8 * (TotalChunks(models[..k]) + j);
      SliceOfAppendLeft(head, tail, p, p + 8);
    }
  }


  /** Every chunk draw shades with the resolved light, and the geometry pass
      never sets the diffuse-map colour. */
  lemma {:induction false} GeometryPassCalls(shading: LightEntity, camera: Camera3D, models: seq<ModelEntity>)
    ensures forall c :: c in Calls(GeometryPass(shading, camera, models)) ==>
      !c.SetDiffuseTextureColor? && (c.SetLight? ==> c == SetLight(shading.transform, shading.light))
  {
    if models != [] {
      var prefix, m := models[..|models| - 1], models[|models| - 1];
      GeometryPassCalls(shading, camera, prefix);
      ChunkDrawsCalls(shading, camera, m, m.chunks);
      CallsConcat(GeometryPass(shading, camera, prefix), ChunkDraws(shading, camera, m, m.chunks));
    }
  }

  lemma {:induction false} ChunkDrawsCalls(shading: LightEntity, camera: Camera3D, m: ModelEntity, chunks: seq<GeometryChunk>)
    ensures forall c :: c in Calls(ChunkDraws(shading, camera, m, chunks)) ==>
      !c.SetDiffuseTextureColor? && (c.SetLight? ==> c == SetLight(shading.transform, shading.light))
      && (c.SetMaterial? ==> c == SetMaterial(m.material))
  {
    if chunks != [] {
      var prefix, last := chunks[..|chunks| - 1], chunks[|chunks| - 1];
      ChunkDrawsCalls(shading, camera, m, prefix);
      ChunkBracketFacts(shading, camera, m, last);
      CallsConcat(ChunkDraws(shading, camera, m, prefix), ChunkBracket(shading, camera, m, last));
    }
  }

  /** The marker pass: nine events and one draw per light, each bracket
      closing what it opens, and neither the light nor a material is set. */
  lemma {:induction false} MarkerPassFacts(camera: Camera3D, lights: seq<LightEntity>)
    ensures |MarkerPass(camera, lights)| == 9 * |lights|
    ensures DrawCount(MarkerPass(camera, lights)) == |lights|
    ensures Bracketing(false, MarkerPass(camera, lights)) == Some(false)
    ensures forall c :: c in Calls(MarkerPass(camera, lights)) ==> !c.SetLight? && !c.SetMaterial?
  {
    if lights != [] {
      var prefix, l := lights[..|lights| - 1], lights[|lights| - 1];
      MarkerPassFacts(camera, prefix);
      MarkerBracketFacts(camera, l);
      DrawCountConcat(MarkerPass(camera, prefix), MarkerBracket(camera, l));
      BracketingConcat(false, MarkerPass(camera, prefix), MarkerBracket(camera, l));
      CallsConcat(MarkerPass(camera, prefix), MarkerBracket(camera, l));
    }
  }

  /** The marker of light i is the i-th group of nine events. */
  lemma {:induction false} MarkerPassAt(camera: Camera3D, lights: seq<LightEntity>, i: nat)
    requires i < |lights|
    ensures 9 * i + 9 <= |MarkerPass(camera, lights)|
    ensures MarkerPass(camera, lights)[9 * i..9 * i + 9] == MarkerBracket(camera, lights[i])
  {
    var prefix, last := lights[..|lights| - 1], lights[|lights| - 1];
    var head := MarkerPass(camera, prefix);
    MarkerPassFacts(camera, prefix);
    MarkerBracketFacts(camera, last);
    if i < |prefix| {
      MarkerPassAt(camera, prefix, i);
      SliceOfAppendLeft(head, MarkerBracket(camera, last), 9 * i, 9 * i + 9);
    } else {
      SliceOfAppendRight(head, MarkerBracket(camera, last), 0, 9);
    }
  }


  // ---------------------------------------------------------------------
  // The frame
  // ---------------------------------------------------------------------

  /** A frame has eight events per chunk and nine per light, draws once per
      chunk and once per light, brackets every draw and leaves the program
      inactive; an empty scene makes no call at all. */
  lemma FrameShape(scene: Scene, ext: Externals)
    ensures |FrameEvents(scene, ext)| == 8 * TotalChunks(scene.models) + 9 * |scene.lights|
    ensures DrawCount(FrameEvents(scene, ext)) == TotalChunks(scene.models) + |scene.lights|
    ensures Bracketing(false, FrameEvents(scene, ext)) == Some(false)
    ensures FrameEvents(scene, ext) == [] <==> TotalChunks(scene.models) == 0 && scene.lights == []
  {
    var camera := CameraMatrices(scene.cameras, ext);
    var geometry := GeometryPass(ShadingLight(scene.lights, ext), camera, scene.models);
    GeometryPassFacts(ShadingLight(scene.lights, ext), camera, scene.models);
    MarkerPassFacts(camera, scene.lights);
    DrawCountConcat(geometry, MarkerPass(camera, scene.lights));
    BracketingConcat(false, geometry, MarkerPass(camera, scene.lights));
  }

  /** Following the flag agrees with the effect: when the events are
      well bracketed from the effect's flag, the flag they end with is the
      effect's flag after their calls. */
  lemma {:induction false} BracketingTracksEffect(s: EffectState, events: seq<FrameEvent>)
    ensures Bracketing(s.active, events).Some? ==> Run(s, Calls(events)).active == Bracketing(s.active, events).value
  {
    if events != [] {
      var prefix, e := events[..|events| - 1], events[|events| - 1];
      assert events == prefix + [e];
      BracketingTracksEffect(s, prefix);
      SnocFacts(prefix, e);
      var before := Run(s, Calls(prefix));
      if e.Invoke? {
        RunSnoc(s, Calls(prefix), e.call);
        FieldsChangeOnlyByTheirSetters(before, e.call);
        assert Run(s, Calls(events)) == Step(before, e.call);
      } else {
        assert Calls(events) == Calls(prefix) + [] == Calls(prefix);
      }
    }
  }

  /** After a frame that drew at least one light marker the effect's
      diffuse-map colour is transparent black, whatever it was before. */
  lemma FrameLeavesDiffuseBlack(s: EffectState, scene: Scene, ext: Externals)
    requires scene.lights != []
    ensures Run(s, Calls(FrameEvents(scene, ext))).diffuseMapColor == Zero4
  {
    var camera := CameraMatrices(scene.cameras, ext);
    var geometry := GeometryPass(ShadingLight(scene.lights, ext), camera, scene.models);
    var lights := scene.lights;
    var earlier := geometry + MarkerPass(camera, lights[..|lights| - 1]);
    var l := lights[|lights| - 1];
    AppendAssociates(geometry, MarkerPass(camera, lights[..|lights| - 1]), MarkerBracket(camera, l));
    CallsConcat(earlier, MarkerBracket(camera, l));
    RunConcat(s, Calls(earlier), Calls(MarkerBracket(camera, l)));
    MarkerLeavesDiffuseBlack(Run(s, Calls(earlier)), camera, l);
  }

  /** A marker bracket leaves the diffuse-map colour transparent black. */
  lemma MarkerLeavesDiffuseBlack(s: EffectState, camera: Camera3D, l: LightEntity)
    ensures Run(s, Calls(MarkerBracket(camera, l))).diffuseMapColor == Zero4
  {
    var setup := MarkerSetup(l);
    BracketFacts(setup, camera, l.transform.matrix, MarkerBox);
    assert Calls(MarkerBracket(camera, l)) == setup + ClosingCalls(camera, l.transform.matrix);
    RunConcat(s, setup, ClosingCalls(camera, l.transform.matrix));
    RunTriple(s, setup[0], setup[1], setup[2]);
    assert setup == [setup[0], setup[1], setup[2]];
    DiffuseColorPersists(Run(s, setup), ClosingCalls(camera, l.transform.matrix));
  }


  /** The marker pass's transparent black diffuse-map colour outlives the
      frame: in the geometry pass of the next frame every diffuse-map colour
      the effect uploads is transparent black. */
  lemma MarkerColourReachesNextFrame(s: EffectState, scene: Scene, next: Scene, ext: Externals)
    requires scene.lights != []
    ensures var s1 := Run(s, Calls(FrameEvents(scene, ext)));
      forall x :: Uniform4(DiffuseMapColor, x) in
        Trace(s1, Calls(GeometryPass(ShadingLight(next.lights, ext), CameraMatrices(next.cameras, ext), next.models)))
        ==> x == Zero4
  {
    var s1 := Run(s, Calls(FrameEvents(scene, ext)));
    FrameLeavesDiffuseBlack(s, scene, ext);
    var calls := Calls(GeometryPass(ShadingLight(next.lights, ext), CameraMatrices(next.cameras, ext), next.models));
    GeometryPassCalls(ShadingLight(next.lights, ext), CameraMatrices(next.cameras, ext), next.models);
    assert forall i :: 0 <= i < |calls| ==> calls[i] in calls;
    DiffuseUploadsCarryStoredColor(s1, calls);
  }

  // ---------------------------------------------------------------------
  // The system object
  // ---------------------------------------------------------------------

  /** ee::ForwardRenderingSystem: the effect it drives, the marker box, the
      framebuffer, and everything it has drawn so far. */
  class ForwardRenderingSystem {
    var effect: UniversalPhongEffect
    var box: DebugShapes.Mesh<DebugShapes.NormalVertex>
    var framebuffer: Option<Framebuffer>
    /** The calls made on the effect and the mesh draws, in order. */
    var events: seq<FrameEvent>
    /** The calls among `events`, kept alongside them. */
    ghost var calls: seq<Call>
    /** The effect's state when the system was built. */
    ghost var origin: EffectState

    /** The effect is where the calls made so far take it from its initial
        state, and has uploaded what they upload. */
    ghost predicate Consistent()
      reads this, effect
    {
      effect.State() == Run(origin, calls) && effect.uploads == Trace(origin, calls)
    }

    /** Between frames: the effect follows the recorded calls and its
        program is not in use. */
    ghost predicate Valid()
      reads this, effect
    {
      Consistent() && calls == Calls(events) && !effect.shaderActive
    }

    /** The effect, the marker box, the framebuffer and the initial state
        are those of the pre-state. */
    twostate predicate KeepsParts()
      reads this
    {
      effect == old(effect) && box == old(box) && framebuffer == old(framebuffer) && origin == old(origin)
    }

    /** A fresh effect in its initial state, and a box of size 0.01 with
        outward normals as the light marker. */
    constructor()
      ensures Valid() && fresh(effect)
      ensures events == [] && framebuffer == None
      ensures box.vertices == DebugShapes.BoxVertices(Vec3(0.01, 0.01, 0.01), false)
      ensures |box.indices| == 36 && box.mode == DebugShapes.Triangles
      ensures forall k :: 0 <= k < 36 ==> box.indices[k] == k
      ensures origin == effect.State() && effect.uploads == []
      ensures origin.diffuseMapColor == Zero4 && origin.solidColor == Vec4(1.0, 0.0, 0.0, 1.0)
      ensures origin.diffuseMap == None && origin.normalMap == None && !origin.active
    {
      var phong := new UniversalPhongEffect();
      var marker := DebugShapes.CreateBox(Vec3(0.01, 0.01, 0.01), false);
      effect := phong;
      box := marker;
      framebuffer := None;
      events := [];
      calls := [];
      origin := phong.State();
    }

    /** setFramebuffer: stores the render target and nothing else. */
    method SetFramebuffer(target: Option<Framebuffer>)
      modifies this
      ensures framebuffer == target
      ensures effect == old(effect) && box == old(box) && origin == old(origin)
      ensures events == old(events) && calls == old(calls)
    {
      framebuffer := target;
    }

    /** Calls the effect method that `c` names, and records the call. */
    method Issue(c: Call)
      modifies this, effect
      ensures KeepsParts()
      ensures events == old(events) + [Invoke(c)] && calls == old(calls) + [c]
      ensures effect.State() == Step(old(effect.State()), c)
      ensures effect.uploads == old(effect.uploads) + Uploads(old(effect.State()), c)
    {
      match c {
        case SetLight(t, l) => effect.SetLight(t, l);
        case SetMaterial(m) => effect.SetMaterial(m);
        case Begin => effect.Begin();
        case End => effect.End();
        case SetSolidColor3(c3) => effect.SetSolidColor3(c3);
        case SetSolidColor4(c4) => effect.SetSolidColor4(c4);
        case SetEmissionColor(e) => effect.SetEmissionColor(e);
        case SetDiffuseTextureColor(d) => effect.SetDiffuseTextureColor(d);
        case SetDiffuseTexture(t) => effect.SetDiffuseTexture(t);
        case SetNormalMap(t) => effect.SetNormalMap(t);
        case SetProjectionMatrix(p) => effect.SetProjectionMatrix(p);
        case SetViewMatrix(v) => effect.SetViewMatrix(v);
        case SetModelMatrix(m) => effect.SetModelMatrix(m);
      }
      calls := calls + [c];
      events := events + [Invoke(c)];
    }

    /** Renders a mesh: recorded, with no effect on the effect. */
    method Render(target: DrawTarget)
      modifies this
      ensures KeepsParts()
      ensures events == old(events) + [Draw(target)] && calls == old(calls)
    {
      events := events + [Draw(target)];
    }

    /** The part every bracket shares: begin, the three matrices, the draw,
        end. Begin uploads the cached fields; everything else stays as it
        was. */
    method Close(camera: Camera3D, model: Mat4, target: DrawTarget)
      requires !effect.shaderActive
      modifies this, effect
      ensures KeepsParts()
      ensures effect.State() == old(effect.State())
      ensures effect.uploads == old(effect.uploads) + BeginUploads(old(effect.State()))
      ensures events == old(events) + Closing(camera, model, target)
      ensures calls == old(calls) + ClosingCalls(camera, model)
    {
      ghost var e0, c0 := events, calls;
      Open(camera);
      ghost var e1, c1 := events, calls;
      Finish(model, target);
      AppendAssociates(e0, e1[|e0|..], events[|e1|..]);
      AppendAssociates(c0, c1[|c0|..], calls[|c1|..]);
    }

    /** Begin, then the projection and view matrices. */
    method Open(camera: Camera3D)
      modifies this, effect
      ensures KeepsParts()
      ensures effect.State() == Step(old(effect.State()), Begin)
      ensures effect.uploads == old(effect.uploads) + BeginUploads(old(effect.State()))
      ensures events == old(events) + [Invoke(Begin), Invoke(SetProjectionMatrix(camera.projection)), Invoke(SetViewMatrix(camera.view))]
      ensures calls == old(calls) + [Begin, SetProjectionMatrix(camera.projection), SetViewMatrix(camera.view)]
    {
      ghost var e0, c0 := events, calls;
      Issue(Begin);
      ghost var e1, c1 := events, calls;
      Issue(SetProjectionMatrix(camera.projection));
      ghost var e2, c2 := events, calls;
      Issue(SetViewMatrix(camera.view));
      ThreeSnocs(e0, Invoke(Begin), Invoke(SetProjectionMatrix(camera.projection)), Invoke(SetViewMatrix(camera.view)),
                 e1, e2, events);
      ThreeSnocs(c0, Begin, SetProjectionMatrix(camera.projection), SetViewMatrix(camera.view), c1, c2, calls);
    }

    /** The model matrix, the draw, end. */
    method Finish(model: Mat4, target: DrawTarget)
      modifies this, effect
      ensures KeepsParts()
      ensures effect.State() == Step(old(effect.State()), End)
      ensures effect.uploads == old(effect.uploads)
      ensures events == old(events) + [Invoke(SetModelMatrix(model)), Draw(target), Invoke(End)]
      ensures calls == old(calls) + [SetModelMatrix(model), End]
    {
      ghost var e0 := events;
      Issue(SetModelMatrix(model));
      ghost var e1 := events;
      Render(target);
      ghost var e2 := events;
      Issue(End);
      ThreeSnocs(e0, Invoke(SetModelMatrix(model)), Draw(target), Invoke(End), e1, e2, events);
    }

    /** One geometry chunk of model entity m, in its own bracket. */
    method DrawChunk(shading: LightEntity, camera: Camera3D, m: ModelEntity, chunk: GeometryChunk)
      requires Valid()
      modifies this, effect
      ensures Valid() && KeepsParts()
      ensures events == old(events) + ChunkBracket(shading, camera, m, chunk)
    {
      ghost var e0, c0, u0 := events, calls, effect.uploads;
      ghost var setup := ChunkSetup(shading, m);
      PrepareChunk(shading, m);
      Close(camera, m.transform.matrix, ChunkMesh(chunk.mesh));
      BracketParts(e0, c0, setup, camera, m.transform.matrix, ChunkMesh(chunk.mesh), events, calls);
      BracketKeepsConsistent(origin, c0, setup, camera, m.transform.matrix, u0, effect.State(), effect.uploads);
    }

    /** The setup of a chunk draw: the shading light, then the entity's
        material. */
    method PrepareChunk(shading: LightEntity, m: ModelEntity)
      modifies this, effect
      ensures KeepsParts()
      ensures effect.State() == Run(old(effect.State()), ChunkSetup(shading, m))
      ensures effect.uploads == old(effect.uploads) + Trace(old(effect.State()), ChunkSetup(shading, m))
      ensures events == old(events) + Invokes(ChunkSetup(shading, m))
      ensures calls == old(calls) + ChunkSetup(shading, m)
      ensures effect.shaderActive == old(effect.shaderActive)
    {
      ghost var s0, u0 := effect.State(), effect.uploads;
      ghost var setup := ChunkSetup(shading, m);
      Issue(SetLight(shading.transform, shading.light));
      Issue(SetMaterial(m.material));
      RunPair(s0, setup[0], setup[1]);
      assert setup == [setup[0], setup[1]];
      AppendAssociates(u0, Uploads(s0, setup[0]), Uploads(Step(s0, setup[0]), setup[1]));
    }

    /** The marker of light entity l, in its own bracket. */
    method DrawMarker(camera: Camera3D, l: LightEntity)
      requires Valid()
      modifies this, effect
      ensures Valid() && KeepsParts()
      ensures events == old(events) + MarkerBracket(camera, l)
    {
      ghost var e0, c0, u0 := events, calls, effect.uploads;
      ghost var setup := MarkerSetup(l);
      PrepareMarker(l);
      Close(camera, l.transform.matrix, MarkerBox);
      BracketParts(e0, c0, setup, camera, l.transform.matrix, MarkerBox, events, calls);
      BracketKeepsConsistent(origin, c0, setup, camera, l.transform.matrix, u0, effect.State(), effect.uploads);
    }

    /** The setup of a light marker: black solid colour, the light's colour
        as emission, transparent black diffuse-map colour. */
    method PrepareMarker(l: LightEntity)
      modifies this, effect
      ensures KeepsParts()
      ensures effect.State() == Run(old(effect.State()), MarkerSetup(l))
      ensures effect.uploads == old(effect.uploads) + Trace(old(effect.State()), MarkerSetup(l))
      ensures events == old(events) + Invokes(MarkerSetup(l))
      ensures calls == old(calls) + MarkerSetup(l)
      ensures effect.shaderActive == old(effect.shaderActive)
    {
      ghost var s0 := effect.State();
      ghost var setup := MarkerSetup(l);
      Issue(SetSolidColor3(Zero3));
      Issue(SetEmissionColor(l.light.color));
      Issue(SetDiffuseTextureColor(Zero4));
      RunTriple(s0, setup[0], setup[1], setup[2]);
      assert setup == [setup[0], setup[1], setup[2]];
    }

    /** Every geometry chunk of model entity m, in order. */
    method DrawModel(shading: LightEntity, camera: Camera3D, m: ModelEntity)
      requires Valid()
      modifies this, effect
      ensures Valid() && KeepsParts()
      ensures events == old(events) + ChunkDraws(shading, camera, m, m.chunks)
    {
      ghost var before := events;
      for j := 0 to |m.chunks|
        invariant Valid() && KeepsParts()
        invariant events == before + ChunkDraws(shading, camera, m, m.chunks[..j])
      {
        DrawChunk(shading, camera, m, m.chunks[j]);
        assert m.chunks[..j + 1][..j] == m.chunks[..j];
        AppendAssociates(before, ChunkDraws(shading, camera, m, m.chunks[..j]), ChunkBracket(shading, camera, m, m.chunks[j]));
      }
      assert m.chunks[..|m.chunks|] == m.chunks;
    }

    /** The geometry pass: every chunk of every model entity, in order. */
    method DrawGeometry(shading: LightEntity, camera: Camera3D, models: seq<ModelEntity>)
      requires Valid()
      modifies this, effect
      ensures Valid() && KeepsParts()
      ensures events == old(events) + GeometryPass(shading, camera, models)
    {
      ghost var before := events;
      for k := 0 to |models|
        invariant Valid() && KeepsParts()
        invariant events == before + GeometryPass(shading, camera, models[..k])
      {
        var m := models[k];
        DrawModel(shading, camera, m);
        assert models[..k + 1][..k] == models[..k];
        AppendAssociates(before, GeometryPass(shading, camera, models[..k]), ChunkDraws(shading, camera, m, m.chunks));
      }
      assert models[..|models|] == models;
    }

    /** The marker pass: a marker at every light, in order. */
    method DrawMarkers(camera: Camera3D, lights: seq<LightEntity>)
      requires Valid()
      modifies this, effect
      ensures Valid() && KeepsParts()
      ensures events == old(events) + MarkerPass(camera, lights)
    {
      ghost var before := events;
      for i := 0 to |lights|
        invariant Valid() && KeepsParts()
        invariant events == before + MarkerPass(camera, lights[..i])
      {
        DrawMarker(camera, lights[i]);
        assert lights[..i + 1][..i] == lights[..i];
        AppendAssociates(before, MarkerPass(camera, lights[..i]), MarkerBracket(camera, lights[i]));
      }
      assert lights[..|lights|] == lights;
    }

    /** update: resolves the camera and the shading light, draws every chunk
        of every model entity, then a marker at every light. */
    method Update(scene: Scene, ext: Externals)
      requires Valid()
      modifies this, effect
      ensures Valid() && KeepsParts()
      ensures events == old(events) + FrameEvents(scene, ext)
      ensures effect.State() == Run(old(effect.State()), Calls(FrameEvents(scene, ext)))
      ensures effect.uploads == old(effect.uploads) + Trace(old(effect.State()), Calls(FrameEvents(scene, ext)))
    {
      var view, projection := ResolveCamera(scene.cameras, ext);
      var lightTransform, light := ResolveLight(scene.lights, ext);
      var camera := Camera3D(view, projection);
      var shading := LightEntity(lightTransform, light);
      ghost var before := events;
      DrawGeometry(shading, camera, scene.models);
      DrawMarkers(camera, scene.lights);
      AppendAssociates(before, GeometryPass(shading, camera, scene.models), MarkerPass(camera, scene.lights));
      CallsConcat(before, FrameEvents(scene, ext));
      RunConcat(origin, Calls(before), Calls(FrameEvents(scene, ext)));
      TraceConcat(origin, Calls(before), Calls(FrameEvents(scene, ext)));
    }
  }

  // ---------------------------------------------------------------------
  // Sequence bookkeeping for the system's methods
  // ---------------------------------------------------------------------

  /** A slice that lies within the left operand of a concatenation. */
  lemma SliceOfAppendLeft<T>(a: seq<T>, b: seq<T>, x: nat, y: nat)
    requires x <= y <= |a|
    ensures (a + b)[x..y] == a[x..y]
  {
  }

  /** A slice that lies within the right operand of a concatenation. */
  lemma SliceOfAppendRight<T>(a: seq<T>, b: seq<T>, x: nat, y: nat)
    requires x <= y <= |b|
    ensures (a + b)[|a| + x..|a| + y] == b[x..y]
  {
  }

  /** Three single appends are one append of the three elements. */
  lemma ThreeSnocs<T>(a: seq<T>, x0: T, x1: T, x2: T, a1: seq<T>, a2: seq<T>, a3: seq<T>)
    requires a1 == a + [x0] && a2 == a1 + [x1] && a3 == a2 + [x2]
    ensures a3 == a + [x0, x1, x2]
  {
  }

  /** Two calls, one after the other. */
  lemma RunPair(s: EffectState, a: Call, b: Call)
    ensures Run(s, [a, b]) == Step(Step(s, a), b)
    ensures Trace(s, [a, b]) == Uploads(s, a) + Uploads(Step(s, a), b)
  {
    assert [a, b] == [a] + [b];
    RunOne(s, a);
    RunSnoc(s, [a], b);
  }

  /** Three calls, one after the other. */
  lemma RunTriple(s: EffectState, a: Call, b: Call, c: Call)
    ensures Run(s, [a, b, c]) == Step(Step(Step(s, a), b), c)
    ensures Trace(s, [a, b, c]) == Uploads(s, a) + Uploads(Step(s, a), b) + Uploads(Step(Step(s, a), b), c)
  {
    assert [a, b, c] == [a, b] + [c];
    RunPair(s, a, b);
    RunSnoc(s, [a, b], c);
  }

  /** The closing part of a bracket opened on an inactive program leaves the
      state as it found it and uploads what begin uploads. */
  lemma ClosingRun(s: EffectState, camera: Camera3D, model: Mat4)
    requires !s.active
    ensures Run(s, ClosingCalls(camera, model)) == s
    ensures Trace(s, ClosingCalls(camera, model)) == BeginUploads(s)
  {
    var cs := ClosingCalls(camera, model);
    var a := s.(active := true);
    assert cs == [Begin, SetProjectionMatrix(camera.projection), SetViewMatrix(camera.view)] + [SetModelMatrix(model)] + [End];
    RunTriple(s, Begin, SetProjectionMatrix(camera.projection), SetViewMatrix(camera.view));
    RunSnoc(s, [Begin, SetProjectionMatrix(camera.projection), SetViewMatrix(camera.view)], SetModelMatrix(model));
    RunSnoc(s, [Begin, SetProjectionMatrix(camera.projection), SetViewMatrix(camera.view)] + [SetModelMatrix(model)], End);
  }

  /** A whole bracket, setup and closing part, made after calls c0 that left
      the program inactive: the program is inactive again, the state is the
      one the setup produced, and the uploads are the setup's followed by
      what begin uploads. */
  lemma BracketRun(origin: EffectState, c0: seq<Call>, setup: seq<Call>, camera: Camera3D, model: Mat4)
    requires !Run(origin, c0).active
    requires forall i :: 0 <= i < |setup| ==> !setup[i].Begin? && !setup[i].End?
    ensures Run(origin, c0 + setup + ClosingCalls(camera, model)) == Run(Run(origin, c0), setup)
    ensures !Run(Run(origin, c0), setup).active
    ensures Trace(origin, c0 + setup + ClosingCalls(camera, model))
         == Trace(origin, c0) + Trace(Run(origin, c0), setup) + BeginUploads(Run(Run(origin, c0), setup))
  {
    var s0 := Run(origin, c0);
    SettersKeepActive(s0, setup);
    var s1 := Run(s0, setup);
    RunConcat(origin, c0, setup);
    TraceConcat(origin, c0, setup);
    RunConcat(origin, c0 + setup, ClosingCalls(camera, model));
    TraceConcat(origin, c0 + setup, ClosingCalls(camera, model));
    ClosingRun(s1, camera, model);
  }

  /** A bracket made by a consistent system leaves it consistent, with the
      program inactive again. */
  lemma BracketKeepsConsistent(origin: EffectState, c0: seq<Call>, setup: seq<Call>, camera: Camera3D, model: Mat4,
                               u0: seq<GlEvent>, state: EffectState, uploads: seq<GlEvent>)
    requires !Run(origin, c0).active && u0 == Trace(origin, c0)
    requires forall i :: 0 <= i < |setup| ==> !setup[i].Begin? && !setup[i].End?
    requires state == Run(Run(origin, c0), setup)
    requires uploads == u0 + Trace(Run(origin, c0), setup) + BeginUploads(state)
    ensures state == Run(origin, c0 + setup + ClosingCalls(camera, model)) && !state.active
    ensures uploads == Trace(origin, c0 + setup + ClosingCalls(camera, model))
  {
    BracketRun(origin, c0, setup, camera, model);
  }

  /** Calls other than begin and end leave the active flag alone. */
  lemma {:induction false} SettersKeepActive(s: EffectState, calls: seq<Call>)
    requires forall i :: 0 <= i < |calls| ==> !calls[i].Begin? && !calls[i].End?
    ensures Run(s, calls).active == s.active
  {
    if calls != [] {
      SettersKeepActive(s, calls[..|calls| - 1]);
      FieldsChangeOnlyByTheirSetters(Run(s, calls[..|calls| - 1]), calls[|calls| - 1]);
    }
  }

  /** A bracket recorded as its setup followed by its closing part: the
      events are the bracket's, and the calls are the bracket's calls. */
  lemma BracketParts(e0: seq<FrameEvent>, c0: seq<Call>, setup: seq<Call>, camera: Camera3D, model: Mat4,
                     target: DrawTarget, events: seq<FrameEvent>, calls: seq<Call>)
    requires events == e0 + Invokes(setup) + Closing(camera, model, target)
    requires calls == c0 + setup + ClosingCalls(camera, model)
    requires c0 == Calls(e0)
    ensures events == e0 + Bracket(setup, camera, model, target)
    ensures calls == Calls(events)
  {
    AppendAssociates(e0, Invokes(setup), Closing(camera, model, target));
    assert Bracket(setup, camera, model, target) == Invokes(setup) + Closing(camera, model, target);
    CallsConcat(e0, Invokes(setup));
    CallsConcat(e0 + Invokes(setup), Closing(camera, model, target));
    CallsOfInvokes(setup);
    ClosingFacts(camera, model, target);
  }
}
