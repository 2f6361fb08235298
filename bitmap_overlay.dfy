/**
 * BitmapOverlayVideoProcessor: the renderer that draws the external video texture on a
 * 4-vertex triangle strip through a reflected shader program, with a mirror latch, an
 * orthographic projection and overlay scale uniforms derived from the surface size.
 */
module BitmapOverlay {
  import opened Options
  import opened Transform
  import opened Gl

  /** The overlay's reference resolution. */
  const OverlayWidth: int := 512
  const OverlayHeight: int := 256

  /** How far along z the model matrix pushes the quad. */
  const ModelDepth: real := -2.0

  /** The orthographic projection: the box with x and y in [-1, 1], near plane 1 and far plane 100. */
  const Projection: Matrix := [Ortho(-1.0, 1.0, -1.0, 1.0, 1.0, 100.0)]

  const SamplerName: string := "tex_sampler_0"
  const ScaleXName: string := "scaleX"
  const ScaleYName: string := "scaleY"
  const MvpName: string := "uMvpMatrix"
  const PositionName: string := "a_position"
  const TexCoordName: string := "a_texcoord"

  /** The a_position buffer: four (x, y, z, w) corners of the clip-space square. */
  const QuadPositions: seq<real> := [
    -1.0, -1.0, 0.0, 1.0,
     1.0, -1.0, 0.0, 1.0,
    -1.0,  1.0, 0.0, 1.0,
     1.0,  1.0, 0.0, 1.0]

  /** The a_texcoord buffer: four (s, t, r) texture coordinates. */
  const QuadTexCoords: seq<real> := [
    0.0, 1.0, 1.0,
    1.0, 1.0, 1.0,
    0.0, 0.0, 1.0,
    1.0, 0.0, 1.0]

  /** The strip's vertex count, the count of the one draw call. */
  const StripVertexCount: int := 4

  // ---------------------------------------------------------------------------
  // Specification functions

  /** setSurfaceSize's scales, the output size over the reference size (exact division). */
  function SurfaceScale(width: int, height: int): (scale: (real, real))
    ensures scale.0 * OverlayWidth as real == width as real
    ensures scale.1 * OverlayHeight as real == height as real
  {
    (width as real / OverlayWidth as real, height as real / OverlayHeight as real)
  }

  /** An attribute after initialize's loop: setBuffer for the two names it knows. */
  function PreparedAttribute(a: Attribute): (prepared: Attribute) {
    if a.name == PositionName then a.(buffer := Some(QuadPositions), size := 4)
    else if a.name == TexCoordName then a.(buffer := Some(QuadTexCoords), size := 3)
    else a
  }

  /** A uniform after draw's first loop: the value its setter stores, by name. */
  function LatchedUniform(u: Uniform, frameTexture: int, scaleX: real, scaleY: real): (latched: Uniform) {
    if u.name == SamplerName then u.(texId := frameTexture, unit := 0)
    else if u.name == ScaleXName then u.(floatValue := scaleX)
    else if u.name == ScaleYName then u.(floatValue := scaleY)
    else u
  }

  /** The number of uniforms named uMvpMatrix. */
  function MvpCount(us: seq<Uniform>): (count: nat)
    decreases |us|
  {
    if us == [] then 0
    else MvpCount(us[..|us| - 1]) + (if us[|us| - 1].name == MvpName then 1 else 0)
  }

  /** `n` copies of one call. */
  function Repeat(c: GlCall, n: nat): (r: seq<GlCall>) {
    seq(n, _ => c)
  }

  /** The calls of the attribute bind loop. */
  function AttributeBinds(attrs: seq<Attribute>): (binds: seq<GlCall>)
    decreases |attrs|
  {
    if attrs == [] then []
    else AttributeBinds(attrs[..|attrs| - 1]) + [BindAttribute(attrs[|attrs| - 1])]
  }

  /** The calls of the uniform bind loop, which skips uMvpMatrix. */
  function UniformBinds(us: seq<Uniform>): (binds: seq<GlCall>)
    decreases |us|
  {
    if us == [] then []
    else UniformBinds(us[..|us| - 1])
         + (if us[|us| - 1].name == MvpName then [] else [BindUniform(us[|us| - 1])])
  }

  /** One more uniform adds one MVP upload exactly when it is uMvpMatrix. */
  lemma UploadStep(us: seq<Uniform>, i: nat, upload: GlCall)
    requires i < |us|
    ensures MvpCount(us[..i + 1]) == MvpCount(us[..i]) + (if us[i].name == MvpName then 1 else 0)
    ensures Repeat(upload, MvpCount(us[..i + 1]))
         == Repeat(upload, MvpCount(us[..i])) + (if us[i].name == MvpName then [upload] else [])
  {
    assert us[..i + 1][..i] == us[..i];
  }

  /** Everything one initialized draw issues, in order. */
  function DrawCalls(program: int, mvpLocation: int, mvp: Matrix, mvpUploads: nat,
                     attrs: seq<Attribute>, us: seq<Uniform>): (calls: seq<GlCall>)
  {
    [UseProgram(program)] + Repeat(UniformMatrix4(mvpLocation, mvp), mvpUploads)
    + AttributeBinds(attrs) + UniformBinds(us)
    + [ClearColorBuffer, DrawArrays(TriangleStrip, 0, StripVertexCount), CheckGlError]
  }


  /**
   * The draw's calls appended phase by phase, as draw issues them, are its whole call list.
   * Only sequence associativity; kept apart so that RunProgram's proof stays small.
   */
  lemma DrawCallsInOrder(before: seq<GlCall>, program: int, mvpLocation: int, mvp: Matrix, mvpUploads: nat,
                         attrs: seq<Attribute>, us: seq<Uniform>)
    ensures before + [UseProgram(program)] + Repeat(UniformMatrix4(mvpLocation, mvp), mvpUploads)
            + AttributeBinds(attrs) + UniformBinds(us)
            + [ClearColorBuffer, DrawArrays(TriangleStrip, 0, StripVertexCount), CheckGlError]
         == before + DrawCalls(program, mvpLocation, mvp, mvpUploads, attrs, us)
  {
  }

  // ---------------------------------------------------------------------------
  // The processor

  class BitmapOverlayVideoProcessor {
    const projection: Matrix
    var model: Matrix
    var mvp: Matrix
    var mirror: bool
    var wantMirror: bool
    var program: int
    var uMvpMatrix: int
    var attributes: Option<seq<Attribute>>
    var uniforms: Option<seq<Uniform>>
    var bitmapScaleX: real
    var bitmapScaleY: real
    /** The GL calls issued so far. */
    var log: seq<GlCall>

    /**
     * The applied (not the pending) mirror flag decides the model matrix, and the MVP
     * matrix is always projection * model; initialize sets both reflected lists.
     */
    ghost predicate Valid()
      reads this
    {
      && projection == Projection
      && model == ModelMatrix(mirror, ModelDepth)
      && mvp == MultiplyMM(projection, model)
      && (attributes.Some? <==> uniforms.Some?)
    }

    constructor ()
      ensures Valid()
      ensures mirror && wantMirror
      ensures attributes == None && uniforms == None && log == []
      ensures program == 0 && uMvpMatrix == 0 && bitmapScaleX == 0.0 && bitmapScaleY == 0.0
    {
      projection := Projection;
      mirror := true;
      wantMirror := true;
      model := Identity();
      mvp := Identity();
      program, uMvpMatrix := 0, 0;
      attributes, uniforms := None, None;
      bitmapScaleX, bitmapScaleY := 0.0, 0.0;
      log := [];
      new;
      // mirror starts true, so of the source's two branches only this one runs
      MakeMirrorMatrix();
    }

    /** Only records the wish; the matrices change at the next reconcile. */
    method SetMirror(value: bool)
      requires Valid()
      modifies this`wantMirror
      ensures Valid()
      ensures wantMirror == value
    {
      wantMirror := value;
    }

    method MakeMirrorMatrix()
      modifies this`model, this`mvp
      ensures model == ModelMatrix(true, ModelDepth)
      ensures mvp == MultiplyMM(projection, model)
    {
      model := Identity();
      model := TranslateM(model, 0.0, 0.0, ModelDepth);
      model := RotateM(model, 180.0, 0.0, 1.0, 0.0);
      mvp := MultiplyMM(projection, model);
    }

    method MakeNotMirrorMatrix()
      modifies this`model, this`mvp
      ensures model == ModelMatrix(false, ModelDepth)
      ensures mvp == MultiplyMM(projection, model)
    {
      model := Identity();
      model := TranslateM(model, 0.0, 0.0, ModelDepth);
      mvp := MultiplyMM(projection, model);
    }

    /**
     * Reconciles the applied flag with the wished one; a no-op when they agree, so a
     * second call changes nothing.
     */
    method UpdateMatrix()
      requires Valid()
      modifies this`mirror, this`model, this`mvp
      ensures Valid()
      ensures mirror == wantMirror
      ensures mvp == MultiplyMM(Projection, ModelMatrix(wantMirror, ModelDepth))
      ensures old(mirror) == wantMirror ==> unchanged(this)
    {
      if mirror == wantMirror {
        return;
      }
      mirror := wantMirror;
      if mirror {
        MakeMirrorMatrix();
      } else {
        MakeNotMirrorMatrix();
      }
    }

    /**
     * Loads the shaders, compiles them (a failure is logged and initialization goes
     * on with the previous program), and gives a_position and a_texcoord their
     * buffers. The reflected lists, the compiled program and the uMvpMatrix
     * location are what GlUtil and GL report.
     */
    method Initialize(assetsReadable: bool, compiledProgram: Option<int>, mvpLocation: int,
                      reflectedAttributes: seq<Attribute>, reflectedUniforms: seq<Uniform>)
      returns (outcome: InitOutcome)
      requires Valid()
      modifies this`program, this`uMvpMatrix, this`attributes, this`uniforms, this`log
      ensures Valid()
      ensures outcome == (if assetsReadable then Initialized else AssetUnreadable)
      ensures !assetsReadable ==> unchanged(this)
      ensures assetsReadable ==>
        && program == (if compiledProgram.Some? then compiledProgram.value else old(program))
        && uMvpMatrix == mvpLocation
        && uniforms == Some(reflectedUniforms)
        && attributes.Some? && |attributes.value| == |reflectedAttributes|
        && (forall i :: 0 <= i < |reflectedAttributes| ==>
              attributes.value[i] == PreparedAttribute(reflectedAttributes[i]))
        && log == old(log) + [DisableCullFace]
    {
      if !assetsReadable {
        return AssetUnreadable;
      }
      if compiledProgram.Some? {
        program := compiledProgram.value;
      }
      uMvpMatrix := mvpLocation;
      var attrs := reflectedAttributes;
      var i := 0;
      while i < |attrs|
        invariant 0 <= i <= |attrs| == |reflectedAttributes|
        invariant forall k :: 0 <= k < i ==> attrs[k] == PreparedAttribute(reflectedAttributes[k])
        invariant forall k :: i <= k < |attrs| ==> attrs[k] == reflectedAttributes[k]
      {
        if attrs[i].name == PositionName {
          attrs := attrs[i := attrs[i].(buffer := Some(QuadPositions), size := 4)];
        } else if attrs[i].name == TexCoordName {
          attrs := attrs[i := attrs[i].(buffer := Some(QuadTexCoords), size := 3)];
        }
        i := i + 1;
      }
      attributes := Some(attrs);
      uniforms := Some(reflectedUniforms);
      log := log + [DisableCullFace];
      return Initialized;
    }

    /** The surface-size scales, recomputed on every call. */
    method SetSurfaceSize(width: int, height: int)
      requires Valid()
      modifies this`bitmapScaleX, this`bitmapScaleY
      ensures Valid()
      ensures (bitmapScaleX, bitmapScaleY) == SurfaceScale(width, height)
    {
      bitmapScaleX := width as real / OverlayWidth as real;
      bitmapScaleY := height as real / OverlayHeight as real;
    }

    /**
     * The first uniform loop: stores the frame texture (unit 0) and the scales in the
     * uniforms named for them, and for each uMvpMatrix reconciles the latch and
     * uploads the MVP matrix.
     */
    method SetUniforms(frameTexture: int)
      requires Valid() && uniforms.Some?
      modifies this`mirror, this`model, this`mvp, this`uniforms, this`log
      ensures Valid() && uniforms.Some?
      ensures |uniforms.value| == |old(uniforms.value)|
      ensures forall k :: 0 <= k < |uniforms.value| ==>
        uniforms.value[k] == LatchedUniform(old(uniforms.value[k]), frameTexture, bitmapScaleX, bitmapScaleY)
      ensures mirror == if MvpCount(old(uniforms.value)) > 0 then wantMirror else old(mirror)
      ensures log == old(log) + Repeat(UniformMatrix4(uMvpMatrix, MultiplyMM(Projection, ModelMatrix(wantMirror, ModelDepth))),
                                       MvpCount(old(uniforms.value)))
    {
      ghost var us0 := uniforms.value;
      ghost var upload := UniformMatrix4(uMvpMatrix, MultiplyMM(Projection, ModelMatrix(wantMirror, ModelDepth)));
      var i := 0;
      while i < |uniforms.value|
        invariant 0 <= i <= |us0|
        invariant Valid() && uniforms.Some? && |uniforms.value| == |us0|
        invariant forall k :: 0 <= k < i ==>
          uniforms.value[k] == LatchedUniform(us0[k], frameTexture, bitmapScaleX, bitmapScaleY)
        invariant forall k :: i <= k < |us0| ==> uniforms.value[k] == us0[k]
        invariant mirror == if MvpCount(us0[..i]) > 0 then wantMirror else old(mirror)
        invariant log == old(log) + Repeat(upload, MvpCount(us0[..i]))
      {
        UploadStep(us0, i, upload);
        SetUniform(i, frameTexture);
        i := i + 1;
      }
      assert us0[..i] == us0;
    }

    /** The body of the first uniform loop, for the uniform at index i. */
    method SetUniform(i: nat, frameTexture: int)
      requires Valid() && uniforms.Some? && i < |uniforms.value|
      modifies this`mirror, this`model, this`mvp, this`uniforms, this`log
      ensures Valid() && uniforms.Some?
      ensures uniforms.value
           == old(uniforms.value)[i := LatchedUniform(old(uniforms.value[i]), frameTexture, bitmapScaleX, bitmapScaleY)]
      ensures old(uniforms.value[i]).name == MvpName ==>
        && mirror == wantMirror
        && log == old(log) + [UniformMatrix4(uMvpMatrix, MultiplyMM(Projection, ModelMatrix(wantMirror, ModelDepth)))]
      ensures old(uniforms.value[i]).name != MvpName ==> mirror == old(mirror) && log == old(log)
    {
      var u := uniforms.value[i];
      if u.name == SamplerName {
        uniforms := Some(uniforms.value[i := u.(texId := frameTexture, unit := 0)]);
      } else if u.name == ScaleXName {
        uniforms := Some(uniforms.value[i := u.(floatValue := bitmapScaleX)]);
      } else if u.name == ScaleYName {
        uniforms := Some(uniforms.value[i := u.(floatValue := bitmapScaleY)]);
      } else if u.name == MvpName {
        UpdateMatrix();
        log := log + [UniformMatrix4(uMvpMatrix, mvp)];
      }
    }

    /** The attribute bind loop. */
    method BindAttributes()
      requires attributes.Some?
      modifies this`log
      ensures log == old(log) + AttributeBinds(attributes.value)
    {
      var attrs := attributes.value;
      var i := 0;
      while i < |attrs|
        invariant 0 <= i <= |attrs|
        invariant log == old(log) + AttributeBinds(attrs[..i])
      {
        assert attrs[..i + 1][..i] == attrs[..i];
        log := log + [BindAttribute(attrs[i])];
        i := i + 1;
      }
      assert attrs[..i] == attrs;
    }

    /** The uniform bind loop; uMvpMatrix was uploaded already and is skipped. */
    method BindUniforms()
      requires uniforms.Some?
      modifies this`log
      ensures log == old(log) + UniformBinds(uniforms.value)
    {
      var us := uniforms.value;
      var i := 0;
      while i < |us|
        invariant 0 <= i <= |us|
        invariant log == old(log) + UniformBinds(us[..i])
      {
        assert us[..i + 1][..i] == us[..i];
        if us[i].name == MvpName {
          i := i + 1;
          continue;
        }
        log := log + [BindUniform(us[i])];
        i := i + 1;
      }
      assert us[..i] == us;
    }

    /**
     * Draws one frame. Before initialize the reflected lists are null and the
     * not-null checks throw before anything changes.
     */
    method Draw(frameTexture: int, frameTimestampUs: int) returns (outcome: DrawOutcome)
      requires Valid()
      modifies this`mirror, this`model, this`mvp, this`uniforms, this`log
      ensures Valid()
      ensures outcome == (if old(uniforms).Some? then Drawn else NotInitialized)
      ensures outcome == NotInitialized ==> unchanged(this)
      ensures outcome == Drawn ==>
        && uniforms.Some? && |uniforms.value| == |old(uniforms).value|
        && (forall k :: 0 <= k < |uniforms.value| ==>
              uniforms.value[k] == LatchedUniform(old(uniforms).value[k], frameTexture, bitmapScaleX, bitmapScaleY))
        && mirror == (if MvpCount(old(uniforms).value) > 0 then old(wantMirror) else old(mirror))
        && log == old(log) + DrawCalls(program, uMvpMatrix, MultiplyMM(Projection, ModelMatrix(old(wantMirror), ModelDepth)),
                                       MvpCount(old(uniforms).value), attributes.value, uniforms.value)
    {
      if uniforms.None? || attributes.None? {
        return NotInitialized;
      }
      RunProgram(frameTexture);
      return Drawn;
    }

    /** The body of draw once both lists are present: set the uniforms, bind, draw. */
    method RunProgram(frameTexture: int)
      requires Valid() && uniforms.Some? && attributes.Some?
      modifies this`mirror, this`model, this`mvp, this`uniforms, this`log
      ensures Valid()
      ensures uniforms.Some? && |uniforms.value| == |old(uniforms).value|
      ensures forall k :: 0 <= k < |uniforms.value| ==>
        uniforms.value[k] == LatchedUniform(old(uniforms).value[k], frameTexture, bitmapScaleX, bitmapScaleY)
      ensures mirror == (if MvpCount(old(uniforms).value) > 0 then old(wantMirror) else old(mirror))
      ensures log == old(log) + DrawCalls(program, uMvpMatrix, MultiplyMM(Projection, ModelMatrix(old(wantMirror), ModelDepth)),
                                          MvpCount(old(uniforms).value), attributes.value, uniforms.value)
    {
      ghost var mvpAfter := MultiplyMM(Projection, ModelMatrix(wantMirror, ModelDepth));
      ghost var uploads := MvpCount(uniforms.value);
      log := log + [UseProgram(program)];
      ghost var used := log;
      SetUniforms(frameTexture);
      assert log == used + Repeat(UniformMatrix4(uMvpMatrix, mvpAfter), uploads);
      BindAttributes();
      BindUniforms();
      log := log + [ClearColorBuffer, DrawArrays(TriangleStrip, 0, StripVertexCount), CheckGlError];
      DrawCallsInOrder(old(log), program, uMvpMatrix, mvpAfter, uploads, attributes.value, uniforms.value);
    }
  }

  // ---------------------------------------------------------------------------
  // Properties

  /** The latch is reconciled in a draw iff some uniform is named uMvpMatrix. */
  lemma {:induction false} MvpCountZero(us: seq<Uniform>)
    ensures MvpCount(us) == 0 <==> forall k :: 0 <= k < |us| ==> us[k].name != MvpName
    decreases |us|
  {
    if us != [] {
      var init := us[..|us| - 1];
      MvpCountZero(init);
      assert forall k :: 0 <= k < |init| ==> init[k] == us[k];
    }
  }

  /** The attribute loop binds every attribute once, in order. */
  lemma {:induction false} AttributeBindsAll(attrs: seq<Attribute>)
    ensures |AttributeBinds(attrs)| == |attrs|
    ensures forall k :: 0 <= k < |attrs| ==> AttributeBinds(attrs)[k] == BindAttribute(attrs[k])
    decreases |attrs|
  {
    if attrs != [] {
      AttributeBindsAll(attrs[..|attrs| - 1]);
    }
  }

  /**
   * The uniform bind loop binds only uniforms of the list, never uMvpMatrix, and
   * one call for each of the others.
   */
  lemma {:induction false} UniformBindsSkipMvp(us: seq<Uniform>)
    ensures |UniformBinds(us)| + MvpCount(us) == |us|
    ensures forall c :: c in UniformBinds(us) ==>
      c.BindUniform? && c.uniform in us && c.uniform.name != MvpName
    decreases |us|
  {
    if us != [] {
      var init := us[..|us| - 1];
      UniformBindsSkipMvp(init);
      assert forall u :: u in init ==> u in us;
    }
  }

  /** Every uniform other than uMvpMatrix is bound. */
  lemma {:induction false} UniformBindsCover(us: seq<Uniform>, k: nat)
    requires k < |us| && us[k].name != MvpName
    ensures BindUniform(us[k]) in UniformBinds(us)
    decreases |us|
  {
    if k < |us| - 1 {
      var init := us[..|us| - 1];
      assert init[k] == us[k];
      UniformBindsCover(init, k);
    }
  }

  /**
   * One initialized draw issues exactly one draw call, a 4-vertex triangle strip, as
   * the second-to-last call, after every bind and before the error check.
   */
  lemma DrawCallsDrawOnce(program: int, mvpLocation: int, mvp: Matrix, mvpUploads: nat,
                          attrs: seq<Attribute>, us: seq<Uniform>)
    ensures var calls := DrawCalls(program, mvpLocation, mvp, mvpUploads, attrs, us);
      && DrawCallCount(calls) == 1
      && calls[0] == UseProgram(program)
      && calls[|calls| - 2] == DrawArrays(TriangleStrip, 0, 4)
      && calls[|calls| - 1] == CheckGlError
  {
    var head := [UseProgram(program)] + Repeat(UniformMatrix4(mvpLocation, mvp), mvpUploads)
                + AttributeBinds(attrs) + UniformBinds(us);
    var tail := [ClearColorBuffer, DrawArrays(TriangleStrip, 0, StripVertexCount), CheckGlError];
    AttributeBindsAll(attrs);
    UniformBindsSkipMvp(us);
    assert forall c :: c in AttributeBinds(attrs) ==> c.BindAttribute? by {
      forall c | c in AttributeBinds(attrs) ensures c.BindAttribute? {
        var k :| 0 <= k < |AttributeBinds(attrs)| && AttributeBinds(attrs)[k] == c;
      }
    }
    NoDrawCalls(head);
    DrawCallCountAppend(head, tail);
    var clear: seq<GlCall> := [ClearColorBuffer];
    assert tail[..2] == clear + [DrawArrays(TriangleStrip, 0, StripVertexCount)];
    assert clear[..0] == [] && tail[..2][..1] == clear && tail[..3][..2] == tail[..2];
    assert DrawCallCount(clear) == 0;
    assert DrawCallCount(tail[..2]) == 1;
  }

  /** setSurfaceSize(1024, 512) on the 512x256 reference gives scales of 2. */
  lemma SurfaceScaleDoubled()
    ensures SurfaceScale(1024, 512) == (2.0, 2.0)
  {
  }

  /** Both initialized buffers hold exactly four vertices of their component count. */
  lemma QuadBuffersHoldFourVertices()
    ensures |QuadPositions| == 4 * StripVertexCount && |QuadTexCoords| == 3 * StripVertexCount
    ensures forall k :: 0 <= k < StripVertexCount ==> QuadPositions[4 * k + 2] == 0.0 && QuadPositions[4 * k + 3] == 1.0
  {
  }

  /**
   * On screen the mirror is horizontal: for every point of the quad's plane (z = 0),
   * the mirrored MVP matrix gives the unmirrored clip position with x negated.
   */
  lemma MirrorFlipsClipX(v: Vec4)
    requires v.z == 0.0
    ensures var mirrored := Apply(MultiplyMM(Projection, ModelMatrix(true, ModelDepth)), v);
            var plain := Apply(MultiplyMM(Projection, ModelMatrix(false, ModelDepth)), v);
            mirrored.Some? && plain.Some? && mirrored.value == plain.value.(x := -plain.value.x)
  {
    var p := Vec4(v.x, v.y, v.z + ModelDepth * v.w, v.w);
    var m := Vec4(-v.x, v.y, -v.z + ModelDepth * v.w, v.w);
    ModelMatrixMoves(true, ModelDepth, v);
    ModelMatrixMoves(false, ModelDepth, v);
    MultiplyMMApplies(Projection, ModelMatrix(true, ModelDepth), v);
    MultiplyMMApplies(Projection, ModelMatrix(false, ModelDepth), v);
    assert m == p.(x := -p.x);
    assert Projection[1..] == [];
    assert Apply(Projection, m) == ApplyFactor(Projection[0], m);
    assert Apply(Projection, p) == ApplyFactor(Projection[0], p);
    OrthoOddInX(-1.0, 1.0, -1.0, 1.0, 1.0, 100.0, p);
  }
}
