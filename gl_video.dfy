/**
 * GLVideoProcessor: the renderer that uploads a fixed quad, its texture coordinates
 * and a triangle index list to GL buffer objects once, then draws the external video
 * texture with an indexed draw each frame, through a perspective projection and the
 * same mirror latch as the overlay processor.
 */
module GLVideo {
  import opened Options
  import opened Transform
  import opened Gl

  /** How far along z the model matrix pushes the quad. */
  const ModelDepth: real := -1.0

  /** The perspective projection: a 90-degree field of view, aspect 1, near plane 1 and far plane 100. */
  const Projection: Matrix := [Perspective(90.0, 1.0, 1.0, 100.0)]

  /** Four (x, y, z, w) vertices; vertices 0 and 3 sit at z = -1, the others at 0. */
  const Vertexs: seq<real> := [
    -1.0, -1.0, -1.0, 1.0,
     1.0, -1.0,  0.0, 1.0,
    -1.0,  1.0,  0.0, 1.0,
     1.0,  1.0, -1.0, 1.0]

  /** Four (s, t) texture coordinates. */
  const TexCoords: seq<real> := [
    0.0, 1.0,
    1.0, 1.0,
    0.0, 0.0,
    1.0, 0.0]

  /** Two triangles over the four vertices. */
  const Index: seq<Short> := [
    0, 1, 2,
    1, 3, 2]

  const VertexCount: nat := 4
  /** The count draw passes to glDrawElements. */
  const DrawIndexCount: int := 6

  /** The buffer sizes initialize passes to glBufferData. */
  const VertexsBytes: int := ByteSize(|Vertexs|, FloatBytes)
  const TexCoordsBytes: int := ByteSize(|TexCoords|, FloatBytes)
  const IndexBytes: int := ByteSize(|Index|, ShortBytes)

  /** Vertex k of the quad as a point. */
  function VertexAt(k: nat): (vertex: Vec4)
    requires k < VertexCount
  {
    Vec4(Vertexs[4 * k], Vertexs[4 * k + 1], Vertexs[4 * k + 2], Vertexs[4 * k + 3])
  }

  // ---------------------------------------------------------------------------
  // java.nio short buffers, as createShortBuffer uses them

  /** A direct ShortBuffer: a backing store with a position and a limit. */
  class ShortBuffer {
    const data: array<Short>
    var position: nat
    var limit: nat

    ghost predicate Valid()
      reads this
    {
      position <= limit <= data.Length
    }

    /** The elements a reader of the buffer sees: those from position to limit. */
    function Remaining(): (rest: seq<Short>)
      requires Valid()
      reads this, data
    {
      data[position..limit]
    }

    /** ByteBuffer.allocateDirect(byteCount).asShortBuffer(): zeroed, empty position, full limit. */
    constructor AllocateDirect(byteCount: nat)
      ensures Valid() && fresh(data)
      ensures data.Length == byteCount / ShortBytes
      ensures position == 0 && limit == data.Length
      ensures forall k :: 0 <= k < data.Length ==> data[k] == 0
    {
      data := new Short[byteCount / ShortBytes](_ => 0);
      position := 0;
      limit := byteCount / ShortBytes;
    }

    /**
     * put(short[]): copies src at the position and advances it; when src is longer
     * than what remains, throws BufferOverflowException and changes nothing.
     */
    method Put(src: seq<Short>) returns (overflow: bool)
      requires Valid()
      modifies this`position, data
      ensures Valid() && limit == old(limit)
      ensures overflow == (|src| > old(limit) - old(position))
      ensures overflow ==> position == old(position) && data[..] == old(data[..])
      ensures !overflow ==>
        && position == old(position) + |src|
        && data[..] == old(data[..])[..old(position)] + src + old(data[..])[old(position) + |src|..]
    {
      if |src| > limit - position {
        return true;
      }
      var i := 0;
      while i < |src|
        invariant 0 <= i <= |src|
        invariant position == old(position)
        invariant forall k :: 0 <= k < data.Length ==>
          data[k] == if position <= k < position + i then src[k - position] else old(data[k])
      {
        data[position + i] := src[i];
        i := i + 1;
      }
      ghost var was := old(data[..]);
      assert data[..] == was[..position] + src + was[position + |src|..] by {
        assert forall k :: 0 <= k < data.Length ==> data[..][k] == (was[..position] + src + was[position + |src|..])[k];
      }
      position := position + |src|;
      return false;
    }

    /** flip(): the limit becomes the position and the position returns to 0. */
    method Flip()
      requires Valid()
      modifies this`position, this`limit
      ensures Valid()
      ensures limit == old(position) && position == 0
    {
      limit := position;
      position := 0;
    }
  }

  /** createShortBuffer: a fresh buffer whose readable contents are exactly `d`. */
  method CreateShortBuffer(d: seq<Short>) returns (b: ShortBuffer)
    ensures fresh(b) && fresh(b.data) && b.Valid()
    ensures b.data.Length == |d| && b.position == 0 && b.limit == |d|
    ensures b.Remaining() == d
  {
    b := new ShortBuffer.AllocateDirect(ByteSize(|d|, ShortBytes));
    var overflow := b.Put(d);
    b.Flip();
    assert b.data[..] == d;
    assert b.data[..] == b.data[0..b.limit];
  }

  // ---------------------------------------------------------------------------
  // Specification functions

  /** The calls initialize issues, given the program and the three generated buffer ids. */
  function InitCalls(program: int, vertexsId: int, texCoordsId: int, indexId: int): (calls: seq<GlCall>) {
    [ GenBuffers(1), BindBuffer(ArrayBuffer, vertexsId),
      BufferData(ArrayBuffer, VertexsBytes, FloatPayload(Vertexs)),
      GenBuffers(1), BindBuffer(ArrayBuffer, texCoordsId),
      BufferData(ArrayBuffer, TexCoordsBytes, FloatPayload(TexCoords)),
      GenBuffers(1), BindBuffer(ElementArrayBuffer, indexId),
      BufferData(ElementArrayBuffer, IndexBytes, ShortPayload(Index)),
      EnableVertexAttribArray(0), EnableVertexAttribArray(1),
      BindAttribLocation(program, 0, "a_position"), BindAttribLocation(program, 1, "a_texcoord"),
      DisableCullFace, ActiveTexture0, UseProgram(program) ]
  }

  /**
   * Initialize's calls appended buffer by buffer, as it issues them, are its whole call list.
   * Only sequence associativity; kept apart so that Initialize's proof stays small.
   */
  lemma InitCallsInOrder(before: seq<GlCall>, program: int, vertexsId: int, texCoordsId: int, indexId: int)
    ensures before
            + [GenBuffers(1), BindBuffer(ArrayBuffer, vertexsId),
               BufferData(ArrayBuffer, |Vertexs| * FloatBytes, FloatPayload(Vertexs))]
            + [GenBuffers(1), BindBuffer(ArrayBuffer, texCoordsId),
               BufferData(ArrayBuffer, |TexCoords| * FloatBytes, FloatPayload(TexCoords))]
            + [GenBuffers(1), BindBuffer(ElementArrayBuffer, indexId),
               BufferData(ElementArrayBuffer, |Index| * ShortBytes, ShortPayload(Index))]
            + [EnableVertexAttribArray(0), EnableVertexAttribArray(1),
               BindAttribLocation(program, 0, "a_position"), BindAttribLocation(program, 1, "a_texcoord"),
               DisableCullFace, ActiveTexture0, UseProgram(program)]
         == before + InitCalls(program, vertexsId, texCoordsId, indexId)
  {
  }

  /** The calls one draw issues after reconciling the latch. */
  function DrawCalls(mvpLocation: int, mvp: Matrix, samplerLocation: int, frameTexture: int,
                     vertexsId: int, texCoordsId: int, indexId: int): (calls: seq<GlCall>) {
    [ UniformMatrix4(mvpLocation, mvp), BindExternalTexture(frameTexture),
      Uniform1i(samplerLocation, 0), ClearColorBuffer,
      BindBuffer(ArrayBuffer, vertexsId), VertexAttribPointer(0, 4, FloatComponent, false, 0, 0),
      BindBuffer(ArrayBuffer, texCoordsId), VertexAttribPointer(1, 2, FloatComponent, false, 0, 0),
      BindBuffer(ElementArrayBuffer, indexId),
      DrawElements(Triangles, DrawIndexCount, UnsignedShortComponent, 0),
      CheckGlError ]
  }

  // ---------------------------------------------------------------------------
  // The processor

  class GLVideoProcessor {
    const projection: Matrix
    var model: Matrix
    var mvp: Matrix
    var mirror: bool
    var wantMirror: bool
    /** One-element arrays that glGenBuffers fills with a buffer id. */
    const vertexsBuffer: array<int>
    const texCoordsBuffer: array<int>
    const indexBuffer: array<int>
    var program: int
    var uMvpMatrix: int
    var uTexSampler0: int
    /** The GL calls issued so far. */
    var log: seq<GlCall>

    ghost predicate Valid()
      reads this
    {
      && projection == Projection
      && model == ModelMatrix(mirror, ModelDepth)
      && mvp == MultiplyMM(projection, model)
      && vertexsBuffer.Length == 1 && texCoordsBuffer.Length == 1 && indexBuffer.Length == 1
      && vertexsBuffer != texCoordsBuffer && vertexsBuffer != indexBuffer && texCoordsBuffer != indexBuffer
    }

    constructor ()
      ensures Valid()
      ensures mirror && wantMirror && log == []
      ensures fresh(vertexsBuffer) && fresh(texCoordsBuffer) && fresh(indexBuffer)
      ensures vertexsBuffer[0] == 0 && texCoordsBuffer[0] == 0 && indexBuffer[0] == 0
      ensures program == 0 && uMvpMatrix == 0 && uTexSampler0 == 0
    {
      projection := Projection;
      mirror := true;
      wantMirror := true;
      model := Identity();
      mvp := Identity();
      vertexsBuffer := new int[1](_ => 0);
      texCoordsBuffer := new int[1](_ => 0);
      indexBuffer := new int[1](_ => 0);
      program, uMvpMatrix, uTexSampler0 := 0, 0, 0;
      log := [];
      new;
      // mirror starts true, so of the source's two branches only this one runs
      MakeMirrorMatrix();
    }

    /** Only records the wish; the matrices change at the next draw. */
    method SetMirror(value: bool)
      requires Valid()
      modifies this`wantMirror
      ensures Valid()
      ensures wantMirror == value
    {
      wantMirror := value;
    }

    method MakeMirrorMatrix()
      modifies this`model, this`mvp
      ensures model == ModelMatrix(true, ModelDepth)
      ensures mvp == MultiplyMM(projection, model)
    {
      model := Identity();
      model := TranslateM(model, 0.0, 0.0, ModelDepth);
      model := RotateM(model, 180.0, 0.0, 1.0, 0.0);
      mvp := MultiplyMM(projection, model);
    }

    method MakeNotMirrorMatrix()
      modifies this`model, this`mvp
      ensures model == ModelMatrix(false, ModelDepth)
      ensures mvp == MultiplyMM(projection, model)
    {
      model := Identity();
      model := TranslateM(model, 0.0, 0.0, ModelDepth);
      mvp := MultiplyMM(projection, model);
    }

    /** Reconciles the applied flag with the wished one; a no-op when they agree. */
    method UpdateMatrix()
      requires Valid()
      modifies this`mirror, this`model, this`mvp
      ensures Valid()
      ensures mirror == wantMirror
      ensures mvp == MultiplyMM(Projection, ModelMatrix(wantMirror, ModelDepth))
      ensures old(mirror) == wantMirror ==> unchanged(this)
    {
      if mirror == wantMirror {
        return;
      }
      mirror := wantMirror;
      if mirror {
        MakeMirrorMatrix();
      } else {
        MakeNotMirrorMatrix();
      }
    }

    /**
     * Loads and compiles the shaders (a compile failure is logged and initialization
     * goes on with the previous program), looks up the two uniforms, uploads the
     * three buffers, and fixes the attribute locations 0 and 1. The compiled
     * program, the uniform locations and the generated buffer ids are what GL reports.
     */
    method Initialize(assetsReadable: bool, compiledProgram: Option<int>,
                      mvpLocation: int, samplerLocation: int,
                      vertexsId: int, texCoordsId: int, indexId: int)
      returns (outcome: InitOutcome)
      requires Valid()
      modifies this`program, this`uMvpMatrix, this`uTexSampler0, this`log
      modifies vertexsBuffer, texCoordsBuffer, indexBuffer
      ensures Valid()
      ensures outcome == (if assetsReadable then Initialized else AssetUnreadable)
      ensures !assetsReadable ==>
        unchanged(this) && unchanged(vertexsBuffer) && unchanged(texCoordsBuffer) && unchanged(indexBuffer)
      ensures assetsReadable ==>
        && program == (if compiledProgram.Some? then compiledProgram.value else old(program))
        && uMvpMatrix == mvpLocation && uTexSampler0 == samplerLocation
        && vertexsBuffer[0] == vertexsId && texCoordsBuffer[0] == texCoordsId && indexBuffer[0] == indexId
        && log == old(log) + InitCalls(program, vertexsId, texCoordsId, indexId)
    {
      if !assetsReadable {
        return AssetUnreadable;
      }
      if compiledProgram.Some? {
        program := compiledProgram.value;
      }
      uMvpMatrix := mvpLocation;
      uTexSampler0 := samplerLocation;
      var indices := CreateShortBuffer(Index);
      var indexPayload := indices.Remaining();

      vertexsBuffer[0] := vertexsId;
      texCoordsBuffer[0] := texCoordsId;
      indexBuffer[0] := indexId;
      // each buffer: glGenBuffers fills the id, then bind and upload
      var vertexsUpload := [GenBuffers(1), BindBuffer(ArrayBuffer, vertexsBuffer[0]),
                            BufferData(ArrayBuffer, |Vertexs| * FloatBytes, FloatPayload(Vertexs))];
      var texCoordsUpload := [GenBuffers(1), BindBuffer(ArrayBuffer, texCoordsBuffer[0]),
                              BufferData(ArrayBuffer, |TexCoords| * FloatBytes, FloatPayload(TexCoords))];
      var indexUpload := [GenBuffers(1), BindBuffer(ElementArrayBuffer, indexBuffer[0]),
                          BufferData(ElementArrayBuffer, |Index| * ShortBytes, ShortPayload(indexPayload))];
      var bindings := [EnableVertexAttribArray(0), EnableVertexAttribArray(1),
                       BindAttribLocation(program, 0, "a_position"), BindAttribLocation(program, 1, "a_texcoord"),
                       DisableCullFace, ActiveTexture0, UseProgram(program)];
      log := log + vertexsUpload + texCoordsUpload + indexUpload + bindings;
      InitCallsInOrder(old(log), program, vertexsId, texCoordsId, indexId);
      return Initialized;
    }

    /** There is no surface-dependent state: a no-op. */
    method SetSurfaceSize(width: int, height: int)
      ensures unchanged(this)
    {
    }

    /**
     * Draws one frame: reconciles the latch first, uploads the MVP matrix, binds the
     * frame texture at unit 0, binds the three buffers and draws the six indices.
     * Every exception inside is caught and logged, so draw always returns.
     */
    method Draw(frameTexture: int, frameTimestampUs: int)
      requires Valid()
      modifies this`mirror, this`model, this`mvp, this`log
      ensures Valid()
      ensures mirror == old(wantMirror)
      ensures log == old(log) + DrawCalls(uMvpMatrix, MultiplyMM(Projection, ModelMatrix(old(wantMirror), ModelDepth)),
                                          uTexSampler0, frameTexture,
                                          vertexsBuffer[0], texCoordsBuffer[0], indexBuffer[0])
    {
      UpdateMatrix();
      log := log + [UniformMatrix4(uMvpMatrix, mvp)];
      log := log + [BindExternalTexture(frameTexture), Uniform1i(uTexSampler0, 0), ClearColorBuffer];
      log := log + [BindBuffer(ArrayBuffer, vertexsBuffer[0]), VertexAttribPointer(0, 4, FloatComponent, false, 0, 0)];
      log := log + [BindBuffer(ArrayBuffer, texCoordsBuffer[0]), VertexAttribPointer(1, 2, FloatComponent, false, 0, 0)];
      log := log + [BindBuffer(ElementArrayBuffer, indexBuffer[0]),
                    DrawElements(Triangles, 6, UnsignedShortComponent, 0), CheckGlError];
    }
  }

  // ---------------------------------------------------------------------------
  // Properties

  /** The quad: 16 floats, 4 components per vertex, w = 1, z = -1 exactly at vertices 0 and 3. */
  lemma QuadShape()
    ensures |Vertexs| == 4 * VertexCount && |TexCoords| == 2 * VertexCount
    ensures forall k :: 0 <= k < VertexCount ==> VertexAt(k).w == 1.0
    ensures VertexAt(0).z == -1.0 && VertexAt(3).z == -1.0
    ensures VertexAt(1).z == 0.0 && VertexAt(2).z == 0.0
  {
  }

  /** The index list: whole triangles, every entry a vertex, and it is what draw counts. */
  lemma IndexShape()
    ensures |Index| == DrawIndexCount && |Index| % 3 == 0
    ensures forall k :: 0 <= k < |Index| ==> 0 <= Index[k] < VertexCount
  {
  }

  /** The upload sizes are length times element size, 16x4, 8x4 and 6x2 bytes. */
  lemma UploadSizes()
    ensures VertexsBytes == 64 && TexCoordsBytes == 32 && IndexBytes == 12
    ensures VertexsBytes / FloatBytes == |Vertexs| && IndexBytes / ShortBytes == |Index|
  {
  }

  /** One draw issues exactly one draw call, which uses every index, after the MVP upload and sampler unit 0. */
  lemma DrawCallsShape(mvpLocation: int, mvp: Matrix, samplerLocation: int, frameTexture: int,
                       vertexsId: int, texCoordsId: int, indexId: int)
    ensures var calls := DrawCalls(mvpLocation, mvp, samplerLocation, frameTexture, vertexsId, texCoordsId, indexId);
      && DrawCallCount(calls) == 1
      && calls[0] == UniformMatrix4(mvpLocation, mvp)
      && calls[2] == Uniform1i(samplerLocation, 0)
      && calls[9] == DrawElements(Triangles, |Index|, UnsignedShortComponent, 0)
  {
    var calls := DrawCalls(mvpLocation, mvp, samplerLocation, frameTexture, vertexsId, texCoordsId, indexId);
    NoDrawCalls(calls[..9]);
    assert calls[..10] == calls[..9] + [calls[9]];
    DrawCallCountAppend(calls[..9], [calls[9]]);
    assert calls[..10] + [calls[10]] == calls;
    DrawCallCountAppend(calls[..10], [calls[10]]);
  }

  /**
   * With the perspective projection, the mirror is horizontal on the vertices in the
   * z = 0 plane, while the mirrored vertices 0 and 3 (z = -1) land on the eye plane,
   * where the clip w coordinate is 0; unmirrored they have w = 2.
   */
  lemma MirrorOnQuadVertices()
    ensures forall k :: 0 <= k < VertexCount && VertexAt(k).z == 0.0 ==>
      var mirrored := Apply(MultiplyMM(Projection, ModelMatrix(true, ModelDepth)), VertexAt(k));
      var plain := Apply(MultiplyMM(Projection, ModelMatrix(false, ModelDepth)), VertexAt(k));
      mirrored.Some? && plain.Some? && mirrored.value == plain.value.(x := -plain.value.x)
    ensures var r := Apply(MultiplyMM(Projection, ModelMatrix(true, ModelDepth)), VertexAt(0)); r.Some? && r.value.w == 0.0
    ensures var r := Apply(MultiplyMM(Projection, ModelMatrix(true, ModelDepth)), VertexAt(3)); r.Some? && r.value.w == 0.0
    ensures var r := Apply(MultiplyMM(Projection, ModelMatrix(false, ModelDepth)), VertexAt(0)); r.Some? && r.value.w == 2.0
    ensures var r := Apply(MultiplyMM(Projection, ModelMatrix(false, ModelDepth)), VertexAt(3)); r.Some? && r.value.w == 2.0
  {
    forall k | 0 <= k < VertexCount && VertexAt(k).z == 0.0
      ensures var mirrored := Apply(MultiplyMM(Projection, ModelMatrix(true, ModelDepth)), VertexAt(k));
              var plain := Apply(MultiplyMM(Projection, ModelMatrix(false, ModelDepth)), VertexAt(k));
              mirrored.Some? && plain.Some? && mirrored.value == plain.value.(x := -plain.value.x)
    {
      PerspectiveClip(VertexAt(k));
    }
    PerspectiveClip(VertexAt(0));
    PerspectiveClip(VertexAt(3));
  }

  /**
   * The clip position of a point under both MVP matrices of this processor: x is
   * negated by the mirror, clip w is the distance in front of the eye, and points in
   * the z = 0 plane get the same depth either way.
   */
  lemma PerspectiveClip(v: Vec4)
    ensures var mirrored := Apply(MultiplyMM(Projection, ModelMatrix(true, ModelDepth)), v);
            var plain := Apply(MultiplyMM(Projection, ModelMatrix(false, ModelDepth)), v);
      && mirrored.Some? && plain.Some?
      && mirrored.value.x == -v.x && plain.value.x == v.x
      && mirrored.value.y == v.y && plain.value.y == v.y
      && mirrored.value.w == v.z + v.w && plain.value.w == v.w - v.z
      && (v.z == 0.0 ==> mirrored.value.z == plain.value.z)
  {
    var p := Projection[0];
    assert Projection[1..] == [];
    var m := Vec4(-v.x, v.y, -v.z + ModelDepth * v.w, v.w);
    var q := Vec4(v.x, v.y, v.z + ModelDepth * v.w, v.w);
    ModelMatrixMoves(true, ModelDepth, v);
    ModelMatrixMoves(false, ModelDepth, v);
    MultiplyMMApplies(Projection, ModelMatrix(true, ModelDepth), v);
    MultiplyMMApplies(Projection, ModelMatrix(false, ModelDepth), v);
    assert Apply(Projection, m) == ApplyFactor(p, m);
    assert Apply(Projection, q) == ApplyFactor(p, q);
    if v.z == 0.0 {
      assert m.z == q.z;
    }
  }
}
