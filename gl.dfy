/**
 * The GL side of both video processors, as data: the attribute and uniform records
 * GlUtil reflects from a linked program, and the GL calls a processor issues, which
 * the processors append to a log in the order they make them. Nothing here runs GL.
 */
module Gl {
  import opened Options
  import opened Transform

  /** A 16-bit signed Java short. */
  type Short = x: int | -0x8000 <= x < 0x8000

  /** Float.BYTES and Short.BYTES. */
  const FloatBytes: nat := 4
  const ShortBytes: nat := 2

  /** The size in bytes of an upload of `length` elements of `elementBytes` each. */
  function ByteSize(length: nat, elementBytes: nat): (size: nat) { length * elementBytes }

  /**
   * An active vertex attribute of a linked program (GlUtil.Attribute): its name and
   * location as reflected, and the client-side buffer and component count that
   * setBuffer stores for bind to use (none until setBuffer is called).
   */
  datatype Attribute = Attribute(name: string, location: int, buffer: Option<seq<real>>, size: int)

  /**
   * An active uniform of a linked program (GlUtil.Uniform): its name, location and
   * GL type as reflected, and the values the setters store for bind to upload.
   */
  datatype Uniform = Uniform(name: string, location: int, glType: int,
                             floatValue: real, texId: int, unit: int)

  datatype Primitive = TriangleStrip | Triangles
  datatype BufferTarget = ArrayBuffer | ElementArrayBuffer
  datatype ComponentType = FloatComponent | UnsignedShortComponent
  datatype Payload = FloatPayload(floats: seq<real>) | ShortPayload(shorts: seq<Short>)

  /** How a processor's initialize ends: the shader assets could not be read (thrown). */
  datatype InitOutcome = Initialized | AssetUnreadable

  /** How a processor's draw ends: before initialize it throws on the not-null checks. */
  datatype DrawOutcome = Drawn | NotInitialized

  /** One GL call, with the arguments that matter to the model. */
  datatype GlCall =
    | UseProgram(program: int)
    | UniformMatrix4(location: int, matrix: Matrix)
    | Uniform1i(location: int, value: int)
    | BindAttribute(attribute: Attribute)
    | BindUniform(uniform: Uniform)
    | ClearColorBuffer
    | DrawArrays(mode: Primitive, first: int, count: int)
    | DrawElements(mode: Primitive, count: int, indexType: ComponentType, offset: int)
    | CheckGlError
    | DisableCullFace
    | GenBuffers(count: int)
    | BindBuffer(target: BufferTarget, buffer: int)
    | BufferData(target: BufferTarget, sizeBytes: int, data: Payload)
    | VertexAttribPointer(index: int, size: int, componentType: ComponentType, normalized: bool, stride: int, offset: int)
    | EnableVertexAttribArray(index: int)
    | BindAttribLocation(program: int, index: int, name: string)
    | ActiveTexture0
    | BindExternalTexture(texture: int)

  /** The number of draw calls in a sequence of GL calls. */
  function DrawCallCount(calls: seq<GlCall>): (count: nat)
    decreases |calls|
  {
    if calls == [] then 0
    else DrawCallCount(calls[..|calls| - 1])
         + (if calls[|calls| - 1].DrawArrays? || calls[|calls| - 1].DrawElements? then 1 else 0)
  }

  /** Appending calls adds their draw calls. */
  lemma {:induction false} DrawCallCountAppend(a: seq<GlCall>, b: seq<GlCall>)
    ensures DrawCallCount(a + b) == DrawCallCount(a) + DrawCallCount(b)
    decreases |b|
  {
    if b != [] {
      assert (a + b)[..|a + b| - 1] == a + b[..|b| - 1];
      DrawCallCountAppend(a, b[..|b| - 1]);
    } else {
      assert a + b == a;
    }
  }

  /** A sequence without draw calls contributes none. */
  lemma {:induction false} NoDrawCalls(calls: seq<GlCall>)
    requires forall c :: c in calls ==> !c.DrawArrays? && !c.DrawElements?
    ensures DrawCallCount(calls) == 0
    decreases |calls|
  {
    if calls != [] {
      NoDrawCalls(calls[..|calls| - 1]);
    }
  }
}
