/**
 * How the two processors' quads compare. The overlay processor draws a 4-vertex
 * triangle strip, the GL video processor a 6-entry triangle list over buffer objects.
 * Both name the same two triangles over the same vertex numbers, each counter-clockwise
 * in x and y on its own vertex table, and the two tables agree in x, y, s and t. They
 * differ in z and in the projection (orthographic at depth -2 against perspective at
 * depth -1), so the quads do not reach the same screen positions.
 */
module QuadAgreement {
  import opened Gl
  import BitmapOverlay
  import GLVideo

  /** A triangle by its three vertex numbers, in drawing order. */
  datatype Triangle = Triangle(a: int, b: int, c: int)

  /**
   * The triangles GL_TRIANGLE_STRIP forms from n vertices: triangle k uses vertices
   * k, k+1, k+2, with the first two swapped on odd k so that all keep one winding.
   */
  function StripTriangles(n: nat): (triangles: seq<Triangle>) {
    seq(if n < 3 then 0 else n - 2, k => if k % 2 == 0 then Triangle(k, k + 1, k + 2) else Triangle(k + 1, k, k + 2))
  }

  /** The triangles GL_TRIANGLES forms from an index list: consecutive triples. */
  function ListTriangles(index: seq<Short>): (triangles: seq<Triangle>) {
    seq(|index| / 3, k requires 0 <= k < |index| / 3 => Triangle(index[3 * k], index[3 * k + 1], index[3 * k + 2]))
  }

  /** The same triangle with the same winding: one is a rotation of the other. */
  predicate SameTriangle(s: Triangle, t: Triangle) {
    t == s || t == Triangle(s.b, s.c, s.a) || t == Triangle(s.c, s.a, s.b)
  }

  /** Twice the signed area of a triangle of 4-component vertices, from their x and y; positive when counter-clockwise. */
  function SignedArea2(vertexs: seq<real>, t: Triangle): (area: real)
    requires 0 <= t.a && 0 <= t.b && 0 <= t.c
    requires 4 * t.a + 1 < |vertexs| && 4 * t.b + 1 < |vertexs| && 4 * t.c + 1 < |vertexs|
  {
    (vertexs[4 * t.b] - vertexs[4 * t.a]) * (vertexs[4 * t.c + 1] - vertexs[4 * t.a + 1])
    - (vertexs[4 * t.c] - vertexs[4 * t.a]) * (vertexs[4 * t.b + 1] - vertexs[4 * t.a + 1])
  }

  /** The strip of the overlay draw and the index list of the GL video draw give the same two triangles. */
  lemma StripMatchesIndexList()
    ensures |StripTriangles(BitmapOverlay.StripVertexCount)| == |ListTriangles(GLVideo.Index)| == 2
    ensures forall k :: 0 <= k < 2 ==>
      SameTriangle(StripTriangles(BitmapOverlay.StripVertexCount)[k], ListTriangles(GLVideo.Index)[k])
  {
    var strip := StripTriangles(BitmapOverlay.StripVertexCount);
    var list := ListTriangles(GLVideo.Index);
    assert strip[0] == Triangle(0, 1, 2) && strip[1] == Triangle(2, 1, 3);
    assert list[0] == Triangle(0, 1, 2) && list[1] == Triangle(1, 3, 2);
  }

  /** Both triangles of the strip are counter-clockwise on the quad's positions. */
  lemma StripTrianglesCounterClockwise()
    ensures forall k :: 0 <= k < 2 ==>
      SignedArea2(BitmapOverlay.QuadPositions, StripTriangles(BitmapOverlay.StripVertexCount)[k]) > 0.0
  {
    var strip := StripTriangles(BitmapOverlay.StripVertexCount);
    assert strip[0] == Triangle(0, 1, 2) && strip[1] == Triangle(2, 1, 3);
    assert SignedArea2(BitmapOverlay.QuadPositions, Triangle(0, 1, 2)) == 4.0;
    assert SignedArea2(BitmapOverlay.QuadPositions, Triangle(2, 1, 3)) == 4.0;
  }

  /** Both triangles of the index list are counter-clockwise on the GL video processor's vertices. */
  lemma ListTrianglesCounterClockwise()
    ensures |ListTriangles(GLVideo.Index)| == 2
    ensures forall k :: 0 <= k < 2 ==>
      SignedArea2(GLVideo.Vertexs, ListTriangles(GLVideo.Index)[k]) > 0.0
  {
    var list := ListTriangles(GLVideo.Index);
    assert list[0] == Triangle(0, 1, 2) && list[1] == Triangle(1, 3, 2);
    assert SignedArea2(GLVideo.Vertexs, Triangle(0, 1, 2)) == 4.0;
    assert SignedArea2(GLVideo.Vertexs, Triangle(1, 3, 2)) == 4.0;
  }

  /** The two processors' vertices agree in x and y, and their (s, t) texture coordinates agree. */
  lemma QuadVerticesAgree()
    ensures forall v :: 0 <= v < 4 ==>
      && BitmapOverlay.QuadPositions[4 * v] == GLVideo.Vertexs[4 * v]
      && BitmapOverlay.QuadPositions[4 * v + 1] == GLVideo.Vertexs[4 * v + 1]
      && BitmapOverlay.QuadTexCoords[3 * v] == GLVideo.TexCoords[2 * v]
      && BitmapOverlay.QuadTexCoords[3 * v + 1] == GLVideo.TexCoords[2 * v + 1]
  {
  }
}
