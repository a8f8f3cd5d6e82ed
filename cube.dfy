/** The cube template: the fixed table of 36 corner offsets every voxel is
    drawn with, read three at a time as 12 triangles, two on each face of a
    unit cube centred on the voxel. */
module Cube {

  /** A point or an offset in mesh-local space, with exact coordinates. */
  datatype Vec3 = Vec3(x: real, y: real, z: real)

  function Add(p: Vec3, q: Vec3): Vec3
  {
    Vec3(p.x + q.x, p.y + q.y, p.z + q.z)
  }

  /** A coordinate of a cube corner relative to the cube's centre. */
  predicate IsHalf(d: real)
  {
    d == 0.5 || d == -0.5
  }

  /** An offset from a cube's centre to one of its 8 corners. */
  predicate IsCorner(v: Vec3)
  {
    IsHalf(v.x) && IsHalf(v.y) && IsHalf(v.z)
  }

  /** Entry `j` of CUBE_OFFSETS, in table order. */
  function Offset(j: nat): Vec3
    requires j < 36
  {
    match j
    case 0 => Vec3(-0.5, -0.5, -0.5)
    case 1 => Vec3(-0.5, -0.5, 0.5)
    case 2 => Vec3(-0.5, 0.5, 0.5)
    case 3 => Vec3(0.5, 0.5, -0.5)
    case 4 => Vec3(-0.5, -0.5, -0.5)
    case 5 => Vec3(-0.5, 0.5, -0.5)
    case 6 => Vec3(0.5, -0.5, 0.5)
    case 7 => Vec3(-0.5, -0.5, -0.5)
    case 8 => Vec3(0.5, -0.5, -0.5)
    case 9 => Vec3(0.5, 0.5, -0.5)
    case 10 => Vec3(0.5, -0.5, -0.5)
    case 11 => Vec3(-0.5, -0.5, -0.5)
    case 12 => Vec3(-0.5, -0.5, -0.5)
    case 13 => Vec3(-0.5, 0.5, 0.5)
    case 14 => Vec3(-0.5, 0.5, -0.5)
    case 15 => Vec3(0.5, -0.5, 0.5)
    case 16 => Vec3(-0.5, -0.5, 0.5)
    case 17 => Vec3(-0.5, -0.5, -0.5)
    case 18 => Vec3(-0.5, 0.5, 0.5)
    case 19 => Vec3(-0.5, -0.5, 0.5)
    case 20 => Vec3(0.5, -0.5, 0.5)
    case 21 => Vec3(0.5, 0.5, 0.5)
    case 22 => Vec3(0.5, -0.5, -0.5)
    case 23 => Vec3(0.5, 0.5, -0.5)
    case 24 => Vec3(0.5, -0.5, -0.5)
    case 25 => Vec3(0.5, 0.5, 0.5)
    case 26 => Vec3(0.5, -0.5, 0.5)
    case 27 => Vec3(0.5, 0.5, 0.5)
    case 28 => Vec3(0.5, 0.5, -0.5)
    case 29 => Vec3(-0.5, 0.5, -0.5)
    case 30 => Vec3(0.5, 0.5, 0.5)
    case 31 => Vec3(-0.5, 0.5, -0.5)
    case 32 => Vec3(-0.5, 0.5, 0.5)
    case 33 => Vec3(0.5, 0.5, 0.5)
    case 34 => Vec3(-0.5, 0.5, 0.5)
    case _ => Vec3(0.5, -0.5, 0.5)
  }

  /** CUBE_OFFSETS: 36 corner offsets, taken three at a time as triangles.
      Every component of every entry is -0.5 or +0.5. */
  function CubeOffsets(): (s: seq<Vec3>)
    ensures |s| == 36
    ensures forall j :: 0 <= j < |s| ==> IsCorner(s[j])
  {
    seq(36, j requires 0 <= j < 36 => Offset(j))
  }

  /** Three vertices of a triangle, in drawing order. */
  datatype Triangle = Triangle(p0: Vec3, p1: Vec3, p2: Vec3)

  /** Triangle `k` of the template: entries 3k, 3k+1 and 3k+2. */
  function TemplateTriangle(k: nat): Triangle
    requires k < 12
  {
    var s := CubeOffsets();
    Triangle(s[3 * k], s[3 * k + 1], s[3 * k + 2])
  }

  datatype Axis = X | Y | Z

  function Component(v: Vec3, axis: Axis): real
  {
    match axis
    case X => v.x
    case Y => v.y
    case Z => v.z
  }

  /** A face of the cube: the square where `axis` is +0.5 (`positive`) or -0.5. */
  datatype Face = Face(axis: Axis, positive: bool)

  function Side(f: Face): real
  {
    if f.positive then 0.5 else -0.5
  }

  predicate OnFace(t: Triangle, f: Face)
  {
    Component(t.p0, f.axis) == Side(f)
    && Component(t.p1, f.axis) == Side(f)
    && Component(t.p2, f.axis) == Side(f)
  }

  /** `p` turned a quarter turn counter-clockwise about the outward normal of
      `f`, as seen from outside the cube (the right-hand rule: the thumb along
      the normal, the fingers give the direction of the turn). On the face
      x = +0.5 this sends +y to +z; on x = -0.5 it sends +z to +y. */
  function QuarterTurn(f: Face, p: Vec3): Vec3
  {
    match (f.axis, f.positive)
    case (X, true) => Vec3(p.x, -p.z, p.y)
    case (X, false) => Vec3(p.x, p.z, -p.y)
    case (Y, true) => Vec3(p.z, p.y, -p.x)
    case (Y, false) => Vec3(-p.z, p.y, p.x)
    case (Z, true) => Vec3(-p.y, p.x, p.z)
    case (Z, false) => Vec3(p.y, -p.x, p.z)
  }

  /** How many counter-clockwise quarter turns about `f`'s normal take `a` to
      `b` (4 when none does). */
  function Turns(f: Face, a: Vec3, b: Vec3): nat
  {
    var b1 := QuarterTurn(f, a);
    var b2 := QuarterTurn(f, b1);
    var b3 := QuarterTurn(f, b2);
    if b == a then 0 else if b == b1 then 1 else if b == b2 then 2 else if b == b3 then 3 else 4
  }

  /** `t` lies on face `f` and its three vertices are distinct corners of that
      face met in counter-clockwise order when `f` is seen from outside. */
  predicate WoundOn(t: Triangle, f: Face)
  {
    OnFace(t, f) && 0 < Turns(f, t.p0, t.p1) < Turns(f, t.p0, t.p2) < 4
  }

  /** How many of the first `n` template triangles lie on face `f`. */
  function TrianglesOnFace(f: Face, n: nat): nat
    requires n <= 12
  {
    if n == 0 then 0
    else TrianglesOnFace(f, n - 1) + (if OnFace(TemplateTriangle(n - 1), f) then 1 else 0)
  }

  /** The template read three entries at a time. */
  lemma TemplateTriangles()
    ensures TemplateTriangle(0) == Triangle(Vec3(-0.5, -0.5, -0.5), Vec3(-0.5, -0.5, 0.5), Vec3(-0.5, 0.5, 0.5))
    ensures TemplateTriangle(1) == Triangle(Vec3(0.5, 0.5, -0.5), Vec3(-0.5, -0.5, -0.5), Vec3(-0.5, 0.5, -0.5))
    ensures TemplateTriangle(2) == Triangle(Vec3(0.5, -0.5, 0.5), Vec3(-0.5, -0.5, -0.5), Vec3(0.5, -0.5, -0.5))
    ensures TemplateTriangle(3) == Triangle(Vec3(0.5, 0.5, -0.5), Vec3(0.5, -0.5, -0.5), Vec3(-0.5, -0.5, -0.5))
    ensures TemplateTriangle(4) == Triangle(Vec3(-0.5, -0.5, -0.5), Vec3(-0.5, 0.5, 0.5), Vec3(-0.5, 0.5, -0.5))
    ensures TemplateTriangle(5) == Triangle(Vec3(0.5, -0.5, 0.5), Vec3(-0.5, -0.5, 0.5), Vec3(-0.5, -0.5, -0.5))
    ensures TemplateTriangle(6) == Triangle(Vec3(-0.5, 0.5, 0.5), Vec3(-0.5, -0.5, 0.5), Vec3(0.5, -0.5, 0.5))
    ensures TemplateTriangle(7) == Triangle(Vec3(0.5, 0.5, 0.5), Vec3(0.5, -0.5, -0.5), Vec3(0.5, 0.5, -0.5))
    ensures TemplateTriangle(8) == Triangle(Vec3(0.5, -0.5, -0.5), Vec3(0.5, 0.5, 0.5), Vec3(0.5, -0.5, 0.5))
    ensures TemplateTriangle(9) == Triangle(Vec3(0.5, 0.5, 0.5), Vec3(0.5, 0.5, -0.5), Vec3(-0.5, 0.5, -0.5))
    ensures TemplateTriangle(10) == Triangle(Vec3(0.5, 0.5, 0.5), Vec3(-0.5, 0.5, -0.5), Vec3(-0.5, 0.5, 0.5))
    ensures TemplateTriangle(11) == Triangle(Vec3(0.5, 0.5, 0.5), Vec3(-0.5, 0.5, 0.5), Vec3(0.5, -0.5, 0.5))
  {
  }

  /** Triangle `k` of the template lies on exactly one face of the cube and
      runs counter-clockwise when that face is seen from outside. */
  lemma TriangleOnOneFace(k: nat)
    requires k < 12
    ensures exists f :: WoundOn(TemplateTriangle(k), f)
    ensures forall f, g :: OnFace(TemplateTriangle(k), f) && OnFace(TemplateTriangle(k), g) ==> f == g
  {
    TemplateTriangles();
    if k == 0 {
      assert WoundOn(TemplateTriangle(0), Face(X, false));
    } else if k == 1 {
      assert WoundOn(TemplateTriangle(1), Face(Z, false));
    } else if k == 2 {
      assert WoundOn(TemplateTriangle(2), Face(Y, false));
    } else if k == 3 {
      assert WoundOn(TemplateTriangle(3), Face(Z, false));
    } else if k == 4 {
      assert WoundOn(TemplateTriangle(4), Face(X, false));
    } else if k == 5 {
      assert WoundOn(TemplateTriangle(5), Face(Y, false));
    } else if k == 6 {
      assert WoundOn(TemplateTriangle(6), Face(Z, true));
    } else if k == 7 {
      assert WoundOn(TemplateTriangle(7), Face(X, true));
    } else if k == 8 {
      assert WoundOn(TemplateTriangle(8), Face(X, true));
    } else if k == 9 {
      assert WoundOn(TemplateTriangle(9), Face(Y, true));
    } else if k == 10 {
      assert WoundOn(TemplateTriangle(10), Face(Y, true));
    } else {
      assert WoundOn(TemplateTriangle(11), Face(Z, true));
    }
  }

  /** Each of the six faces carries exactly two of the twelve triangles. */
  lemma TwoTrianglesPerFace(f: Face)
    ensures TrianglesOnFace(f, 12) == 2
  {
    TemplateTriangles();
    assert TrianglesOnFace(f, 1) == TrianglesOnFace(f, 0) + if OnFace(TemplateTriangle(0), f) then 1 else 0;
    assert TrianglesOnFace(f, 2) == TrianglesOnFace(f, 1) + if OnFace(TemplateTriangle(1), f) then 1 else 0;
    assert TrianglesOnFace(f, 3) == TrianglesOnFace(f, 2) + if OnFace(TemplateTriangle(2), f) then 1 else 0;
    assert TrianglesOnFace(f, 4) == TrianglesOnFace(f, 3) + if OnFace(TemplateTriangle(3), f) then 1 else 0;
    assert TrianglesOnFace(f, 5) == TrianglesOnFace(f, 4) + if OnFace(TemplateTriangle(4), f) then 1 else 0;
    assert TrianglesOnFace(f, 6) == TrianglesOnFace(f, 5) + if OnFace(TemplateTriangle(5), f) then 1 else 0;
    assert TrianglesOnFace(f, 7) == TrianglesOnFace(f, 6) + if OnFace(TemplateTriangle(6), f) then 1 else 0;
    assert TrianglesOnFace(f, 8) == TrianglesOnFace(f, 7) + if OnFace(TemplateTriangle(7), f) then 1 else 0;
    assert TrianglesOnFace(f, 9) == TrianglesOnFace(f, 8) + if OnFace(TemplateTriangle(8), f) then 1 else 0;
    assert TrianglesOnFace(f, 10) == TrianglesOnFace(f, 9) + if OnFace(TemplateTriangle(9), f) then 1 else 0;
    assert TrianglesOnFace(f, 11) == TrianglesOnFace(f, 10) + if OnFace(TemplateTriangle(10), f) then 1 else 0;
    assert TrianglesOnFace(f, 12) == TrianglesOnFace(f, 11) + if OnFace(TemplateTriangle(11), f) then 1 else 0;
  }

  /** All eight corners of the cube occur in the template. */
  lemma OffsetsCoverCorners(v: Vec3)
    requires IsCorner(v)
    ensures exists j :: 0 <= j < 36 && CubeOffsets()[j] == v
  {
    var s := CubeOffsets();
    if v == s[0] {
    } else if v == s[1] {
    } else if v == s[2] {
    } else if v == s[3] {
    } else if v == s[5] {
    } else if v == s[6] {
    } else if v == s[8] {
    } else {
      assert v == s[21];
    }
  }
}
