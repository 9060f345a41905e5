// The indexed triangle-mesh builder of wavefront.py: a table of unique,
// rounded vertices, a list of index triangles, and the text of an OBJ file.
//
// The coordinate type C is left open; rounding a coordinate to the builder's
// number of decimals is a function given to the builder when it is created.

module ObjMesh {
  import opened Text

  datatype Triple<C> = Triple(x: C, y: C, z: C)

  /** A triangle: three 0-based indices into the vertex table. */
  datatype Face = Face(a: nat, b: nat, c: nat)

  /** One positional argument of addface/addquad: a bare coordinate or a point. */
  datatype Arg<C> = Num(value: C) | Pt(point: Triple<C>)

  /** The exceptions addface and addquad raise on malformed arguments. */
  datatype Error = ReferenceError | TypeError

  datatype Outcome = Pass | Fail(error: Error)

  datatype Result<T> = Ok(value: T) | Err(error: Error)

  datatype Option<T> = None | Some(value: T)

  /** The vertex table and the face list, as values. */
  datatype Mesh<C> = Mesh(vertices: seq<Triple<C>>, faces: seq<Face>)

  function Reversed(f: Face): Face {
    Face(f.c, f.b, f.a)
  }

  function RoundTriple<C>(round: C -> C, p: Triple<C>): Triple<C> {
    Triple(round(p.x), round(p.y), round(p.z))
  }

  predicate Distinct<T(==)>(s: seq<T>) {
    forall i, j :: 0 <= i < j < |s| ==> s[i] != s[j]
  }

  /** A list without repeats whose elements all occur in t is no longer than t. */
  lemma {:induction false} DistinctWithin<T>(s: seq<T>, t: seq<T>)
    requires Distinct(s) && forall x :: x in s ==> x in t
    ensures |s| <= |t|
    decreases |s|
  {
    if s != [] {
      var x := s[|s| - 1];
      assert x in s;
      var i :| 0 <= i < |t| && t[i] == x;
      var rest := t[..i] + t[i + 1..];
      forall y | y in s[..|s| - 1]
        ensures y in rest
      {
        var m :| 0 <= m < |s| - 1 && s[m] == y;
        assert y in s && y != x;
        var j :| 0 <= j < |t| && t[j] == y;
        assert j != i;
        if j < i { assert rest[j] == y; } else { assert rest[j - 1] == y; }
      }
      DistinctWithin(s[..|s| - 1], rest);
    }
  }

  predicate InRange(f: Face, n: nat) {
    f.a < n && f.b < n && f.c < n
  }

  /** No vertex twice, and every face refers to existing vertices. */
  predicate WellFormed<C(==)>(m: Mesh<C>) {
    && Distinct(m.vertices)
    && forall i :: 0 <= i < |m.faces| ==> InRange(m.faces[i], |m.vertices|)
  }

  /** Position of the first occurrence of v in s (Python's list.index). */
  function IndexOf<T(==)>(s: seq<T>, v: T): (i: nat)
    requires v in s
    ensures i < |s| && s[i] == v
    ensures v !in s[..i]
  {
    if s[0] == v then 0 else 1 + IndexOf(s[1..], v)
  }

  lemma IndexOfUnique<T>(s: seq<T>, v: T, j: nat)
    requires j < |s| && s[j] == v && v !in s[..j]
    ensures IndexOf(s, v) == j
  {
    var i := IndexOf(s, v);
    assert forall k :: 0 <= k < j ==> s[..j][k] == s[k];
    assert forall k :: 0 <= k < i ==> s[..i][k] == s[k];
  }

  /** addvertex on values: the table after the call and the index returned. */
  function AddVertexTo<C(==)>(vs: seq<Triple<C>>, key: Triple<C>): (r: (seq<Triple<C>>, nat))
    ensures r.1 < |r.0| && r.0[r.1] == key
    ensures vs <= r.0 && |r.0| <= |vs| + 1
    ensures key in vs ==> r.0 == vs
    ensures forall v :: v in r.0 ==> v in vs || v == key
    ensures Distinct(vs) ==> Distinct(r.0)
  {
    if key in vs then (vs, IndexOf(vs, key)) else (vs + [key], |vs|)
  }

  /** Adding a key that is already present changes nothing and returns the same index. */
  lemma AddVertexIdempotent<C>(vs: seq<Triple<C>>, key: Triple<C>)
    ensures var (vs1, i1) := AddVertexTo(vs, key);
            AddVertexTo(vs1, key) == (vs1, i1)
  {
    if key !in vs {
      var vs1 := vs + [key];
      assert vs1[..|vs|] == vs;
      IndexOfUnique(vs1, key, |vs|);
    }
  }

  /** The keys added one after the other, with the index returned for each. */
  function AddVertices<C(==)>(vs: seq<Triple<C>>, keys: seq<Triple<C>>): (r: (seq<Triple<C>>, seq<nat>))
    ensures |r.1| == |keys|
  {
    if keys == [] then (vs, [])
    else
      var (vs1, ids) := AddVertices(vs, keys[..|keys| - 1]);
      var (vs2, i) := AddVertexTo(vs1, keys[|keys| - 1]);
      (vs2, ids + [i])
  }

  lemma AddVerticesSnoc<C>(vs: seq<Triple<C>>, keys: seq<Triple<C>>, d: nat)
    requires d < |keys|
    ensures var (vs1, ids) := AddVertices(vs, keys[..d]);
            var (vs2, i) := AddVertexTo(vs1, keys[d]);
            AddVertices(vs, keys[..d + 1]) == (vs2, ids + [i])
  {
    assert keys[..d + 1][..d] == keys[..d];
  }

  lemma {:induction false} AddVerticesResolve<C>(vs: seq<Triple<C>>, keys: seq<Triple<C>>)
    ensures var (vs', ids) := AddVertices(vs, keys);
            && vs <= vs'
            && |vs'| <= |vs| + |keys|
            && (Distinct(vs) ==> Distinct(vs'))
            && (forall v :: v in vs' ==> v in vs || v in keys)
            && forall k :: 0 <= k < |keys| ==> ids[k] < |vs'| && vs'[ids[k]] == keys[k]
  {
    if keys != [] {
      var init := keys[..|keys| - 1];
      AddVerticesResolve(vs, init);
      var (vs1, ids1) := AddVertices(vs, init);
      var (vs2, i) := AddVertexTo(vs1, keys[|keys| - 1]);
      assert forall k :: 0 <= k < |init| ==> vs2[ids1[k]] == vs1[ids1[k]];
      assert forall v :: v in init ==> v in keys;
    }
  }

  /** addface on values, for three points that are already well formed. */
  function AddFaceTo<C(==)>(m: Mesh<C>, doubleface: bool, round: C -> C,
                            p0: Triple<C>, p1: Triple<C>, p2: Triple<C>): Mesh<C>
  {
    var keys := [RoundTriple(round, p0), RoundTriple(round, p1), RoundTriple(round, p2)];
    var (vs, ids) := AddVertices(m.vertices, keys);
    var f := Face(ids[0], ids[1], ids[2]);
    Mesh(vs, m.faces + if doubleface then [f, Reversed(f)] else [f])
  }

  /**
   * addface appends one face, or a face and its reverse when doubleface is
   * set; the face's corners are the rounded points; existing vertices and
   * faces stay where they were; no duplicate vertex and no index out of
   * range is ever introduced.
   */
  lemma AddFaceSpec<C>(m: Mesh<C>, doubleface: bool, round: C -> C,
                       p0: Triple<C>, p1: Triple<C>, p2: Triple<C>)
    ensures var m' := AddFaceTo(m, doubleface, round, p0, p1, p2);
            var n := |m.faces|;
            && m.vertices <= m'.vertices
            && |m'.vertices| <= |m.vertices| + 3
            && m.faces <= m'.faces
            && |m'.faces| == n + (if doubleface then 2 else 1)
            && InRange(m'.faces[n], |m'.vertices|)
            && m'.vertices[m'.faces[n].a] == RoundTriple(round, p0)
            && m'.vertices[m'.faces[n].b] == RoundTriple(round, p1)
            && m'.vertices[m'.faces[n].c] == RoundTriple(round, p2)
            && (doubleface ==> m'.faces[n + 1] == Reversed(m'.faces[n]))
            && (WellFormed(m) ==> WellFormed(m'))
  {
    var keys := [RoundTriple(round, p0), RoundTriple(round, p1), RoundTriple(round, p2)];
    AddVerticesResolve(m.vertices, keys);
  }

  /** The flexible arity of addface and addquad: n points, or 3n bare coordinates. */
  function Condense<C>(args: seq<Arg<C>>, n: nat): (r: Result<seq<Arg<C>>>)
    ensures r.Ok? ==> |r.value| == n
    ensures |args| != n && |args| != 3 * n ==> r == Err(ReferenceError)
    ensures |args| == n && n != 3 * n ==> r == Ok(args)
    ensures |args| == 3 * n && n > 0 ==>
              r == (if forall i :: 0 <= i < |args| ==> args[i].Num? then Ok(Group(args)) else Err(TypeError))
  {
    if |args| == 3 * n && n > 0 then
      if forall i :: 0 <= i < |args| ==> args[i].Num? then Ok(Group(args)) else Err(TypeError)
    else if |args| != n then Err(ReferenceError)
    else Ok(args)
  }

  /** Bare coordinates taken three at a time as points. */
  function Group<C>(args: seq<Arg<C>>): (r: seq<Arg<C>>)
    requires |args| % 3 == 0
    requires forall i :: 0 <= i < |args| ==> args[i].Num?
    ensures |r| == |args| / 3
    ensures forall k :: 0 <= k < |r| ==>
              r[k] == Pt(Triple(args[3 * k].value, args[3 * k + 1].value, args[3 * k + 2].value))
  {
    if args == [] then []
    else [Pt(Triple(args[0].value, args[1].value, args[2].value))] + Group(args[3..])
  }

  function AllPoints<C>(args: seq<Arg<C>>): (r: Result<seq<Triple<C>>>)
    ensures r.Ok? ==> |r.value| == |args| && forall i :: 0 <= i < |args| ==> args[i] == Pt(r.value[i])
    ensures r.Err? ==> r.error == TypeError && exists i :: 0 <= i < |args| && args[i].Num?
  {
    if forall i :: 0 <= i < |args| ==> args[i].Pt? then Ok(seq(|args|, i requires 0 <= i < |args| => args[i].point))
    else Err(TypeError)
  }

  /** The three points addface works on, or the exception it raises before touching anything. */
  function FacePoints<C>(args: seq<Arg<C>>): (r: Result<seq<Triple<C>>>)
    ensures r.Ok? ==> |r.value| == 3
  {
    match Condense(args, 3)
    case Err(e) => Err(e)
    case Ok(a) => AllPoints(a)
  }

  /** addface on values: the mesh afterwards and how the call ends. */
  function FaceStep<C(==)>(m: Mesh<C>, doubleface: bool, round: C -> C, args: seq<Arg<C>>): (Mesh<C>, Outcome)
  {
    match FacePoints(args)
    case Err(e) => (m, Fail(e))
    case Ok(ps) => (AddFaceTo(m, doubleface, round, ps[0], ps[1], ps[2]), Pass)
  }

  /** addquad on values: two addface calls along the diagonal p0-p2. */
  function QuadStep<C(==)>(m: Mesh<C>, doubleface: bool, round: C -> C, args: seq<Arg<C>>): (Mesh<C>, Outcome)
  {
    match Condense(args, 4)
    case Err(e) => (m, Fail(e))
    case Ok(q) =>
      var (m1, o1) := FaceStep(m, doubleface, round, [q[0], q[1], q[2]]);
      if o1.Fail? then (m1, o1) else FaceStep(m1, doubleface, round, [q[0], q[2], q[3]])
  }

  /** Nine bare coordinates are read as the three points they spell, in order. */
  lemma NineScalarsAreThreePoints<C>(m: Mesh<C>, doubleface: bool, round: C -> C, c: seq<C>)
    requires |c| == 9
    ensures FaceStep(m, doubleface, round, seq(9, i requires 0 <= i < 9 => Num(c[i])))
         == FaceStep(m, doubleface, round, [Pt(Triple(c[0], c[1], c[2])), Pt(Triple(c[3], c[4], c[5])),
                                            Pt(Triple(c[6], c[7], c[8]))])
  {
    var args := seq(9, i requires 0 <= i < 9 => Num(c[i]));
    var g := Group(args);
    assert g == [Pt(Triple(c[0], c[1], c[2])), Pt(Triple(c[3], c[4], c[5])), Pt(Triple(c[6], c[7], c[8]))];
  }

  /** Three points never raise: addface adds the face they span. */
  lemma ThreePointsAddFace<C>(m: Mesh<C>, doubleface: bool, round: C -> C,
                              p0: Triple<C>, p1: Triple<C>, p2: Triple<C>)
    ensures FaceStep(m, doubleface, round, [Pt(p0), Pt(p1), Pt(p2)])
         == (AddFaceTo(m, doubleface, round, p0, p1, p2), Pass)
  {
    assert AllPoints([Pt(p0), Pt(p1), Pt(p2)]).value == [p0, p1, p2];
  }

  /** Any argument count other than three points or nine coordinates raises. */
  lemma FaceArity<C>(m: Mesh<C>, doubleface: bool, round: C -> C, args: seq<Arg<C>>)
    requires |args| != 3 && |args| != 9
    ensures FaceStep(m, doubleface, round, args) == (m, Fail(ReferenceError))
  {
  }

  /** A quadrilateral of four points is the triangle p0 p1 p2 followed by p0 p2 p3. */
  lemma QuadIsTwoFaces<C>(m: Mesh<C>, doubleface: bool, round: C -> C,
                          p0: Triple<C>, p1: Triple<C>, p2: Triple<C>, p3: Triple<C>)
    ensures QuadStep(m, doubleface, round, [Pt(p0), Pt(p1), Pt(p2), Pt(p3)])
         == (AddFaceTo(AddFaceTo(m, doubleface, round, p0, p1, p2), doubleface, round, p0, p2, p3), Pass)
  {
    var args := [Pt(p0), Pt(p1), Pt(p2), Pt(p3)];
    assert Condense(args, 4) == Ok(args);
    assert AllPoints([Pt(p0), Pt(p1), Pt(p2)]).value == [p0, p1, p2];
    assert AllPoints([Pt(p0), Pt(p2), Pt(p3)]).value == [p0, p2, p3];
  }

  /** Twelve bare coordinates are read as the four points they spell, in order. */
  lemma TwelveScalarsAreFourPoints<C>(m: Mesh<C>, doubleface: bool, round: C -> C, c: seq<C>)
    requires |c| == 12
    ensures QuadStep(m, doubleface, round, seq(12, i requires 0 <= i < 12 => Num(c[i])))
         == QuadStep(m, doubleface, round, [Pt(Triple(c[0], c[1], c[2])), Pt(Triple(c[3], c[4], c[5])),
                                            Pt(Triple(c[6], c[7], c[8])), Pt(Triple(c[9], c[10], c[11]))])
  {
    var args := seq(12, i requires 0 <= i < 12 => Num(c[i]));
    var pts := [Pt(Triple(c[0], c[1], c[2])), Pt(Triple(c[3], c[4], c[5])),
                Pt(Triple(c[6], c[7], c[8])), Pt(Triple(c[9], c[10], c[11]))];
    assert Group(args) == pts;
    assert Condense(pts, 4) == Ok(pts);
  }

  /** Any argument count other than four points or twelve coordinates raises. */
  lemma QuadArity<C>(m: Mesh<C>, doubleface: bool, round: C -> C, args: seq<Arg<C>>)
    requires |args| != 4 && |args| != 12
    ensures QuadStep(m, doubleface, round, args) == (m, Fail(ReferenceError))
  {
  }

  /** In a table without duplicates an index is determined by the vertex it holds. */
  lemma DistinctIndex<T>(s: seq<T>, i: nat, j: nat)
    requires Distinct(s) && i < |s| && j < |s| && s[i] == s[j]
    ensures i == j
  {
  }

  /**
   * The two triangles of a quadrilateral share the diagonal p0-p2: both start
   * at the index of p0, and the first ends where the second continues.
   */
  lemma QuadSharesDiagonal<C>(m: Mesh<C>, doubleface: bool, round: C -> C,
                              p0: Triple<C>, p1: Triple<C>, p2: Triple<C>, p3: Triple<C>)
    requires WellFormed(m)
    ensures var m1 := AddFaceTo(m, doubleface, round, p0, p1, p2);
            var m2 := AddFaceTo(m1, doubleface, round, p0, p2, p3);
            var f1 := m2.faces[|m.faces|];
            var f2 := m2.faces[|m1.faces|];
            && |m2.faces| == |m.faces| + (if doubleface then 4 else 2)
            && InRange(f1, |m2.vertices|) && InRange(f2, |m2.vertices|)
            && f1.a == f2.a && f1.c == f2.b
            && m2.vertices[f1.a] == RoundTriple(round, p0)
            && m2.vertices[f1.b] == RoundTriple(round, p1)
            && m2.vertices[f1.c] == RoundTriple(round, p2)
            && m2.vertices[f2.c] == RoundTriple(round, p3)
  {
    var m1 := AddFaceTo(m, doubleface, round, p0, p1, p2);
    var m2 := AddFaceTo(m1, doubleface, round, p0, p2, p3);
    AddFaceSpec(m, doubleface, round, p0, p1, p2);
    AddFaceSpec(m1, doubleface, round, p0, p2, p3);
    var f1 := m2.faces[|m.faces|];
    var f2 := m2.faces[|m1.faces|];
    assert f1 == m1.faces[|m.faces|];
    assert m2.vertices[f1.a] == m1.vertices[f1.a];
    assert m2.vertices[f1.c] == m1.vertices[f1.c];
    DistinctIndex(m2.vertices, f1.a, f2.a);
    DistinctIndex(m2.vertices, f1.c, f2.b);
  }

  // ---------------------------------------------------------------------
  // The OBJ text

  /** A vertex line; show stands for Python's float-to-text conversion. */
  function VLine<C>(show: C -> string, v: Triple<C>): string {
    "v " + show(v.x) + " " + show(v.y) + " " + show(v.z) + "\n"
  }

  /** A face line, with 1-based indices. */
  function FLine(f: Face): string {
    "f " + Numerals(f) + "\n"
  }

  /** The three 1-based indices of a face, separated by spaces. */
  function Numerals(f: Face): string {
    NatToString(f.a + 1) + " " + NatToString(f.b + 1) + " " + NatToString(f.c + 1)
  }

  /** The lines of the file: the object name, the vertices, flat shading, the faces. */
  function Lines<C>(m: Mesh<C>, show: C -> string): (ls: seq<string>)
    ensures |ls| == |m.vertices| + |m.faces| + 2
  {
    ["o mainobject\n"]
    + seq(|m.vertices|, i requires 0 <= i < |m.vertices| => VLine(show, m.vertices[i]))
    + ["s off\n"]
    + seq(|m.faces|, j requires 0 <= j < |m.faces| => FLine(m.faces[j]))
  }

  function Concat(ls: seq<string>): string {
    if ls == [] then "" else Concat(ls[..|ls| - 1]) + ls[|ls| - 1]
  }

  /** Position of the first space in s, or |s| when there is none. */
  function SpaceAt(s: string): (i: nat)
    ensures i <= |s| && ' ' !in s[..i]
    ensures i < |s| ==> s[i] == ' '
  {
    if s == [] || s[0] == ' ' then 0 else 1 + SpaceAt(s[1..])
  }

  /** The space-separated fields of s. */
  function Fields(s: string): seq<string>
    decreases |s|
  {
    var i := SpaceAt(s);
    if i == |s| then [s] else [s[..i]] + Fields(s[i + 1..])
  }

  function ReadIndex(field: string): Option<nat> {
    if |field| >= 1 && AllDigits(field) && ParseNat(field) >= 1 then Some(ParseNat(field) - 1) else None
  }

  /** Reads a face line back into 0-based indices, as an OBJ reader does. */
  function ReadFaceLine(line: string): Option<Face> {
    if |line| < 3 || line[..2] != "f " || line[|line| - 1] != '\n' then None
    else
      ReadIndices(Fields(line[2..|line| - 1]))
  }

  function ReadIndices(fs: seq<string>): Option<Face> {
    if |fs| != 3 then None
    else match (ReadIndex(fs[0]), ReadIndex(fs[1]), ReadIndex(fs[2]))
      case (Some(a), Some(b), Some(c)) => Some(Face(a, b, c))
      case _ => None
  }

  lemma SpaceAfterDigits(d: string, rest: string)
    requires AllDigits(d)
    ensures SpaceAt(d + " " + rest) == |d|
  {
    var s := d + " " + rest;
    var i := SpaceAt(s);
    assert s[|d|] == ' ';
    assert forall k :: 0 <= k < i ==> s[..i][k] == s[k];
    assert forall k :: 0 <= k < |d| ==> s[k] == d[k];
  }

  lemma FieldsAfterDigits(d: string, rest: string)
    requires AllDigits(d)
    ensures Fields(d + " " + rest) == [d] + Fields(rest)
  {
    var s := d + " " + rest;
    SpaceAfterDigits(d, rest);
    assert s[..|d|] == d;
    assert s[|d| + 1..] == rest;
  }

  lemma FieldsOfDigits(d: string)
    requires AllDigits(d)
    ensures Fields(d) == [d]
  {
    assert forall k :: 0 <= k < |d| ==> d[k] != ' ';
  }

  lemma FieldsOfThree(a: string, b: string, c: string)
    requires AllDigits(a) && AllDigits(b) && AllDigits(c)
    ensures Fields(a + " " + b + " " + c) == [a, b, c]
  {
    var bc, abc := b + " " + c, a + " " + b + " " + c;
    assert abc == a + " " + bc;
    FieldsOfDigits(c);
    FieldsAfterDigits(b, c);
    assert Fields(bc) == [b, c];
    FieldsSplit(abc, a, bc);
  }

  lemma FieldsSplit(s: string, d: string, rest: string)
    requires AllDigits(d) && s == d + " " + rest
    ensures Fields(s) == [d] + Fields(rest)
  {
    FieldsAfterDigits(d, rest);
  }

  /** A line framed by "f " and a line break reads as the indices between them. */
  lemma ReadFramed(line: string, mid: string)
    requires line == "f " + mid + "\n"
    ensures ReadFaceLine(line) == ReadIndices(Fields(mid))
  {
    assert line[..2] == "f ";
    assert line[2..|line| - 1] == mid;
  }

  /** A face line reads back as the face it was written from. */
  lemma ReadIndexOfNumeral(n: nat)
    ensures ReadIndex(NatToString(n + 1)) == Some(n)
  {
    ParseNatToString(n + 1);
  }

  lemma ReadFaceLineOfFLine(f: Face)
    ensures ReadFaceLine(FLine(f)) == Some(f)
  {
    var a, b, c := NatToString(f.a + 1), NatToString(f.b + 1), NatToString(f.c + 1);
    ReadIndexOfNumeral(f.a);
    ReadIndexOfNumeral(f.b);
    ReadIndexOfNumeral(f.c);
    ReadBack(FLine(f), a, b, c, f);
  }

  lemma ReadBack(line: string, a: string, b: string, c: string, f: Face)
    requires AllDigits(a) && AllDigits(b) && AllDigits(c)
    requires line == "f " + (a + " " + b + " " + c) + "\n"
    requires ReadIndex(a) == Some(f.a) && ReadIndex(b) == Some(f.b) && ReadIndex(c) == Some(f.c)
    ensures ReadFaceLine(line) == Some(f)
  {
    ReadFramed(line, a + " " + b + " " + c);
    FieldsOfThree(a, b, c);
    ReadIndicesOfThree([a, b, c], f);
  }

  lemma ReadIndicesOfThree(fs: seq<string>, f: Face)
    requires |fs| == 3
    requires ReadIndex(fs[0]) == Some(f.a) && ReadIndex(fs[1]) == Some(f.b) && ReadIndex(fs[2]) == Some(f.c)
    ensures ReadIndices(fs) == Some(f)
  {
  }

  /**
   * The saved file starts with the object line, lists every vertex in table
   * order, switches smoothing off, and then holds one line per face, in
   * insertion order, from which the face reads back exactly.
   */
  lemma SavedLayout<C>(m: Mesh<C>, show: C -> string)
    ensures var ls := Lines(m, show);
            var n := |m.vertices|;
            && ls[0] == "o mainobject\n"
            && (forall i :: 0 <= i < n ==> ls[1 + i] == VLine(show, m.vertices[i]))
            && ls[n + 1] == "s off\n"
            && forall j :: 0 <= j < |m.faces| ==> ReadFaceLine(ls[n + 2 + j]) == Some(m.faces[j])
  {
    var ls := Lines(m, show);
    var n := |m.vertices|;
    forall j | 0 <= j < |m.faces|
      ensures ReadFaceLine(ls[n + 2 + j]) == Some(m.faces[j])
    {
      assert ls[n + 2 + j] == FLine(m.faces[j]);
      ReadFaceLineOfFLine(m.faces[j]);
    }
  }

  // ---------------------------------------------------------------------
  // The builder object

  /** list.index: the first position holding v, found by a linear scan. */
  method Index<T(==)>(s: seq<T>, v: T) returns (i: nat)
    requires v in s
    ensures i < |s| && s[i] == v && v !in s[..i]
    ensures i == IndexOf(s, v)
  {
    i := 0;
    while s[i] != v
      invariant i < |s| && forall k :: 0 <= k < i ==> s[k] != v
      decreases |s| - i
    {
      i := i + 1;
    }
    assert forall k :: 0 <= k < i ==> s[..i][k] == s[k];
    IndexOfUnique(s, v, i);
  }

  /**
   * The class wavefront: the vertex list, the set of the same vertices, the
   * face list, and the two settings fixed at construction (double faces and
   * the rounding of coordinates).
   */
  class Wavefront<C(==)> {
    var vertices: seq<Triple<C>>
    var verticeset: set<Triple<C>>
    var faces: seq<Face>
    const doubleface: bool
    const round: C -> C

    /** No duplicate vertex, the set holds exactly the listed vertices, every face index is in range. */
    ghost predicate Valid()
      reads this
    {
      WellFormed(Model()) && verticeset == set v | v in vertices
    }

    function Model(): Mesh<C>
      reads this
    {
      Mesh(vertices, faces)
    }

    constructor(doubleface: bool := false, round: C -> C)
      ensures Valid() && Model() == Mesh([], [])
      ensures this.doubleface == doubleface && this.round == round
    {
      vertices := [];
      verticeset := {};
      faces := [];
      this.doubleface := doubleface;
      this.round := round;
    }

    /** addvertex: the index of the rounded point, appended only when it is new. */
    method AddVertex(x: C, y: C, z: C) returns (i: nat)
      requires Valid()
      modifies this
      ensures Valid()
      ensures i < |vertices| && vertices[i] == RoundTriple(round, Triple(x, y, z))
      ensures (vertices, i) == AddVertexTo(old(vertices), RoundTriple(round, Triple(x, y, z)))
      ensures faces == old(faces)
    {
      var key := RoundTriple(round, Triple(x, y, z));
      if key !in verticeset {
        vertices := vertices + [key];
        verticeset := verticeset + {key};
      }
      i := Index(vertices, key);
    }

    /** addface: three points or nine coordinates; the face, and its reverse when double-faced. */
    method AddFace(args: seq<Arg<C>>) returns (r: Outcome)
      requires Valid()
      modifies this
      ensures Valid()
      ensures (Model(), r) == FaceStep(old(Model()), doubleface, round, args)
    {
      var pts := FacePoints(args);
      if pts.Err? {
        return Fail(pts.error);
      }
      var ps := pts.value;
      AddTriangle(ps[0], ps[1], ps[2]);
      r := Pass;
    }

    /** The body of addface once its three points are known. */
    method AddTriangle(p0: Triple<C>, p1: Triple<C>, p2: Triple<C>)
      requires Valid()
      modifies this
      ensures Valid()
      ensures Model() == AddFaceTo(old(Model()), doubleface, round, p0, p1, p2)
    {
      ghost var keys := [RoundTriple(round, p0), RoundTriple(round, p1), RoundTriple(round, p2)];
      var triangle := AddCorners(p0, p1, p2);
      AddVerticesResolve(old(vertices), keys);
      var f := Face(triangle[0], triangle[1], triangle[2]);
      faces := faces + [f];
      if doubleface {
        triangle[0], triangle[2] := triangle[2], triangle[0];
        faces := faces + [Face(triangle[0], triangle[1], triangle[2])];
      }
    }

    /** The vertex loop of addface: the index of each corner, in a fresh three-slot triangle. */
    method AddCorners(p0: Triple<C>, p1: Triple<C>, p2: Triple<C>) returns (triangle: array<nat>)
      requires Valid()
      modifies this
      ensures Valid() && faces == old(faces)
      ensures fresh(triangle) && triangle.Length == 3
      ensures (vertices, triangle[..])
              == AddVertices(old(vertices), [RoundTriple(round, p0), RoundTriple(round, p1), RoundTriple(round, p2)])
    {
      var ps := [p0, p1, p2];
      ghost var keys := [RoundTriple(round, p0), RoundTriple(round, p1), RoundTriple(round, p2)];
      triangle := new nat[3];
      for d := 0 to 3
        invariant Valid() && faces == old(faces)
        invariant (vertices, triangle[..d]) == AddVertices(old(vertices), keys[..d])
      {
        AddVerticesSnoc(old(vertices), keys, d);
        triangle[d] := AddVertex(ps[d].x, ps[d].y, ps[d].z);
        assert triangle[..d + 1] == triangle[..d] + [triangle[d]];
      }
      assert keys[..3] == keys;
      assert triangle[..] == triangle[..3];
    }

    /** addquad: four points or twelve coordinates, split along the diagonal p0-p2. */
    method AddQuad(args: seq<Arg<C>>) returns (r: Outcome)
      requires Valid()
      modifies this
      ensures Valid()
      ensures (Model(), r) == QuadStep(old(Model()), doubleface, round, args)
    {
      var q := Condense(args, 4);
      if q.Err? {
        return Fail(q.error);
      }
      var a := q.value;
      r := AddFace([a[0], a[1], a[2]]);
      if r.Pass? {
        r := AddFace([a[0], a[2], a[3]]);
      }
    }

    /**
     * save, without the file write: the text of the OBJ file, assembled line
     * by line; zoom and offset are at their defaults (1 and 0).
     */
    method Save(show: C -> string) returns (content: string)
      ensures content == Concat(Lines(Model(), show))
    {
      var vs, fs := vertices, faces;
      var lines := ["o mainobject\n"];
      for i := 0 to |vs|
        invariant lines == ["o mainobject\n"] + seq(i, k requires 0 <= k < i => VLine(show, vs[k]))
      {
        lines := lines + [VLine(show, vs[i])];
      }
      lines := lines + ["s off\n"];
      ghost var head := lines;
      for j := 0 to |fs|
        invariant lines == head + seq(j, k requires 0 <= k < j => FLine(fs[k]))
      {
        lines := lines + [FLine(fs[j])];
      }
      assert lines == Lines(Model(), show);
      content := Concat(lines);
    }
  }
}
