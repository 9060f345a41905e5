// The stitching pattern of gear3dgen.py (lines 102-122) with every point
// replaced by its label: point k of layer l on the rim, or one of the two
// centre points of the floor and the ceiling. The triangles gear3dgen emits
// are then a function of the number of rim points n and of the number of
// layers, and the closed-surface property can be stated and proved over them.

module Stitching {
  import opened ObjMesh

  datatype Label = Rim(layer: nat, k: nat) | FloorCentre | CeilingCentre

  /** Which triangle: the two halves of the side quad at (layer, p), or the floor or ceiling fan triangle at p. */
  datatype Tri = Lower(layer: nat, p: nat) | Upper(layer: nat, p: nat) | Floor(p: nat) | Ceiling(p: nat)

  /** A triangle as an ordered triple of corner labels; the order is its winding. */
  datatype Triangle = Triangle(a: Label, b: Label, c: Label)

  /** The rim point after p; index n is the closing copy of point 0. */
  function Next(p: nat, n: nat): nat {
    if p + 1 < n then p + 1 else 0
  }

  function Prev(p: nat, n: nat): nat {
    if p == 0 then if n == 0 then 0 else n - 1 else p - 1
  }

  /** geargeometry[layer][j] for j <= n, by label: the last point of a layer repeats its first. */
  function At(layer: nat, j: nat, n: nat): Label {
    Rim(layer, if j < n then j else 0)
  }

  /** The corners gear3dgen passes to addface for each triangle, in the order it passes them. */
  function CornersOf(t: Tri, n: nat, layers: nat): Triangle
    requires layers >= 1
  {
    match t
    case Lower(l, p) => Triangle(At(l, p, n), At(l, p + 1, n), At(l + 1, p + 1, n))
    case Upper(l, p) => Triangle(At(l, p, n), At(l + 1, p + 1, n), At(l + 1, p, n))
    case Floor(p) => Triangle(At(0, p + 1, n), At(0, p, n), FloorCentre)
    case Ceiling(p) => Triangle(At(layers - 1, p, n), At(layers - 1, p + 1, n), CeilingCentre)
  }

  predicate ValidTri(t: Tri, n: nat, layers: nat) {
    match t
    case Lower(l, p) => l + 1 < layers && p < n
    case Upper(l, p) => l + 1 < layers && p < n
    case Floor(p) => p < n
    case Ceiling(p) => p < n
  }

  /** The directed edges of a triangle follow its winding: a to b, b to c, c to a. */
  predicate HasEdge(t: Triangle, u: Label, v: Label) {
    (t.a == u && t.b == v) || (t.b == u && t.c == v) || (t.c == u && t.a == v)
  }

  // ---------------------------------------------------------------------
  // The order in which gear3dgen emits the triangles

  /** The side triangles between layer l and l + 1, for the first count rim points. */
  function Row(l: nat, count: nat): seq<Tri> {
    if count == 0 then [] else Row(l, count - 1) + [Lower(l, count - 1), Upper(l, count - 1)]
  }

  /** The side triangles of the first bands layers, each band a row of n points. */
  function Sides(n: nat, bands: nat): seq<Tri> {
    if bands == 0 then [] else Sides(n, bands - 1) + Row(bands - 1, n)
  }

  /** The floor and ceiling triangles of the first count rim points, floor first. */
  function Caps(count: nat): seq<Tri> {
    if count == 0 then [] else Caps(count - 1) + [Floor(count - 1), Ceiling(count - 1)]
  }

  /** Every triangle gear3dgen emits, in order: all side quads, then the caps. */
  function Stitches(n: nat, layers: nat): seq<Tri>
    requires layers >= 1
  {
    Sides(n, layers - 1) + Caps(n)
  }

  // ---------------------------------------------------------------------
  // Counting and membership

  lemma DistinctConcat<T>(a: seq<T>, b: seq<T>)
    requires Distinct(a) && Distinct(b)
    requires forall x :: x in a ==> x !in b
    ensures Distinct(a + b)
  {
    var ab := a + b;
    forall i, j | 0 <= i < j < |ab| ensures ab[i] != ab[j] {
      if j < |a| {
        assert ab[i] == a[i] && ab[j] == a[j];
      } else if i >= |a| {
        assert ab[i] == b[i - |a|] && ab[j] == b[j - |a|];
      } else {
        assert ab[i] in a && ab[j] in b;
      }
    }
  }

  /** A side triangle of band l at one of the first count rim points. */
  predicate InRow(t: Tri, l: nat, count: nat) {
    (t.Lower? || t.Upper?) && t.layer == l && t.p < count
  }

  lemma {:induction false} RowMembers(l: nat, count: nat)
    ensures |Row(l, count)| == 2 * count
    ensures forall t :: t in Row(l, count) <==> InRow(t, l, count)
  {
    if count > 0 {
      RowMembers(l, count - 1);
    }
  }

  lemma {:induction false} RowDistinct(l: nat, count: nat)
    ensures Distinct(Row(l, count))
  {
    if count > 0 {
      RowDistinct(l, count - 1);
      RowMembers(l, count - 1);
      DistinctConcat(Row(l, count - 1), [Lower(l, count - 1), Upper(l, count - 1)]);
    }
  }

  lemma {:induction false} SidesLength(n: nat, bands: nat)
    ensures |Sides(n, bands)| == 2 * n * bands
  {
    if bands > 0 {
      SidesLength(n, bands - 1);
      RowMembers(bands - 1, n);
      OneMoreBand(n, bands);
    }
  }

  /** A side triangle of one of the first bands bands, at one of the n rim points. */
  predicate IsSide(t: Tri, n: nat, bands: nat) {
    (t.Lower? || t.Upper?) && t.layer < bands && t.p < n
  }

  lemma {:induction false} SidesIn(n: nat, bands: nat)
    ensures forall t :: t in Sides(n, bands) <==> IsSide(t, n, bands)
  {
    if bands > 0 {
      SidesIn(n, bands - 1);
      RowMembers(bands - 1, n);
      OneBandMore(Sides(n, bands - 1), Row(bands - 1, n), n, bands);
    }
  }

  /** Adding the triangles of band bands - 1 to those below gives the sides of bands bands. */
  lemma OneBandMore(below: seq<Tri>, row: seq<Tri>, n: nat, bands: nat)
    requires bands > 0
    requires forall t :: t in below <==> IsSide(t, n, bands - 1)
    requires forall t :: t in row <==> InRow(t, bands - 1, n)
    ensures forall t :: t in below + row <==> IsSide(t, n, bands)
  {
    forall t ensures t in below + row <==> IsSide(t, n, bands) {
      if IsSide(t, n, bands) && t.layer == bands - 1 {
        assert InRow(t, bands - 1, n);
      }
    }
  }

  /** A band of side triangles shares no triangle with the bands below it. */
  lemma BandsDisjoint(n: nat, band: nat)
    ensures forall t :: t in Sides(n, band) ==> t !in Row(band, n)
  {
    SidesIn(n, band);
    RowMembers(band, n);
  }

  lemma {:induction false} SidesDistinct(n: nat, bands: nat)
    ensures Distinct(Sides(n, bands))
  {
    if bands > 0 {
      SidesDistinct(n, bands - 1);
      RowDistinct(bands - 1, n);
      BandsDisjoint(n, bands - 1);
      DistinctConcat(Sides(n, bands - 1), Row(bands - 1, n));
    }
  }

  lemma SidesMembers(n: nat, bands: nat)
    ensures |Sides(n, bands)| == 2 * n * bands
    ensures forall t :: t in Sides(n, bands) <==> IsSide(t, n, bands)
    ensures Distinct(Sides(n, bands))
  {
    SidesLength(n, bands);
    SidesIn(n, bands);
    SidesDistinct(n, bands);
  }

  lemma OneMoreBand(n: nat, bands: nat)
    requires bands >= 1
    ensures 2 * n * bands == 2 * n * (bands - 1) + 2 * n
  {
  }

  lemma {:induction false} CapsMembers(count: nat)
    ensures |Caps(count)| == 2 * count
    ensures forall t :: t in Caps(count) <==> (t.Floor? || t.Ceiling?) && t.p < count
    ensures Distinct(Caps(count))
  {
    if count > 0 {
      CapsMembers(count - 1);
      DistinctConcat(Caps(count - 1), [Floor(count - 1), Ceiling(count - 1)]);
    }
  }

  /**
   * gear3dgen issues 2 * n * (layers - 1) side triangles and 2 * n cap
   * triangles; each triangle it may emit appears exactly once.
   */
  lemma StitchesEnumerate(n: nat, layers: nat)
    requires layers >= 1
    ensures |Stitches(n, layers)| == 2 * n * (layers - 1) + 2 * n
    ensures forall t :: t in Stitches(n, layers) <==> ValidTri(t, n, layers)
    ensures Distinct(Stitches(n, layers))
  {
    SidesMembers(n, layers - 1);
    CapsMembers(n);
    DistinctConcat(Sides(n, layers - 1), Caps(n));
  }

  /** The example of 200 rim points on two layers: 800 triangles. */
  lemma EightHundredTriangles()
    ensures |Stitches(200, 2)| == 800
  {
    StitchesEnumerate(200, 2);
  }

  // ---------------------------------------------------------------------
  // The closed surface

  /**
   * The one triangle gear3dgen emits that holds the directed edge u to v,
   * read off the two labels alone.
   */
  function Owner(u: Label, v: Label, n: nat, layers: nat): Option<Tri> {
    match (u, v)
    case (Rim(l, a), Rim(m, b)) =>
      if m == l then
        if b == Next(a, n) then Some(if l + 1 < layers then Lower(l, a) else Ceiling(a))
        else if a == Next(b, n) then Some(if l == 0 then Floor(b) else Upper(l - 1, b))
        else None
      else if m == l + 1 then
        if b == a then Some(Lower(l, Prev(a, n)))
        else if b == Next(a, n) then Some(Upper(l, a))
        else None
      else if l == m + 1 then
        if a == Next(b, n) then Some(Lower(m, b))
        else if a == b then Some(Upper(m, a))
        else None
      else None
    case (Rim(l, a), FloorCentre) => if l == 0 then Some(Floor(a)) else None
    case (FloorCentre, Rim(l, b)) => if l == 0 then Some(Floor(Prev(b, n))) else None
    case (Rim(l, a), CeilingCentre) => if l + 1 == layers then Some(Ceiling(Prev(a, n))) else None
    case (CeilingCentre, Rim(l, b)) => if l + 1 == layers then Some(Ceiling(b)) else None
    case _ => None
  }

  lemma NextPrev(p: nat, n: nat)
    requires p < n
    ensures Next(p, n) < n && Prev(p, n) < n
    ensures Prev(Next(p, n), n) == p && Next(Prev(p, n), n) == p
    ensures n >= 2 ==> Next(p, n) != p
    ensures n >= 3 ==> Next(Next(p, n), n) != p
  {
  }

  /** Every directed edge of an emitted triangle belongs to that triangle alone. */
  lemma OwnerOfEdge(t: Tri, n: nat, layers: nat, u: Label, v: Label)
    requires n >= 3 && layers >= 2 && ValidTri(t, n, layers)
    requires HasEdge(CornersOf(t, n, layers), u, v)
    ensures Owner(u, v, n, layers) == Some(t)
  {
    NextPrev(t.p, n);
  }

  /** The reverse of every directed edge of an emitted triangle belongs to an emitted triangle. */
  lemma ReverseEdgeOwned(t: Tri, n: nat, layers: nat, u: Label, v: Label)
    requires n >= 3 && layers >= 2 && ValidTri(t, n, layers)
    requires HasEdge(CornersOf(t, n, layers), u, v)
    ensures Owner(v, u, n, layers).Some?
    ensures var t' := Owner(v, u, n, layers).value;
            ValidTri(t', n, layers) && HasEdge(CornersOf(t', n, layers), v, u) && t' != t
  {
    NextPrev(t.p, n);
    NextPrev(Next(t.p, n), n);
    NextPrev(Prev(t.p, n), n);
  }

  /**
   * The surface gear3dgen stitches is closed and consistently wound: for at
   * least three rim points and two layers, each directed edge of an emitted
   * triangle occurs in that triangle only, and its reverse occurs in exactly
   * one other emitted triangle.
   */
  lemma ClosedSurface(n: nat, layers: nat, i: nat, u: Label, v: Label)
    requires n >= 3 && layers >= 2
    requires i < |Stitches(n, layers)|
    requires HasEdge(CornersOf(Stitches(n, layers)[i], n, layers), u, v)
    ensures forall j :: 0 <= j < |Stitches(n, layers)| && HasEdge(CornersOf(Stitches(n, layers)[j], n, layers), u, v)
                        ==> j == i
    ensures exists j :: 0 <= j < |Stitches(n, layers)| && j != i
                        && HasEdge(CornersOf(Stitches(n, layers)[j], n, layers), v, u)
    ensures forall j, j' :: 0 <= j < |Stitches(n, layers)| && 0 <= j' < |Stitches(n, layers)|
                        && HasEdge(CornersOf(Stitches(n, layers)[j], n, layers), v, u)
                        && HasEdge(CornersOf(Stitches(n, layers)[j'], n, layers), v, u)
                        ==> j == j'
  {
    var ts := Stitches(n, layers);
    StitchesEnumerate(n, layers);
    var t := ts[i];
    OwnerOfEdge(t, n, layers, u, v);
    forall j | 0 <= j < |ts| && HasEdge(CornersOf(ts[j], n, layers), u, v)
      ensures j == i
    {
      OwnerOfEdge(ts[j], n, layers, u, v);
    }
    ReverseEdgeOwned(t, n, layers, u, v);
    var t' := Owner(v, u, n, layers).value;
    assert t' in ts;
    var j :| 0 <= j < |ts| && ts[j] == t';
    assert j != i;
    forall j, j' | 0 <= j < |ts| && 0 <= j' < |ts|
                   && HasEdge(CornersOf(ts[j], n, layers), v, u)
                   && HasEdge(CornersOf(ts[j'], n, layers), v, u)
      ensures j == j'
    {
      OwnerOfEdge(ts[j], n, layers, v, u);
      OwnerOfEdge(ts[j'], n, layers, v, u);
    }
  }
}
