// The gear generator of gear3dgen.py: the radial profile of one tooth
// repeated around the gear, the layers of rim points, and the stitching of
// side walls, floor and ceiling into the mesh builder.
//
// The trigonometric placement of a rim point (cos and sin of its angle times
// its radius) is a function given by the caller, as are the rounding of a
// coordinate and its conversion to text.

module Gear {
  import opened Text
  import opened ObjMesh
  import opened Stitching

  /** The exceptions gear3dgen can raise on degenerate parameters. */
  datatype GearError = ZeroDivisionError | IndexError

  /** What gear3dgen hands back: the file it would write (none for outfile=None) and its content. */
  datatype GearResult = Generated(file: Option<string>, content: string) | Raised(error: GearError)

  /**
   * The plane position at (radius, step k, steps n, angle added to the layer):
   * (cos a * radius, sin a * radius) with a = 2 pi k / n plus the added angle.
   * Trigonometry stays with the caller; the height is the layer's.
   */
  type Placement = (real, nat, nat, real) -> (real, real)

  // ---------------------------------------------------------------------
  // Tooth shapes

  function Abs(x: real): real {
    if x < 0.0 then -x else x
  }

  /** g_vshape: 1 at both ends of the tooth, 0 in its middle. */
  function VShape(x: real): (r: real)
    ensures r >= 0.0
    ensures 0.0 <= x <= 1.0 ==> r <= 1.0
  {
    Abs(0.5 - x) * 2.0
  }

  /** g_ashape: the V shape turned upside down. */
  function AShape(x: real): (r: real)
    ensures r <= 1.0
    ensures 0.0 <= x <= 1.0 ==> 0.0 <= r
  {
    1.0 - VShape(x)
  }

  lemma ShapeEnds()
    ensures VShape(0.0) == 1.0 && VShape(1.0) == 1.0 && VShape(0.5) == 0.0
    ensures AShape(0.0) == 0.0 && AShape(1.0) == 0.0 && AShape(0.5) == 1.0
  {
  }

  // ---------------------------------------------------------------------
  // The profile

  function Count(i: int): nat {
    if i < 0 then 0 else i
  }

  /** toothprofile: the tooth function at x / toothpts, scaled from the inner to the outer radius. */
  function ToothProfile(toothfunc: real -> real, toothpts: int, innerrad: real, outerrad: real): (r: seq<real>)
    ensures |r| == Count(toothpts)
  {
    seq(Count(toothpts), x requires 0 <= x < Count(toothpts) =>
          innerrad + toothfunc(x as real / toothpts as real) * (outerrad - innerrad))
  }

  /** A tooth function within [0, 1] keeps every radius between the inner and the outer radius. */
  lemma ToothProfileWithinRadii(toothfunc: real -> real, toothpts: int, innerrad: real, outerrad: real)
    requires innerrad <= outerrad
    requires forall x: real :: 0.0 <= x < 1.0 ==> 0.0 <= toothfunc(x) <= 1.0
    ensures forall k :: 0 <= k < toothpts ==>
              innerrad <= ToothProfile(toothfunc, toothpts, innerrad, outerrad)[k] <= outerrad
  {
    var tp := ToothProfile(toothfunc, toothpts, innerrad, outerrad);
    forall k | 0 <= k < toothpts
      ensures innerrad <= tp[k] <= outerrad
    {
      var x := k as real / toothpts as real;
      DivBelowOne(k, toothpts);
      var f := toothfunc(x);
      assert 0.0 <= f <= 1.0;
      ScaledWithin(innerrad, outerrad, f, tp[k]);
    }
  }

  lemma DivBelowOne(k: int, t: int)
    requires 0 <= k < t
    ensures 0.0 <= k as real / t as real < 1.0
  {
  }

  lemma ScaledWithin(inner: real, outer: real, f: real, v: real)
    requires 0.0 <= f <= 1.0 && inner <= outer && v == inner + f * (outer - inner)
    ensures inner <= v <= outer
  {
    var d := outer - inner;
    assert f * d >= 0.0;
    assert outer - v == (1.0 - f) * d;
    assert (1.0 - f) * d >= 0.0;
  }

  /** A Python list repeated times times (empty for times <= 0). */
  function Repeat(s: seq<real>, times: int): seq<real>
    decreases times
  {
    if times <= 0 then [] else s + Repeat(s, times - 1)
  }

  lemma {:induction false} RepeatLength(s: seq<real>, times: int)
    ensures |Repeat(s, times)| == |s| * Count(times)
    decreases times
  {
    if times > 0 {
      RepeatLength(s, times - 1);
      assert |s| * Count(times) == |s| + |s| * Count(times - 1);
    }
  }

  /** Block t of the repetition is s itself. */
  lemma {:induction false} RepeatBlock(s: seq<real>, times: int, t: nat, j: nat)
    requires t < times && j < |s|
    ensures t * |s| + j < |Repeat(s, times)| && Repeat(s, times)[t * |s| + j] == s[j]
    decreases times
  {
    RepeatLength(s, times);
    RepeatLength(s, times - 1);
    if t > 0 {
      RepeatBlock(s, times - 1, t - 1, j);
      assert t * |s| + j == |s| + ((t - 1) * |s| + j);
    }
  }

  lemma MulMonotone(a: nat, b: nat, c: nat)
    ensures a <= b ==> a * c <= b * c
  {
    if a <= b {
      assert b * c - a * c == (b - a) * c;
    }
  }

  /** The repetition has |s| * times elements and repeats with period |s|. */
  lemma RepeatAt(s: seq<real>, times: int, k: nat)
    requires k < |s| * Count(times)
    ensures k < |Repeat(s, times)| && Repeat(s, times)[k] == s[k % |s|]
  {
    RepeatLength(s, times);
    QuotientBelow(k, |s|, Count(times));
    RepeatBlock(s, times, k / |s|, k % |s|);
  }

  /** Below m * c, the quotient by m is below c, and k splits into quotient and remainder. */
  lemma QuotientBelow(k: nat, m: nat, c: nat)
    requires k < m * c
    ensures m > 0 && k / m < c && k == k / m * m + k % m && k % m < m
  {
    if k / m >= c {
      MulMonotone(c, k / m, m);
    }
  }

  /** gearprofile: the tooth profile once per tooth. */
  function GearProfile(toothfunc: real -> real, toothpts: int, innerrad: real, outerrad: real, teeth: int): seq<real> {
    Repeat(ToothProfile(toothfunc, toothpts, innerrad, outerrad), teeth)
  }

  /** The full profile has toothpts * teeth radii and repeats with period toothpts. */
  lemma GearProfileReplicates(toothfunc: real -> real, toothpts: int, innerrad: real, outerrad: real, teeth: int)
    ensures var g := GearProfile(toothfunc, toothpts, innerrad, outerrad, teeth);
            && |g| == Count(toothpts) * Count(teeth)
            && forall k :: 0 <= k < |g| ==> g[k] == ToothProfile(toothfunc, toothpts, innerrad, outerrad)[k % toothpts]
  {
    var tp := ToothProfile(toothfunc, toothpts, innerrad, outerrad);
    RepeatLength(tp, teeth);
    forall k | 0 <= k < |Repeat(tp, teeth)|
      ensures Repeat(tp, teeth)[k] == tp[k % toothpts]
    {
      RepeatAt(tp, teeth, k);
    }
  }

  // ---------------------------------------------------------------------
  // Parameters

  /** Without an angle function the gear is a straight spur gear: two layers, whatever was asked. */
  function Layers(anglefunc: Option<real -> real>, vlayers: int): (r: int)
    ensures anglefunc.None? ==> r == 2
    ensures anglefunc.Some? ==> r == vlayers
  {
    if anglefunc.None? then 2 else vlayers
  }

  /**
   * The file name gear3dgen picks when outfile is '': teeth, outer radius and
   * thickness, the last two printed by showArg as they were passed (an int
   * argument prints without a decimal point).
   */
  function DefaultName(teeth: int, outerrad: real, thickness: real, showArg: real -> string): string {
    IntToString(teeth) + "t_" + showArg(outerrad) + "r_" + showArg(thickness) + "y.obj"
  }

  /** The file written to: none when outfile is None, the default name when it is ''. */
  function OutputFile(outfile: Option<string>, teeth: int, outerrad: real, thickness: real,
                      showArg: real -> string): (r: Option<string>)
    ensures outfile.None? <==> r.None?
    ensures outfile == Some("") ==> r == Some(DefaultName(teeth, outerrad, thickness, showArg))
    ensures outfile.Some? && outfile.value != "" ==> r == outfile
  {
    match outfile
    case None => None
    case Some(name) => if name == "" then Some(DefaultName(teeth, outerrad, thickness, showArg)) else Some(name)
  }

  /** The tooth count reads back from the front of the default name, up to "t_"; the name ends in ".obj". */
  lemma DefaultNameEncodesTeeth(teeth: int, outerrad: real, thickness: real, showArg: real -> string)
    ensures var name := DefaultName(teeth, outerrad, thickness, showArg);
            var i := |IntToString(teeth)|;
            && i + 2 <= |name|
            && name[i..i + 2] == "t_"
            && (if name[0] == '-' then AllDigits(name[1..i]) else AllDigits(name[..i]))
            && ParseInt(name[..i]) == teeth
            && name[|name| - 4..] == ".obj"
  {
    var name := DefaultName(teeth, outerrad, thickness, showArg);
    var t := IntToString(teeth);
    assert name == t + ("t_" + showArg(outerrad) + "r_" + showArg(thickness) + "y.obj");
    assert name[..|t|] == t;
    ParseIntToString(teeth);
    assert name[1..|t|] == t[1..];
  }

  /**
   * With int arguments printed as Python prints them, gear3dgen(2, 18, 10, 32)
   * names its file "10t_18r_32y.obj", whatever show does to the coordinates.
   */
  lemma DefaultNameOfInts(showArg: real -> string)
    requires showArg(18.0) == "18" && showArg(32.0) == "32"
    ensures OutputFile(Some(""), 10, 18.0, 32.0, showArg) == Some("10t_18r_32y.obj")
  {
    assert NatToString(1) == "1" && NatToString(10) == NatToString(1) + "0";
    var name := DefaultName(10, 18.0, 32.0, showArg);
    assert name == "10" + "t_" + "18" + "r_" + "32" + "y.obj";
    assert |name| == 15 && forall i :: 0 <= i < |name| ==> name[i] == "10t_18r_32y.obj"[i];
    assert name == "10t_18r_32y.obj";
  }

  // ---------------------------------------------------------------------
  // The layers of points

  /** The height of a layer: layer * thickness / (vlayers - 1). */
  function LayerZ(layer: nat, vlayers: int, thickness: real): real
    requires vlayers != 1
  {
    layer as real * (thickness / (vlayers - 1) as real)
  }

  /** The twist of a layer: the angle function at layer / (vlayers - 1), or 0 without one. */
  function AngleBias(anglefunc: Option<real -> real>, layer: nat, vlayers: int): real
    requires vlayers != 1
  {
    match anglefunc
    case None => 0.0
    case Some(f) => f(layer as real / (vlayers - 1) as real)
  }

  /** Point k of a layer: profile radius k, at angle step k plus the layer's twist, at the layer's height. */
  function RimPoint(profile: seq<real>, vlayers: int, thickness: real, anglefunc: Option<real -> real>,
                    place: Placement, layer: nat, k: nat): Triple<real>
    requires vlayers != 1 && k < |profile|
  {
    var (x, y) := place(profile[k], k, |profile|, AngleBias(anglefunc, layer, vlayers));
    Triple(x, y, LayerZ(layer, vlayers, thickness))
  }

  /**
   * The bottom layer lies at height 0, where the floor centre is, and the top
   * layer at thickness, where the ceiling centre is.
   */
  lemma LayerHeights(profile: seq<real>, vlayers: int, thickness: real, anglefunc: Option<real -> real>,
                     place: Placement, k: nat)
    requires vlayers >= 2 && k < |profile|
    ensures RimPoint(profile, vlayers, thickness, anglefunc, place, 0, k).z == 0.0
    ensures RimPoint(profile, vlayers, thickness, anglefunc, place, vlayers - 1, k).z == thickness
  {
    var d := (vlayers - 1) as real;
    assert (vlayers - 1) as nat as real * (thickness / d) == d * (thickness / d);
  }

  /**
   * geargeometry: vlayers layers (none when vlayers is not positive), each
   * of the rim points in profile order followed by its first point again.
   */
  method BuildGeometry(profile: seq<real>, vlayers: int, thickness: real, anglefunc: Option<real -> real>,
                       place: Placement)
    returns (geometry: seq<seq<Triple<real>>>)
    requires vlayers != 1 && |profile| > 0
    ensures |geometry| == Count(vlayers)
    ensures forall l :: 0 <= l < |geometry| ==>
              |geometry[l]| == |profile| + 1 && geometry[l][|profile|] == geometry[l][0]
    ensures forall l, k :: 0 <= l < |geometry| && 0 <= k < |profile| ==>
              geometry[l][k] == RimPoint(profile, vlayers, thickness, anglefunc, place, l, k)
  {
    geometry := [];
    for layer := 0 to Count(vlayers)
      invariant |geometry| == layer
      invariant forall l :: 0 <= l < layer ==>
                  |geometry[l]| == |profile| + 1 && geometry[l][|profile|] == geometry[l][0]
      invariant forall l, k :: 0 <= l < layer && 0 <= k < |profile| ==>
                  geometry[l][k] == RimPoint(profile, vlayers, thickness, anglefunc, place, l, k)
    {
      var layerz := layer as real * (thickness / (vlayers - 1) as real);
      var anglebias := AngleBias(anglefunc, layer, vlayers);
      assert layerz == LayerZ(layer, vlayers, thickness);
      var layerpoints := [];
      for lstep := 0 to |profile|
        invariant |layerpoints| == lstep
        invariant forall k :: 0 <= k < lstep ==>
                    layerpoints[k] == RimPoint(profile, vlayers, thickness, anglefunc, place, layer, k)
      {
        var (lx, ly) := place(profile[lstep], lstep, |profile|, anglebias);
        layerpoints := layerpoints + [Triple(lx, ly, layerz)];
      }
      layerpoints := layerpoints + [layerpoints[0]];
      geometry := geometry + [layerpoints];
    }
  }

  /** Where gear3dgen puts each label: rim points of the layers, and the two centres on the axis. */
  function Position(profile: seq<real>, vlayers: int, thickness: real, anglefunc: Option<real -> real>,
                    place: Placement, point: Label): Triple<real>
    requires vlayers != 1 && |profile| > 0
  {
    match point
    case Rim(l, k) => RimPoint(profile, vlayers, thickness, anglefunc, place, l, k % |profile|)
    case FloorCentre => Triple(0.0, 0.0, 0.0)
    case CeilingCentre => Triple(0.0, 0.0, thickness)
  }

  /** Position as a map from labels to points, for one gear. */
  function Positions(profile: seq<real>, vlayers: int, thickness: real, anglefunc: Option<real -> real>,
                     place: Placement): Label -> Triple<real>
    requires vlayers != 1 && |profile| > 0
  {
    p => Position(profile, vlayers, thickness, anglefunc, place, p)
  }

  // ---------------------------------------------------------------------
  // Stitching

  /** The mesh after addface on each triangle of ts in turn, every label at its position. */
  function Emit(m: Mesh<real>, doubleface: bool, round: real -> real, pos: Label -> Triple<real>,
                ts: seq<Tri>, n: nat, layers: nat): Mesh<real>
    requires layers >= 1
  {
    if ts == [] then m
    else
      var c := CornersOf(ts[|ts| - 1], n, layers);
      AddFaceTo(Emit(m, doubleface, round, pos, ts[..|ts| - 1], n, layers), doubleface, round, pos(c.a), pos(c.b), pos(c.c))
  }

  lemma EmitSnoc(m: Mesh<real>, doubleface: bool, round: real -> real, pos: Label -> Triple<real>,
                 ts: seq<Tri>, t: Tri, n: nat, layers: nat)
    requires layers >= 1
    ensures var c := CornersOf(t, n, layers);
            Emit(m, doubleface, round, pos, ts + [t], n, layers)
              == AddFaceTo(Emit(m, doubleface, round, pos, ts, n, layers), doubleface, round, pos(c.a), pos(c.b), pos(c.c))
  {
    assert (ts + [t])[..|ts|] == ts;
  }

  /** Emitting two runs of triangles one after the other is emitting their concatenation. */
  lemma {:induction false} EmitAppend(m: Mesh<real>, doubleface: bool, round: real -> real, pos: Label -> Triple<real>,
                                      ts: seq<Tri>, us: seq<Tri>, n: nat, layers: nat)
    requires layers >= 1
    ensures Emit(Emit(m, doubleface, round, pos, ts, n, layers), doubleface, round, pos, us, n, layers)
            == Emit(m, doubleface, round, pos, ts + us, n, layers)
    decreases |us|
  {
    if us == [] {
      assert ts + us == ts;
    } else {
      var u := us[|us| - 1];
      var init := us[..|us| - 1];
      var mid := Emit(m, doubleface, round, pos, ts, n, layers);
      var c := CornersOf(u, n, layers);
      calc {
        Emit(mid, doubleface, round, pos, us, n, layers);
        AddFaceTo(Emit(mid, doubleface, round, pos, init, n, layers), doubleface, round, pos(c.a), pos(c.b), pos(c.c));
        { EmitAppend(m, doubleface, round, pos, ts, init, n, layers); }
        AddFaceTo(Emit(m, doubleface, round, pos, ts + init, n, layers), doubleface, round, pos(c.a), pos(c.b), pos(c.c));
        { EmitSnoc(m, doubleface, round, pos, ts + init, u, n, layers); }
        Emit(m, doubleface, round, pos, (ts + init) + [u], n, layers);
        { assert (ts + init) + [u] == ts + us; }
        Emit(m, doubleface, round, pos, ts + us, n, layers);
      }
    }
  }

  /**
   * geargeometry as the stitching reads it: vlayers layers of n + 1 points,
   * the last repeating the first, every point at the position of its label.
   */
  ghost predicate Laid(geometry: seq<seq<Triple<real>>>, n: nat, vlayers: nat, thickness: real, pos: Label -> Triple<real>) {
    && |geometry| == vlayers
    && (forall l :: 0 <= l < vlayers ==> |geometry[l]| == n + 1 && geometry[l][n] == geometry[l][0])
    && (forall l, k :: 0 <= l < vlayers && 0 <= k < n ==> geometry[l][k] == pos(Rim(l, k)))
    && pos(FloorCentre) == Triple(0.0, 0.0, 0.0) && pos(CeilingCentre) == Triple(0.0, 0.0, thickness)
  }

  /** One addface call of the stitching: the three points of a triangle, given as points. */
  method AddStitched(obj: Wavefront<real>, n: nat, vlayers: nat, ghost pos: Label -> Triple<real>, ghost t: Tri,
                     p0: Triple<real>, p1: Triple<real>, p2: Triple<real>)
    requires obj.Valid() && vlayers >= 1
    requires var c := CornersOf(t, n, vlayers); p0 == pos(c.a) && p1 == pos(c.b) && p2 == pos(c.c)
    modifies obj
    ensures obj.Valid()
    ensures obj.Model() == Emit(old(obj.Model()), obj.doubleface, obj.round, pos, [t], n, vlayers)
  {
    ThreePointsAddFace(obj.Model(), obj.doubleface, obj.round, p0, p1, p2);
    var outcome := obj.AddFace([Pt(p0), Pt(p1), Pt(p2)]);
    EmitSnoc(old(obj.Model()), obj.doubleface, obj.round, pos, [], t, n, vlayers);
    assert [] + [t] == [t];
  }

  /** One step of the side loop: the two triangles of the quad between layer and layer + 1 at point. */
  method StitchSide(obj: Wavefront<real>, geometry: seq<seq<Triple<real>>>, n: nat, vlayers: nat, thickness: real,
                    ghost pos: Label -> Triple<real>, layer: nat, point: nat)
    requires obj.Valid() && vlayers >= 2 && Laid(geometry, n, vlayers, thickness, pos)
    requires layer + 1 < vlayers && point < n
    modifies obj
    ensures obj.Valid()
    ensures obj.Model() == Emit(old(obj.Model()), obj.doubleface, obj.round, pos, [Lower(layer, point), Upper(layer, point)], n, vlayers)
  {
    ghost var m0 := obj.Model();
    var p0, p1, p2, p3 := geometry[layer][point], geometry[layer][point + 1],
                          geometry[layer + 1][point + 1], geometry[layer + 1][point];
    assert p0 == pos(At(layer, point, n)) && p1 == pos(At(layer, point + 1, n));
    assert p2 == pos(At(layer + 1, point + 1, n)) && p3 == pos(At(layer + 1, point, n));
    AddStitched(obj, n, vlayers, pos, Lower(layer, point), p0, p1, p2);
    AddStitched(obj, n, vlayers, pos, Upper(layer, point), p0, p2, p3);
    EmitAppend(m0, obj.doubleface, obj.round, pos, [Lower(layer, point)], [Upper(layer, point)], n, vlayers);
    assert [Lower(layer, point)] + [Upper(layer, point)] == [Lower(layer, point), Upper(layer, point)];
  }

  /** One step of the cap loop: the floor triangle at point, wound downwards, then the ceiling triangle. */
  method StitchCaps(obj: Wavefront<real>, geometry: seq<seq<Triple<real>>>, n: nat, vlayers: nat, thickness: real,
                    ghost pos: Label -> Triple<real>, point: nat)
    requires obj.Valid() && vlayers >= 2 && Laid(geometry, n, vlayers, thickness, pos)
    requires point < n
    modifies obj
    ensures obj.Valid()
    ensures obj.Model() == Emit(old(obj.Model()), obj.doubleface, obj.round, pos, [Floor(point), Ceiling(point)], n, vlayers)
  {
    ghost var m0 := obj.Model();
    var top := vlayers - 1;
    var f0, f1 := geometry[0][point + 1], geometry[0][point];
    assert f0 == pos(At(0, point + 1, n)) && f1 == pos(At(0, point, n));
    AddStitched(obj, n, vlayers, pos, Floor(point), f0, f1, Triple(0.0, 0.0, 0.0));
    var c0, c1 := geometry[top][point], geometry[top][point + 1];
    assert c0 == pos(At(top, point, n)) && c1 == pos(At(top, point + 1, n));
    AddStitched(obj, n, vlayers, pos, Ceiling(point), c0, c1, Triple(0.0, 0.0, thickness));
    EmitAppend(m0, obj.doubleface, obj.round, pos, [Floor(point)], [Ceiling(point)], n, vlayers);
    assert [Floor(point)] + [Ceiling(point)] == [Floor(point), Ceiling(point)];
  }

  lemma EmitNextBand(m: Mesh<real>, doubleface: bool, round: real -> real, pos: Label -> Triple<real>,
                     n: nat, layer: nat, layers: nat)
    requires layers >= 1
    ensures Emit(Emit(m, doubleface, round, pos, Sides(n, layer), n, layers), doubleface, round, pos, Row(layer, n), n, layers)
            == Emit(m, doubleface, round, pos, Sides(n, layer + 1), n, layers)
  {
    EmitAppend(m, doubleface, round, pos, Sides(n, layer), Row(layer, n), n, layers);
  }

  /** The inner side loop of gear3dgen for one band: the side triangles between layer and layer + 1, point by point. */
  method StitchBand(obj: Wavefront<real>, geometry: seq<seq<Triple<real>>>, n: nat, vlayers: nat, thickness: real,
                    ghost pos: Label -> Triple<real>, layer: nat)
    requires obj.Valid() && vlayers >= 2 && Laid(geometry, n, vlayers, thickness, pos)
    requires layer + 1 < vlayers
    modifies obj
    ensures obj.Valid()
    ensures obj.Model() == Emit(old(obj.Model()), obj.doubleface, obj.round, pos, Row(layer, n), n, vlayers)
  {
    ghost var m0 := obj.Model();
    for point := 0 to n
      invariant obj.Valid()
      invariant obj.Model() == Emit(m0, obj.doubleface, obj.round, pos, Row(layer, point), n, vlayers)
    {
      StitchSide(obj, geometry, n, vlayers, thickness, pos, layer, point);
      EmitAppend(m0, obj.doubleface, obj.round, pos, Row(layer, point), [Lower(layer, point), Upper(layer, point)], n, vlayers);
    }
  }

  /** The cap loop of gear3dgen: the floor and the ceiling triangle of every rim point. */
  method StitchAllCaps(obj: Wavefront<real>, geometry: seq<seq<Triple<real>>>, n: nat, vlayers: nat, thickness: real,
                       ghost pos: Label -> Triple<real>)
    requires obj.Valid() && vlayers >= 2 && Laid(geometry, n, vlayers, thickness, pos)
    modifies obj
    ensures obj.Valid()
    ensures obj.Model() == Emit(old(obj.Model()), obj.doubleface, obj.round, pos, Caps(n), n, vlayers)
  {
    ghost var m0 := obj.Model();
    for point := 0 to n
      invariant obj.Valid()
      invariant obj.Model() == Emit(m0, obj.doubleface, obj.round, pos, Caps(point), n, vlayers)
    {
      StitchCaps(obj, geometry, n, vlayers, thickness, pos, point);
      EmitAppend(m0, obj.doubleface, obj.round, pos, Caps(point), [Floor(point), Ceiling(point)], n, vlayers);
    }
  }

  /** The side loops of gear3dgen: every band of side triangles, from the floor layer up. */
  method StitchSides(obj: Wavefront<real>, geometry: seq<seq<Triple<real>>>, n: nat, vlayers: nat, thickness: real,
                     ghost pos: Label -> Triple<real>)
    requires obj.Valid() && vlayers >= 2 && Laid(geometry, n, vlayers, thickness, pos)
    modifies obj
    ensures obj.Valid()
    ensures obj.Model() == Emit(old(obj.Model()), obj.doubleface, obj.round, pos, Sides(n, vlayers - 1), n, vlayers)
  {
    ghost var m0 := obj.Model();
    for layer := 0 to vlayers - 1
      invariant obj.Valid()
      invariant obj.Model() == Emit(m0, obj.doubleface, obj.round, pos, Sides(n, layer), n, vlayers)
    {
      StitchBand(obj, geometry, n, vlayers, thickness, pos, layer);
      EmitNextBand(m0, obj.doubleface, obj.round, pos, n, layer, vlayers);
    }
  }

  /**
   * The stitching of gear3dgen: all side triangles, then the caps; the mesh
   * grows exactly as if addface were applied to the triangles of Stitches in
   * order, each corner at the position of its label.
   */
  method Stitch(obj: Wavefront<real>, geometry: seq<seq<Triple<real>>>, n: nat, vlayers: nat, thickness: real,
                ghost pos: Label -> Triple<real>)
    requires obj.Valid() && vlayers >= 2 && Laid(geometry, n, vlayers, thickness, pos)
    modifies obj
    ensures obj.Valid()
    ensures obj.Model() == Emit(old(obj.Model()), obj.doubleface, obj.round, pos, Stitches(n, vlayers), n, vlayers)
  {
    ghost var m0 := obj.Model();
    StitchSides(obj, geometry, n, vlayers, thickness, pos);
    StitchAllCaps(obj, geometry, n, vlayers, thickness, pos);
    EmitAppend(m0, obj.doubleface, obj.round, pos, Sides(n, vlayers - 1), Caps(n), n, vlayers);
  }

  // ---------------------------------------------------------------------
  // gear3dgen

  /** The mesh gear3dgen builds: every stitched triangle, in order, added to an empty single-faced builder. */
  function GearMesh(profile: seq<real>, layers: nat, thickness: real, anglefunc: Option<real -> real>,
                    place: Placement, round: real -> real): Mesh<real>
    requires |profile| > 0 && layers >= 2
  {
    Emit(Mesh([], []), false, round, Positions(profile, layers, thickness, anglefunc, place),
         Stitches(|profile|, layers), |profile|, layers)
  }

  /**
   * What gear3dgen returns or raises: ZeroDivisionError for an empty profile
   * (the angle step divides by its length) and for a single layer (the layer
   * height divides by vlayers - 1), IndexError for no layer at all (the caps
   * read layer 0), and otherwise the file name and the OBJ text of the mesh.
   */
  function Generation(innerrad: real, outerrad: real, teeth: int, thickness: real, outfile: Option<string> := Some(""),
                      toothfunc: real -> real, toothpts: int := 20, anglefunc: Option<real -> real> := None,
                      vlayers: int := 32, round: real -> real, show: real -> string, showArg: real -> string,
                      place: Placement): GearResult
  {
    var profile := GearProfile(toothfunc, toothpts, innerrad, outerrad, teeth);
    var layers := Layers(anglefunc, vlayers);
    if |profile| == 0 then Raised(ZeroDivisionError)
    else if layers == 1 then Raised(ZeroDivisionError)
    else if layers <= 0 then Raised(IndexError)
    else Generated(OutputFile(outfile, teeth, outerrad, thickness, showArg),
                   Concat(Lines(GearMesh(profile, layers, thickness, anglefunc, place, round), show)))
  }

  /** The layers BuildGeometry returns hold every rim label at its position. */
  lemma GeometryLaid(geometry: seq<seq<Triple<real>>>, profile: seq<real>, layers: nat, thickness: real,
                     anglefunc: Option<real -> real>, place: Placement)
    requires |profile| > 0 && layers >= 2 && |geometry| == layers
    requires forall l :: 0 <= l < |geometry| ==>
               |geometry[l]| == |profile| + 1 && geometry[l][|profile|] == geometry[l][0]
    requires forall l, k :: 0 <= l < |geometry| && 0 <= k < |profile| ==>
               geometry[l][k] == RimPoint(profile, layers, thickness, anglefunc, place, l, k)
    ensures Laid(geometry, |profile|, layers, thickness, Positions(profile, layers, thickness, anglefunc, place))
  {
    forall l, k | 0 <= l < layers && 0 <= k < |profile|
      ensures geometry[l][k] == Position(profile, layers, thickness, anglefunc, place, Rim(l, k))
    {
      assert k % |profile| == k;
    }
  }

  /**
   * gear3dgen: build the profile, the layers of points and the stitched
   * mesh, and return the OBJ text (with the file it names); writing the file
   * is left to the caller.
   */
  method Gear3DGen(innerrad: real, outerrad: real, teeth: int, thickness: real, outfile: Option<string> := Some(""),
                   toothfunc: real -> real, toothpts: int := 20, anglefunc: Option<real -> real> := None,
                   vlayers: int := 32, round: real -> real, show: real -> string, showArg: real -> string,
                   place: Placement)
    returns (result: GearResult)
    ensures result == Generation(innerrad, outerrad, teeth, thickness, outfile, toothfunc, toothpts,
                                 anglefunc, vlayers, round, show, showArg, place)
  {
    var file := OutputFile(outfile, teeth, outerrad, thickness, showArg);
    var toothprofile := ToothProfile(toothfunc, toothpts, innerrad, outerrad);
    var gearprofile := Repeat(toothprofile, teeth);
    if |gearprofile| == 0 {
      return Raised(ZeroDivisionError);
    }
    var layers := Layers(anglefunc, vlayers);
    if layers == 1 {
      return Raised(ZeroDivisionError);
    }
    var geometry := BuildGeometry(gearprofile, layers, thickness, anglefunc, place);
    if |geometry| == 0 {
      return Raised(IndexError);
    }
    var obj := new Wavefront(false, round);
    ghost var pos := Positions(gearprofile, layers, thickness, anglefunc, place);
    GeometryLaid(geometry, gearprofile, layers, thickness, anglefunc, place);
    Stitch(obj, geometry, |gearprofile|, layers, thickness, pos);
    assert obj.Model() == GearMesh(gearprofile, layers, thickness, anglefunc, place, round);
    var content := obj.Save(show);
    return Generated(file, content);
  }

  // ---------------------------------------------------------------------
  // The mesh gear3dgen builds

  /** Face i of m holds the rounded positions of the corners of c, in the order of c. */
  predicate Resolves(m: Mesh<real>, i: nat, c: Triangle, round: real -> real, pos: Label -> Triple<real>) {
    && i < |m.faces|
    && InRange(m.faces[i], |m.vertices|)
    && m.vertices[m.faces[i].a] == RoundTriple(round, pos(c.a))
    && m.vertices[m.faces[i].b] == RoundTriple(round, pos(c.b))
    && m.vertices[m.faces[i].c] == RoundTriple(round, pos(c.c))
  }

  /** Where the face of the k-th emitted triangle lands: one face per triangle, or two with double faces. */
  function Slot(k: nat, doubleface: bool): nat {
    if doubleface then 2 * k else k
  }

  /** Appending vertices and faces leaves a resolved face resolved. */
  lemma ResolvesKept(m: Mesh<real>, m': Mesh<real>, i: nat, c: Triangle, round: real -> real, pos: Label -> Triple<real>)
    requires Resolves(m, i, c, round, pos)
    requires m.vertices <= m'.vertices && m.faces <= m'.faces
    ensures Resolves(m', i, c, round, pos)
  {
    var f := m.faces[i];
    assert m'.faces[i] == f;
    assert m'.vertices[f.a] == m.vertices[f.a] && m'.vertices[f.b] == m.vertices[f.b] && m'.vertices[f.c] == m.vertices[f.c];
  }

  /** One more triangle: the mesh stays well formed and grows at the end, the new face resolved. */
  lemma EmitStep(m: Mesh<real>, doubleface: bool, round: real -> real, pos: Label -> Triple<real>,
                 ts: seq<Tri>, n: nat, layers: nat)
    requires layers >= 1 && ts != []
    ensures var e0 := Emit(m, doubleface, round, pos, ts[..|ts| - 1], n, layers);
            var e := Emit(m, doubleface, round, pos, ts, n, layers);
            && (WellFormed(e0) ==> WellFormed(e))
            && e0.vertices <= e.vertices && e0.faces <= e.faces
            && |e.faces| == |e0.faces| + Slot(1, doubleface)
            && Resolves(e, |e0.faces|, CornersOf(ts[|ts| - 1], n, layers), round, pos)
  {
    var e0 := Emit(m, doubleface, round, pos, ts[..|ts| - 1], n, layers);
    var c := CornersOf(ts[|ts| - 1], n, layers);
    AddFaceSpec(e0, doubleface, round, pos(c.a), pos(c.b), pos(c.c));
  }

  /**
   * e is the empty mesh with the triangles ts added: well formed, one face
   * per triangle (two with double faces), and the face of the k-th triangle
   * holding the rounded positions of its corners.
   */
  predicate Grown(e: Mesh<real>, doubleface: bool, round: real -> real, pos: Label -> Triple<real>,
                  ts: seq<Tri>, n: nat, layers: nat)
    requires layers >= 1
  {
    && WellFormed(e)
    && |e.faces| == Slot(|ts|, doubleface)
    && forall k :: 0 <= k < |ts| ==> Resolves(e, Slot(k, doubleface), CornersOf(ts[k], n, layers), round, pos)
  }

  lemma GrownSnoc(e0: Mesh<real>, e: Mesh<real>, doubleface: bool, round: real -> real,
                  pos: Label -> Triple<real>, ts: seq<Tri>, n: nat, layers: nat)
    requires layers >= 1 && ts != []
    requires Grown(e0, doubleface, round, pos, ts[..|ts| - 1], n, layers)
    requires WellFormed(e)
    requires e0.vertices <= e.vertices && e0.faces <= e.faces
    requires |e.faces| == |e0.faces| + Slot(1, doubleface)
    requires Resolves(e, |e0.faces|, CornersOf(ts[|ts| - 1], n, layers), round, pos)
    ensures Grown(e, doubleface, round, pos, ts, n, layers)
  {
    var init := ts[..|ts| - 1];
    forall k | 0 <= k < |init|
      ensures Resolves(e, Slot(k, doubleface), CornersOf(ts[k], n, layers), round, pos)
    {
      assert ts[k] == init[k];
      ResolvesKept(e0, e, Slot(k, doubleface), CornersOf(ts[k], n, layers), round, pos);
    }
    assert Slot(|init|, doubleface) == |e0.faces|;
  }

  /** Emitting triangles into the empty mesh grows it as Grown describes. */
  lemma {:induction false} EmitSpec(doubleface: bool, round: real -> real, pos: Label -> Triple<real>,
                                    ts: seq<Tri>, n: nat, layers: nat)
    requires layers >= 1
    ensures Grown(Emit(Mesh([], []), doubleface, round, pos, ts, n, layers), doubleface, round, pos, ts, n, layers)
    decreases |ts|
  {
    if ts != [] {
      var e0 := Emit(Mesh([], []), doubleface, round, pos, ts[..|ts| - 1], n, layers);
      var e := Emit(Mesh([], []), doubleface, round, pos, ts, n, layers);
      EmitSpec(doubleface, round, pos, ts[..|ts| - 1], n, layers);
      EmitStep(Mesh([], []), doubleface, round, pos, ts, n, layers);
      GrownSnoc(e0, e, doubleface, round, pos, ts, n, layers);
    }
  }

  /**
   * The mesh gear3dgen builds is the empty mesh grown by the stitched
   * triangles (well formed, face k holding the rounded positions of the
   * corners of the k-th triangle), with 2 N (layers - 1) side faces and 2 N
   * cap faces for N profile points.
   */
  lemma GearMeshShape(profile: seq<real>, layers: nat, thickness: real, anglefunc: Option<real -> real>,
                      place: Placement, round: real -> real)
    requires |profile| > 0 && layers >= 2
    ensures var m := GearMesh(profile, layers, thickness, anglefunc, place, round);
            var n := |profile|;
            && Grown(m, false, round, Positions(profile, layers, thickness, anglefunc, place), Stitches(n, layers), n, layers)
            && |m.faces| == 2 * n * (layers - 1) + 2 * n
  {
    var n := |profile|;
    StitchesEnumerate(n, layers);
    EmitSpec(false, round, Positions(profile, layers, thickness, anglefunc, place), Stitches(n, layers), n, layers);
  }

  /** The gear mesh is well formed and holds 2N(L - 1) side faces and 2N cap faces. */
  lemma GearMeshFaces(profile: seq<real>, layers: nat, thickness: real, anglefunc: Option<real -> real>,
                      place: Placement, round: real -> real)
    requires |profile| > 0 && layers >= 2
    ensures var m := GearMesh(profile, layers, thickness, anglefunc, place, round);
            WellFormed(m) && |m.faces| == 2 * |profile| * (layers - 1) + 2 * |profile|
  {
    GearMeshShape(profile, layers, thickness, anglefunc, place, round);
  }

  /** The rim labels of one layer, point 0 to point count - 1. */
  function RimRow(l: nat, count: nat): (r: seq<Label>)
    ensures |r| == count
    ensures forall p :: p in r <==> p.Rim? && p.layer == l && p.k < count
  {
    if count == 0 then [] else RimRow(l, count - 1) + [Rim(l, count - 1)]
  }

  /** Every label the stitching can use: the two centres, then the rim points layer by layer. */
  function StitchLabels(n: nat, layers: nat): (r: seq<Label>)
    ensures |r| == n * layers + 2
    ensures forall p :: p in r <==> LabelIn(p, n, layers)
  {
    if layers == 0 then [FloorCentre, CeilingCentre]
    else
      assert n * layers == n * (layers - 1) + n;
      StitchLabels(n, layers - 1) + RimRow(layers - 1, n)
  }

  /** v is the rounded position of a label the stitching can use. */
  ghost predicate Stitched(v: Triple<real>, round: real -> real, pos: Label -> Triple<real>, n: nat, layers: nat) {
    exists p :: LabelIn(p, n, layers) && v == RoundTriple(round, pos(p))
  }

  /** Emitting valid triangles into the empty mesh adds no vertex but the rounded positions of their corners. */
  lemma {:induction false} EmitStitched(doubleface: bool, round: real -> real, pos: Label -> Triple<real>,
                                        ts: seq<Tri>, n: nat, layers: nat)
    requires layers >= 1 && n >= 1
    requires forall t :: t in ts ==> ValidTri(t, n, layers)
    ensures forall v :: v in Emit(Mesh([], []), doubleface, round, pos, ts, n, layers).vertices ==>
              Stitched(v, round, pos, n, layers)
    decreases |ts|
  {
    if ts != [] {
      var init := ts[..|ts| - 1];
      assert forall t :: t in init ==> t in ts;
      EmitStitched(doubleface, round, pos, init, n, layers);
      var e0 := Emit(Mesh([], []), doubleface, round, pos, init, n, layers);
      var t := ts[|ts| - 1];
      assert t in ts;
      var c := CornersOf(t, n, layers);
      CornersIn(t, n, layers);
      var keys := [RoundTriple(round, pos(c.a)), RoundTriple(round, pos(c.b)), RoundTriple(round, pos(c.c))];
      AddVerticesResolve(e0.vertices, keys);
      forall v | v in Emit(Mesh([], []), doubleface, round, pos, ts, n, layers).vertices
        ensures Stitched(v, round, pos, n, layers)
      {
        if v !in e0.vertices {
          if v == keys[0] {
            assert LabelIn(c.a, n, layers) && v == RoundTriple(round, pos(c.a));
          } else if v == keys[1] {
            assert LabelIn(c.b, n, layers) && v == RoundTriple(round, pos(c.b));
          } else {
            assert LabelIn(c.c, n, layers) && v == RoundTriple(round, pos(c.c));
          }
        }
      }
    }
  }

  /**
   * Every vertex of the gear mesh is a stitched point, rounded, and there are
   * at most N * layers + 2 of them: the rim points and the two centres.
   */
  lemma GearMeshVertices(profile: seq<real>, layers: nat, thickness: real, anglefunc: Option<real -> real>,
                         place: Placement, round: real -> real)
    requires |profile| > 0 && layers >= 2
    ensures var m := GearMesh(profile, layers, thickness, anglefunc, place, round);
            var pos := Positions(profile, layers, thickness, anglefunc, place);
            && (forall v :: v in m.vertices ==> Stitched(v, round, pos, |profile|, layers))
            && |m.vertices| <= |profile| * layers + 2
  {
    var n := |profile|;
    var pos := Positions(profile, layers, thickness, anglefunc, place);
    var m := GearMesh(profile, layers, thickness, anglefunc, place, round);
    StitchesEnumerate(n, layers);
    EmitStitched(false, round, pos, Stitches(n, layers), n, layers);
    GearMeshFaces(profile, layers, thickness, anglefunc, place, round);
    var labels := StitchLabels(n, layers);
    var image := seq(|labels|, i requires 0 <= i < |labels| => RoundTriple(round, pos(labels[i])));
    forall v | v in m.vertices
      ensures v in image
    {
      var p :| LabelIn(p, n, layers) && v == RoundTriple(round, pos(p));
      var i :| 0 <= i < |labels| && labels[i] == p;
      assert image[i] == v;
    }
    DistinctWithin(m.vertices, image);
  }

  lemma GrownFromEmpty(e: Mesh<real>, round: real -> real, pos: Label -> Triple<real>, ts: seq<Tri>, n: nat, layers: nat)
    requires layers >= 1 && Grown(e, false, round, pos, ts, n, layers)
    ensures WellFormed(e) && |e.faces| == |ts|
    ensures forall k :: 0 <= k < |e.faces| ==> Resolves(e, k, CornersOf(ts[k], n, layers), round, pos)
  {
    forall k | 0 <= k < |e.faces|
      ensures Resolves(e, k, CornersOf(ts[k], n, layers), round, pos)
    {
      assert 0 + Slot(k, false) == k;
    }
  }

  /**
   * A spur gear (no angle function) with at least one tooth of at least one
   * point always comes out, as two layers whatever vlayers says: the saved
   * text of the two-layer mesh, under the name OutputFile gives.
   */
  lemma SpurGear(innerrad: real, outerrad: real, teeth: int, thickness: real, outfile: Option<string>,
                 toothfunc: real -> real, toothpts: int, vlayers: int,
                 round: real -> real, show: real -> string, showArg: real -> string, place: Placement)
    requires toothpts > 0 && teeth > 0
    ensures Generation(innerrad, outerrad, teeth, thickness, outfile, toothfunc, toothpts, None, vlayers,
                       round, show, showArg, place)
            == Generated(OutputFile(outfile, teeth, outerrad, thickness, showArg),
                         Concat(Lines(GearMesh(GearProfile(toothfunc, toothpts, innerrad, outerrad, teeth), 2,
                                               thickness, None, place, round), show)))
  {
    GearProfileReplicates(toothfunc, toothpts, innerrad, outerrad, teeth);
    MulPositive(toothpts, teeth);
    assert Layers(None, vlayers) == 2;
  }

  /**
   * gear3dgen called with its defaults: the default file name, 20 points per
   * tooth and no angle function, so a two-layer spur gear whatever vlayers'
   * default of 32 says.
   */
  lemma DefaultCall(innerrad: real, outerrad: real, teeth: int, thickness: real, toothfunc: real -> real,
                    round: real -> real, show: real -> string, showArg: real -> string, place: Placement)
    requires teeth > 0
    ensures Generation(innerrad, outerrad, teeth, thickness, toothfunc := toothfunc, round := round, show := show,
                       showArg := showArg, place := place)
            == Generated(Some(DefaultName(teeth, outerrad, thickness, showArg)),
                         Concat(Lines(GearMesh(GearProfile(toothfunc, 20, innerrad, outerrad, teeth), 2,
                                               thickness, None, place, round), show)))
  {
    SpurGear(innerrad, outerrad, teeth, thickness, Some(""), toothfunc, 20, 32, round, show, showArg, place);
  }

  /**
   * How gear3dgen ends: ZeroDivisionError when there is no tooth or no point
   * per tooth, or when an angle function asks for a single layer; IndexError
   * when it asks for no layer at all; otherwise the OBJ text, with a file
   * name exactly when outfile is not None.
   */
  lemma GenerationOutcome(innerrad: real, outerrad: real, teeth: int, thickness: real, outfile: Option<string>,
                          toothfunc: real -> real, toothpts: int, anglefunc: Option<real -> real>, vlayers: int,
                          round: real -> real, show: real -> string, showArg: real -> string, place: Placement)
    ensures var r := Generation(innerrad, outerrad, teeth, thickness, outfile, toothfunc, toothpts,
                                anglefunc, vlayers, round, show, showArg, place);
            && (toothpts <= 0 || teeth <= 0 ==> r == Raised(ZeroDivisionError))
            && (toothpts > 0 && teeth > 0 && anglefunc.Some? && vlayers == 1 ==> r == Raised(ZeroDivisionError))
            && (toothpts > 0 && teeth > 0 && anglefunc.Some? && vlayers <= 0 ==> r == Raised(IndexError))
            && (r.Generated? <==> toothpts > 0 && teeth > 0 && (anglefunc.None? || vlayers >= 2))
            && (r.Generated? ==> (r.file.None? <==> outfile.None?))
  {
    ProfileEmpty(toothfunc, toothpts, innerrad, outerrad, teeth);
  }

  /** The profile is empty exactly when there is no tooth or no point per tooth. */
  lemma ProfileEmpty(toothfunc: real -> real, toothpts: int, innerrad: real, outerrad: real, teeth: int)
    ensures |GearProfile(toothfunc, toothpts, innerrad, outerrad, teeth)| == 0 <==> toothpts <= 0 || teeth <= 0
  {
    RepeatLength(ToothProfile(toothfunc, toothpts, innerrad, outerrad), teeth);
    if toothpts > 0 && teeth > 0 {
      MulPositive(toothpts, teeth);
    }
  }

  /** The two-layer mesh of a spur gear has four faces per profile point: 4 * toothpts * teeth. */
  lemma SpurGearFaces(innerrad: real, outerrad: real, teeth: int, thickness: real,
                      toothfunc: real -> real, toothpts: int, place: Placement, round: real -> real)
    requires toothpts > 0 && teeth > 0
    ensures var m := GearMesh(GearProfile(toothfunc, toothpts, innerrad, outerrad, teeth), 2, thickness, None, place, round);
            WellFormed(m) && |m.faces| == 4 * (toothpts * teeth)
  {
    var tp := ToothProfile(toothfunc, toothpts, innerrad, outerrad);
    RepeatLength(tp, teeth);
    MulPositive(toothpts, teeth);
    GearMeshFaces(Repeat(tp, teeth), 2, thickness, None, place, round);
    FourPerPoint(|Repeat(tp, teeth)|, toothpts * teeth);
  }

  lemma FourPerPoint(n: nat, c: int)
    requires n == c
    ensures 2 * n * (2 - 1) + 2 * n == 4 * c
  {
  }

  lemma MulPositive(a: int, b: int)
    requires a > 0 && b > 0
    ensures a * b > 0
  {
  }

  // ---------------------------------------------------------------------
  // The closed mesh, by vertex index

  /** The directed edges of an index face follow its winding, as those of a label triangle do. */
  predicate FaceHasEdge(f: Face, x: nat, y: nat) {
    (f.a == x && f.b == y) || (f.b == x && f.c == y) || (f.c == x && f.a == y)
  }

  /** A label the stitching uses: a rim point of an existing layer, or one of the two centres. */
  predicate LabelIn(p: Label, n: nat, layers: nat) {
    match p
    case Rim(l, k) => l < layers && k < n
    case _ => true
  }

  lemma CornersIn(t: Tri, n: nat, layers: nat)
    requires layers >= 1 && n >= 1 && ValidTri(t, n, layers)
    ensures var c := CornersOf(t, n, layers);
            LabelIn(c.a, n, layers) && LabelIn(c.b, n, layers) && LabelIn(c.c, n, layers)
  {
  }

  /** Rounding keeps the stitched points apart: distinct labels end up as distinct vertices. */
  ghost predicate Separated(round: real -> real, pos: Label -> Triple<real>, n: nat, layers: nat) {
    forall p, q :: LabelIn(p, n, layers) && LabelIn(q, n, layers) && RoundTriple(round, pos(p)) == RoundTriple(round, pos(q))
                   ==> p == q
  }

  /** An index edge of a resolved face is the image of a label edge of its triangle. */
  lemma LiftEdge(e: Mesh<real>, i: nat, c: Triangle, round: real -> real, pos: Label -> Triple<real>, x: nat, y: nat)
    returns (u: Label, v: Label)
    requires Resolves(e, i, c, round, pos) && FaceHasEdge(e.faces[i], x, y)
    ensures HasEdge(c, u, v)
    ensures u in {c.a, c.b, c.c} && v in {c.a, c.b, c.c}
    ensures x < |e.vertices| && y < |e.vertices|
    ensures e.vertices[x] == RoundTriple(round, pos(u)) && e.vertices[y] == RoundTriple(round, pos(v))
  {
    var f := e.faces[i];
    if f.a == x && f.b == y {
      u, v := c.a, c.b;
    } else if f.b == x && f.c == y {
      u, v := c.b, c.c;
    } else {
      u, v := c.c, c.a;
    }
  }

  /** A label edge of a triangle shows up as an index edge of its resolved face. */
  lemma LowerEdge(e: Mesh<real>, i: nat, c: Triangle, round: real -> real, pos: Label -> Triple<real>, u: Label, v: Label)
    returns (x: nat, y: nat)
    requires Resolves(e, i, c, round, pos) && HasEdge(c, u, v)
    ensures FaceHasEdge(e.faces[i], x, y)
    ensures x < |e.vertices| && y < |e.vertices|
    ensures e.vertices[x] == RoundTriple(round, pos(u)) && e.vertices[y] == RoundTriple(round, pos(v))
  {
    var f := e.faces[i];
    if c.a == u && c.b == v {
      x, y := f.a, f.b;
    } else if c.b == u && c.c == v {
      x, y := f.b, f.c;
    } else {
      x, y := f.c, f.a;
    }
  }

  /** Separated, used once: two stitched labels that round to the same vertex are the same label. */
  lemma Apart(round: real -> real, pos: Label -> Triple<real>, n: nat, layers: nat, p: Label, q: Label)
    requires Separated(round, pos, n, layers)
    requires LabelIn(p, n, layers) && LabelIn(q, n, layers) && RoundTriple(round, pos(p)) == RoundTriple(round, pos(q))
    ensures p == q
  {
  }

  /** An index edge of the grown mesh, read back as a label edge of the stitched triangle behind its face. */
  lemma LiftStitched(e: Mesh<real>, round: real -> real, pos: Label -> Triple<real>, n: nat, layers: nat,
                     j: nat, x: nat, y: nat)
    returns (u: Label, v: Label)
    requires n >= 1 && layers >= 2
    requires Grown(e, false, round, pos, Stitches(n, layers), n, layers)
    requires j < |e.faces| && FaceHasEdge(e.faces[j], x, y)
    ensures |e.faces| == |Stitches(n, layers)| && Distinct(e.vertices)
    ensures HasEdge(CornersOf(Stitches(n, layers)[j], n, layers), u, v)
    ensures LabelIn(u, n, layers) && LabelIn(v, n, layers)
    ensures x < |e.vertices| && y < |e.vertices|
    ensures e.vertices[x] == RoundTriple(round, pos(u)) && e.vertices[y] == RoundTriple(round, pos(v))
  {
    var ts := Stitches(n, layers);
    GrownFromEmpty(e, round, pos, ts, n, layers);
    StitchesEnumerate(n, layers);
    assert ts[j] in ts;
    CornersIn(ts[j], n, layers);
    u, v := LiftEdge(e, j, CornersOf(ts[j], n, layers), round, pos, x, y);
  }

  /** In a grown mesh whose rounding keeps labels apart, a directed index edge lies in one face only. */
  lemma EdgeOwnedOnce(e: Mesh<real>, round: real -> real, pos: Label -> Triple<real>, n: nat, layers: nat,
                      i: nat, j: nat, x: nat, y: nat)
    requires n >= 3 && layers >= 2
    requires Grown(e, false, round, pos, Stitches(n, layers), n, layers)
    requires Separated(round, pos, n, layers)
    requires i < |e.faces| && FaceHasEdge(e.faces[i], x, y)
    requires j < |e.faces| && FaceHasEdge(e.faces[j], x, y)
    ensures i == j
  {
    var u, v := LiftStitched(e, round, pos, n, layers, i, x, y);
    var u', v' := LiftStitched(e, round, pos, n, layers, j, x, y);
    Apart(round, pos, n, layers, u, u');
    Apart(round, pos, n, layers, v, v');
    ClosedSurface(n, layers, i, u, v);
  }

  /** In a grown mesh whose rounding keeps labels apart, the reverse of a face's edge lies in another face. */
  lemma EdgeReversed(e: Mesh<real>, round: real -> real, pos: Label -> Triple<real>, n: nat, layers: nat,
                     i: nat, x: nat, y: nat)
    returns (j: nat)
    requires n >= 3 && layers >= 2
    requires Grown(e, false, round, pos, Stitches(n, layers), n, layers)
    requires i < |e.faces| && FaceHasEdge(e.faces[i], x, y)
    ensures j < |e.faces| && j != i && FaceHasEdge(e.faces[j], y, x)
  {
    var ts := Stitches(n, layers);
    var u, v := LiftStitched(e, round, pos, n, layers, i, x, y);
    ClosedSurface(n, layers, i, u, v);
    j :| 0 <= j < |ts| && j != i && HasEdge(CornersOf(ts[j], n, layers), v, u);
    GrownFromEmpty(e, round, pos, ts, n, layers);
    var x', y' := LowerEdge(e, j, CornersOf(ts[j], n, layers), round, pos, v, u);
    DistinctIndex(e.vertices, x', y);
    DistinctIndex(e.vertices, y', x);
  }

  /**
   * The label-level closed surface carried over to any mesh grown from the
   * stitched triangles whose rounding keeps the labels apart.
   */
  lemma ClosedByIndex(e: Mesh<real>, round: real -> real, pos: Label -> Triple<real>, n: nat, layers: nat,
                      i: nat, x: nat, y: nat)
    requires n >= 3 && layers >= 2
    requires Grown(e, false, round, pos, Stitches(n, layers), n, layers)
    requires Separated(round, pos, n, layers)
    requires i < |e.faces| && FaceHasEdge(e.faces[i], x, y)
    ensures forall j :: 0 <= j < |e.faces| && FaceHasEdge(e.faces[j], x, y) ==> j == i
    ensures exists j :: 0 <= j < |e.faces| && j != i && FaceHasEdge(e.faces[j], y, x)
    ensures forall j, j' :: 0 <= j < |e.faces| && 0 <= j' < |e.faces|
                            && FaceHasEdge(e.faces[j], y, x) && FaceHasEdge(e.faces[j'], y, x)
                            ==> j == j'
  {
    forall j | 0 <= j < |e.faces| && FaceHasEdge(e.faces[j], x, y)
      ensures j == i
    {
      EdgeOwnedOnce(e, round, pos, n, layers, i, j, x, y);
    }
    var r := EdgeReversed(e, round, pos, n, layers, i, x, y);
    forall j, j' | 0 <= j < |e.faces| && 0 <= j' < |e.faces|
                   && FaceHasEdge(e.faces[j], y, x) && FaceHasEdge(e.faces[j'], y, x)
      ensures j == j'
    {
      EdgeOwnedOnce(e, round, pos, n, layers, j, j', y, x);
    }
  }

  /**
   * The mesh gear3dgen writes is a closed, consistently wound surface: for
   * at least three profile points and two layers, and a rounding that keeps
   * the stitched points apart, every directed edge of a face belongs to that
   * face alone and its reverse to exactly one other face.
   */
  lemma ClosedGearMesh(profile: seq<real>, layers: nat, thickness: real, anglefunc: Option<real -> real>,
                       place: Placement, round: real -> real, i: nat, x: nat, y: nat)
    requires |profile| >= 3 && layers >= 2
    requires Separated(round, Positions(profile, layers, thickness, anglefunc, place), |profile|, layers)
    requires var fs := GearMesh(profile, layers, thickness, anglefunc, place, round).faces;
             i < |fs| && FaceHasEdge(fs[i], x, y)
    ensures var fs := GearMesh(profile, layers, thickness, anglefunc, place, round).faces;
            && (forall j :: 0 <= j < |fs| && FaceHasEdge(fs[j], x, y) ==> j == i)
            && (exists j :: 0 <= j < |fs| && j != i && FaceHasEdge(fs[j], y, x))
            && (forall j, j' :: 0 <= j < |fs| && 0 <= j' < |fs|
                                && FaceHasEdge(fs[j], y, x) && FaceHasEdge(fs[j'], y, x)
                                ==> j == j')
  {
    GearMeshShape(profile, layers, thickness, anglefunc, place, round);
    ClosedByIndex(GearMesh(profile, layers, thickness, anglefunc, place, round), round,
                  Positions(profile, layers, thickness, anglefunc, place), |profile|, layers, i, x, y);
  }
}
