/** The geometric decision procedure of fr3d/RNA-protein-annotation.py: `type_of_interaction` with
    `stacking_angle`, `stacking_tilt`, `calculate_angle`, `vector_calculation` and `angle_between_planes`,
    and the edge and face labels of `detect_edge` and `detect_face`. Coordinates of the amino acid are in
    the base's standard frame; arctan2 and the square root are uninterpreted. */
module Classifier {
  import opened Wrappers
  import opened Geometry
  import opened Seqs
  import opened Entities
  import opened Screening

  /** The interaction labels. */
  datatype Interaction = Stacked | CationPi | PerpendicularStacking | Pseudopair | PerpendicularEdge | SHB {
    /** The label's text. */
    function Name(): string {
      match this
      case Stacked => "stacked"
      case CationPi => "cation-pi"
      case PerpendicularStacking => "perpendicular stacking"
      case Pseudopair => "pseudopair"
      case PerpendicularEdge => "perpendicular edge"
      case SHB => "SHB"
    }

    /** The labels whose edge comes from `detect_face`. */
    predicate IsStackingFamily() {
      this == Stacked || this == CationPi || this == PerpendicularStacking
    }
  }

  /** The base edge or face an amino acid faces. */
  datatype Edge = FgWC | FgH | FgS | Fgs5 | Fgs3 {
    /** The label's text. */
    function Name(): string {
      match this
      case FgWC => "fgWC"
      case FgH => "fgH"
      case FgS => "fgS"
      case Fgs5 => "fgs5"
      case Fgs3 => "fgs3"
    }
  }

  /** Distinct labels have distinct texts. */
  lemma NamesInjective(a: Interaction, b: Interaction, e: Edge, f: Edge)
    ensures a.Name() == b.Name() ==> a == b
    ensures e.Name() == f.Name() ==> e == f
  {
  }

  const StackedPlanarAa: set<string> := {"TRP", "TYR", "PHE", "HIS", "ARG", "ASN", "GLN", "GLU", "ASP"}
  const StackedAliphatic: set<string> := {"LEU", "ILE", "PRO", "THR", "MET", "CYS", "VAL", "ALA", "SER"}
  const PseudopairAa: set<string> := {"ASP", "GLU", "ASN", "GLN", "HIS", "ARG", "TYR", "TRP", "PHE", "LYS"}
  const ShbAa: set<string> := {"SER", "THR", "LYS"}
  const PerpendicularAa: set<string> := {"HIS", "ARG", "LYS", "ASN", "GLN"}
  const PerpendicularStackAa: set<string> := {"PHE", "TYR"}
  const Purines: set<string> := {"A", "G"}
  const Pyrimidines: set<string> := {"C", "U"}

  // ---------------------------------------------------------------------------------------------------
  // Plane normals and the angle between planes

  /** The residue has three planar atoms listed and a centre for each. */
  predicate HasPlane(r: Component, t: Tables) {
    r.Sequence() in t.planar && |t.planar[r.Sequence()]| >= 3
    && t.planar[r.Sequence()][0] in r.centers && t.planar[r.Sequence()][1] in r.centers
    && t.planar[r.Sequence()][2] in r.centers
  }

  /** `vector_calculation`: the normal (P2 - P1) x (P3 - P1) of the plane through the three planar centres. */
  function PlaneNormal(r: Component, t: Tables): (n: Vec3)
    requires HasPlane(r, t)
    ensures var names := t.planar[r.Sequence()];
            Dot(n, Sub(r.centers[names[1]], r.centers[names[0]])) == 0.0
            && Dot(n, Sub(r.centers[names[2]], r.centers[names[0]])) == 0.0
  {
    var names := t.planar[r.Sequence()];
    var p1, p2, p3 := r.centers[names[0]], r.centers[names[1]], r.centers[names[2]];
    Cross(Sub(p2, p1), Sub(p3, p1))
  }

  /** `angle_between_planes`: arctan2(|v1 x v2|, v1 . v2). */
  function AngleBetweenPlanes(v1: Vec3, v2: Vec3, num: Numerics): real {
    num.atan2(num.sqrt(SqNorm(Cross(v1, v2))), Dot(v1, v2))
  }

  /** Swapping the two planes leaves the angle unchanged: the cross product only changes sign. */
  lemma AngleSymmetric(v1: Vec3, v2: Vec3, num: Numerics)
    ensures AngleBetweenPlanes(v1, v2, num) == AngleBetweenPlanes(v2, v1, num)
  {
    CrossAntiCommutes(v1, v2);
    var c := Cross(v1, v2);
    assert SqNorm(Cross(v2, v1)) == (-c.x) * (-c.x) + (-c.y) * (-c.y) + (-c.z) * (-c.z) == SqNorm(c);
  }

  /** `calculate_angle` (and the angle inside `stacking_angle`). */
  function PlaneAngle(base: Component, aa: Component, t: Tables, num: Numerics): real
    requires HasPlane(base, t) && HasPlane(aa, t)
  {
    AngleBetweenPlanes(PlaneNormal(base, t), PlaneNormal(aa, t), num)
  }

  // ---------------------------------------------------------------------------------------------------
  // Labels from angles

  /** The angle test of `stacking_angle`, on the absolute angle `a`. */
  function StackingLabel(res: string, a: real): (r: Option<Interaction>)
    ensures r.Some? ==> r.value.IsStackingFamily()
    ensures r.Some? && r.value != Stacked ==> 1.2 <= a <= 1.64
  {
    if a <= 0.68 || (2.45 <= a <= 3.15) then Some(Stacked)
    else if 1.2 <= a <= 1.64 then
      if res in PerpendicularStackAa then Some(PerpendicularStacking)
      else if res in PerpendicularAa then Some(CationPi)
      else None
    else None
  }

  /** Each stacking label holds on its own range, with no priority needed between them. */
  lemma StackingLabelRanges(res: string, a: real)
    ensures StackingLabel(res, a) == Some(Stacked) <==> a <= 0.68 || (2.45 <= a <= 3.15)
    ensures StackingLabel(res, a) == Some(PerpendicularStacking) <==> 1.2 <= a <= 1.64 && res in {"PHE", "TYR"}
    ensures StackingLabel(res, a) == Some(CationPi) <==> 1.2 <= a <= 1.64 && res in {"HIS", "ARG", "LYS", "ASN", "GLN"}
    ensures StackingLabel(res, a).Some? ==> StackingLabel(res, a).value.IsStackingFamily()
  {
  }

  /** The angle test of the pseudopair branch, on the absolute angle `a`. */
  function PseudopairLabel(a: real): (r: Option<Interaction>)
    ensures r.Some? ==> r.value == Pseudopair || r.value == PerpendicularEdge
    ensures r.Some? ==> a <= 3.14
  {
    if (0.0 <= a <= 0.75) || (2.5 <= a <= 3.14) then Some(Pseudopair)
    else if 0.95 <= a <= 1.64 then Some(PerpendicularEdge)
    else None
  }

  /** Each pseudopair label holds on its own range; angles between the ranges get no label. */
  lemma PseudopairLabelRanges(a: real)
    requires a >= 0.0
    ensures PseudopairLabel(a) == Some(Pseudopair) <==> a <= 0.75 || (2.5 <= a <= 3.14)
    ensures PseudopairLabel(a) == Some(PerpendicularEdge) <==> 0.95 <= a <= 1.64
    ensures PseudopairLabel(a) == None <==> (0.75 < a < 0.95) || (1.64 < a < 2.5) || a > 3.14
  {
  }

  // ---------------------------------------------------------------------------------------------------
  // type_of_interaction

  /** The tables and centres `type_of_interaction` reads for a pair; a missing one raises KeyError. */
  predicate Covers(base: Component, aa: Component, t: Tables) {
    aa.Sequence() in t.aaFg && base.Sequence() in t.heavy && HasPlane(base, t)
    && (aa.Sequence() in StackedPlanarAa + PseudopairAa ==> HasPlane(aa, t))
    && (aa.Sequence() in StackedAliphatic ==> aa.Sequence() in t.tilt)
  }

  /** Squared distance from the base's normal axis (the z axis of the standard frame). */
  function SqXY(p: Vec3): real {
    p.x * p.x + p.y * p.y
  }

  function SqXYs(pts: seq<Vec3>): (r: seq<real>)
    ensures |r| == |pts|
  {
    seq(|pts|, i requires 0 <= i < |pts| => SqXY(pts[i]))
  }

  function Zs(pts: seq<Vec3>): (r: seq<real>)
    ensures |r| == |pts|
  {
    seq(|pts|, i requires 0 <= i < |pts| => pts[i].z)
  }

  /** `stacking_tilt`: "stacked" when the functional group's z values spread by no more than the cutoff. */
  function StackingTilt(res: string, pts: seq<Vec3>, t: Tables): (r: Option<Interaction>)
    requires |pts| > 0 && res in t.tilt
    ensures r.Some? ==> r == Some(Stacked) && t.tilt[res] >= 0.0
  {
    if Max(Zs(pts)) - Min(Zs(pts)) <= t.tilt[res] then Some(Stacked) else None
  }

  /** The tilt test passes exactly when every two functional-group atoms differ in z by at most the cutoff. */
  lemma {:induction false} TiltIffSpread(res: string, pts: seq<Vec3>, t: Tables)
    requires |pts| > 0 && res in t.tilt
    ensures StackingTilt(res, pts, t) == Some(Stacked)
            <==> forall i, j :: 0 <= i < |pts| && 0 <= j < |pts| ==> pts[i].z - pts[j].z <= t.tilt[res]
  {
    var zs := Zs(pts);
    var hi, lo := Max(zs), Min(zs);
    var i :| 0 <= i < |zs| && zs[i] == hi;
    var j :| 0 <= j < |zs| && zs[j] == lo;
    assert pts[i].z - pts[j].z == hi - lo;
    if hi - lo <= t.tilt[res] {
      forall i', j' | 0 <= i' < |pts| && 0 <= j' < |pts|
        ensures pts[i'].z - pts[j'].z <= t.tilt[res]
      {
        assert zs[i'] <= hi && lo <= zs[j'];
      }
    }
  }

  /** `type_of_interaction` on the amino acid's functional-group coordinates `pts` in the base's frame. */
  function TypeOfInteraction(base: Component, aa: Component, pts: seq<Vec3>, t: Tables, num: Numerics)
    : (r: Option<Interaction>)
    requires |pts| > 0 && Covers(base, aa, t)
    ensures r.Some? && r.value.IsStackingFamily() ==> Min(SqXYs(pts)) <= 5.0
    ensures r.Some? && !r.value.IsStackingFamily() ==> Min(SqXYs(pts)) > 5.0 && -1.8 <= Mean(Zs(pts)) < 1.8
  {
    var res := aa.Sequence();
    var meanZ := Mean(Zs(pts));
    if Min(SqXYs(pts)) <= 5.0 then
      if res in StackedPlanarAa then StackingLabel(res, Abs(PlaneAngle(base, aa, t, num)))
      else if res in StackedAliphatic then StackingTilt(res, pts, t)
      else None
    else if -1.8 <= meanZ < 1.8 && res in PseudopairAa then
      PseudopairLabel(Abs(PlaneAngle(base, aa, t, num)))
    else if -1.8 <= meanZ < 1.8 && res in ShbAa then
      if Proximity(base, aa, t.heavy[base.Sequence()], 1, t).Some? then Some(SHB) else None
    else None
  }

  /** An atom within sqrt(5) of the normal axis leaves only the stacking labels, and a residue in neither
      stacking set gets no label at all: it does not fall through to the later branches. */
  lemma NearAxisOnlyStacks(base: Component, aa: Component, pts: seq<Vec3>, t: Tables, num: Numerics)
    requires |pts| > 0 && Covers(base, aa, t)
    requires exists i :: 0 <= i < |pts| && SqXY(pts[i]) <= 5.0
    ensures TypeOfInteraction(base, aa, pts, t, num).Some? ==>
              TypeOfInteraction(base, aa, pts, t, num).value.IsStackingFamily()
    ensures aa.Sequence() !in StackedPlanarAa + StackedAliphatic ==> TypeOfInteraction(base, aa, pts, t, num) == None
  {
    var i :| 0 <= i < |pts| && SqXY(pts[i]) <= 5.0;
    assert SqXYs(pts)[i] <= 5.0;
  }

  /** Near the axis, a planar residue gets the `stacking_angle` label of its plane angle and an aliphatic
      one the `stacking_tilt` label of its z spread. */
  lemma NearAxisLabels(base: Component, aa: Component, pts: seq<Vec3>, t: Tables, num: Numerics)
    requires |pts| > 0 && Covers(base, aa, t)
    requires exists i :: 0 <= i < |pts| && SqXY(pts[i]) <= 5.0
    ensures aa.Sequence() in StackedPlanarAa ==>
              TypeOfInteraction(base, aa, pts, t, num) == StackingLabel(aa.Sequence(), Abs(PlaneAngle(base, aa, t, num)))
    ensures aa.Sequence() in StackedAliphatic - StackedPlanarAa ==>
              TypeOfInteraction(base, aa, pts, t, num) == StackingTilt(aa.Sequence(), pts, t)
  {
    var i :| 0 <= i < |pts| && SqXY(pts[i]) <= 5.0;
    assert SqXYs(pts)[i] <= 5.0;
  }

  /** Which residues can carry which label. */
  lemma LabelsPerResidue(base: Component, aa: Component, pts: seq<Vec3>, t: Tables, num: Numerics)
    requires |pts| > 0 && Covers(base, aa, t)
    ensures var r, res := TypeOfInteraction(base, aa, pts, t, num), aa.Sequence();
            && (r == Some(Stacked) ==> res in StackedPlanarAa + StackedAliphatic)
            && (r == Some(CationPi) ==> res in {"HIS", "ARG", "ASN", "GLN"})
            && (r == Some(PerpendicularStacking) ==> res in {"PHE", "TYR"})
            && (r == Some(Pseudopair) || r == Some(PerpendicularEdge) ==> res in PseudopairAa)
            && (r == Some(SHB) ==> res in {"SER", "THR"})
  {
    var res := aa.Sequence();
    if Min(SqXYs(pts)) <= 5.0 && res in StackedPlanarAa {
      StackingLabelRanges(res, Abs(PlaneAngle(base, aa, t, num)));
    }
  }

  /** LYS is tested for pseudopairing first, so it never gets "SHB"; and since it is not in the planar
      stacking set, it never gets "cation-pi" either. */
  lemma LysineNeverShbNorCationPi(base: Component, aa: Component, pts: seq<Vec3>, t: Tables, num: Numerics)
    requires |pts| > 0 && Covers(base, aa, t) && aa.Sequence() == "LYS"
    ensures TypeOfInteraction(base, aa, pts, t, num) != Some(SHB)
    ensures TypeOfInteraction(base, aa, pts, t, num) != Some(CationPi)
  {
    LabelsPerResidue(base, aa, pts, t, num);
  }

  /** Away from the axis, the pseudopair labels need the mean z in [-1.8, 1.8) and come before "SHB". */
  lemma OffAxisLabels(base: Component, aa: Component, pts: seq<Vec3>, t: Tables, num: Numerics)
    requires |pts| > 0 && Covers(base, aa, t)
    requires forall i :: 0 <= i < |pts| ==> SqXY(pts[i]) > 5.0
    ensures var r := TypeOfInteraction(base, aa, pts, t, num);
            r.Some? ==> -1.8 <= Mean(Zs(pts)) < 1.8 && !r.value.IsStackingFamily()
    ensures aa.Sequence() in PseudopairAa && -1.8 <= Mean(Zs(pts)) < 1.8 ==>
              TypeOfInteraction(base, aa, pts, t, num) == PseudopairLabel(Abs(PlaneAngle(base, aa, t, num)))
  {
    var m := Min(SqXYs(pts));
    var k :| 0 <= k < |pts| && SqXYs(pts)[k] == m;
    assert SqXY(pts[k]) > 5.0;
  }

  /** "SHB" is given exactly to SER or THR away from the axis, with mean z in [-1.8, 1.8) and at least one
      heavy base atom within 4 Angstroms of the functional group. */
  lemma ShbIff(base: Component, aa: Component, pts: seq<Vec3>, t: Tables, num: Numerics)
    requires |pts| > 0 && Covers(base, aa, t)
    ensures TypeOfInteraction(base, aa, pts, t, num) == Some(SHB)
            <==> && (forall i :: 0 <= i < |pts| ==> SqXY(pts[i]) > 5.0)
                 && -1.8 <= Mean(Zs(pts)) < 1.8 && aa.Sequence() in {"SER", "THR"}
                 && CloseCount(AtomsNamed(base.atoms, t.heavy[base.Sequence()]), FgAtoms(aa, t)) >= 1
  {
    AwayIff(pts);
    var res := aa.Sequence();
    if res in {"SER", "THR"} {
      assert res !in PseudopairAa && res in ShbAa;
    }
  }

  /** The smallest squared distance from the normal axis exceeds 5 exactly when every atom's does. */
  lemma AwayIff(pts: seq<Vec3>)
    requires |pts| > 0
    ensures Min(SqXYs(pts)) > 5.0 <==> forall i :: 0 <= i < |pts| ==> SqXY(pts[i]) > 5.0
  {
    var m := Min(SqXYs(pts));
    var k :| 0 <= k < |pts| && SqXYs(pts)[k] == m;
    assert SqXY(pts[k]) == m;
    if m > 5.0 {
      forall i | 0 <= i < |pts|
        ensures SqXY(pts[i]) > 5.0
      {
        assert SqXYs(pts)[i] >= m;
      }
    }
  }

  // ---------------------------------------------------------------------------------------------------
  // detect_edge and detect_face

  /** np.mean, which is NaN (None here) for an empty list. */
  function MeanOrNaN(xs: seq<real>): Option<real> {
    if xs == [] then None else Some(Mean(xs))
  }

  /** The edge-angle thresholds of `detect_edge` on the angle in degrees; NaN (None) fails every comparison. */
  function EdgeLabel(baseSeq: string, deg: Option<real>): (r: Option<Edge>)
    ensures r.Some? <==> baseSeq in Purines + Pyrimidines
    ensures r.Some? ==> r.value == FgWC || r.value == FgH || r.value == FgS
    ensures deg.None? && r.Some? ==> r.value == FgS
  {
    if baseSeq in Purines then
      if deg.Some? && -15.0 <= deg.value <= 90.0 then Some(FgWC)
      else if deg.Some? && (90.0 < deg.value || deg.value < -160.0) then Some(FgH)
      else Some(FgS)
    else if baseSeq in Pyrimidines then
      if deg.Some? && -45.0 <= deg.value <= 90.0 then Some(FgWC)
      else if deg.Some? && (90.0 < deg.value || deg.value < -150.0) then Some(FgH)
      else Some(FgS)
    else None
  }

  /** The three edges split the circle into intervals: for a purine, WC is [-15, 90], Hoogsteen is above 90
      or below -160, and sugar is [-160, -15); a pyrimidine has -45 and -150 in place of -15 and -160.
      Other bases get no edge. */
  lemma EdgeIntervals(baseSeq: string, deg: real)
    ensures var lo, back := if baseSeq in Purines then -15.0 else -45.0, if baseSeq in Purines then -160.0 else -150.0;
            baseSeq in Purines + Pyrimidines ==>
              && (EdgeLabel(baseSeq, Some(deg)) == Some(FgWC) <==> lo <= deg <= 90.0)
              && (EdgeLabel(baseSeq, Some(deg)) == Some(FgH) <==> deg > 90.0 || deg < back)
              && (EdgeLabel(baseSeq, Some(deg)) == Some(FgS) <==> back <= deg < lo)
    ensures baseSeq !in Purines + Pyrimidines <==> EdgeLabel(baseSeq, Some(deg)) == None
  {
  }

  /** Radians to degrees with the source's constant. */
  function Degrees(angle: real): real {
    (180.0 * angle) / 3.14159
  }

  /** `detect_edge`: the direction, in the base plane, from the mean of the base's heavy atoms to the mean of
      the functional group, classified by `EdgeLabel`. */
  function DetectEdge(baseSeq: string, basePts: seq<Vec3>, aaPts: seq<Vec3>, num: Numerics): (r: Option<Edge>)
    ensures r.Some? <==> baseSeq in Purines + Pyrimidines
    ensures r.Some? ==> r.value == FgWC || r.value == FgH || r.value == FgS
  {
    var aaX, aaY := MeanOrNaN(seq(|aaPts|, i requires 0 <= i < |aaPts| => aaPts[i].x)),
                    MeanOrNaN(seq(|aaPts|, i requires 0 <= i < |aaPts| => aaPts[i].y));
    var baseX, baseY := MeanOrNaN(seq(|basePts|, i requires 0 <= i < |basePts| => basePts[i].x)),
                        MeanOrNaN(seq(|basePts|, i requires 0 <= i < |basePts| => basePts[i].y));
    var deg := if aaX.Some? && baseX.Some?
               then Some(Degrees(num.atan2(aaY.value - baseY.value, aaX.value - baseX.value))) else None;
    EdgeLabel(baseSeq, deg)
  }

  /** Every A, C, G or U base gets an edge, even when a list is empty (NaN lands on "fgS"); nothing else does. */
  lemma EdgeDefinedForRnaBases(baseSeq: string, basePts: seq<Vec3>, aaPts: seq<Vec3>, num: Numerics)
    ensures DetectEdge(baseSeq, basePts, aaPts, num).Some? <==> baseSeq in RnaBases
    ensures (basePts == [] || aaPts == []) && baseSeq in RnaBases ==> DetectEdge(baseSeq, basePts, aaPts, num) == Some(FgS)
    ensures DetectEdge(baseSeq, basePts, aaPts, num) != Some(Fgs5) && DetectEdge(baseSeq, basePts, aaPts, num) != Some(Fgs3)
  {
  }

  /** `detect_face`: the 5' face when the functional group's mean z is at most 0, otherwise the 3' face (also
      for an empty group, whose mean is NaN). */
  function DetectFace(pts: seq<Vec3>): (e: Edge)
    ensures e == Fgs5 || e == Fgs3
  {
    var z := MeanOrNaN(Zs(pts));
    if z.Some? && z.value <= 0.0 then Fgs5 else Fgs3
  }

  /** The face is the sign of the functional group's z sum, so a group lying entirely on one side of the
      base plane is reported on that side. */
  lemma {:induction false} FaceFollowsSide(pts: seq<Vec3>)
    requires |pts| > 0
    ensures DetectFace(pts) == Fgs5 <==> Sum(Zs(pts)) <= 0.0
    ensures (forall i :: 0 <= i < |pts| ==> pts[i].z <= 0.0) ==> DetectFace(pts) == Fgs5
    ensures (forall i :: 0 <= i < |pts| ==> pts[i].z > 0.0) ==> DetectFace(pts) == Fgs3
  {
    SumSign(Zs(pts));
    var n := |pts| as real;
    var s := Sum(Zs(pts));
    assert Mean(Zs(pts)) * n == s;
    if s <= 0.0 {
      ScaleStrict(0.0, Mean(Zs(pts)), n);
    } else {
      ScaleStrict(Mean(Zs(pts)), 0.0, n);
    }
  }

  /** The sum of non-positive numbers is non-positive; of positive numbers, positive. */
  lemma {:induction false} SumSign(xs: seq<real>)
    ensures (forall i :: 0 <= i < |xs| ==> xs[i] <= 0.0) ==> Sum(xs) <= 0.0
    ensures |xs| > 0 && (forall i :: 0 <= i < |xs| ==> xs[i] > 0.0) ==> Sum(xs) > 0.0
  {
    if xs != [] {
      var init := xs[..|xs| - 1];
      SumSign(init);
      assert forall i :: 0 <= i < |init| ==> init[i] == xs[i];
    }
  }
}
