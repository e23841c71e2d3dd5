/** `annotate_interactions` in fr3d/RNA-protein-annotation.py: for every base cube, every neighbouring cube
    holding amino acids, every usable base and every amino acid with a centre, the pair is screened (centre
    box and distance, atom proximity), brought into the base's standard frame, classified, and, when a label
    results (a pseudopair only with two hydrogen bonds), recorded with its edge or face. */
module Annotation {
  import opened Wrappers
  import opened Geometry
  import opened Seqs
  import opened Entities
  import opened Grid
  import opened Screening
  import opened Classifier

  /** The functions this model takes as parameters: numpy's transcendental functions, and
      `translate_rotate_component` as the map of a point into the standard frame of the given base. */
  datatype Env = Env(num: Numerics, toFrame: (Component, Vec3) -> Vec3)

  /** One detected interaction: the base, the amino acid, the label, the edge or face, and the amino-acid
      centre in the base's frame. */
  datatype Record = Record(base: Component, aa: Component, interaction: Interaction, edge: Option<Edge>, aaCenter: Vec3)

  /** The arguments of `annotate_interactions` besides the residue lists. */
  datatype Context = Context(part: string, d: real, baseCubes: map<CubeKey, seq<Component>>,
                             baseNeighbors: map<CubeKey, seq<CubeKey>>, aaCubes: map<CubeKey, seq<Component>>,
                             t: Tables, env: Env)

  // ---------------------------------------------------------------------------------------------------
  // The standard frame

  /** `translate_rotate_component`: the residue with every atom and centre moved into the base's frame. */
  function Standardize(base: Component, r: Component, env: Env): (s: Component)
    ensures |s.atoms| == |r.atoms| && forall i :: 0 <= i < |r.atoms| ==> s.atoms[i].name == r.atoms[i].name
    ensures s.centers.Keys == r.centers.Keys
  {
    Component(r.data,
              seq(|r.atoms|, i requires 0 <= i < |r.atoms| =>
                    Atom(r.atoms[i].name, env.toFrame(base, r.atoms[i].coord), r.atoms[i].other)),
              map k | k in r.centers :: env.toFrame(base, r.centers[k]))
  }

  /** The coordinate dictionary keyed by atom name; an atom later in the list overwrites an earlier one
      of the same name. */
  function CoordMap(atoms: seq<Atom>): (m: map<string, Vec3>)
    ensures forall i :: 0 <= i < |atoms| ==> atoms[i].name in m
  {
    if atoms == [] then map[]
    else CoordMap(atoms[..|atoms| - 1])[atoms[|atoms| - 1].name := atoms[|atoms| - 1].coord]
  }

  /** Each name maps to the coordinates of the last atom carrying it. */
  lemma {:induction false} CoordMapLastWins(atoms: seq<Atom>, i: nat)
    requires i < |atoms| && forall j :: i < j < |atoms| ==> atoms[j].name != atoms[i].name
    ensures CoordMap(atoms)[atoms[i].name] == atoms[i].coord
  {
    if i < |atoms| - 1 {
      CoordMapLastWins(atoms[..|atoms| - 1], i);
    }
  }

  /** The dictionary holds exactly the names of the atoms. */
  lemma {:induction false} CoordMapKeys(atoms: seq<Atom>)
    ensures CoordMap(atoms).Keys == set a | a in atoms :: a.name
  {
    if atoms != [] {
      var init := atoms[..|atoms| - 1];
      CoordMapKeys(init);
      assert atoms == init + [atoms[|atoms| - 1]];
    }
  }

  /** The loop building `base_coordinates` / `aa_coordinates` from the atoms of a standardised component. */
  method CoordinatesByName(atoms: seq<Atom>) returns (m: map<string, Vec3>)
    ensures m == CoordMap(atoms)
  {
    m := map[];
    for i := 0 to |atoms|
      invariant m == CoordMap(atoms[..i])
    {
      assert atoms[..i + 1][..i] == atoms[..i];
      m := m[atoms[i].name := atoms[i].coord];
    }
    assert atoms[..|atoms|] == atoms;
  }

  /** Every atom of `r` has an entry among the standardised coordinates. */
  lemma NamesStandardized(base: Component, r: Component, env: Env, atoms: seq<Atom>)
    requires forall a :: a in atoms ==> a in r.atoms
    ensures forall a :: a in atoms ==> a.name in CoordMap(Standardize(base, r, env).atoms)
  {
    var s := Standardize(base, r, env);
    forall a | a in atoms
      ensures a.name in CoordMap(s.atoms)
    {
      var i :| 0 <= i < |r.atoms| && r.atoms[i] == a;
      assert s.atoms[i].name == a.name;
    }
  }

  /** The coordinates of the listed atoms, looked up by name (`coordinates[atom.name]`). */
  function Lookup(atoms: seq<Atom>, coords: map<string, Vec3>): (pts: seq<Vec3>)
    requires forall a :: a in atoms ==> a.name in coords
    ensures |pts| == |atoms|
  {
    seq(|atoms|, i requires 0 <= i < |atoms| => coords[atoms[i].name])
  }

  /** The standardised coordinates of the listed atoms of `r`. */
  function FramePoints(base: Component, r: Component, env: Env, atoms: seq<Atom>): (pts: seq<Vec3>)
    requires forall a :: a in atoms ==> a in r.atoms
    ensures |pts| == |atoms|
  {
    NamesStandardized(base, r, env, atoms);
    Lookup(atoms, CoordMap(Standardize(base, r, env).atoms))
  }

  // ---------------------------------------------------------------------------------------------------
  // One pair

  /** The table entries `annotate_interactions` may read for a base, required up front. This is more than
      the source reads: the hydrogen-bond tables are read only for a pair classified as a pseudopair. */
  predicate BaseReady(b: Component, t: Tables) {
    b.Sequence() in t.heavy && b.Sequence() in t.planar && |t.planar[b.Sequence()]| >= 3
    && b.Sequence() in t.donors && b.Sequence() in t.acceptors
  }

  /** The table entries and planar centres `annotate_interactions` may read for an amino acid, required up
      front. This is more than the source reads: each is read only on the branch that uses it. */
  predicate AaReady(a: Component, t: Tables) {
    a.Sequence() in t.aaFg
    && (a.Sequence() in StackedPlanarAa + PseudopairAa ==> HasPlane(a, t))
    && (a.Sequence() in StackedAliphatic ==> a.Sequence() in t.tilt)
    && (a.Sequence() in PseudopairAa ==> a.Sequence() in t.donors && a.Sequence() in t.acceptors)
  }

  /** A centre that is present and not all zero (numpy's `.any()`). */
  predicate HasNonzeroCenter(r: Component, name: string) {
    name in r.centers && IsNonzero(r.centers[name])
  }

  /** The base has a non-zero base centre and non-zero centres at its three planar atoms. */
  predicate BaseUsable(b: Component, t: Tables)
    requires BaseReady(b, t)
  {
    var names := t.planar[b.Sequence()];
    HasNonzeroCenter(b, "base") && HasNonzeroCenter(b, names[0]) && HasNonzeroCenter(b, names[1])
    && HasNonzeroCenter(b, names[2])
  }

  /** Amino acids that need one close atom pair instead of two. */
  const SingleContactAa: set<string> := {"LYS", "SER", "THR", "TYR"}

  /** The proximity threshold c. */
  function ContactThreshold(aa: Component): int {
    if aa.Sequence() in SingleContactAa then 1 else 2
  }

  /** `norm(base_center - aa_center) < D`, compared squared. */
  predicate CentersWithin(b: Vec3, a: Vec3, d: real) {
    d > 0.0 && SqDist(b, a) < d * d
  }

  /** The screening test on a pair: the centre box in x and y, the centre distance, and proximity. */
  predicate Screened(ctx: Context, base: Component, aa: Component)
    requires BaseReady(base, ctx.t) && AaReady(aa, ctx.t)
    requires "base" in base.centers && ctx.part in aa.centers
  {
    var bc, ac := base.centers["base"], aa.centers[ctx.part];
    Abs(bc.x - ac.x) < ctx.d && Abs(bc.y - ac.y) < ctx.d && CentersWithin(bc, ac, ctx.d)
    && Proximity(base, aa, ctx.t.heavy[base.Sequence()], ContactThreshold(aa), ctx.t).Some?
  }

  /** The functional-group atoms of the amino acid in the base's frame. */
  function AaPoints(ctx: Context, base: Component, aa: Component): seq<Vec3>
    requires AaReady(aa, ctx.t)
  {
    FramePoints(base, aa, ctx.env, FgAtoms(aa, ctx.t))
  }

  /** The heavy base atoms in the base's own standard frame. */
  function BasePoints(ctx: Context, base: Component): seq<Vec3>
    requires BaseReady(base, ctx.t)
  {
    FramePoints(base, base, ctx.env, AtomsNamed(base.atoms, ctx.t.heavy[base.Sequence()]))
  }

  /** The `if`/`elif` chain after the classification, given the functional-group points, the edge
      `detect_edge` reports and the centre in the base's frame: pseudopairs (only with two hydrogen bonds),
      "SHB" and "perpendicular edge" get the edge, the stacking labels the face from `detect_face`, and
      nothing is kept without a label. */
  function RecordOf(ctx: Context, base: Component, aa: Component, interaction: Option<Interaction>,
                    pts: seq<Vec3>, edge: Option<Edge>, center: Vec3): Option<Record>
    requires BaseReady(base, ctx.t) && AaReady(aa, ctx.t)
    requires interaction == Some(Pseudopair) ==> aa.Sequence() in PseudopairAa
  {
    var t := ctx.t;
    match interaction
    case None => None
    case Some(Pseudopair) =>
      if HBonds(base, aa, t.heavy[base.Sequence()], t) >= 2 then Some(Record(base, aa, Pseudopair, edge, center))
      else None
    case Some(SHB) => Some(Record(base, aa, SHB, edge, center))
    case Some(PerpendicularEdge) => Some(Record(base, aa, PerpendicularEdge, edge, center))
    case Some(stacking) => Some(Record(base, aa, stacking, Some(DetectFace(pts)), center))
  }

  /** The record kept for a pair the classifier labelled `interaction`. */
  function Emit(ctx: Context, base: Component, aa: Component, interaction: Option<Interaction>): Option<Record>
    requires BaseReady(base, ctx.t) && AaReady(aa, ctx.t) && ctx.part in aa.centers
    requires interaction == Some(Pseudopair) ==> aa.Sequence() in PseudopairAa
  {
    var pts := AaPoints(ctx, base, aa);
    RecordOf(ctx, base, aa, interaction, pts, DetectEdge(base.Sequence(), BasePoints(ctx, base), pts, ctx.env.num),
             ctx.env.toFrame(base, aa.centers[ctx.part]))
  }

  /** The chain keeps the label and the pair; a pseudopair has two hydrogen bonds; stacking labels get the
      face of the points, the others the given edge; every label but pseudopair is kept. */
  lemma RecordOfMeaning(ctx: Context, base: Component, aa: Component, interaction: Option<Interaction>,
                        pts: seq<Vec3>, edge: Option<Edge>, center: Vec3)
    requires BaseReady(base, ctx.t) && AaReady(aa, ctx.t)
    requires interaction == Some(Pseudopair) ==> aa.Sequence() in PseudopairAa
    ensures var r := RecordOf(ctx, base, aa, interaction, pts, edge, center);
            && (r.Some? ==>
                  && r.value.base == base && r.value.aa == aa && interaction == Some(r.value.interaction)
                  && (r.value.interaction == Pseudopair ==> HBonds(base, aa, ctx.t.heavy[base.Sequence()], ctx.t) >= 2)
                  && (r.value.interaction.IsStackingFamily() ==> r.value.edge == Some(DetectFace(pts)))
                  && (!r.value.interaction.IsStackingFamily() ==> r.value.edge == edge)
                  && r.value.aaCenter == center)
            && (interaction.Some? && interaction.value != Pseudopair ==> r.Some?)
  {
  }

  /** What the body of the innermost loop appends for one base and one amino acid, if anything. */
  function PairRecord(ctx: Context, base: Component, aa: Component): Option<Record>
    requires BaseReady(base, ctx.t) && AaReady(aa, ctx.t)
  {
    var t := ctx.t;
    if !BaseUsable(base, t) || !HasNonzeroCenter(aa, ctx.part) || !Screened(ctx, base, aa) then None
    else
      ProximityWitness(base, aa, t.heavy[base.Sequence()], ContactThreshold(aa), t);
      var pts := AaPoints(ctx, base, aa);
      LabelsPerResidue(base, aa, pts, t, ctx.env.num);
      Emit(ctx, base, aa, TypeOfInteraction(base, aa, pts, t, ctx.env.num))
  }

  /** A record keeps the classifier's label; a pseudopair has two hydrogen bonds; the edge comes from
      `detect_face` for the stacking labels and from `detect_edge` for the others. */
  lemma EmitMeaning(ctx: Context, base: Component, aa: Component, interaction: Option<Interaction>)
    requires BaseReady(base, ctx.t) && AaReady(aa, ctx.t) && ctx.part in aa.centers
    requires interaction == Some(Pseudopair) ==> aa.Sequence() in PseudopairAa
    ensures var r := Emit(ctx, base, aa, interaction);
            r.Some? ==>
              && r.value.base == base && r.value.aa == aa && interaction == Some(r.value.interaction)
              && (r.value.interaction == Pseudopair ==> HBonds(base, aa, ctx.t.heavy[base.Sequence()], ctx.t) >= 2)
              && (r.value.interaction.IsStackingFamily() ==> r.value.edge == Some(DetectFace(AaPoints(ctx, base, aa))))
              && (!r.value.interaction.IsStackingFamily() ==>
                    r.value.edge == DetectEdge(base.Sequence(), BasePoints(ctx, base), AaPoints(ctx, base, aa), ctx.env.num))
              && r.value.aaCenter == ctx.env.toFrame(base, aa.centers[ctx.part])
    ensures interaction.Some? && interaction.value != Pseudopair ==> Emit(ctx, base, aa, interaction).Some?
  {
    var pts := AaPoints(ctx, base, aa);
    RecordOfMeaning(ctx, base, aa, interaction, pts, DetectEdge(base.Sequence(), BasePoints(ctx, base), pts, ctx.env.num),
                    ctx.env.toFrame(base, aa.centers[ctx.part]));
  }

  /** What a record promises about its pair: the screening passed (both centres usable, the box and distance
      tests, at least c close atom pairs) and the record is the one `Emit` makes from the classifier's label. */
  lemma RecordMeaning(ctx: Context, base: Component, aa: Component)
    requires BaseReady(base, ctx.t) && AaReady(aa, ctx.t)
    ensures PairRecord(ctx, base, aa).Some? ==>
              BaseUsable(base, ctx.t) && HasNonzeroCenter(aa, ctx.part) && Screened(ctx, base, aa)
    ensures PairRecord(ctx, base, aa).Some? ==>
              |AaPoints(ctx, base, aa)| > 0
              && (TypeOfInteraction(base, aa, AaPoints(ctx, base, aa), ctx.t, ctx.env.num) == Some(Pseudopair)
                  ==> aa.Sequence() in PseudopairAa)
    ensures PairRecord(ctx, base, aa).Some? ==>
              PairRecord(ctx, base, aa) == Emit(ctx, base, aa, TypeOfInteraction(base, aa, AaPoints(ctx, base, aa), ctx.t, ctx.env.num))
  {
    if PairRecord(ctx, base, aa).Some? {
      PairRecordCases(ctx, base, aa);
      LabelsPerResidue(base, aa, AaPoints(ctx, base, aa), ctx.t, ctx.env.num);
    }
  }

  /** The part of `RecordMeaning` the grid needs: a recorded pair has usable centres closer than D. */
  lemma RecordCentersWithin(ctx: Context, base: Component, aa: Component)
    requires BaseReady(base, ctx.t) && AaReady(aa, ctx.t)
    ensures PairRecord(ctx, base, aa).Some? ==>
              BaseUsable(base, ctx.t) && HasNonzeroCenter(aa, ctx.part)
              && CentersWithin(base.centers["base"], aa.centers[ctx.part], ctx.d)
  {
  }

  /** A pseudopair without two hydrogen bonds is dropped, not relabelled. */
  lemma PseudopairWithoutHBondsDropped(ctx: Context, base: Component, aa: Component)
    requires BaseReady(base, ctx.t) && AaReady(aa, ctx.t)
    requires BaseUsable(base, ctx.t) && HasNonzeroCenter(aa, ctx.part) && Screened(ctx, base, aa)
    requires aa.Sequence() in PseudopairAa
    requires |AaPoints(ctx, base, aa)| > 0
    requires TypeOfInteraction(base, aa, AaPoints(ctx, base, aa), ctx.t, ctx.env.num) == Some(Pseudopair)
    ensures HBonds(base, aa, ctx.t.heavy[base.Sequence()], ctx.t) < 2 <==> PairRecord(ctx, base, aa) == None
  {
  }

  /** The body of the innermost loop, as the source computes it: the centre test, the proximity count, the
      two coordinate dictionaries, the classification and the hydrogen-bond gate. */
  method AnnotatePair(ctx: Context, base: Component, aa: Component) returns (r: Option<Record>)
    requires BaseReady(base, ctx.t) && AaReady(aa, ctx.t) && BaseUsable(base, ctx.t)
    ensures r == PairRecord(ctx, base, aa)
  {
    var t := ctx.t;
    PairRecordCases(ctx, base, aa);
    if !HasNonzeroCenter(aa, ctx.part) {
      return None;
    }
    var bc, ac := base.centers["base"], aa.centers[ctx.part];
    var c := if aa.Sequence() in SingleContactAa then 1 else 2;
    if !(Abs(bc.x - ac.x) < ctx.d && Abs(bc.y - ac.y) < ctx.d && CentersWithin(bc, ac, ctx.d)) {
      return None;
    }
    var close := AtomDistBasepart(base, aa, t.heavy[base.Sequence()], c, t);
    if close.None? {
      return None;
    }
    r := ClassifyPair(ctx, base, aa);
  }

  /** `PairRecord` by cases: nothing for a pair failing the screening, otherwise the record `Emit` makes from
      the classification of a non-empty functional group. */
  lemma PairRecordCases(ctx: Context, base: Component, aa: Component)
    requires BaseReady(base, ctx.t) && AaReady(aa, ctx.t) && BaseUsable(base, ctx.t)
    ensures !HasNonzeroCenter(aa, ctx.part) ==> PairRecord(ctx, base, aa) == None
    ensures HasNonzeroCenter(aa, ctx.part) && !Screened(ctx, base, aa) ==> PairRecord(ctx, base, aa) == None
    ensures HasNonzeroCenter(aa, ctx.part) && Screened(ctx, base, aa) ==>
              && |FgAtoms(aa, ctx.t)| > 0 && |AaPoints(ctx, base, aa)| > 0
              && PairRecord(ctx, base, aa)
                 == Emit(ctx, base, aa, TypeOfInteraction(base, aa, AaPoints(ctx, base, aa), ctx.t, ctx.env.num))
  {
    if HasNonzeroCenter(aa, ctx.part) && Screened(ctx, base, aa) {
      ProximityWitness(base, aa, ctx.t.heavy[base.Sequence()], ContactThreshold(aa), ctx.t);
    }
  }

  /** The second half of the loop body, for a pair that passed screening: the coordinate dictionaries in the
      base's frame, the classification, and the record. */
  method ClassifyPair(ctx: Context, base: Component, aa: Component) returns (r: Option<Record>)
    requires BaseReady(base, ctx.t) && AaReady(aa, ctx.t) && BaseUsable(base, ctx.t) && ctx.part in aa.centers
    requires |FgAtoms(aa, ctx.t)| > 0
    ensures |AaPoints(ctx, base, aa)| > 0
    ensures r == Emit(ctx, base, aa, TypeOfInteraction(base, aa, AaPoints(ctx, base, aa), ctx.t, ctx.env.num))
  {
    var t := ctx.t;
    var baseCoords := CoordinatesByName(Standardize(base, base, ctx.env).atoms);
    var aaCoords := CoordinatesByName(Standardize(base, aa, ctx.env).atoms);
    var center := Standardize(base, aa, ctx.env).centers[ctx.part];
    var fg, heavyAtoms := FgAtoms(aa, t), AtomsNamed(base.atoms, t.heavy[base.Sequence()]);
    NamesStandardized(base, aa, ctx.env, fg);
    NamesStandardized(base, base, ctx.env, heavyAtoms);
    var pts, basePts := Lookup(fg, aaCoords), Lookup(heavyAtoms, baseCoords);
    var interaction := TypeOfInteraction(base, aa, pts, t, ctx.env.num);
    LabelsPerResidue(base, aa, pts, t, ctx.env.num);
    assert pts == AaPoints(ctx, base, aa) && basePts == BasePoints(ctx, base);
    r := RecordFor(ctx, base, aa, interaction, pts, basePts, center);
  }

  /** The `if`/`elif` chain after the classification: the hydrogen-bond gate for pseudopairs, then the
      edge or face of the record. */
  method RecordFor(ctx: Context, base: Component, aa: Component, interaction: Option<Interaction>,
                   pts: seq<Vec3>, basePts: seq<Vec3>, center: Vec3) returns (r: Option<Record>)
    requires BaseReady(base, ctx.t) && AaReady(aa, ctx.t)
    requires interaction == Some(Pseudopair) ==> aa.Sequence() in PseudopairAa
    ensures r == RecordOf(ctx, base, aa, interaction, pts, DetectEdge(base.Sequence(), basePts, pts, ctx.env.num), center)
  {
    var t := ctx.t;
    if interaction == Some(Pseudopair) {
      var enough := EnoughHBonds(base, aa, t.heavy[base.Sequence()], t);
      if enough.Some? {
        r := Some(Record(base, aa, Pseudopair, DetectEdge(base.Sequence(), basePts, pts, ctx.env.num), center));
      } else {
        r := None;
      }
    } else if interaction == Some(SHB) || interaction == Some(PerpendicularEdge) {
      r := Some(Record(base, aa, interaction.value, DetectEdge(base.Sequence(), basePts, pts, ctx.env.num), center));
    } else if interaction.Some? {
      r := Some(Record(base, aa, interaction.value, Some(DetectFace(pts)), center));
    } else {
      r := None;
    }
  }

  /** A record names the pair it was made for. */
  lemma PairRecordNames(ctx: Context, base: Component, aa: Component)
    requires BaseReady(base, ctx.t) && AaReady(aa, ctx.t)
    ensures PairRecord(ctx, base, aa).Some? ==>
              PairRecord(ctx, base, aa).value.base == base && PairRecord(ctx, base, aa).value.aa == aa
  {
    if PairRecord(ctx, base, aa).Some? {
      RecordMeaning(ctx, base, aa);
      ProximityWitness(base, aa, ctx.t.heavy[base.Sequence()], ContactThreshold(aa), ctx.t);
      var pts := AaPoints(ctx, base, aa);
      LabelsPerResidue(base, aa, pts, ctx.t, ctx.env.num);
      EmitMeaning(ctx, base, aa, TypeOfInteraction(base, aa, pts, ctx.t, ctx.env.num));
    }
  }

  // ---------------------------------------------------------------------------------------------------
  // The four nested loops

  /** The tables and centres cover every residue in the cube lists. */
  predicate Ready(ctx: Context) {
    && (forall key, b :: key in ctx.baseCubes && b in ctx.baseCubes[key] ==> BaseReady(b, ctx.t))
    && (forall key, a :: key in ctx.aaCubes && a in ctx.aaCubes[key] ==> AaReady(a, ctx.t))
  }

  /** The innermost loop body for one amino acid: its record, if any. (The readiness test always holds under
      `Ready`; it keeps the function total.) */
  function AaRecords(ctx: Context, base: Component, aa: Component): seq<Record> {
    if BaseReady(base, ctx.t) && AaReady(aa, ctx.t) && PairRecord(ctx, base, aa).Some?
    then [PairRecord(ctx, base, aa).value] else []
  }

  function AaStep(ctx: Context, base: Component): Component -> seq<Record> {
    aa => AaRecords(ctx, base, aa)
  }

  /** The loop over the amino acids of cube `aakey` for one base, skipped for an unusable base. */
  function BaseRecords(ctx: Context, aakey: CubeKey, base: Component): seq<Record> {
    if aakey in ctx.aaCubes && BaseReady(base, ctx.t) && BaseUsable(base, ctx.t)
    then ConcatMap(ctx.aaCubes[aakey], AaStep(ctx, base)) else []
  }

  function BaseStep(ctx: Context, aakey: CubeKey): Component -> seq<Record> {
    b => BaseRecords(ctx, aakey, b)
  }

  /** The loop over the bases of cube `key` against the amino acids of cube `aakey`, when that cube is
      occupied. */
  function NeighborRecords(ctx: Context, key: CubeKey, aakey: CubeKey): seq<Record> {
    if key in ctx.baseCubes && aakey in ctx.aaCubes then ConcatMap(ctx.baseCubes[key], BaseStep(ctx, aakey)) else []
  }

  function NeighborStep(ctx: Context, key: CubeKey): CubeKey -> seq<Record> {
    aakey => NeighborRecords(ctx, key, aakey)
  }

  /** The loop over the neighbour keys of base cube `key`. */
  function KeyRecords(ctx: Context, key: CubeKey): seq<Record> {
    if key in ctx.baseNeighbors then ConcatMap(ctx.baseNeighbors[key], NeighborStep(ctx, key)) else []
  }

  function KeyStep(ctx: Context): CubeKey -> seq<Record> {
    key => KeyRecords(ctx, key)
  }

  /** `list_base_aa`: the records in the order the loops find them, base cubes visited in `keyOrder`. */
  function Annotate(ctx: Context, keyOrder: seq<CubeKey>): seq<Record> {
    ConcatMap(keyOrder, KeyStep(ctx))
  }

  /** The order in which a dictionary's keys are visited: each key once. */
  predicate IsKeyOrder<V>(keyOrder: seq<CubeKey>, m: map<CubeKey, V>) {
    Distinct(keyOrder) && Elements(keyOrder) == m.Keys
  }

  /** The two inner loops, for base cube `key` and the occupied amino-acid cube `aakey`. */
  method AnnotateCubePair(ctx: Context, key: CubeKey, aakey: CubeKey) returns (records: seq<Record>)
    requires Ready(ctx) && key in ctx.baseCubes && aakey in ctx.aaCubes
    ensures records == NeighborRecords(ctx, key, aakey)
  {
    records := [];
    var bases := ctx.baseCubes[key];
    for bi := 0 to |bases|
      invariant records == ConcatMap(bases[..bi], BaseStep(ctx, aakey))
    {
      ConcatMapSnoc(bases, bi, BaseStep(ctx, aakey));
      var base := bases[bi];
      if BaseUsable(base, ctx.t) {
        var found := AnnotateBase(ctx, base, aakey);
        records := records + found;
      }
    }
    assert bases[..|bases|] == bases;
  }

  /** The innermost loop: one usable base against the amino acids of cube `aakey`. */
  method AnnotateBase(ctx: Context, base: Component, aakey: CubeKey) returns (records: seq<Record>)
    requires Ready(ctx) && aakey in ctx.aaCubes && BaseReady(base, ctx.t) && BaseUsable(base, ctx.t)
    ensures records == BaseRecords(ctx, aakey, base)
  {
    records := [];
    var aas := ctx.aaCubes[aakey];
    for ai := 0 to |aas|
      invariant records == ConcatMap(aas[..ai], AaStep(ctx, base))
    {
      ConcatMapSnoc(aas, ai, AaStep(ctx, base));
      var r := AnnotatePair(ctx, base, aas[ai]);
      if r.Some? {
        records := records + [r.value];
      }
    }
    assert aas[..|aas|] == aas;
  }

  /** The loop over the neighbour keys of base cube `key`. */
  method AnnotateBaseCube(ctx: Context, key: CubeKey) returns (records: seq<Record>)
    requires Ready(ctx) && key in ctx.baseCubes && key in ctx.baseNeighbors
    ensures records == KeyRecords(ctx, key)
  {
    records := [];
    var neighbors := ctx.baseNeighbors[key];
    for ni := 0 to |neighbors|
      invariant records == ConcatMap(neighbors[..ni], NeighborStep(ctx, key))
    {
      ConcatMapSnoc(neighbors, ni, NeighborStep(ctx, key));
      var aakey := neighbors[ni];
      assert NeighborStep(ctx, key)(aakey) == NeighborRecords(ctx, key, aakey);
      if aakey in ctx.aaCubes {
        var found := AnnotateCubePair(ctx, key, aakey);
        records := records + found;
      }
    }
    assert neighbors[..|neighbors|] == neighbors;
  }

  /** `annotate_interactions`: base cubes in `keyOrder` (the dictionary's iteration order), their neighbour
      keys in order, and for each occupied amino-acid cube the bases against the amino acids. */
  method AnnotateInteractions(ctx: Context, keyOrder: seq<CubeKey>) returns (records: seq<Record>)
    requires Ready(ctx) && IsKeyOrder(keyOrder, ctx.baseCubes) && ctx.baseCubes.Keys <= ctx.baseNeighbors.Keys
    ensures records == Annotate(ctx, keyOrder)
  {
    records := [];
    for ki := 0 to |keyOrder|
      invariant records == ConcatMap(keyOrder[..ki], KeyStep(ctx))
    {
      ConcatMapSnoc(keyOrder, ki, KeyStep(ctx));
      var key := keyOrder[ki];
      assert key in Elements(keyOrder);
      var found := AnnotateBaseCube(ctx, key);
      records := records + found;
    }
    assert keyOrder[..|keyOrder|] == keyOrder;
  }
}
